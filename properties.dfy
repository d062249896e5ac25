/**
  What `OASDataService(spec)` promises, stated over the document: the order
  of the two validations, and for every extracted attribute the exact
  condition under which it is assigned and the value it then holds.
*/
module OasDataServiceProperties {
  import opened Wrappers
  import opened PyValue
  import opened OasDataService

  /** The `info` mapping of a document that has one. */
  function InfoOf(spec: Value): map<string, Value>
    requires spec.Dict? && "info" in spec.entries && spec.entries["info"].Dict?
  {
    spec.entries["info"].entries
  }

  /** Every subscript the contact step performs on `c` succeeds. */
  predicate ContactReadable(c: Value) {
    SafeProbe(c, "name") && SafeProbe(c, "email") && SafeProbe(c, "url")
  }

  /**
    The documents the constructor accepts, described without reference to
    the order of its steps: a mapping whose `openapi` is a 3.0.x version
    string and whose `info` is a mapping with a `title`, and in which the
    contact, servers and license entries, where present, are only ever
    subscripted as mappings.
  */
  predicate Accepted(spec: Value) {
    && spec.Dict?
    && "openapi" in spec.entries
    && spec.entries["openapi"].Str?
    && StartsWith(spec.entries["openapi"].s, SupportedPrefix)
    && "info" in spec.entries
    && spec.entries["info"].Dict?
    && "title" in InfoOf(spec)
    && ("contact" in InfoOf(spec) ==> ContactReadable(InfoOf(spec)["contact"]))
    && ("servers" in spec.entries ==> SafeProbe(spec.entries["servers"], "url"))
    && ("license" in InfoOf(spec) ==> SafeProbe(InfoOf(spec)["license"], "url"))
  }

  /** The rejection message names the rejected version. */
  lemma VersionMessageNamesVersion(version: string)
    ensures IsSubstring(version, VersionMessage(version))
  {
    assert OccursAt(version, VersionMessage(version), 8);
  }

  /** An empty or otherwise false document, and only such a document, is NotValidOASError. */
  lemma EmptyIsNotValid(spec: Value)
    ensures Construct(spec).Failure? && Construct(spec).error.NotValidOAS? <==> !Truthy(spec)
    ensures !Truthy(spec) ==> Construct(spec) == Failure(NotValidOAS("Empty specification object"))
  {
  }

  /**
    NotSupportedOASError is raised exactly for a mapping whose `openapi` is a
    string without the prefix "3.0.", whatever else the document holds, and
    its message contains that string.
  */
  lemma VersionRejection(spec: Value)
    ensures Construct(spec).Failure? && Construct(spec).error.NotSupportedOAS? <==>
      && spec.Dict?
      && "openapi" in spec.entries
      && spec.entries["openapi"].Str?
      && !StartsWith(spec.entries["openapi"].s, "3.0.")
    ensures Construct(spec).Failure? && Construct(spec).error.NotSupportedOAS? ==>
      IsSubstring(spec.entries["openapi"].s, Construct(spec).error.message)
  {
    if spec.Dict? && "openapi" in spec.entries {
      assert Truthy(spec);
      if spec.entries["openapi"].Str? {
        VersionMessageNamesVersion(spec.entries["openapi"].s);
      }
    }
  }

  /** A true document that is not a mapping cannot be subscripted by `["openapi"]`: TypeError. */
  lemma NonMappingIsTypeError(spec: Value)
    requires Truthy(spec) && !spec.Dict?
    ensures Construct(spec) == Failure(Raised(TypeError))
  {
  }

  /** A non-empty mapping without `openapi` raises KeyError, not a validation error. */
  lemma MissingVersionIsKeyError(m: map<string, Value>)
    requires |m| != 0 && "openapi" !in m
    ensures Construct(Dict(m)) == Failure(Raised(KeyError("openapi")))
  {
  }

  /** An `openapi` that is not a string (a number, say) has no `startswith`. */
  lemma VersionNotStringIsAttributeError(m: map<string, Value>)
    requires "openapi" in m && !m["openapi"].Str?
    ensures Construct(Dict(m)) == Failure(Raised(AttributeError("startswith")))
  {
  }

  /** Once the version is accepted, a missing `info` raises KeyError. */
  lemma MissingInfoIsKeyError(m: map<string, Value>)
    requires "openapi" in m && m["openapi"].Str? && StartsWith(m["openapi"].s, SupportedPrefix)
    requires "info" !in m
    ensures Construct(Dict(m)) == Failure(Raised(KeyError("info")))
  {
  }

  /** Once the version is accepted, an `info` that is not a mapping raises TypeError. */
  lemma InfoNotMappingIsTypeError(m: map<string, Value>)
    requires "openapi" in m && m["openapi"].Str? && StartsWith(m["openapi"].s, SupportedPrefix)
    requires "info" in m && !m["info"].Dict?
    ensures Construct(Dict(m)) == Failure(Raised(TypeError))
  {
  }

  /** Once the version is accepted, an `info` mapping without `title` raises KeyError. */
  lemma MissingTitleIsKeyError(m: map<string, Value>)
    requires "openapi" in m && m["openapi"].Str? && StartsWith(m["openapi"].s, SupportedPrefix)
    requires "info" in m && m["info"].Dict? && "title" !in m["info"].entries
    ensures Construct(Dict(m)) == Failure(Raised(KeyError("title")))
  {
  }

  /** The constructor succeeds exactly on the accepted documents. */
  lemma ConstructSucceedsIff(spec: Value)
    ensures Construct(spec).Success? <==> Accepted(spec)
  {
  }

  /** On success the document is stored as given and the title is `{"en": info.title}`. */
  lemma TitleOnSuccess(spec: Value, f: ServiceFields)
    requires Construct(spec) == Success(f)
    ensures spec.Dict? && "info" in spec.entries && spec.entries["info"].Dict?
    ensures "title" in InfoOf(spec)
    ensures f.specification == Some(spec)
    ensures f.title == Some(map["en" := InfoOf(spec)["title"]])
  {
  }

  /** `description` is assigned exactly when `info` has one, and is then `{"en": info.description}`. */
  lemma DescriptionIff(spec: Value, f: ServiceFields)
    requires Construct(spec) == Success(f)
    ensures spec.Dict? && "info" in spec.entries && spec.entries["info"].Dict?
    ensures f.description.Some? <==> "description" in InfoOf(spec)
    ensures f.description.Some? ==> f.description.value == map["en" := InfoOf(spec)["description"]]
  {
  }

  /**
    `contactpoint` is assigned exactly when `info` has a `contact`, even an
    empty one; its `name` is `{"en": contact.name}` and its `email` and `url`
    are copied verbatim, each exactly when the contact is a mapping with that key.
  */
  lemma ContactIff(spec: Value, f: ServiceFields)
    requires Construct(spec) == Success(f)
    ensures spec.Dict? && "info" in spec.entries && spec.entries["info"].Dict?
    ensures f.contactpoint.Some? <==> "contact" in InfoOf(spec)
    ensures f.contactpoint.Some? ==>
      var c := InfoOf(spec)["contact"];
      var cp := f.contactpoint.value;
      && Iterable(c)
      && (cp.name.Some? <==> c.Dict? && "name" in c.entries)
      && (cp.name.Some? ==> cp.name.value == map["en" := c.entries["name"]])
      && (cp.email.Some? <==> c.Dict? && "email" in c.entries)
      && (cp.email.Some? ==> cp.email.value == c.entries["email"])
      && (cp.url.Some? <==> c.Dict? && "url" in c.entries)
      && (cp.url.Some? ==> cp.url.value == c.entries["url"])
  {
  }

  /**
    `license` is assigned exactly when `info.license` is a mapping holding a
    `url`, and is then that URL; the license name plays no part.
  */
  lemma LicenseIff(spec: Value, f: ServiceFields)
    requires Construct(spec) == Success(f)
    ensures spec.Dict? && "info" in spec.entries && spec.entries["info"].Dict?
    ensures f.license.Some? <==>
      "license" in InfoOf(spec) && InfoOf(spec)["license"].Dict? && "url" in InfoOf(spec)["license"].entries
    ensures f.license.Some? ==> f.license.value == InfoOf(spec)["license"].entries["url"]
  {
  }

  /**
    `endpointURL` is assigned exactly when `servers` is a mapping holding a
    `url`, and is then that URL.
  */
  lemma EndpointIff(spec: Value, f: ServiceFields)
    requires Construct(spec) == Success(f)
    ensures spec.Dict?
    ensures f.endpointURL.Some? <==>
      "servers" in spec.entries && spec.entries["servers"].Dict? && "url" in spec.entries["servers"].entries
    ensures f.endpointURL.Some? ==> f.endpointURL.value == spec.entries["servers"].entries["url"]
  {
  }

  /**
    A `servers` list of Server Objects, the form OpenAPI 3.0 prescribes,
    neither raises nor sets `endpointURL`: `"url" in servers` tests for an
    element equal to the string "url".
  */
  lemma ServerListLeavesEndpointUnset(spec: Value)
    requires spec.Dict? && "servers" in spec.entries && spec.entries["servers"].List?
    requires forall i :: 0 <= i < |spec.entries["servers"].items| ==> spec.entries["servers"].items[i].Dict?
    ensures EndpointOf(spec.entries) == Success(None)
    ensures Construct(spec).Success? ==> Construct(spec).value.endpointURL == None
  {
  }

  /**
    Top-level keys other than `openapi`, `info` and `servers` (`paths`,
    `components`, `externalDocs`, ...) never affect the outcome: adding one
    to a non-empty document changes nothing but the stored document.
  */
  lemma OtherTopLevelKeysIgnored(m: map<string, Value>, k: string, v: Value)
    requires |m| != 0
    requires k != "openapi" && k != "info" && k != "servers"
    ensures Construct(Dict(m[k := v])).Success? <==> Construct(Dict(m)).Success?
    ensures Construct(Dict(m)).Failure? ==> Construct(Dict(m[k := v])).error == Construct(Dict(m)).error
    ensures Construct(Dict(m)).Success? ==>
      Construct(Dict(m[k := v])).value == Construct(Dict(m)).value.(specification := Some(Dict(m[k := v])))
  {
  }
}
