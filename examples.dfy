/**
  Concrete documents from the test suite and a few edge cases of the
  document's Python types, with the outcome the constructor gives them.
*/
module OasDataServiceExamples {
  import opened Wrappers
  import opened PyValue
  import opened OasDataService
  import opened OasDataServiceProperties

  const PetstoreInfo := map["title" := Str("Swagger Petstore"), "version" := Str("1.0.0")]

  /** `{openapi: 3.0.3, info: {title: Swagger Petstore, version: 1.0.0}, paths: {}}` */
  function Petstore(info: map<string, Value>): Value {
    Dict(map["openapi" := Str("3.0.3"), "info" := Dict(info), "paths" := Dict(map[])])
  }

  /** The minimal document: only the title is copied, tagged English. */
  lemma MinimalSpec()
    ensures Construct(Petstore(PetstoreInfo)) ==
      Success(ServiceFields(Some(Petstore(PetstoreInfo)), Some(map["en" := Str("Swagger Petstore")]),
                            None, None, None, None))
  {
    var spec := Petstore(PetstoreInfo);
    assert Accepted(spec);
    ConstructSucceedsIff(spec);
    var f := Construct(spec).value;
    TitleOnSuccess(spec, f);
    DescriptionIff(spec, f);
    ContactIff(spec, f);
    EndpointIff(spec, f);
    LicenseIff(spec, f);
  }

  /** `{}` is rejected as empty. */
  lemma EmptyDocument()
    ensures Construct(Dict(map[])) == Failure(NotValidOAS("Empty specification object"))
  {
  }

  /** A Swagger 2.0 document is rejected, and the message names its version. */
  lemma VersionTwo()
    ensures Construct(Dict(map["openapi" := Str("2.0"), "info" := Dict(PetstoreInfo)])) ==
      Failure(NotSupportedOAS("Version 2.0\" is not supported"))
  {
    assert !StartsWith("2.0", SupportedPrefix);
    assert VersionMessage("2.0") == "Version 2.0\" is not supported";
  }

  /** An unquoted `openapi: 3.0` is a float, which has no `startswith`. */
  lemma VersionAsNumber()
    ensures Construct(Dict(map["openapi" := Float(3.0), "info" := Dict(PetstoreInfo)])) ==
      Failure(Raised(AttributeError("startswith")))
  {
  }

  /** A document without `openapi` raises KeyError rather than a validation error. */
  lemma VersionMissing()
    ensures Construct(Dict(map["info" := Dict(PetstoreInfo)])) == Failure(Raised(KeyError("openapi")))
  {
  }

  /** The description is copied, tagged English. */
  lemma WithDescription()
    ensures
      var info := PetstoreInfo["description" := Str("A description of the Swagger Petstore")];
      Construct(Petstore(info)).Success? &&
      Construct(Petstore(info)).value.description == Some(map["en" := Str("A description of the Swagger Petstore")])
  {
    var spec := Petstore(PetstoreInfo["description" := Str("A description of the Swagger Petstore")]);
    assert Accepted(spec);
    ConstructSucceedsIff(spec);
    DescriptionIff(spec, Construct(spec).value);
  }

  /** All three contact attributes are copied. */
  lemma WithContact()
    ensures
      var contact := map["name" := Str("Example Inc"), "email" := Str("email@example.com"),
                         "url" := Str("http://example.com")];
      var info := PetstoreInfo["contact" := Dict(contact)];
      Construct(Petstore(info)).Success? &&
      Construct(Petstore(info)).value.contactpoint ==
        Some(ContactInfo(Some(map["en" := Str("Example Inc")]), Some(Str("email@example.com")),
                         Some(Str("http://example.com"))))
  {
    var spec := Petstore(PetstoreInfo["contact" := Dict(map["name" := Str("Example Inc"),
      "email" := Str("email@example.com"), "url" := Str("http://example.com")])]);
    assert Accepted(spec);
    ConstructSucceedsIff(spec);
    ContactIff(spec, Construct(spec).value);
  }

  /** An empty contact mapping still gives a contact point, with nothing in it. */
  lemma WithEmptyContact()
    ensures
      var info := PetstoreInfo["contact" := Dict(map[])];
      Construct(Petstore(info)).Success? &&
      Construct(Petstore(info)).value.contactpoint == Some(ContactInfo(None, None, None))
  {
    var spec := Petstore(PetstoreInfo["contact" := Dict(map[])]);
    assert Accepted(spec);
    ConstructSucceedsIff(spec);
    ContactIff(spec, Construct(spec).value);
  }

  /** A contact key with no value (`contact:` in YAML) is None, and `"name" in None` raises. */
  lemma WithNullContact()
    ensures Construct(Petstore(PetstoreInfo["contact" := Null])) == Failure(Raised(TypeError))
  {
  }

  /** The license URL is copied and its name is ignored. */
  lemma WithLicense()
    ensures
      var license := map["name" := Str("Apache 2.0"),
                         "url" := Str("https://www.apache.org/licenses/LICENSE-2.0.html")];
      var info := PetstoreInfo["license" := Dict(license)];
      Construct(Petstore(info)).Success? &&
      Construct(Petstore(info)).value.license == Some(Str("https://www.apache.org/licenses/LICENSE-2.0.html"))
  {
    var spec := Petstore(PetstoreInfo["license" := Dict(map["name" := Str("Apache 2.0"),
      "url" := Str("https://www.apache.org/licenses/LICENSE-2.0.html")])]);
    assert Accepted(spec);
    ConstructSucceedsIff(spec);
    LicenseIff(spec, Construct(spec).value);
  }

  /** `servers: [{url: http://petstore.swagger.io/v1}]` leaves the endpoint URL unset. */
  lemma WithServerList()
    ensures
      var spec := Dict(Petstore(PetstoreInfo).entries["servers" := List([Dict(map["url" := Str("http://petstore.swagger.io/v1")])])]);
      Construct(spec).Success? && Construct(spec).value.endpointURL == None
  {
    var spec := Dict(Petstore(PetstoreInfo).entries["servers" := List([Dict(map["url" := Str("http://petstore.swagger.io/v1")])])]);
    assert Accepted(spec);
    ConstructSucceedsIff(spec);
    EndpointIff(spec, Construct(spec).value);
  }

  /** `servers` given as a mapping with a `url` sets the endpoint URL. */
  lemma WithServerMapping()
    ensures
      var spec := Dict(Petstore(PetstoreInfo).entries["servers" := Dict(map["url" := Str("http://petstore.swagger.io/v1")])]);
      Construct(spec).Success? && Construct(spec).value.endpointURL == Some(Str("http://petstore.swagger.io/v1"))
  {
    var spec := Dict(Petstore(PetstoreInfo).entries["servers" := Dict(map["url" := Str("http://petstore.swagger.io/v1")])]);
    assert Accepted(spec);
    ConstructSucceedsIff(spec);
    EndpointIff(spec, Construct(spec).value);
  }
}
