/**
  The mapping of a parsed OpenAPI 3.0.x document onto the attributes of a
  DCAT `DataService` (DCAT-AP-NO v2): validation, then extraction of the
  title, description, contact point, endpoint URL and license.

  `Construct` is the specification: the outcome of `OASDataService(spec)`
  as a value. The classes below perform the same steps by assigning their
  fields one at a time, and are proved to end in the state `Construct`
  describes.
*/
module OasDataService {
  import opened Wrappers
  import opened PyValue

  /** What the constructor raises: the module's two exceptions, or a built-in one. */
  datatype Error =
    | NotValidOAS(message: string)       // NotValidOASError
    | NotSupportedOAS(message: string)   // NotSupportedOASError
    | Raised(exception: PyError)         // KeyError, TypeError or AttributeError from the document

  /** A language-tagged literal, stored as the dict `{lang: text}`. */
  type LangText = map<string, Value>

  /** The contact point's attributes. */
  datatype ContactInfo = ContactInfo(name: Option<LangText>, email: Option<Value>, url: Option<Value>)

  /** The data service's attributes that the constructor assigns. */
  datatype ServiceFields = ServiceFields(
    specification: Option<Value>,
    title: Option<LangText>,
    description: Option<LangText>,
    contactpoint: Option<ContactInfo>,
    endpointURL: Option<Value>,
    license: Option<Value>)

  /** Every attribute unassigned, as the base class leaves them. */
  const Unset := ServiceFields(None, None, None, None, None, None)

  const EmptySpecMessage := "Empty specification object"

  /** The only versions accepted are the 3.0.x releases. */
  const SupportedPrefix := "3.0."

  /** The message of the version rejection, stray double quote included. */
  function VersionMessage(version: string): (r: string)
    ensures |r| == |version| + 26 && r[8 + |version|] == '"'
  {
    "Version " + version + "\" is not supported"
  }

  /** Tags a text as English. */
  function English(text: Value): LangText {
    map["en" := text]
  }

  function EnglishOpt(text: Option<Value>): Option<LangText> {
    if text.Some? then Some(English(text.value)) else None
  }

  /** A built-in exception propagates out of the constructor unchanged. */
  function Lift<T>(r: Result<T, PyError>): Result<T, Error> {
    match r
    case Success(v) => Success(v)
    case Failure(e) => Failure(Raised(e))
  }

  /** `info.description`, tagged English, when the key is present. */
  function DescriptionOf(info: map<string, Value>): (r: Option<LangText>)
    ensures r.Some? <==> "description" in info
    ensures r.Some? ==> r.value.Keys == {"en"} && r.value["en"] == info["description"]
  {
    if "description" in info then Some(English(info["description"])) else None
  }

  /** The contact built from `name`, `email` and `url`, each copied when present. */
  function ContactOf(contact: Value): (r: Result<ContactInfo, Error>)
    ensures r.Failure? ==> r.error.Raised?
  {
    var name :- Lift(Probe(contact, "name"));
    var email :- Lift(Probe(contact, "email"));
    var url :- Lift(Probe(contact, "url"));
    Success(ContactInfo(EnglishOpt(name), email, url))
  }

  /** A contact point exactly when `info` has a `contact` key. */
  function ContactPointOf(info: map<string, Value>): (r: Result<Option<ContactInfo>, Error>)
    ensures r.Failure? ==> r.error.Raised?
  {
    if "contact" in info then
      var c :- ContactOf(info["contact"]);
      Success(Some(c))
    else
      Success(None)
  }

  /** `servers["url"]` when `"url" in servers` holds. */
  function EndpointOf(spec: map<string, Value>): (r: Result<Option<Value>, Error>)
    ensures r.Failure? ==> r.error.Raised?
  {
    if "servers" in spec then Lift(Probe(spec["servers"], "url")) else Success(None)
  }

  /** `_parse_license`: `info.license.url`, read afresh from the stored document. */
  function LicenseOf(spec: Value): (r: Result<Option<Value>, Error>)
    ensures r.Failure? ==> r.error.Raised?
  {
    var info :- Lift(GetItem(spec, "info"));
    var license :- Lift(Probe(info, "license"));
    if license.Some? then Lift(Probe(license.value, "url")) else Success(None)
  }

  /**
    Lines 39-66 of `__init__`, for a mapping that has passed validation: the
    attributes copied from it; only a built-in exception can interrupt them.
  */
  function ExtractFields(spec: Value): (r: Result<ServiceFields, Error>)
    requires spec.Dict?
    ensures r.Failure? ==> r.error.Raised?
  {
    var info :- Lift(GetItem(spec, "info"));
    var title :- Lift(GetItem(info, "title"));
    var contact :- ContactPointOf(info.entries);
    var endpoint :- EndpointOf(spec.entries);
    var license :- LicenseOf(spec);
    Success(ServiceFields(Some(spec), Some(English(title)), DescriptionOf(info.entries),
                          contact, endpoint, license))
  }

  /** The outcome of `OASDataService(spec)`: the attributes it assigns, or what it raises. */
  function Construct(spec: Value): (r: Result<ServiceFields, Error>)
    ensures r.Success? ==> spec.Dict? && r.value.specification == Some(spec) && r.value.title.Some?
    ensures r.Failure? && r.error.NotSupportedOAS? ==>
      spec.Dict? && "openapi" in spec.entries && spec.entries["openapi"].Str? &&
      !StartsWith(spec.entries["openapi"].s, SupportedPrefix)
  {
    if !Truthy(spec) then
      Failure(NotValidOAS(EmptySpecMessage))
    else
      var version :- Lift(GetItem(spec, "openapi"));
      var supported :- Lift(StrStartsWith(version, SupportedPrefix));
      if !supported then Failure(NotSupportedOAS(VersionMessage(version.s))) else ExtractFields(spec)
  }

  /** The contact point, whose attributes are assigned one by one. */
  class Contact {
    var name: Option<LangText>
    var email: Option<Value>
    var url: Option<Value>

    function Info(): ContactInfo
      reads this
    {
      ContactInfo(name, email, url)
    }

    constructor ()
      ensures Info() == ContactInfo(None, None, None)
    {
      name, email, url := None, None, None;
    }
  }

  /**
    Lines 48-54 of `__init__`: a new contact whose `name` (tagged English),
    `email` and `url` are copied from `c`, each when `c` has it.
  */
  method NewContact(c: Value) returns (r: Result<Contact, Error>)
    ensures r.Success? <==> ContactOf(c).Success?
    ensures r.Success? ==> fresh(r.value) && r.value.Info() == ContactOf(c).value
    ensures r.Failure? ==> r.error == ContactOf(c).error
  {
    var contact := new Contact();
    var hasName := Contains(c, "name");
    if hasName.Failure? {
      return Failure(Raised(hasName.error));
    }
    // c is a container from here on, so the next two `in` tests cannot raise
    if hasName.value {
      var name := GetItem(c, "name");
      if name.Failure? {
        return Failure(Raised(name.error));
      }
      contact.name := Some(English(name.value));
    }
    if In("email", c) {
      var email := GetItem(c, "email");
      if email.Failure? {
        return Failure(Raised(email.error));
      }
      contact.email := Some(email.value);
    }
    if In("url", c) {
      var url := GetItem(c, "url");
      if url.Failure? {
        return Failure(Raised(url.error));
      }
      contact.url := Some(url.value);
    }
    return Success(contact);
  }

  /** A data service described by an OpenAPI document. */
  class OASDataService {
    var specification: Option<Value>
    var title: Option<LangText>
    var description: Option<LangText>
    var contactpoint: Contact?
    var endpointURL: Option<Value>
    var license: Option<Value>

    /** The attributes as values. */
    function Fields(): ServiceFields
      reads this, contactpoint
    {
      ServiceFields(specification, title, description,
                    if contactpoint == null then None else Some(contactpoint.Info()),
                    endpointURL, license)
    }

    /** A fresh object, whose attributes the base class leaves unassigned. */
    constructor ()
      ensures Fields() == Unset
    {
      specification, title, description, contactpoint, endpointURL, license := None, None, None, null, None, None;
    }

    /**
      The body of `__init__`. The two validation failures happen before any
      attribute is assigned; on success the attributes are those `Construct`
      gives and the contact point is a new object.
    */
    method Init(spec: Value) returns (outcome: Outcome<Error>)
      modifies this
      ensures outcome.Pass? <==> Construct(spec).Success?
      ensures outcome.Pass? ==> Fields() == Construct(spec).value
      ensures outcome.Fail? ==> outcome.error == Construct(spec).error
      ensures outcome.Fail? && (outcome.error.NotValidOAS? || outcome.error.NotSupportedOAS?) ==> Fields() == Unset
      ensures contactpoint != null ==> fresh(contactpoint)
    {
      // super().__init__()
      specification, title, description, contactpoint, endpointURL, license := None, None, None, null, None, None;
      if !Truthy(spec) {
        return Fail(NotValidOAS(EmptySpecMessage));
      }
      var version := GetItem(spec, "openapi");
      if version.Failure? {
        return Fail(Raised(version.error));
      }
      var supported := StrStartsWith(version.value, SupportedPrefix);
      if supported.Failure? {
        return Fail(Raised(supported.error));
      }
      if !supported.value {
        return Fail(NotSupportedOAS(VersionMessage(version.value.s)));
      }
      assert Construct(spec) == ExtractFields(spec);
      specification := Some(spec);
      var info := GetItem(spec, "info");
      if info.Failure? {
        return Fail(Raised(info.error));
      }
      var infoTitle := GetItem(info.value, "title");
      if infoTitle.Failure? {
        return Fail(Raised(infoTitle.error));
      }
      title := Some(English(infoTitle.value));
      var infoMap := info.value.entries;
      if "description" in infoMap {
        description := Some(English(infoMap["description"]));
      }
      if "contact" in infoMap {
        var c := infoMap["contact"];
        var contact := NewContact(c);
        if contact.Failure? {
          return Fail(contact.error);
        }
        contactpoint := contact.value;
      }
      var specMap := spec.entries;
      if "servers" in specMap {
        var servers := specMap["servers"];
        var hasUrl := Contains(servers, "url");
        if hasUrl.Failure? {
          return Fail(Raised(hasUrl.error));
        }
        if hasUrl.value {
          var url := GetItem(servers, "url");
          if url.Failure? {
            return Fail(Raised(url.error));
          }
          endpointURL := Some(url.value);
        }
      }
      outcome := ParseLicense();
    }

    /**
      `_parse_license`: assigns `license` from the stored document's
      `info.license.url` when both keys are present, and leaves it alone
      otherwise.
    */
    method ParseLicense() returns (outcome: Outcome<Error>)
      requires specification.Some?
      modifies this`license
      ensures outcome.Pass? <==> LicenseOf(specification.value).Success?
      ensures outcome.Fail? ==> outcome.error == LicenseOf(specification.value).error && license == old(license)
      ensures outcome.Pass? ==>
        license == (if LicenseOf(specification.value).value.Some? then LicenseOf(specification.value).value
                    else old(license))
    {
      var info := GetItem(specification.value, "info");
      if info.Failure? {
        return Fail(Raised(info.error));
      }
      var hasLicense := Contains(info.value, "license");
      if hasLicense.Failure? {
        return Fail(Raised(hasLicense.error));
      }
      if hasLicense.value {
        var lic := GetItem(info.value, "license");
        if lic.Failure? {
          return Fail(Raised(lic.error));
        }
        var hasUrl := Contains(lic.value, "url");
        if hasUrl.Failure? {
          return Fail(Raised(hasUrl.error));
        }
        if hasUrl.value {
          var url := GetItem(lic.value, "url");
          if url.Failure? {
            return Fail(Raised(url.error));
          }
          license := Some(url.value);
        }
      }
      return Pass;
    }
  }

  /** `OASDataService(spec)`: a new object, or the exception its initialiser raises. */
  method Create(spec: Value) returns (r: Result<OASDataService, Error>)
    ensures r.Success? <==> Construct(spec).Success?
    ensures r.Success? ==> fresh(r.value) && r.value.Fields() == Construct(spec).value
    ensures r.Failure? ==> r.error == Construct(spec).error
  {
    var service := new OASDataService();
    var outcome := service.Init(spec);
    if outcome.Fail? {
      return Failure(outcome.error);
    }
    return Success(service);
  }
}
