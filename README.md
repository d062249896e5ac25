# oastodcat: OpenAPI document to DCAT DataService, in Dafny

This project models the constructor of `OASDataService` from the Python
package `oastodcat`. The constructor takes a parsed OpenAPI 3.0.x document
(the OpenAPI Specification 3.0.3, section 4.7.1 "OpenAPI Object", with the
Info, Contact and License Objects of sections 4.7.2 to 4.7.4) and fills in
the attributes of a DCAT-AP-NO v2 `dcat:DataService`:

1. a false document (`{}`, `None`, ...) raises `NotValidOASError("Empty specification object")`;
2. an `openapi` string without the prefix `"3.0."` raises `NotSupportedOASError`, whose
   message names the version;
3. the document is stored, and then `title` (`{"en": info.title}`), `description`,
   the contact point (`name`, `email`, `url`), `endpointURL` (`servers["url"]`) and
   `license` (`info.license.url`) are each copied when their keys are present.

Files:

- `wrappers.dfy`: `Option`, `Result` and `Outcome`.
- `pyvalue.dfy`: the parsed document as a Python value (dict, list, str, int, float,
  bool, None) and the built-ins the constructor applies to it: truth testing, `in`
  (key, element or substring membership, `TypeError` on anything else), `v[key]`
  (`KeyError` on a dict without the key, `TypeError` on anything but a dict) and
  `str.startswith` (`AttributeError` on a non-string).
- `oas_dataservice.dfy`: the module's exceptions, `Construct` (the outcome of
  `OASDataService(spec)` as a value), and the classes `Contact` and `OASDataService`
  whose methods assign the attributes one at a time, proved to end in the state
  `Construct` describes.
- `properties.dfy`: the promised behaviour, stated over the document: the order of the
  two validations, and for each attribute the exact condition under which it is set and
  its value.
- `examples.dfy`: documents from the test suite and edge cases of the document's types.

The model follows this module's code, including where later versions of the package
and its test suite behave differently:

- `servers` in an OpenAPI document is a list of Server Objects. The code tests
  `"url" in servers`, which on a list is element membership, so such a list never sets
  `endpointURL` (`ServerListLeavesEndpointUnset`). Only a mapping with a `url` key does.
  One data service per server belongs to a later constructor.
- The two validations are the only checks. A false document of any type raises
  `NotValidOASError`. A true document that is not a mapping raises `TypeError` at
  `specification["openapi"]` (`NonMappingIsTypeError`), and a mapping without `openapi`
  raises `KeyError("openapi")` (`MissingVersionIsKeyError`). An `openapi` that is not a
  string, such as the number `3.0`, raises `AttributeError`
  (`VersionNotStringIsAttributeError`). `info` is read only after the version is
  accepted: a missing `info` or `info.title` then raises `KeyError`
  (`MissingInfoIsKeyError`, `MissingTitleIsKeyError`), and an `info` that is not a
  mapping raises `TypeError` (`InfoNotMappingIsTypeError`).
- The version message is `Version 2.0" is not supported`, with the stray double quote
  the code's format string has.

## Model

| member | source | states |
|---|---|---|
| PyValue.StartsWith | src/oastodcat/oas_dataservice.py:35 | `s.startswith(prefix)` holds exactly when `prefix` is no longer than `s` and equals its first `|prefix|` characters |
| PyValue.IsSubstring | src/oastodcat/oas_dataservice.py:58 | `needle in hay` on strings holds exactly when `needle` occurs in `hay` at some index |
| PyValue.Truthy | src/oastodcat/oas_dataservice.py:32 | a value is false exactly when it is `None`, `False`, `0`, `0.0` or an empty dict, list or string |
| PyValue.In | src/oastodcat/oas_dataservice.py:58 | `key in v` on a list holds exactly when some element is the string `key`, and on a string exactly when `key` occurs in it at some index |
| PyValue.Contains | src/oastodcat/oas_dataservice.py:65 | `key in v` answers exactly on a dict, list or string, and the answer is `In(key, v)`; on any other value it raises `TypeError` |
| PyValue.GetItem | src/oastodcat/oas_dataservice.py:42 | `v[key]` answers exactly when `v` is a dict holding `key`, and then with that entry; otherwise it raises `KeyError(key)` or `TypeError` |
| PyValue.StrStartsWith | src/oastodcat/oas_dataservice.py:35 | `.startswith` answers exactly when called on a string and raises `AttributeError("startswith")` otherwise; the answer is true exactly when the prefix begins the string |
| PyValue.SubscriptAgreesWithIn | src/oastodcat/oas_dataservice.py:44-45 | a subscript of a dict holding `key` answers with its entry; a subscript succeeds only on such a dict; it raises `KeyError(key)` exactly on a dict for which `key in` is false |
| PyValue.Probe | src/oastodcat/oas_dataservice.py:57-59 | `if key in v: v[key]` succeeds exactly when the subscript cannot raise (a dict, a list without the element `key`, a string without the substring `key`), yields an entry exactly when `v` is a dict holding `key`, and that entry is `v[key]`; whenever it raises, the exception is `TypeError` |
| OasDataService.VersionMessage | src/oastodcat/oas_dataservice.py:36-37 | the rejection message is 26 characters longer than the version, and the character right after the version is the stray `"` |
| OasDataService.DescriptionOf | src/oastodcat/oas_dataservice.py:44-45 | a description is given exactly when `info` has a `description`, and it is the one-entry map from `"en"` to that value |
| OasDataService.ContactOf | src/oastodcat/oas_dataservice.py:48-54 | building the contact can raise only a built-in exception |
| OasDataService.ContactPointOf | src/oastodcat/oas_dataservice.py:47-55 | the contact-point step can raise only a built-in exception |
| OasDataService.EndpointOf | src/oastodcat/oas_dataservice.py:57-59 | the endpoint step can raise only a built-in exception |
| OasDataService.LicenseOf | src/oastodcat/oas_dataservice.py:63-66 | `_parse_license` can raise only a built-in exception |
| OasDataService.ExtractFields | src/oastodcat/oas_dataservice.py:39-66 | once validation has passed, the only exceptions are built-in ones, never the module's own |
| OasDataService.Construct | src/oastodcat/oas_dataservice.py:29-66 | on success the document is a mapping, is stored as it is, and a title is set; `NotSupportedOASError` comes only from a mapping whose `openapi` is a string without the prefix `"3.0."` |
| OasDataService.Contact.constructor | src/oastodcat/oas_dataservice.py:48 | a new `Contact` has no name, email or URL |
| OasDataService.NewContact | src/oastodcat/oas_dataservice.py:48-54 | a new `Contact` whose attributes, set one by one, are those `ContactOf` gives, or the exception `ContactOf` gives |
| OasDataService.OASDataService.constructor | src/oastodcat/oas_dataservice.py:31 | a new object has every attribute unassigned |
| OasDataService.OASDataService.Init | src/oastodcat/oas_dataservice.py:29-61 | succeeds exactly when `Construct` does, and then holds the attributes `Construct` gives with a new contact object; fails with `Construct`'s error otherwise; on `NotValidOASError` or `NotSupportedOASError` no attribute is assigned |
| OasDataService.OASDataService.ParseLicense | src/oastodcat/oas_dataservice.py:63-66 | assigns `license` from the stored document exactly as `LicenseOf` gives, leaves it unchanged when the keys are absent or an exception is raised, and touches no other attribute |
| OasDataService.Create | src/oastodcat/oas_dataservice.py:29-61 | `OASDataService(spec)` returns a new object holding `Construct`'s attributes exactly when `Construct` succeeds, and raises `Construct`'s error otherwise |
| OasDataServiceProperties.VersionMessageNamesVersion | src/oastodcat/oas_dataservice.py:36-38 | the `NotSupportedOASError` message contains the version string |
| OasDataServiceProperties.EmptyIsNotValid | src/oastodcat/oas_dataservice.py:32-33 | `NotValidOASError("Empty specification object")` is raised exactly for a false document, before any key is read |
| OasDataServiceProperties.VersionRejection | src/oastodcat/oas_dataservice.py:35-38 | `NotSupportedOASError` is raised exactly for a mapping whose `openapi` is a string without the prefix `"3.0."`, whatever `info` holds, and its message contains that string |
| OasDataServiceProperties.NonMappingIsTypeError | src/oastodcat/oas_dataservice.py:32-35 | a true document that is not a mapping raises `TypeError` |
| OasDataServiceProperties.MissingVersionIsKeyError | src/oastodcat/oas_dataservice.py:32-35 | a non-empty mapping without `openapi` raises `KeyError("openapi")` |
| OasDataServiceProperties.VersionNotStringIsAttributeError | src/oastodcat/oas_dataservice.py:35 | a mapping whose `openapi` is not a string raises `AttributeError("startswith")` |
| OasDataServiceProperties.MissingInfoIsKeyError | src/oastodcat/oas_dataservice.py:35-42 | once a 3.0.x version is accepted, a mapping without `info` raises `KeyError("info")` |
| OasDataServiceProperties.InfoNotMappingIsTypeError | src/oastodcat/oas_dataservice.py:35-42 | once a 3.0.x version is accepted, an `info` that is not a mapping raises `TypeError` |
| OasDataServiceProperties.MissingTitleIsKeyError | src/oastodcat/oas_dataservice.py:35-42 | once a 3.0.x version is accepted, an `info` mapping without `title` raises `KeyError("title")` |
| OasDataServiceProperties.ConstructSucceedsIff | src/oastodcat/oas_dataservice.py:29-66 | construction succeeds exactly on the `Accepted` documents: a mapping with a 3.0.x `openapi` string and an `info` mapping with a `title`, whose contact, servers and license entries, when present, are only ever subscripted as mappings |
| OasDataServiceProperties.TitleOnSuccess | src/oastodcat/oas_dataservice.py:39-42 | on success the stored document is the input and `title` is the one-entry map `{"en": info.title}` |
| OasDataServiceProperties.DescriptionIff | src/oastodcat/oas_dataservice.py:44-45 | on success `description` is set exactly when `info` has a `description`, and then is `{"en": info.description}` |
| OasDataServiceProperties.ContactIff | src/oastodcat/oas_dataservice.py:47-55 | on success the contact point is set exactly when `info` has a `contact`, even an empty one; its `name` is `{"en": contact.name}` and its `email` and `url` are copied verbatim, each exactly when the contact is a mapping with that key |
| OasDataServiceProperties.LicenseIff | src/oastodcat/oas_dataservice.py:63-66 | on success `license` is set exactly when `info.license` is a mapping with a `url`, and then is that URL |
| OasDataServiceProperties.EndpointIff | src/oastodcat/oas_dataservice.py:57-59 | on success `endpointURL` is set exactly when `servers` is a mapping with a `url`, and then is that URL |
| OasDataServiceProperties.ServerListLeavesEndpointUnset | src/oastodcat/oas_dataservice.py:57-59 | a `servers` list of mappings raises nothing and leaves `endpointURL` unset |
| OasDataServiceProperties.OtherTopLevelKeysIgnored | src/oastodcat/oas_dataservice.py:29-66 | adding a top-level key other than `openapi`, `info` and `servers` to a non-empty document changes nothing but the stored document |
| OasDataServiceExamples.MinimalSpec | src/oastodcat/oas_dataservice.py:39-42 | the minimal Petstore document gives only the title `"Swagger Petstore"@en` |
| OasDataServiceExamples.EmptyDocument | src/oastodcat/oas_dataservice.py:32-33 | `{}` raises `NotValidOASError` |
| OasDataServiceExamples.VersionTwo | src/oastodcat/oas_dataservice.py:35-38 | `openapi: '2.0'` raises `NotSupportedOASError` with the message `Version 2.0" is not supported` |
| OasDataServiceExamples.VersionAsNumber | src/oastodcat/oas_dataservice.py:35 | an `openapi` that is the float `3.0` raises `AttributeError` |
| OasDataServiceExamples.VersionMissing | src/oastodcat/oas_dataservice.py:35 | a document without `openapi` raises `KeyError` |
| OasDataServiceExamples.WithDescription | src/oastodcat/oas_dataservice.py:44-45 | the description is copied, tagged English |
| OasDataServiceExamples.WithContact | src/oastodcat/oas_dataservice.py:47-55 | name, email and URL of the contact are copied |
| OasDataServiceExamples.WithEmptyContact | src/oastodcat/oas_dataservice.py:47-55 | an empty contact mapping gives an empty contact point |
| OasDataServiceExamples.WithNullContact | src/oastodcat/oas_dataservice.py:49 | a contact that is `None` raises `TypeError` |
| OasDataServiceExamples.WithLicense | src/oastodcat/oas_dataservice.py:63-66 | the license URL is copied and the license name ignored |
| OasDataServiceExamples.WithServerList | src/oastodcat/oas_dataservice.py:57-59 | a list of one server leaves `endpointURL` unset |
| OasDataServiceExamples.WithServerMapping | src/oastodcat/oas_dataservice.py:57-59 | a `servers` mapping with a `url` sets `endpointURL` |

## Left out

- Fetching and parsing the document (`openapiparser/openapi.py`): HTTP and YAML I/O; the model starts from the parsed value.
- RDF serialisation (`to_rdf`, the `dcat:`/`vcard:` triple shapes, email as a `mailto:` URI): done by the external `datacatalogtordf` and `concepttordf` libraries, whose code is not part of this model. `DataService` and `Contact` are plain records here, not subclasses of those libraries' classes.
- The base class's other attributes (`identifier`, `publisher`, `endpointDescription`, ...): the constructor does not assign them. Their defaults are taken to be "unassigned".
- The three-argument constructor, one data service per server, identifier templates and random identifiers, `RequiredFieldMissingError`, media types and landing pages: the test suite expects them but the module shown does not define them. The same holds for `create_id`, which `src/oastodcat/__init__.py` imports.
- Mapping keys are strings; YAML documents with non-string keys, dates, or NaN and infinite floats are not modelled.
- The messages of the built-in `KeyError`, `TypeError` and `AttributeError` are not modelled, only their kind (and the missing key).
- Object identity: the stored `specification` is equal to the input value. Values are immutable here, so "the input is not modified" holds by construction, but the model does not say it is the same object.
- OasDataService.OASDataService.Init: does not state the attributes left behind when a built-in exception interrupts extraction after line 39, since `OASDataService(spec)` then never returns the object (`Create` discards it).
