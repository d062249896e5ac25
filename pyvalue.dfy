/**
  A parsed YAML or JSON document as the Python program sees it, and the
  built-in operations the constructor applies to it: truth testing, the
  `in` operator, subscription with a string key and `str.startswith`.
*/
module PyValue {
  import opened Wrappers

  /** A node of a parsed document. Mapping keys are strings. */
  datatype Value =
    | Dict(entries: map<string, Value>)
    | List(items: seq<Value>)
    | Str(s: string)
    | Int(i: int)
    | Float(r: real)
    | Bool(b: bool)
    | Null

  /** The built-in exceptions the operations below can raise. */
  datatype PyError =
    | KeyError(key: string)           // d[k] on a dict without the key k
    | TypeError                       // `in` on a non-container, or a string index into a non-dict
    | AttributeError(name: string)    // a str method called on a value that is not a str

  /** Python truth testing: empty containers, zero, False and None are false. */
  function Truthy(v: Value): (r: bool)
    ensures !r <==> v == Null || v == Bool(false) || v == Int(0) || v == Float(0.0) ||
                    v == Dict(map[]) || v == List([]) || v == Str("")
  {
    match v
    case Dict(m) => |m| != 0
    case List(xs) => |xs| != 0
    case Str(s) => |s| != 0
    case Int(i) => i != 0
    case Float(r) => r != 0.0
    case Bool(b) => b
    case Null => false
  }

  /** `str.startswith`: `prefix` is the beginning of `s`. */
  function StartsWith(s: string, prefix: string): (r: bool)
    ensures r <==> |prefix| <= |s| && s[..|prefix|] == prefix
  {
    if |prefix| == 0 then true
    else if |s| == 0 then false
    else
      assert |prefix| <= |s| ==> s[..|prefix|] == [s[0]] + s[1..][..|prefix| - 1];
      assert prefix == [prefix[0]] + prefix[1..];
      s[0] == prefix[0] && StartsWith(s[1..], prefix[1..])
  }

  /** `needle` occurs in `hay` starting at index `i`. */
  predicate OccursAt(needle: string, hay: string, i: nat) {
    i + |needle| <= |hay| && hay[i..i + |needle|] == needle
  }

  /** `needle in hay` for two strings: `needle` occurs somewhere in `hay`. */
  function IsSubstring(needle: string, hay: string): (r: bool)
    ensures r <==> exists i: nat :: OccursAt(needle, hay, i)
    decreases |hay|
  {
    if StartsWith(hay, needle) then
      assert OccursAt(needle, hay, 0);
      true
    else if |hay| == 0 then false
    else
      var rest := hay[1..];
      assert forall i: nat :: OccursAt(needle, rest, i) <==> OccursAt(needle, hay, i + 1);
      assert forall i: nat :: OccursAt(needle, hay, i) ==> i > 0;
      assert forall i: nat :: OccursAt(needle, hay, i) ==> OccursAt(needle, rest, i - 1);
      IsSubstring(needle, rest)
  }

  /** The values on which `key in v` is defined. */
  predicate Iterable(v: Value) {
    v.Dict? || v.List? || v.Str?
  }

  /**
    `key in v` on a container: key membership for a dict, element membership
    for a list, substring membership for a str.
  */
  function In(key: string, v: Value): (r: bool)
    requires Iterable(v)
    ensures v.List? ==> (r <==> exists j :: 0 <= j < |v.items| && v.items[j] == Str(key))
    ensures v.Str? ==> (r <==> exists i: nat :: OccursAt(key, v.s, i))
  {
    match v
    case Dict(m) => key in m
    case List(xs) => Str(key) in xs
    case Str(s) => IsSubstring(key, s)
  }

  /** `key in v` in full: a value that is not a container raises TypeError. */
  function Contains(v: Value, key: string): (r: Result<bool, PyError>)
    ensures r.Success? <==> Iterable(v)
    ensures r.Success? ==> r.value == In(key, v)
    ensures r.Failure? ==> r.error == TypeError
  {
    if Iterable(v) then Success(In(key, v)) else Failure(TypeError)
  }

  /** `v[key]`: only a dict holding the key answers. */
  function GetItem(v: Value, key: string): (r: Result<Value, PyError>)
    ensures r.Success? <==> v.Dict? && key in v.entries
    ensures r.Success? ==> r.value == v.entries[key]
    ensures r.Failure? ==> r.error == KeyError(key) || r.error == TypeError
  {
    match v
    case Dict(m) => if key in m then Success(m[key]) else Failure(KeyError(key))
    case _ => Failure(TypeError)
  }

  /** `v.startswith(prefix)`. */
  function StrStartsWith(v: Value, prefix: string): (r: Result<bool, PyError>)
    ensures r.Success? <==> v.Str?
    ensures r.Failure? ==> r.error == AttributeError("startswith")
    ensures r.Success? ==> (r.value <==> |prefix| <= |v.s| && v.s[..|prefix|] == prefix)
  {
    match v
    case Str(s) => Success(StartsWith(s, prefix))
    case _ => Failure(AttributeError("startswith"))
  }

  /**
    Subscript and `in` agree: `v[key]` answers only when `key in v` is true,
    and raises KeyError exactly when `v` is a dict for which `key in v` is false.
  */
  lemma SubscriptAgreesWithIn(v: Value, key: string)
    ensures GetItem(v, key).Success? ==>
      Contains(v, key) == Success(true) && v.Dict? && GetItem(v, key).value == v.entries[key]
    ensures GetItem(v, key) == Failure(KeyError(key)) <==> v.Dict? && Contains(v, key) == Success(false)
    ensures v.Dict? && key in v.entries ==> GetItem(v, key) == Success(v.entries[key])
  {
  }

  /** The subscript `v[key]` can never raise once `key in v` has held. */
  predicate SafeProbe(v: Value, key: string) {
    v.Dict? || (v.List? && Str(key) !in v.items) || (v.Str? && !IsSubstring(key, v.s))
  }

  /**
    The statement pair `if key in v: x = v[key]`: nothing when the key is not
    in `v`, the entry when it is, and the exception either step raises.
  */
  function Probe(v: Value, key: string): (r: Result<Option<Value>, PyError>)
    ensures r.Success? <==> SafeProbe(v, key)
    ensures r.Success? && r.value.Some? <==> v.Dict? && key in v.entries
    ensures r.Success? && r.value.Some? ==> r.value.value == v.entries[key]
    ensures r.Failure? ==> r.error == TypeError
  {
    if !Iterable(v) then Failure(TypeError)
    else if !In(key, v) then Success(None)
    else
      var x :- GetItem(v, key);
      Success(Some(x))
  }
}
