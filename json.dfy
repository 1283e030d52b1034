/** Python values as the provider's response decodes them (r.json()), and the
    few Python operations the collector applies to them: truthiness, dict.get,
    the `in` operator and the AttributeError of `.get` on a non-dict. */
module Json {
  import opened Results

  /** A decoded JSON document. JSON null is Python None, here Null. A key
      holding Null stays in its map, unlike an absent key; only `.get` with
      the default None gives None for both. Provider numbers are opaque: the
      collector only copies them and tests their truth value. */
  datatype Value =
    | Null
    | Bool(b: bool)
    | Int(i: int)
    | Float(x: real)
    | Str(s: string)
    | List(items: seq<Value>)
    | Dict(fields: map<string, Value>)

  const EMPTY_DICT: Value := Dict(map[])

  /** type(v).__name__ */
  function TypeName(v: Value): string {
    match v
    case Null => "NoneType"
    case Bool(_) => "bool"
    case Int(_) => "int"
    case Float(_) => "float"
    case Str(_) => "str"
    case List(_) => "list"
    case Dict(_) => "dict"
  }

  /** Python's truth value: None, False, zero and empty containers are false. */
  predicate Truthy(v: Value) {
    match v
    case Null => false
    case Bool(b) => b
    case Int(i) => i != 0
    case Float(x) => x != 0.0
    case Str(s) => s != ""
    case List(items) => items != []
    case Dict(fields) => fields != map[]
  }

  /** dict.get(key, default) */
  function Get(fields: map<string, Value>, key: string, default: Value): Value {
    if key in fields then fields[key] else default
  }

  /** str(e) of the AttributeError raised by v.get(...) when v is not a dict. */
  function NoGetMessage(v: Value): string {
    "'" + TypeName(v) + "' object has no attribute 'get'"
  }

  /** str(e) of the TypeError raised by `x in v` when v is not a container. */
  function NotIterableMessage(v: Value): string {
    "argument of type '" + TypeName(v) + "' is not iterable"
  }

  /** `needle in s` on two Python strings, scanning s from the left. */
  predicate IsSubstring(needle: string, s: string)
    decreases |s|
  {
    |needle| <= |s| && (s[..|needle|] == needle || IsSubstring(needle, s[1..]))
  }

  /** needle occurs in s starting at offset i. */
  predicate OccursAt(needle: string, s: string, i: int) {
    0 <= i <= |s| - |needle| && s[i..i + |needle|] == needle
  }

  /** The scan finds the needle exactly when it occurs at some offset. */
  lemma {:induction false} IsSubstringIff(needle: string, s: string)
    ensures IsSubstring(needle, s) <==> exists i :: OccursAt(needle, s, i)
    decreases |s|
  {
    if |needle| <= |s| {
      if s[..|needle|] == needle {
        assert OccursAt(needle, s, 0);
      } else {
        IsSubstringIff(needle, s[1..]);
        if exists i :: OccursAt(needle, s, i) {
          var i :| OccursAt(needle, s, i);
          assert i != 0;
          assert s[1..][i - 1..i - 1 + |needle|] == s[i..i + |needle|];
          assert OccursAt(needle, s[1..], i - 1);
        }
        if IsSubstring(needle, s[1..]) {
          var j :| OccursAt(needle, s[1..], j);
          assert s[j + 1..j + 1 + |needle|] == s[1..][j..j + |needle|];
          assert OccursAt(needle, s, j + 1);
        }
      }
    }
  }

  /** `needle in v` for a string needle: key membership on a dict, element
      membership on a list, substring on a str; a TypeError on anything else. */
  function Contains(v: Value, needle: string): (r: Result<bool>)
    ensures v.Dict? ==> r == Ok(needle in v.fields)
    ensures v.List? ==> r == Ok(Str(needle) in v.items)
    ensures v.Str? ==> r.Ok? && (r.value <==> exists i :: OccursAt(needle, v.s, i))
    ensures r.Err? <==> (v.Null? || v.Bool? || v.Int? || v.Float?)
  {
    match v
    case Dict(fields) => Ok(needle in fields)
    case List(items) => Ok(Str(needle) in items)
    case Str(s) => IsSubstringIff(needle, s); Ok(IsSubstring(needle, s))
    case _ => Err(NotIterableMessage(v))
  }

  /** Reference reading of a nested field: follow the keys of `path` through
      dicts; an absent key, or anything that is not a dict on the way, reads
      as None. */
  function Lookup(v: Value, path: seq<string>): Value
    decreases |path|
  {
    if path == [] then v
    else if v.Dict? && path[0] in v.fields then Lookup(v.fields[path[0]], path[1..])
    else Null
  }
}
