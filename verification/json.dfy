/** Decoded JSON values, with the few pieces of Python's dictionary and
    truthiness semantics that the weather tools rely on. */
module JsonValues {

  /** The conventional Some/None wrapper, used for dictionary lookups that may miss. */
  datatype Option<+T> = None | Some(value: T)

  /** A decoded JSON document. `Null` is also Python's `None`: the two are the
      same value once a response body has been decoded. Numbers are kept exact. */
  datatype Json =
    | Null
    | Bool(b: bool)
    | Number(n: real)
    | Str(s: string)
    | Array(items: seq<Json>)
    | Object(fields: map<string, Json>)

  /** Python's `bool(v)`: None, False, zero and empty containers are falsy. */
  predicate Truthy(v: Json)
  {
    match v
    case Null => false
    case Bool(b) => b
    case Number(n) => n != 0.0
    case Str(s) => |s| > 0
    case Array(items) => |items| > 0
    case Object(fields) => |fields| > 0
  }

  /** A dictionary lookup that reports a missing key as `None`. */
  function Lookup(m: map<string, Json>, key: string): (r: Option<Json>)
    ensures r.Some? <==> key in m
    ensures r.Some? ==> r.value == m[key]
  {
    if key in m then Some(m[key]) else None
  }

  /** Python's `m.get(key)`: the stored value, or `None` when the key is missing. */
  function Get(m: map<string, Json>, key: string): Json
  {
    match Lookup(m, key)
    case Some(v) => v
    case None => Null
  }

  /** `needle` occurs as a contiguous piece of `hay` (Python's `needle in hay` on strings). */
  predicate IsSubstring(needle: string, hay: string)
    decreases |hay|
  {
    needle <= hay || (|hay| > 0 && IsSubstring(needle, hay[1..]))
  }

  /** The values for which Python's `x in v` does not raise a TypeError. */
  predicate SupportsIn(v: Json)
  {
    v.Str? || v.Array? || v.Object?
  }

  /** Python's `key in v` for a string `key`: key membership on a dictionary,
      element equality on a list, substring search on a string. */
  predicate Contains(v: Json, key: string)
    requires SupportsIn(v)
  {
    match v
    case Object(fields) => key in fields
    case Array(items) => Str(key) in items
    case Str(s) => IsSubstring(key, s)
  }

  /** A string found at some position of `hay` is found by `IsSubstring`, and
      conversely; this pins the recursive definition to the usual one. */
  lemma {:induction false} IsSubstringAt(needle: string, hay: string)
    ensures IsSubstring(needle, hay) <==>
            exists i :: 0 <= i <= |hay| && needle <= hay[i..]
    decreases |hay|
  {
    if needle <= hay {
      assert needle <= hay[0..];
    } else if |hay| > 0 {
      IsSubstringAt(needle, hay[1..]);
      if IsSubstring(needle, hay[1..]) {
        var i :| 0 <= i <= |hay[1..]| && needle <= hay[1..][i..];
        assert hay[1..][i..] == hay[i + 1..];
      }
      if exists i :: 0 <= i <= |hay| && needle <= hay[i..] {
        var i :| 0 <= i <= |hay| && needle <= hay[i..];
        assert i != 0;
        assert hay[1..][i - 1..] == hay[i..];
      }
    }
  }
}
