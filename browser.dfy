/** The small part of the browser and of JavaScript that the session logic relies on:
    nullable values, truthiness, the string and array methods the components call,
    and the `localStorage` object. */
module Browser {

  /** A JavaScript value that may be null or undefined (`None`). */
  datatype Option<+T> = None | Some(value: T)

  function Min(a: int, b: int): int { if a <= b then a else b }

  function Max(a: int, b: int): int { if a <= b then b else a }

  /** JavaScript truthiness of a string-or-null value: null, undefined and "" are falsy. */
  predicate Truthy(v: Option<string>) {
    v.Some? && v.value != ""
  }

  /** `String.prototype.startsWith(prefix)`. */
  predicate StartsWith(s: string, prefix: string): (b: bool)
    ensures b <==> exists rest :: s == prefix + rest
  {
    assert |prefix| <= |s| ==> s == s[..|prefix|] + s[|prefix|..];
    |prefix| <= |s| && s[..|prefix|] == prefix
  }

  /** An index argument of `substring`, clamped into `[0, n]`. */
  function Clamp(i: int, n: nat): (c: nat)
    ensures c <= n
  {
    if i < 0 then 0 else if i > n then n else i
  }

  /** `String.prototype.substring(start, end)`: both indices are clamped into the
      string, and swapped when the first exceeds the second. */
  function Substring(s: string, start: int, end: int): (r: string)
    ensures |r| <= |s|
    ensures 0 <= start <= end ==> |r| == Min(end, |s|) - Min(start, |s|)
    ensures 0 <= start <= end && start <= |s| ==> r == s[start..Min(end, |s|)]
  {
    var a, b := Clamp(start, |s|), Clamp(end, |s|);
    if a <= b then s[a..b] else s[b..a]
  }

  /** `Array.prototype.slice(start)`: a negative start counts from the end. The result is
      always a suffix of the input; `slice(-n)` keeps the last `n` elements. */
  function Slice<T>(s: seq<T>, start: int): (r: seq<T>)
    ensures |r| <= |s| && r == s[|s| - |r|..]
    ensures start < 0 ==> |r| == Min(-start, |s|)
    ensures 0 <= start ==> |r| == Max(|s| - start, 0)
  {
    if start < 0 then s[Max(|s| + start, 0)..]
    else if start <= |s| then s[start..]
    else []
  }

  /** The browser's `localStorage`: string keys mapped to string values. */
  class LocalStorage {
    var items: map<string, string>

    constructor (initial: map<string, string>)
      ensures items == initial
    {
      items := initial;
    }

    /** `localStorage.getItem(key)`: null when the key is absent. */
    function GetItem(key: string): (r: Option<string>)
      reads this
      ensures r.Some? <==> key in items
      ensures r.Some? ==> r.value == items[key]
    {
      if key in items then Some(items[key]) else None
    }

    /** `localStorage.setItem(key, value)`. */
    method SetItem(key: string, value: string)
      modifies this
      ensures items == old(items)[key := value]
      ensures GetItem(key) == Some(value)
    {
      items := items[key := value];
    }
  }
}
