/**
 * The few pieces of JavaScript semantics the gateway relies on: truthiness in
 * `a || b` for strings and numbers, and `Array.prototype.slice(0, end)`.
 */
module Js {
  import opened Wrappers

  /** `s || fallback` for an optional string: `undefined` and `''` are falsy. */
  function StrOr(s: Option<string>, fallback: string): (r: string)
    ensures r == fallback || (s.Some? && r == s.value && r != "")
  {
    if s.Some? && s.value != "" then s.value else fallback
  }

  /** `n || fallback` for an optional number: `undefined` and `0` are falsy. */
  function NumOr(n: Option<int>, fallback: int): (r: int)
    ensures r == fallback || (n.Some? && r == n.value && r != 0)
  {
    if n.Some? && n.value != 0 then n.value else fallback
  }

  function Min(a: int, b: int): int { if a <= b then a else b }

  function Max(a: int, b: int): int { if a >= b then a else b }

  /**
   * `s.slice(0, end)`: a non-negative `end` keeps at most `end` leading elements,
   * a negative `end` counts from the back and drops the last `-end` elements.
   */
  function Slice<T>(s: seq<T>, end: int): (r: seq<T>)
    ensures |r| <= |s| && r == s[..|r|]
    ensures 0 <= end ==> |r| <= end && (|r| < end ==> r == s)
    ensures end < 0 ==> |r| == Max(0, |s| + end)
  {
    if 0 <= end then s[..Min(end, |s|)] else s[..Max(0, |s| + end)]
  }
}
