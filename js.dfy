/**
 * The few pieces of JavaScript semantics the dashboard's logic leans on:
 * values that may be `null`/`undefined`, the `||` operator on strings,
 * settled promises, and `Array.prototype.slice`.
 */
module Js {

  /** A value that may be missing (`null` or `undefined` in the source). */
  datatype Option<+T> = None | Some(value: T)

  /** How an awaited call settled: resolved with a value, or rejected. */
  datatype Outcome<+T> = Resolved(value: T) | Rejected

  /** JavaScript truthiness of a string-or-nullish value: `''`, `null` and `undefined` are falsy. */
  predicate Truthy(s: Option<string>) {
    s.Some? && s.value != ""
  }

  /** `a || b` on two string-or-nullish values: `a` when it is truthy, otherwise `b`. */
  function Or(a: Option<string>, b: Option<string>): (r: Option<string>)
    ensures Truthy(a) ==> r == a
    ensures !Truthy(a) ==> r == b
    ensures Truthy(r) <==> Truthy(a) || Truthy(b)
  {
    if Truthy(a) then a else b
  }

  /** The position `slice` makes of a relative index: negative ones count from the end. */
  function RelativeIndex(i: int, len: nat): (r: nat)
    ensures r <= len
    ensures 0 <= i ==> r == if i < len then i else len
    ensures i < 0 ==> r == if len + i < 0 then 0 else len + i
  {
    if i < 0 then (if len + i < 0 then 0 else len + i)
    else if i < len then i else len
  }

  /** `s.slice(start, end)`. */
  function Slice<T>(s: seq<T>, start: int, end: int): (r: seq<T>)
    ensures |r| <= |s|
    ensures 0 <= start <= end ==>
      var lo := if start < |s| then start else |s|;
      var hi := if end < |s| then end else |s|;
      r == s[lo..hi]
    ensures 0 <= start && |s| <= start ==> r == []
  {
    var lo := RelativeIndex(start, |s|);
    var hi := RelativeIndex(end, |s|);
    if lo < hi then s[lo..hi] else []
  }
}
