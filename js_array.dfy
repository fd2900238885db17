/**
 * The two `Array.prototype` built-ins the renderer relies on, with the
 * semantics ECMAScript gives them: `findIndex` with an identity predicate,
 * and `splice` with its clamping of the start position and delete count.
 */
module JsArray {

  /**
   * `s.findIndex(n => n === x)`: the index of the first element equal to `x`,
   * or -1 when there is none.
   */
  function FindIndex<T(==)>(s: seq<T>, x: T): (i: int)
    ensures -1 <= i < |s|
    ensures i == -1 <==> x !in s
    ensures 0 <= i ==> s[i] == x && x !in s[..i]
  {
    if |s| == 0 then -1
    else if s[0] == x then 0
    else
      var j := FindIndex(s[1..], x);
      if j == -1 then -1 else j + 1
  }

  /**
   * The position at which `splice(start, ...)` begins on an array of length
   * `len`: a negative start counts back from the end (clamped at 0), a start
   * past the end is clamped to the end.
   */
  function SpliceStart(len: nat, start: int): (k: nat)
    ensures k <= len
    ensures 0 <= start <= len ==> k == start
    ensures start < 0 && 0 <= len + start ==> k == len + start
    ensures len + start < 0 ==> k == 0
    ensures len < start ==> k == len
  {
    if start < 0 then (if len + start < 0 then 0 else len + start)
    else if start > len then len
    else start
  }

  /** The number of elements `splice(start, deleteCount, ...)` removes. */
  function SpliceDeleteCount(len: nat, start: int, deleteCount: int): (d: nat)
    ensures SpliceStart(len, start) + d <= len
    ensures 0 <= deleteCount <= len - SpliceStart(len, start) ==> d == deleteCount
  {
    var k := SpliceStart(len, start);
    if deleteCount < 0 then 0
    else if deleteCount > len - k then len - k
    else deleteCount
  }

  /**
   * The array that `s.splice(start, deleteCount, ...items)` leaves behind.
   * Stated as a value: the call mutates the array in place.
   */
  function Splice<T>(s: seq<T>, start: int, deleteCount: int, items: seq<T>): (r: seq<T>)
    ensures |r| == |s| - SpliceDeleteCount(|s|, start, deleteCount) + |items|
    ensures var k := SpliceStart(|s|, start);
      r[..k] == s[..k] && r[k..k + |items|] == items
      && r[k + |items|..] == s[k + SpliceDeleteCount(|s|, start, deleteCount)..]
  {
    var k := SpliceStart(|s|, start);
    var d := SpliceDeleteCount(|s|, start, deleteCount);
    s[..k] + items + s[k + d..]
  }
}
