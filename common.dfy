// Values shared by every module: optional values, Python truthiness of
// optional strings, and Python's slicing rules.

module Common {

  datatype Option<T> = None | Some(value: T)
  {
    function GetOr(default: T): (r: T)
      ensures this.Some? ==> r == value
      ensures this.None? ==> r == default
    {
      match this
      case Some(v) => v
      case None => default
    }
  }

  /** An operation's value, or the error it raises. */
  datatype Result<T> = Success(value: T) | Failure(error: string)

  /** Python truthiness of an optional string: `None` and `""` are false. */
  predicate Truthy(s: Option<string>) {
    s.Some? && s.value != ""
  }

  /** Python's `a or b` on optional strings. */
  function Or(a: Option<string>, b: Option<string>): (r: Option<string>)
    ensures Truthy(a) ==> r == a
    ensures !Truthy(a) ==> r == b
  {
    if Truthy(a) then a else b
  }

  /** `s[start:]` for a possibly negative `start`, as Python resolves it:
    * a negative start counts from the end and is clamped at 0. */
  function SliceFrom<T>(s: seq<T>, start: int): (r: seq<T>)
    ensures start >= 0 ==> r == (if start <= |s| then s[start..] else [])
    ensures start < 0 ==> r == (if -start <= |s| then s[|s| + start..] else s)
  {
    if start >= 0 then (if start <= |s| then s[start..] else [])
    else if -start <= |s| then s[|s| + start..] else s
  }

  /** Where Python puts a slice bound `i` in a sequence of length `n`: a
    * negative bound counts from the end, and both ends are clamped. */
  function SliceIndex(i: int, n: nat): (r: nat)
    ensures r <= n
    ensures 0 <= i <= n ==> r == i
  {
    if i < 0 then (if n + i < 0 then 0 else n + i)
    else if i > n then n
    else i
  }

  /** `s[start:stop]` */
  function Slice<T>(s: seq<T>, start: int, stop: int): (r: seq<T>)
    ensures |r| <= |s|
    ensures 0 <= start <= stop ==> |r| <= stop - start
    ensures forall i :: 0 <= i < |r| ==> SliceIndex(start, |s|) + i < |s| && r[i] == s[SliceIndex(start, |s|) + i]
    ensures 0 <= start <= stop <= |s| ==> r == s[start..stop]
  {
    var lo := SliceIndex(start, |s|);
    var hi := SliceIndex(stop, |s|);
    if lo <= hi then s[lo..hi] else []
  }

  function MaxReal(a: real, b: real): real { if a >= b then a else b }

  function MinReal(a: real, b: real): real { if a <= b then a else b }

  function Min(a: int, b: int): int { if a <= b then a else b }
}
