/** The few pieces of JavaScript semantics the engine depends on: a missing
    array element (`undefined`), comparisons against it, the sign-of-dividend
    remainder, `Array.prototype.slice` with clamped and negative indices, and
    `Math.round`. */
module Js {

  /** `Some(v)` for a defined value, `None` for `undefined`. */
  datatype Option<+T> = None | Some(value: T)

  /** JavaScript's `a % b` for a positive divisor: the remainder takes the sign
      of the dividend (truncated division), unlike Dafny's Euclidean `%`. */
  function Rem(a: int, b: int): (r: int)
    requires b > 0
    ensures a >= 0 ==> 0 <= r < b
    ensures a < 0 ==> -b < r <= 0
  {
    if a >= 0 then a % b else -((-a) % b)
  }

  /** `Rem` is a remainder of `a`: `a` minus it is a multiple of `b`. With
      the sign and range of `Rem`, this fixes the truncated remainder. */
  lemma RemIsRemainder(a: int, b: int) returns (q: int)
    requires b > 0
    ensures a == q * b + Rem(a, b)
  {
    if a >= 0 {
      q := a / b;
    } else {
      q := -((-a) / b);
      assert -a == ((-a) / b) * b + (-a) % b;
    }
  }

  /** `s[i]` in JavaScript: a defined element only for an index inside the
      array; any other index (`-1` included) reads `undefined`. */
  function At<T>(s: seq<T>, i: int): (r: Option<T>)
    ensures r.Some? <==> 0 <= i < |s|
    ensures r.Some? ==> r.value == s[i]
  {
    if 0 <= i < |s| then Some(s[i]) else None
  }

  /** `x <= t` where `x` may be `undefined`: a comparison with `undefined`
      converts it to NaN and is false. */
  predicate AtMost(x: Option<real>, t: real)
  {
    x.Some? && x.value <= t
  }

  /** `x >= t` where `x` may be `undefined`. */
  predicate AtLeast(x: Option<real>, t: real)
  {
    x.Some? && x.value >= t
  }

  /** How `slice` resolves one index against a length: a negative index counts
      from the end, and the result is clamped into `[0, len]`. */
  function SliceIndex(len: nat, i: int): (k: nat)
    ensures k <= len
  {
    if i < 0 then (if len + i >= 0 then len + i else 0)
    else if i <= len then i else len
  }

  /** `s.slice(b, e)`: empty when the resolved end is not after the resolved
      start. A start inside the array takes the elements from it up to the end
      index, cut off at the length; a negative start `-k` with the end at the
      length takes the last `k` elements, or all of them if there are fewer. */
  function Slice<T>(s: seq<T>, b: int, e: int): (r: seq<T>)
    ensures |r| <= |s|
    ensures 0 <= b <= |s| && b <= e ==> r == s[b..if e <= |s| then e else |s|]
    ensures b < 0 && |s| <= e ==> r == s[if -b <= |s| then |s| + b else 0..]
  {
    var lo := SliceIndex(|s|, b);
    var hi := SliceIndex(|s|, e);
    if lo <= hi then s[lo..hi] else []
  }

  /** `Math.round(x)`: the nearest integer, halves rounded up. */
  function Round(x: real): (r: int)
    ensures r as real - 1.0 / 2.0 <= x < r as real + 1.0 / 2.0
  {
    (x + 1.0 / 2.0).Floor
  }

  /** A dividend between minus the divisor and zero is its own remainder in
      JavaScript, while Dafny's Euclidean remainder adds the divisor. */
  lemma RemSmallNegative(a: int, b: int)
    requires -b < a < 0
    ensures Rem(a, b) == a
    ensures a % b == a + b
  {
    assert (-a) % b == -a;
    assert a == -1 * b + (a + b);
  }

  /** `Round` returns the one integer in `[x - 1/2, x + 1/2)`. */
  lemma RoundUnique(x: real, k: int)
    requires k as real - 1.0 / 2.0 <= x < k as real + 1.0 / 2.0
    ensures Round(x) == k
  {
  }
}
