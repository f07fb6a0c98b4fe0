/** Small value types and real-number helpers shared by every other module. */
module Basics {

  datatype Option<+T> = None | Some(value: T)

  datatype Result<+T, +E> = Ok(value: T) | Err(error: E)

  const SECONDS_PER_DAY := 86400

  function Abs(x: real): real {
    if x < 0.0 then -x else x
  }

  function MaxReal(a: real, b: real): real {
    if a < b then b else a
  }

  /** Equal, or closer than `eps`.  With `eps == 0.0` this is exact equality. */
  predicate Near(a: real, b: real, eps: real) {
    a == b || Abs(a - b) < eps
  }

  /** A proportion, or zero of nothing. */
  function SafeRate(part: int, whole: int): real {
    if whole > 0 then part as real / whole as real else 0.0
  }

  /** Largest element of a nonempty sequence. */
  function MaxOf(s: seq<real>): (m: real)
    requires s != []
    ensures m in s
    ensures forall x :: x in s ==> x <= m
  {
    var n := |s| - 1;
    if n == 0 then s[0] else
      assert s == s[..n] + [s[n]];
      MaxReal(MaxOf(s[..n]), s[n])
  }

  lemma QuotientsRise(x: real, y: real, d: real)
    requires x <= y && 0.0 < d
    ensures x / d <= y / d
  {
  }

  lemma QuotientAtLeast(x: real, y: real, f: real)
    requires 0.0 < y
    ensures x / y >= f <==> x >= f * y
  {
    var q := x / y;
    assert q * y == x;
    if q >= f {
      assert (q - f) * y >= 0.0;
    } else {
      assert (f - q) * y > 0.0;
    }
  }
}
