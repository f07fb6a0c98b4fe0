/**
 * The RPC round-trip estimate of pancakebot/timing_constants.py: linear interpolation between
 * measured batch sizes, rounded half to even.
 */
module RttTable {
  import opened Basics

  /** Measured sizes in increasing order, with the round-trip time of each. */
  datatype Table = Table(sizes: seq<int>, millis: seq<int>) {
    predicate Valid() {
      && 0 < |sizes| == |millis|
      && forall i, j :: 0 <= i < j < |sizes| ==> sizes[i] < sizes[j]
    }

    /** Larger batches never took less time. */
    predicate Rising() {
      && |sizes| == |millis|
      && forall i, j :: 0 <= i < j < |millis| ==> millis[i] <= millis[j]
    }
  }

  const MEASURED := Table([2, 5, 10, 15, 20], [79, 122, 222, 229, 240])

  // ------------------------------------------------------------------- rounding

  /** Nearest integer; a tie goes to the even one. */
  function HalfEven(x: real): int {
    var low := x.Floor;
    var rest := x - low as real;
    if rest < 0.5 then low
    else if rest > 0.5 then low + 1
    else if low % 2 == 0 then low
    else low + 1
  }

  lemma HalfEvenIsNearest(x: real)
    ensures -0.5 <= HalfEven(x) as real - x <= 0.5
    ensures HalfEven(x) as real - x in {-0.5, 0.5} ==> HalfEven(x) % 2 == 0
  {
  }

  lemma HalfEvenKeepsOrder(x: real, y: real)
    requires x <= y
    ensures HalfEven(x) <= HalfEven(y)
  {
    assert x.Floor <= y.Floor;
  }

  lemma HalfEvenOfInteger(n: int)
    ensures HalfEven(n as real) == n
  {
  }

  // --------------------------------------------------------------------- lookup

  /** The straight line through measurements `i` and `i + 1`. */
  function Line(t: Table, i: nat, n: int): real
    requires t.Valid() && i + 1 < |t.sizes|
  {
    t.millis[i] as real +
    ((t.millis[i + 1] - t.millis[i]) * (n - t.sizes[i])) as real / (t.sizes[i + 1] - t.sizes[i]) as real
  }

  /** The first pair of neighbouring sizes, from `i` on, strictly around `n`. */
  function Search(t: Table, n: int, i: nat): Option<nat>
    requires t.Valid() && i < |t.sizes|
    decreases |t.sizes| - i
  {
    if i + 1 == |t.sizes| then None
    else if t.sizes[i] < n < t.sizes[i + 1] then Some(i)
    else Search(t, n, i + 1)
  }

  lemma {:induction false} SearchInRange(t: Table, n: int, i: nat)
    requires t.Valid() && i < |t.sizes|
    ensures Search(t, n, i).Some? ==> Search(t, n, i).value + 1 < |t.sizes|
    decreases |t.sizes| - i
  {
    if i + 1 < |t.sizes| {
      SearchInRange(t, n, i + 1);
    }
  }

  function Position(sizes: seq<int>, n: int): (k: nat)
    requires n in sizes
    ensures k < |sizes| && sizes[k] == n
  {
    if sizes[0] == n then 0 else 1 + Position(sizes[1..], n)
  }

  function RpcRttP99ForBatch(t: Table, n: int): int
    requires t.Valid()
  {
    var last := |t.sizes| - 1;
    if n <= 0 then 0
    else if n <= t.sizes[0] then t.millis[0]
    else if n >= t.sizes[last] then t.millis[last]
    else if n in t.sizes then t.millis[Position(t.sizes, n)]
    else
      SearchInRange(t, n, 0);
      match Search(t, n, 0)
      case Some(i) => HalfEven(Line(t, i, n))
      case None => t.millis[last]
  }

  // ------------------------------------------------------------------ properties

  lemma {:induction false} SearchFinds(t: Table, n: int, from: nat, i: nat)
    requires t.Valid() && from <= i && i + 1 < |t.sizes| && t.sizes[i] < n < t.sizes[i + 1]
    ensures Search(t, n, from) == Some(i)
    decreases i - from
  {
    if from < i {
      assert t.sizes[from + 1] <= t.sizes[i];
      SearchFinds(t, n, from + 1, i);
    }
  }

  lemma LineAtEnds(t: Table, i: nat)
    requires t.Valid() && i + 1 < |t.sizes|
    ensures Line(t, i, t.sizes[i]) == t.millis[i] as real
    ensures Line(t, i, t.sizes[i + 1]) == t.millis[i + 1] as real
  {
    var span := (t.sizes[i + 1] - t.sizes[i]) as real;
    Ratio((t.millis[i + 1] - t.millis[i]) as real, span);
    assert ((t.millis[i + 1] - t.millis[i]) * (t.sizes[i + 1] - t.sizes[i])) as real
        == (t.millis[i + 1] - t.millis[i]) as real * span;
  }

  lemma Ratio(x: real, y: real)
    requires y != 0.0
    ensures x * y / y == x
  {
  }

  /** A measured size reads back its own measurement exactly when it is positive, or measured at zero. */
  lemma ExactAtSizes(t: Table, k: nat)
    requires t.Valid() && k < |t.sizes|
    ensures RpcRttP99ForBatch(t, t.sizes[k]) == t.millis[k] <==> 0 < t.sizes[k] || t.millis[k] == 0
  {
    var n := t.sizes[k];
    assert k == 0 || t.sizes[0] < n;
    assert k == |t.sizes| - 1 || n < t.sizes[|t.sizes| - 1];
    var p := Position(t.sizes, n);
    assert p == k;
  }

  /** From one measured size to the next the estimate is the rounded line, both ends included. */
  lemma IsRoundedLine(t: Table, i: nat, n: int)
    requires t.Valid() && i + 1 < |t.sizes| && t.sizes[i] <= n <= t.sizes[i + 1] && 0 < n
    ensures RpcRttP99ForBatch(t, n) == HalfEven(Line(t, i, n))
  {
    if n == t.sizes[i] {
      AtEnds(t, i, i);
    } else if n == t.sizes[i + 1] {
      AtEnds(t, i, i + 1);
    } else {
      InsideIsRoundedLine(t, i, n);
    }
  }

  lemma AtEnds(t: Table, i: nat, k: nat)
    requires t.Valid() && i + 1 < |t.sizes| && i <= k <= i + 1 && 0 < t.sizes[k]
    ensures RpcRttP99ForBatch(t, t.sizes[k]) == HalfEven(Line(t, i, t.sizes[k]))
  {
    hide RpcRttP99ForBatch, Line;
    ExactAtSizes(t, k);
    LineAtEnds(t, i);
    HalfEvenOfInteger(t.millis[k]);
  }

  lemma InsideIsRoundedLine(t: Table, i: nat, n: int)
    requires t.Valid() && i + 1 < |t.sizes| && t.sizes[i] < n < t.sizes[i + 1] && 0 < n
    ensures RpcRttP99ForBatch(t, n) == HalfEven(Line(t, i, n))
  {
    hide Search, Line, HalfEven, Position;
    var last := |t.sizes| - 1;
    assert t.sizes[0] <= t.sizes[i] && t.sizes[i + 1] <= t.sizes[last];
    forall k | 0 <= k < |t.sizes| ensures t.sizes[k] != n {
      assert k <= i ==> t.sizes[k] <= t.sizes[i];
      assert k > i ==> t.sizes[i + 1] <= t.sizes[k];
    }
    SearchFinds(t, n, 0, i);
  }

  lemma LineKeepsOrder(t: Table, i: nat, n: int, m: int)
    requires t.Valid() && t.Rising() && i + 1 < |t.sizes| && n <= m
    ensures Line(t, i, n) <= Line(t, i, m)
  {
    var rise, span := t.millis[i + 1] - t.millis[i], (t.sizes[i + 1] - t.sizes[i]) as real;
    Products(rise, n - t.sizes[i], m - t.sizes[i]);
    QuotientsRise((rise * (n - t.sizes[i])) as real, (rise * (m - t.sizes[i])) as real, span);
  }

  lemma Products(k: int, x: int, y: int)
    requires 0 <= k && x <= y
    ensures k * x <= k * y
  {
  }

  /** It is straight: equal steps in the size add equal amounts, wherever they are taken. */
  lemma LineIsStraight(t: Table, i: nat, n: int, m: int, step: int)
    requires t.Valid() && i + 1 < |t.sizes|
    ensures Line(t, i, n + step) - Line(t, i, n) == Line(t, i, m + step) - Line(t, i, m)
  {
    var rise, span := t.millis[i + 1] - t.millis[i], (t.sizes[i + 1] - t.sizes[i]) as real;
    StepOf(rise, n - t.sizes[i], step, span);
    StepOf(rise, m - t.sizes[i], step, span);
    assert n + step - t.sizes[i] == n - t.sizes[i] + step && m + step - t.sizes[i] == m - t.sizes[i] + step;
  }

  lemma StepOf(rise: int, x: int, step: int, span: real)
    requires span > 0.0
    ensures (rise * (x + step)) as real / span - (rise * x) as real / span == (rise * step) as real / span
  {
    assert rise * (x + step) == rise * x + rise * step;
    QuotientsAdd((rise * x) as real, (rise * step) as real, span);
  }

  lemma QuotientsAdd(x: real, y: real, d: real)
    requires d > 0.0
    ensures (x + y) / d == x / d + y / d
  {
  }

  /** Between two neighbouring sizes the estimate lies between their measurements. */
  lemma Bracketed(t: Table, i: nat, n: int)
    requires t.Valid() && t.Rising() && i + 1 < |t.sizes| && t.sizes[i] <= n <= t.sizes[i + 1] && 0 < n
    ensures t.millis[i] <= RpcRttP99ForBatch(t, n) <= t.millis[i + 1]
    ensures -0.5 <= RpcRttP99ForBatch(t, n) as real - Line(t, i, n) <= 0.5
  {
    hide RpcRttP99ForBatch, Line, HalfEven;
    IsRoundedLine(t, i, n);
    LineAtEnds(t, i);
    LineKeepsOrder(t, i, t.sizes[i], n);
    LineKeepsOrder(t, i, n, t.sizes[i + 1]);
    HalfEvenKeepsOrder(t.millis[i] as real, Line(t, i, n));
    HalfEvenKeepsOrder(Line(t, i, n), t.millis[i + 1] as real);
    HalfEvenOfInteger(t.millis[i]);
    HalfEvenOfInteger(t.millis[i + 1]);
    HalfEvenIsNearest(Line(t, i, n));
  }

  /** Every size inside the table has a pair of neighbours around it and its successor. */
  lemma {:induction false} Neighbours(t: Table, n: int, from: nat) returns (i: nat)
    requires t.Valid() && from + 1 < |t.sizes| && t.sizes[from] <= n < t.sizes[|t.sizes| - 1]
    ensures i + 1 < |t.sizes| && t.sizes[i] <= n && n + 1 <= t.sizes[i + 1]
    decreases |t.sizes| - from
  {
    if n < t.sizes[from + 1] {
      i := from;
    } else {
      i := Neighbours(t, n, from + 1);
    }
  }

  lemma NextIsNoLess(t: Table, n: int)
    requires t.Valid() && t.Rising() && 0 < n
    ensures RpcRttP99ForBatch(t, n) <= RpcRttP99ForBatch(t, n + 1)
  {
    hide Line, HalfEven, Search, Position, RpcRttP99ForBatch;
    var last := |t.sizes| - 1;
    if t.sizes[0] <= n < t.sizes[last] {
      var i := Neighbours(t, n, 0);
      IsRoundedLine(t, i, n);
      IsRoundedLine(t, i, n + 1);
      LineKeepsOrder(t, i, n, n + 1);
      HalfEvenKeepsOrder(Line(t, i, n), Line(t, i, n + 1));
    } else {
      OutsideIsFlat(t, n);
    }
  }

  lemma OutsideIsFlat(t: Table, n: int)
    requires t.Valid() && 0 < n && !(t.sizes[0] <= n < t.sizes[|t.sizes| - 1])
    ensures RpcRttP99ForBatch(t, n + 1) == RpcRttP99ForBatch(t, n)
  {
    hide Line, HalfEven, Search, Position;
    assert |t.sizes| == 1 || t.sizes[0] < t.sizes[|t.sizes| - 1];
  }

  lemma {:induction false} MonotoneAboveZero(t: Table, n: int, m: int)
    requires t.Valid() && t.Rising() && 0 < n <= m
    ensures RpcRttP99ForBatch(t, n) <= RpcRttP99ForBatch(t, m)
    decreases m - n
  {
    hide RpcRttP99ForBatch;
    if n < m {
      MonotoneAboveZero(t, n, m - 1);
      NextIsNoLess(t, m - 1);
    }
  }

  ghost predicate Monotone(t: Table)
    requires t.Valid()
  {
    forall n: int, m: int :: n <= m ==> RpcRttP99ForBatch(t, n) <= RpcRttP99ForBatch(t, m)
  }

  /**
   * With rising measurements the estimate never falls as the batch grows, exactly when the estimate
   * for a batch of one is not negative: a batch of zero or less is estimated at zero.
   */
  lemma MonotoneExactlyWhen(t: Table)
    requires t.Valid() && t.Rising()
    ensures Monotone(t) <==> 0 <= RpcRttP99ForBatch(t, 1)
  {
    hide RpcRttP99ForBatch;
    AtZeroOrLess(t, 0);
    if 0 <= RpcRttP99ForBatch(t, 1) {
      forall n: int, m: int | n <= m ensures RpcRttP99ForBatch(t, n) <= RpcRttP99ForBatch(t, m) {
        AtZeroOrLess(t, n);
        AtZeroOrLess(t, m);
        if 0 < n {
          MonotoneAboveZero(t, n, m);
        } else if 0 < m {
          MonotoneAboveZero(t, 1, m);
        }
      }
    } else {
      assert RpcRttP99ForBatch(t, 0) > RpcRttP99ForBatch(t, 1);
    }
  }

  lemma AtZeroOrLess(t: Table, n: int)
    requires t.Valid()
    ensures n <= 0 ==> RpcRttP99ForBatch(t, n) == 0
  {
  }

  /** With positive sizes that is the smallest measurement. */
  lemma EstimateForOne(t: Table)
    requires t.Valid() && 0 < t.sizes[0]
    ensures RpcRttP99ForBatch(t, 1) == t.millis[0]
  {
  }

  /** So for positive sizes it never falls exactly when the smallest measurement is not negative. */
  lemma MonotoneWithPositiveSizes(t: Table)
    requires t.Valid() && t.Rising() && 0 < t.sizes[0]
    ensures Monotone(t) <==> 0 <= t.millis[0]
  {
    hide Monotone, RpcRttP99ForBatch;
    MonotoneExactlyWhen(t);
    EstimateForOne(t);
  }

  /** The table in the source meets the condition, and its largest size is the one config reads. */
  lemma MeasuredIsMonotone()
    ensures MEASURED.Valid() && MEASURED.Rising() && Monotone(MEASURED)
    ensures RpcRttP99ForBatch(MEASURED, 20) == 240
  {
    assert MEASURED.Valid() && MEASURED.Rising();
    MonotoneWithPositiveSizes(MEASURED);
    ExactAtSizes(MEASURED, 4);
  }

  /** What was measured. */
  lemma MeasuredSizes()
    ensures MEASURED.Valid() && MEASURED.sizes == [2, 5, 10, 15, 20]
    ensures RpcRttP99ForBatch(MEASURED, 2) == 79 && RpcRttP99ForBatch(MEASURED, 5) == 122
    ensures RpcRttP99ForBatch(MEASURED, 10) == 222 && RpcRttP99ForBatch(MEASURED, 15) == 229
    ensures RpcRttP99ForBatch(MEASURED, 20) == 240
  {
    assert MEASURED.Valid();
    hide RpcRttP99ForBatch;
    ExactAtSizes(MEASURED, 0);
    ExactAtSizes(MEASURED, 1);
    ExactAtSizes(MEASURED, 2);
    ExactAtSizes(MEASURED, 3);
    ExactAtSizes(MEASURED, 4);
  }

  /** Inside the gap from 10 to 15, at 12: 222 and two fifths of 7 more, rounded; outside the table the nearest size. */
  lemma MeasuredElsewhere()
    ensures RpcRttP99ForBatch(MEASURED, 12) == 225
    ensures RpcRttP99ForBatch(MEASURED, 1) == 79 && RpcRttP99ForBatch(MEASURED, 0) == 0
    ensures RpcRttP99ForBatch(MEASURED, 50) == 240
  {
    assert MEASURED.Valid();
    hide Search, Position;
    IsRoundedLine(MEASURED, 2, 12);
    assert Line(MEASURED, 2, 12) == 224.8;
  }
}
