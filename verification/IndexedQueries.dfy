/**
 * Indexed look-ups of research/p4c_phase0_feature_builder.py against their definitions:
 * trailing profit by prefix sums and bisection, the latest update at or before a time by
 * binary search, and the streak of equal outcomes before each round.
 */
module IndexedQueries {
  import opened Basics

  // ---------------------------------------------------------------- trailing profit

  datatype Sample = Sample(lockAt: int, profit: real)

  /** Profit of the samples with lock time in [lo, hi), whatever their order. */
  function ProfitBetween(h: seq<Sample>, lo: int, hi: int): real {
    if h == [] then 0.0 else
      (if lo <= h[0].lockAt < hi then h[0].profit else 0.0) + ProfitBetween(h[1..], lo, hi)
  }

  predicate InTimeOrder(h: seq<Sample>) {
    forall i, j :: 0 <= i < j < |h| ==> h[i].lockAt <= h[j].lockAt
  }

  /** Python's stable sort by lock time. */
  function SortedByLock(h: seq<Sample>): (s: seq<Sample>)
    ensures |s| == |h|
  {
    if h == [] then [] else Insert(h[0], SortedByLock(h[1..]))
  }

  function Insert(x: Sample, s: seq<Sample>): (r: seq<Sample>)
    ensures |r| == |s| + 1
  {
    if s == [] || x.lockAt <= s[0].lockAt then [x] + s else [s[0]] + Insert(x, s[1..])
  }

  lemma {:induction false} InsertKeepsOrder(x: Sample, s: seq<Sample>)
    requires InTimeOrder(s)
    ensures InTimeOrder(Insert(x, s))
    ensures Insert(x, s)[0].lockAt == if s == [] || x.lockAt <= s[0].lockAt then x.lockAt else s[0].lockAt
  {
    if s != [] && x.lockAt > s[0].lockAt {
      assert InTimeOrder(s[1..]);
      InsertKeepsOrder(x, s[1..]);
      Prepend(s[0], Insert(x, s[1..]));
    } else {
      Prepend(x, s);
    }
  }

  lemma Prepend(x: Sample, s: seq<Sample>)
    requires InTimeOrder(s) && (s != [] ==> x.lockAt <= s[0].lockAt)
    ensures InTimeOrder([x] + s)
  {
    forall i | 0 <= i < |s| ensures x.lockAt <= s[i].lockAt {
      assert i == 0 || s[0].lockAt <= s[i].lockAt;
    }
  }

  lemma {:induction false} SortOrders(h: seq<Sample>)
    ensures InTimeOrder(SortedByLock(h))
  {
    if h != [] {
      SortOrders(h[1..]);
      InsertKeepsOrder(h[0], SortedByLock(h[1..]));
    }
  }

  lemma {:induction false} InsertKeepsProfit(x: Sample, s: seq<Sample>, lo: int, hi: int)
    ensures ProfitBetween(Insert(x, s), lo, hi) == ProfitBetween([x] + s, lo, hi)
  {
    assert ([x] + s)[1..] == s;
    if s != [] && x.lockAt > s[0].lockAt {
      InsertKeepsProfit(x, s[1..], lo, hi);
      assert ([x] + s[1..])[1..] == s[1..];
      assert ([s[0]] + Insert(x, s[1..]))[1..] == Insert(x, s[1..]);
    }
  }

  lemma {:induction false} SortKeepsProfit(h: seq<Sample>, lo: int, hi: int)
    ensures ProfitBetween(SortedByLock(h), lo, hi) == ProfitBetween(h, lo, hi)
  {
    if h != [] {
      SortKeepsProfit(h[1..], lo, hi);
      InsertKeepsProfit(h[0], SortedByLock(h[1..]), lo, hi);
      assert ([h[0]] + SortedByLock(h[1..]))[1..] == SortedByLock(h[1..]);
    }
  }

  function Prefix(s: seq<Sample>, k: nat): real
    requires k <= |s|
  {
    if k == 0 then 0.0 else Prefix(s, k - 1) + s[k - 1].profit
  }

  /** `k` samples are before `t`, and they come first. */
  predicate SplitsAt(s: seq<Sample>, t: int, k: nat) {
    && k <= |s|
    && (forall i :: 0 <= i < k ==> s[i].lockAt < t)
    && (forall i :: k <= i < |s| ==> t <= s[i].lockAt)
  }

  lemma {:induction false} ProfitSnoc(f: seq<Sample>, x: Sample, lo: int, hi: int)
    ensures ProfitBetween(f + [x], lo, hi) ==
            ProfitBetween(f, lo, hi) + if lo <= x.lockAt < hi then x.profit else 0.0
  {
    if f != [] {
      ProfitSnoc(f[1..], x, lo, hi);
      assert (f + [x])[1..] == f[1..] + [x];
    } else {
      assert [x][1..] == [];
    }
  }

  /** Two prefix sums around a time interval differ by the profit made in it. */
  lemma {:induction false} PrefixDifference(s: seq<Sample>, lo: int, hi: int, a: nat, b: nat)
    requires lo <= hi && SplitsAt(s, lo, a) && SplitsAt(s, hi, b)
    ensures a <= b && Prefix(s, b) - Prefix(s, a) == ProfitBetween(s, lo, hi)
  {
    if s == [] {
    } else {
      var n := |s| - 1;
      var f := s[..n];
      assert s == f + [s[n]];
      ProfitSnoc(f, s[n], lo, hi);
      PrefixDifference(f, lo, hi, if a > n then n else a, if b > n then n else b);
      PrefixOfFront(s, n, if a > n then n else a);
      PrefixOfFront(s, n, if b > n then n else b);
    }
  }

  lemma {:induction false} PrefixOfFront(s: seq<Sample>, n: nat, k: nat)
    requires k <= n <= |s|
    ensures Prefix(s[..n], k) == Prefix(s, k)
  {
    if k > 0 {
      PrefixOfFront(s, n, k - 1);
    }
  }

  /** bisect.bisect_left on the lock times. */
  method BisectLeft(s: seq<int>, t: int) returns (k: nat)
    requires forall i, j :: 0 <= i < j < |s| ==> s[i] <= s[j]
    ensures k <= |s|
    ensures forall i :: 0 <= i < k ==> s[i] < t
    ensures forall i :: k <= i < |s| ==> t <= s[i]
  {
    var lo, hi := 0, |s|;
    while lo < hi
      invariant 0 <= lo <= hi <= |s|
      invariant forall i :: 0 <= i < lo ==> s[i] < t
      invariant forall i :: hi <= i < |s| ==> t <= s[i]
    {
      var mid := (lo + hi) / 2;
      if s[mid] < t {
        lo := mid + 1;
      } else {
        hi := mid;
      }
    }
    k := lo;
  }

  class TrailingPnL {
    const lockAts: seq<int>
    const cumul: seq<real>
    ghost const history: seq<Sample>

    ghost predicate Valid() {
      var s := SortedByLock(history);
      && |lockAts| == |s| && |cumul| == |s| + 1
      && (forall k :: 0 <= k < |s| ==> lockAts[k] == s[k].lockAt)
      && (forall k :: 0 <= k <= |s| ==> cumul[k] == Prefix(s, k))
    }

    constructor (history: seq<Sample>)
      ensures Valid() && this.history == history
    {
      var s := SortedByLock(history);
      var locks: seq<int>, sums := [], [0.0];
      for i := 0 to |s|
        invariant |locks| == i && |sums| == i + 1
        invariant forall k :: 0 <= k < i ==> locks[k] == s[k].lockAt
        invariant forall k :: 0 <= k <= i ==> sums[k] == Prefix(s, k)
      {
        locks := locks + [s[i].lockAt];
        sums := sums + [sums[i] + s[i].profit];
      }
      lockAts, cumul := locks, sums;
      this.history := history;
    }

    /** Profit in the window just before `now`; a negative length counts backwards. */
    method Trailing(now: int, seconds: int) returns (r: real)
      requires Valid()
      ensures 0 <= seconds ==> r == ProfitBetween(history, now - seconds, now)
      ensures seconds < 0 ==> r == -ProfitBetween(history, now, now - seconds)
    {
      ghost var s := SortedByLock(history);
      SortOrders(history);
      assert forall i, j :: 0 <= i < j < |lockAts| ==> lockAts[i] <= lockAts[j] by {
        hide SortedByLock;
        assert forall i, j :: 0 <= i < j < |s| ==> s[i].lockAt <= s[j].lockAt;
      }
      hide SortedByLock, InTimeOrder;
      var lo := BisectLeft(lockAts, now - seconds);
      var hi := BisectLeft(lockAts, now);
      r := cumul[hi] - cumul[lo];
      if 0 <= seconds {
        PrefixDifference(s, now - seconds, now, lo, hi);
        SortKeepsProfit(history, now - seconds, now);
      } else {
        PrefixDifference(s, now, now - seconds, hi, lo);
        SortKeepsProfit(history, now, now - seconds);
      }
    }
  }

  // ----------------------------------------------------------------- latest update

  /** The greatest index with a time at or before `ts`, or none. */
  method LatestAt(times: seq<int>, ts: int) returns (idx: Option<nat>)
    requires forall i, j :: 0 <= i < j < |times| ==> times[i] <= times[j]
    ensures idx == None ==> forall i :: 0 <= i < |times| ==> ts < times[i]
    ensures idx.Some? ==> idx.value < |times| && times[idx.value] <= ts
    ensures idx.Some? ==> forall i :: idx.value < i < |times| ==> ts < times[i]
  {
    if times == [] || times[0] > ts {
      return None;
    }
    var lo, hi := 0, |times| - 1;
    while lo < hi
      invariant 0 <= lo <= hi < |times|
      invariant times[lo] <= ts
      invariant forall i :: hi < i < |times| ==> ts < times[i]
    {
      var mid := (lo + hi + 1) / 2;
      if times[mid] <= ts {
        lo := mid;
      } else {
        hi := mid - 1;
      }
    }
    idx := Some(lo);
  }

  // ----------------------------------------------------------------------- streaks

  datatype Round = Round(epoch: int, position: Option<string>)

  /** Length of the run of equal known positions that ends just before round `k`. */
  function StreakBefore(rs: seq<Round>, k: nat): nat
    requires k <= |rs|
  {
    if k == 0 || rs[k - 1].position == None then 0
    else if k >= 2 && rs[k - 2].position == rs[k - 1].position then 1 + StreakBefore(rs, k - 1)
    else 1
  }

  /** That run is all equal, and it cannot be extended. */
  lemma {:induction false} StreakIsMaximal(rs: seq<Round>, k: nat)
    requires k <= |rs|
    ensures var n := StreakBefore(rs, k);
            && n <= k
            && (forall i :: k - n <= i < k ==> rs[i].position.Some? && rs[i].position == rs[k - 1].position)
            && (n == 0 ==> k == 0 || rs[k - 1].position == None)
            && (0 < n < k ==> rs[k - n - 1].position != rs[k - 1].position)
  {
    if k >= 2 && rs[k - 1].position.Some? && rs[k - 2].position == rs[k - 1].position {
      StreakIsMaximal(rs, k - 1);
    }
  }

  /** What the loop stores under each epoch after `k` rounds: a later round overwrites an earlier one. */
  function Stored(rs: seq<Round>, k: nat): map<int, nat>
    requires k <= |rs|
  {
    if k == 0 then map[] else Stored(rs, k - 1)[rs[k - 1].epoch := StreakBefore(rs, k - 1)]
  }

  lemma {:induction false} StoredIsLast(rs: seq<Round>, n: nat, k: nat)
    requires k < n <= |rs|
    requires forall j :: k < j < n ==> rs[j].epoch != rs[k].epoch
    ensures rs[k].epoch in Stored(rs, n) && Stored(rs, n)[rs[k].epoch] == StreakBefore(rs, k)
  {
    hide StreakBefore;
    if k < n - 1 {
      StoredIsLast(rs, n - 1, k);
    }
  }

  /** One turn of the loop: the counter, its direction and the previous position. */
  lemma StreakStep(rs: seq<Round>, i: nat, current: nat, direction: Option<string>)
    requires i < |rs| && current == StreakBefore(rs, i)
    requires direction == if i == 0 then None else rs[i - 1].position
    ensures direction == None ==> current == 0
    ensures StreakBefore(rs, i + 1) ==
            if rs[i].position == None then 0 else if direction == rs[i].position then current + 1 else 1
  {
  }

  method Streaks(rs: seq<Round>) returns (byEpoch: map<int, nat>)
    ensures byEpoch == Stored(rs, |rs|)
  {
    hide StreakBefore;
    byEpoch := map[];
    var current: nat, direction: Option<string>, last: Option<string> := 0, None, None;
    StreakAtStart(rs);
    for i := 0 to |rs|
      invariant byEpoch == Stored(rs, i)
      invariant last == direction == if i == 0 then None else rs[i - 1].position
      invariant current == StreakBefore(rs, i)
    {
      StreakStep(rs, i, current, direction);
      var r := rs[i];
      byEpoch := byEpoch[r.epoch := if last == None then 0 else current];
      if r.position == None {
        current, direction, last := 0, None, None;
        continue;
      }
      if direction == r.position {
        current := current + 1;
      } else {
        direction, current := r.position, 1;
      }
      last := r.position;
    }
  }

  lemma StreakAtStart(rs: seq<Round>)
    ensures StreakBefore(rs, 0) == 0
  {
  }
}
