/**
 * find_best_window of research/hot_windows_step11_bonus_2026_05_26.py: the window of bets with
 * the largest total profit, found with two indices that only move forward.
 */
module BestWindow {
  import opened Basics
  import opened Sums

  datatype Bet = Bet(ts: int, profit: real, win: bool)

  /** The bets from `first` to `last` inclusive. */
  datatype Window = Window(first: nat, last: nat, profit: real, wins: nat)

  predicate Sorted(bets: seq<Bet>) {
    forall i, j :: 0 <= i < j < |bets| ==> bets[i].ts <= bets[j].ts
  }

  function Profit(bets: seq<Bet>, lo: nat, hi: nat): real
    requires lo <= hi <= |bets|
  {
    if lo == hi then 0.0 else Profit(bets, lo, hi - 1) + bets[hi - 1].profit
  }

  function Wins(bets: seq<Bet>, lo: nat, hi: nat): nat
    requires lo <= hi <= |bets|
  {
    if lo == hi then 0 else Wins(bets, lo, hi - 1) + if bets[hi - 1].win then 1 else 0
  }

  function ProfitOf(): Bet -> real {
    (b: Bet) => b.profit
  }

  /** Positions of the wins from `lo` to before `hi`. */
  function WonBetween(bets: seq<Bet>, lo: nat, hi: nat): set<int> {
    set k | 0 <= lo <= k < hi <= |bets| && bets[k].win
  }

  /** A window's profit is the sum, and its wins the number, over the bets in it. */
  lemma {:induction false} TotalsAre(bets: seq<Bet>, lo: nat, hi: nat)
    requires lo <= hi <= |bets|
    ensures Profit(bets, lo, hi) == Sum(bets[lo..hi], ProfitOf())
    ensures Wins(bets, lo, hi) == |WonBetween(bets, lo, hi)|
    decreases hi - lo
  {
    hide WonBetween;
    if lo == hi {
      NoneWon(bets, lo);
    } else {
      TotalsAre(bets, lo, hi - 1);
      assert bets[lo..hi] == bets[lo..hi - 1] + [bets[hi - 1]];
      SumSnoc(bets[lo..hi - 1], bets[hi - 1], ProfitOf());
      OneMore(bets, lo, hi);
    }
  }

  lemma NoneWon(bets: seq<Bet>, lo: nat)
    ensures |WonBetween(bets, lo, lo)| == 0
  {
    assert WonBetween(bets, lo, lo) == {};
  }

  lemma OneMore(bets: seq<Bet>, lo: nat, hi: nat)
    requires lo < hi <= |bets|
    ensures |WonBetween(bets, lo, hi)| == |WonBetween(bets, lo, hi - 1)| + if bets[hi - 1].win then 1 else 0
  {
    assert WonBetween(bets, lo, hi) == WonBetween(bets, lo, hi - 1) + if bets[hi - 1].win then {hi - 1} else {};
  }

  /** The first bet from `from` on that is too late for the window starting at bet `lo`. */
  function Reach(bets: seq<Bet>, lo: nat, from: nat, seconds: int): (hi: nat)
    requires lo <= from <= |bets|
    ensures from <= hi <= |bets|
    decreases |bets| - from
  {
    if from < |bets| && bets[from].ts - bets[lo].ts <= seconds then Reach(bets, lo, from + 1, seconds) else from
  }

  /** Where the window starting at bet `lo` ends. */
  function End(bets: seq<Bet>, lo: nat, seconds: int): (hi: nat)
    requires lo < |bets|
    ensures lo <= hi <= |bets|
  {
    Reach(bets, lo, lo, seconds)
  }

  /** In time order, a bet is in the window exactly when it is no later than `seconds` after its start. */
  lemma {:induction false} ReachSplits(bets: seq<Bet>, lo: nat, from: nat, seconds: int, k: nat)
    requires Sorted(bets) && lo <= from <= k < |bets|
    ensures k < Reach(bets, lo, from, seconds) <==> bets[k].ts - bets[lo].ts <= seconds
    decreases |bets| - from
  {
    if from < k {
      assert bets[from].ts <= bets[k].ts;
      if bets[from].ts - bets[lo].ts <= seconds {
        ReachSplits(bets, lo, from + 1, seconds, k);
      }
    }
  }

  lemma EndIsLatest(bets: seq<Bet>, lo: nat, seconds: int)
    requires Sorted(bets) && 0 <= seconds && lo < |bets|
    ensures lo < End(bets, lo, seconds)
    ensures forall k :: lo <= k < |bets| ==> (k < End(bets, lo, seconds) <==> bets[k].ts - bets[lo].ts <= seconds)
  {
    forall k: nat | lo <= k < |bets|
      ensures k < End(bets, lo, seconds) <==> bets[k].ts - bets[lo].ts <= seconds
    {
      ReachSplits(bets, lo, lo, seconds, k);
    }
  }

  lemma {:induction false} ReachFrom(bets: seq<Bet>, lo: nat, from: nat, to: nat, seconds: int)
    requires lo <= from <= to <= |bets|
    requires forall k :: from <= k < to ==> bets[k].ts - bets[lo].ts <= seconds
    ensures Reach(bets, lo, from, seconds) == Reach(bets, lo, to, seconds)
    decreases |bets| - from
  {
    if from < to {
      ReachFrom(bets, lo, from + 1, to, seconds);
    }
  }

  /** What one window reached, the next one reaches too. */
  lemma EndMovesForward(bets: seq<Bet>, i: nat, seconds: int)
    requires Sorted(bets) && 0 <= seconds && i + 1 < |bets|
    ensures i + 1 <= End(bets, i, seconds)
    ensures End(bets, i + 1, seconds) == Reach(bets, i + 1, End(bets, i, seconds), seconds)
  {
    EndIsLatest(bets, i, seconds);
    assert bets[i].ts <= bets[i + 1].ts;
    ReachFrom(bets, i + 1, i + 1, End(bets, i, seconds), seconds);
  }

  lemma {:induction false} DropFirst(bets: seq<Bet>, lo: nat, hi: nat)
    requires lo < hi <= |bets|
    ensures Profit(bets, lo, hi) == bets[lo].profit + Profit(bets, lo + 1, hi)
  {
    if lo + 1 < hi {
      DropFirst(bets, lo, hi - 1);
    } else {
      assert Profit(bets, lo, lo) == 0.0;
    }
  }

  /** `w` is the window of the first start before `n` whose window earns most. */
  ghost predicate BestBefore(bets: seq<Bet>, seconds: int, w: Window, n: nat)
    requires n <= |bets|
  {
    && w.first < n && w.last + 1 == End(bets, w.first, seconds)
    && w.first <= w.last && w.profit == Profit(bets, w.first, w.last + 1)
    && (forall lo :: 0 <= lo < n ==> Profit(bets, lo, End(bets, lo, seconds)) <= w.profit)
    && (forall lo :: 0 <= lo < w.first ==> Profit(bets, lo, End(bets, lo, seconds)) < w.profit)
  }

  /** The start considered next either takes over, by earning strictly more, or changes nothing. */
  lemma BestStep(bets: seq<Bet>, seconds: int, best: Option<Window>, i: nat, next: Window)
    requires i < |bets| && 0 < End(bets, i, seconds) && i < End(bets, i, seconds)
    requires best == None <==> i == 0
    requires best.Some? ==> BestBefore(bets, seconds, best.value, i)
    requires var sum := Profit(bets, i, End(bets, i, seconds));
             next == if best == None || sum > best.value.profit then Window(i, End(bets, i, seconds) - 1, sum, 0)
                     else best.value
    ensures BestBefore(bets, seconds, next, i + 1)
  {
  }

  /** `moves` counts how often an index moves: each of the two passes over every bet at most once. */
  method FindBestWindow(bets: seq<Bet>, seconds: int) returns (best: Option<Window>, ghost moves: nat)
    requires Sorted(bets) && 0 <= seconds
    ensures best == None <==> bets == []
    ensures best.Some? ==> BestBefore(bets, seconds, best.value, |bets|)
    ensures best.Some? ==> best.value.wins == Wins(bets, best.value.first, best.value.last + 1)
    ensures moves <= 2 * |bets|
  {
    hide Sorted, BestBefore, Wins;
    moves := 0;
    if bets == [] {
      return None, 0;
    }
    best := None;
    var j, sum := 0, 0.0;
    for i := 0 to |bets|
      invariant i <= j <= |bets| && moves == i + j
      invariant sum == Profit(bets, i, j)
      invariant i < |bets| ==> End(bets, i, seconds) == Reach(bets, i, j, seconds)
      invariant best == None <==> i == 0
      invariant best.Some? ==> BestBefore(bets, seconds, best.value, i)
    {
      while j < |bets| && bets[j].ts - bets[i].ts <= seconds
        invariant i <= j <= |bets| && moves == i + j
        invariant sum == Profit(bets, i, j)
        invariant End(bets, i, seconds) == Reach(bets, i, j, seconds)
      {
        sum := sum + bets[j].profit;
        j := j + 1;
        moves := moves + 1;
      }
      assert j == End(bets, i, seconds);
      EndIsLatest(bets, i, seconds);
      ghost var before := best;
      if best == None || sum > best.value.profit {
        best := Some(Window(i, j - 1, sum, 0));
      }
      BestStep(bets, seconds, before, i, best.value);
      DropFirst(bets, i, j);
      sum := sum - bets[i].profit;
      moves := moves + 1;
      if i + 1 < |bets| {
        EndMovesForward(bets, i, seconds);
      }
    }
    BestInRange(bets, seconds, best.value);
    var wins := Wins(bets, best.value.first, best.value.last + 1);
    WinsAreBeside(bets, seconds, best.value, wins);
    best := Some(best.value.(wins := wins));
  }

  lemma BestInRange(bets: seq<Bet>, seconds: int, w: Window)
    requires BestBefore(bets, seconds, w, |bets|)
    ensures w.first <= w.last < |bets|
  {
  }

  lemma WinsAreBeside(bets: seq<Bet>, seconds: int, w: Window, wins: nat)
    requires BestBefore(bets, seconds, w, |bets|)
    ensures BestBefore(bets, seconds, w.(wins := wins), |bets|)
  {
  }
}
