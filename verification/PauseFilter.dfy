/**
 * The win-rate pause filter of research/bankroll_scale_rerun_step7_2026_05_26.py: a streaming
 * pass with a bounded window and a `paused` flag, against a closed form that says of each
 * bet, from the outcomes before it alone, whether it is skipped.
 */
module PauseFilter {
  import opened Basics
  import opened Sums

  datatype Bet = Bet(cohort: string, win: bool, profit: real)

  datatype Stats = Stats(
    takenProfit: real, takenBets: nat, takenWins: nat,
    skippedBets: nat, skippedProfit: real, offered: nat)

  datatype FilterResult = FilterResult(
    takenProfit: real, takenBets: nat, takenWins: nat, takenWinRate: real, skippedBets: nat, offered: nat,
    pauseEvents: nat, meanRun: real, maxRun: int, byCohort: map<string, Stats>)

  // ------------------------------------------------------------------- closed form

  function Outcome(b: Bet): int {
    if b.win then 1 else 0
  }

  function Outcomes(bets: seq<Bet>): (s: seq<int>)
    ensures |s| == |bets|
  {
    if bets == [] then [] else Outcomes(bets[..|bets| - 1]) + [Outcome(bets[|bets| - 1])]
  }

  /** Wins among the `n` bets just before bet `k`. */
  function RecentWins(bets: seq<Bet>, n: nat, k: nat): int
    requires n <= k <= |bets|
  {
    SumInts(Outcomes(bets[k - n..k]))
  }

  /** Bet `k` is skipped when the `n` bets before it exist and won less than `x` of the time. */
  predicate Skipped(bets: seq<Bet>, n: nat, x: real, k: nat)
    requires k <= |bets|
  {
    n <= k && RecentWins(bets, n, k) as real < x * n as real
  }

  function Flags(bets: seq<Bet>, n: nat, x: real): (f: seq<bool>)
    ensures |f| == |bets|
    ensures forall k :: 0 <= k < |bets| ==> f[k] == Skipped(bets, n, x, k)
  {
    seq(|bets|, k requires 0 <= k < |bets| => Skipped(bets, n, x, k))
  }

  // ----------------------------------------------------------------------- tallies

  function Tally(s: Stats, b: Bet, skipped: bool): Stats {
    if skipped then
      s.(skippedBets := s.skippedBets + 1, skippedProfit := s.skippedProfit + b.profit, offered := s.offered + 1)
    else
      s.(takenBets := s.takenBets + 1, takenProfit := s.takenProfit + b.profit,
         takenWins := s.takenWins + (if b.win then 1 else 0), offered := s.offered + 1)
  }

  const NOTHING := Stats(0.0, 0, 0, 0, 0.0, 0)

  /** The tally of the bets of one cohort, or of all bets. */
  function StatsOf(bets: seq<Bet>, flags: seq<bool>, cohort: Option<string>): Stats
    requires |bets| == |flags|
  {
    if bets == [] then NOTHING else
      var n := |bets| - 1;
      var before := StatsOf(bets[..n], flags[..n], cohort);
      if cohort == None || cohort.value == bets[n].cohort then Tally(before, bets[n], flags[n]) else before
  }

  /** Lengths of the maximal runs of skipped bets, in order. */
  function RunsOf(flags: seq<bool>): (r: seq<nat>)
    ensures flags != [] && flags[|flags| - 1] ==> r != []
  {
    if flags == [] then [] else
      var n := |flags| - 1;
      var before := RunsOf(flags[..n]);
      if !flags[n] then before
      else if n > 0 && flags[n - 1] then before[|before| - 1 := before[|before| - 1] + 1]
      else before + [1]
  }

  /** How often skipping starts among the first `m` positions after the first bet. */
  function Starts(bets: seq<Bet>, n: nat, x: real, m: nat): nat
    requires m <= |bets|
  {
    if m == 0 then 0 else
      Starts(bets, n, x, m - 1) + if Skipped(bets, n, x, m) && !Skipped(bets, n, x, m - 1) then 1 else 0
  }

  // --------------------------------------------------------------------- streaming

  /** What the bounded window holds before bet `i`: the outcomes of up to `n` bets before it. */
  function Window(bets: seq<Bet>, n: nat, i: nat): seq<int>
    requires i <= |bets|
  {
    Outcomes(bets[(if i >= n then i - n else 0)..i])
  }

  function Push(window: seq<int>, n: nat, outcome: int): seq<int>
    requires n >= 1
  {
    (if |window| == n then window[1..] else window) + [outcome]
  }

  lemma WindowSlides(bets: seq<Bet>, i: nat, n: nat)
    requires i < |bets| && n >= 1
    ensures Push(Window(bets, n, i), n, Outcome(bets[i])) == Window(bets, n, i + 1)
  {
    var lo := if i >= n then i - n else 0;
    assert bets[lo..i + 1][..i - lo] == bets[lo..i];
    assert Outcomes(bets[lo..i + 1]) == Outcomes(bets[lo..i]) + [Outcome(bets[i])];
    if i - lo == n {
      OutcomesTail(bets[lo..i + 1]);
      assert bets[lo..i + 1][1..] == bets[lo + 1..i + 1];
    }
  }

  lemma {:induction false} OutcomesTail(bets: seq<Bet>)
    requires bets != []
    ensures Outcomes(bets)[1..] == Outcomes(bets[1..])
  {
    var n := |bets| - 1;
    if n > 0 {
      OutcomesTail(bets[..n]);
      assert bets[1..][..n - 1] == bets[..n][1..];
    }
  }

  lemma RateBelow(wins: int, n: nat, x: real)
    requires n >= 1
    ensures wins as real / n as real < x <==> (wins as real) < x * n as real
  {
    QuotientAtLeast(wins as real, n as real, x);
  }

  /** After the update the window decides exactly what the closed form says of the next bet. */
  lemma WindowDecides(bets: seq<Bet>, i: nat, n: nat, x: real)
    requires i <= |bets| && n >= 1
    ensures var w := Window(bets, n, i);
            Skipped(bets, n, x, i) <==> |w| >= n && SumInts(w) as real / n as real < x
  {
    RateBelow(SumInts(Window(bets, n, i)), n, x);
  }

  lemma StatsStep(bets: seq<Bet>, flags: seq<bool>, i: nat, cohort: Option<string>)
    requires |bets| == |flags| && i < |bets|
    ensures var before := StatsOf(bets[..i], flags[..i], cohort);
            StatsOf(bets[..i + 1], flags[..i + 1], cohort) ==
            if cohort == None || cohort.value == bets[i].cohort then Tally(before, bets[i], flags[i]) else before
  {
    assert bets[..i + 1][..i] == bets[..i] && flags[..i + 1][..i] == flags[..i];
  }

  lemma RunsStep(flags: seq<bool>, i: nat, runs: seq<nat>, current: nat)
    requires i < |flags|
    requires current > 0 <==> i > 0 && flags[i - 1]
    requires RunsOf(flags[..i]) == if current > 0 then runs + [current] else runs
    ensures RunsOf(flags[..i + 1]) ==
            if flags[i] then runs + [current + 1] else if current > 0 then runs + [current] else runs
  {
    assert flags[..i + 1][..i] == flags[..i];
  }

  predicate CohortsTallied(
    byCohort: map<string, Stats>, cohorts: set<string>, bets: seq<Bet>, flags: seq<bool>, i: nat)
    requires |bets| == |flags| && i <= |bets|
  {
    && byCohort.Keys == cohorts
    && forall c :: c in cohorts ==> byCohort[c] == StatsOf(bets[..i], flags[..i], Some(c))
  }

  lemma CohortsStep(
    byCohort: map<string, Stats>, cohorts: set<string>, bets: seq<Bet>, flags: seq<bool>, i: nat)
    requires |bets| == |flags| && i < |bets| && bets[i].cohort in cohorts
    requires CohortsTallied(byCohort, cohorts, bets, flags, i)
    ensures CohortsTallied(byCohort[bets[i].cohort := Tally(byCohort[bets[i].cohort], bets[i], flags[i])],
                           cohorts, bets, flags, i + 1)
  {
    hide Tally, StatsOf;
    forall c | c in cohorts
      ensures byCohort[bets[i].cohort := Tally(byCohort[bets[i].cohort], bets[i], flags[i])][c]
              == StatsOf(bets[..i + 1], flags[..i + 1], Some(c))
    {
      StatsStep(bets, flags, i, Some(c));
    }
  }

  lemma {:induction false} OfferedIsAll(bets: seq<Bet>, flags: seq<bool>)
    requires |bets| == |flags|
    ensures var s := StatsOf(bets, flags, None);
            s.takenBets + s.skippedBets == s.offered == |bets|
  {
    if bets != [] {
      OfferedIsAll(bets[..|bets| - 1], flags[..|bets| - 1]);
    }
  }

  /** The report of a pass over `bets`, in terms of which bets are skipped. */
  ghost predicate Reports(r: FilterResult, bets: seq<Bet>, cohorts: set<string>, n: nat, x: real) {
    var flags := Flags(bets, n, x);
    var all, runs := StatsOf(bets, flags, None), RunsOf(flags);
    && r.takenProfit == all.takenProfit && r.takenBets == all.takenBets && r.takenWins == all.takenWins
    && r.takenWinRate == SafeRate(all.takenWins, all.takenBets)
    && r.skippedBets == all.skippedBets && r.offered == |bets|
    && r.pauseEvents == Starts(bets, n, x, |bets|)
    && r.meanRun == SafeRate(all.skippedBets, |runs|)
    && (if runs == [] then r.maxRun == 0 else r.maxRun in runs && forall k :: k in runs ==> k <= r.maxRun)
    && r.byCohort.Keys == cohorts
    && forall c :: c in cohorts ==> r.byCohort[c] == StatsOf(bets, flags, Some(c))
  }

  /** The dictionary returned for these totals. */
  function ReportOf(all: Stats, pauseEvents: nat, runs: seq<nat>, byCohort: map<string, Stats>): FilterResult {
    FilterResult(all.takenProfit, all.takenBets, all.takenWins,
                 if all.takenBets > 0 then all.takenWins as real / all.takenBets as real else 0.0,
                 all.skippedBets, all.takenBets + all.skippedBets, pauseEvents,
                 if runs != [] then SumInts(runs) as real / |runs| as real else 0.0,
                 if runs != [] then MaxInt(runs) else 0, byCohort)
  }

  lemma ReportOfReports(bets: seq<Bet>, cohorts: set<string>, n: nat, x: real, r: FilterResult, byCohort: map<string, Stats>)
    requires r == ReportOf(StatsOf(bets, Flags(bets, n, x), None), Starts(bets, n, x, |bets|), RunsOf(Flags(bets, n, x)), byCohort)
    requires CohortsTallied(byCohort, cohorts, bets, Flags(bets, n, x), |bets|)
    ensures Reports(r, bets, cohorts, n, x)
  {
    hide StatsOf, RunsOf, Starts, SumInts;
    var flags := Flags(bets, n, x);
    OfferedIsAll(bets, flags);
    RunsAddUp(bets, flags);
    assert bets[..|bets|] == bets && flags[..|bets|] == flags;
  }

  // ---------------------------------------------------- the books, by position

  predicate Within(b: Bet, cohort: Option<string>) {
    cohort == None || cohort.value == b.cohort
  }

  /** Positions of the bets of a cohort that are let through, or that are held back. */
  function Chosen(bets: seq<Bet>, n: nat, x: real, cohort: Option<string>, held: bool): (keep: seq<bool>)
    ensures |keep| == |bets|
  {
    seq(|bets|, k requires 0 <= k < |bets| => Within(bets[k], cohort) && Skipped(bets, n, x, k) == held)
  }

  /** Profit of the bets at the marked positions. */
  function ProfitAt(bets: seq<Bet>, keep: seq<bool>): real
    requires |keep| == |bets|
  {
    if bets == [] then 0.0 else
      var m := |bets| - 1;
      ProfitAt(bets[..m], keep[..m]) + if keep[m] then bets[m].profit else 0.0
  }

  /** The marked positions, and those of them with a win. */
  function Marked(keep: seq<bool>): set<int> {
    set k | 0 <= k < |keep| && keep[k]
  }

  function WonAt(bets: seq<Bet>, keep: seq<bool>): set<int>
    requires |keep| == |bets|
  {
    set k | 0 <= k < |keep| && keep[k] && bets[k].win
  }

  /** Taken and skipped profit are summed, and bets and wins counted, over the positions of each kind. */
  ghost predicate Booked(s: Stats, bets: seq<Bet>, n: nat, x: real, cohort: Option<string>) {
    var taken, held := Chosen(bets, n, x, cohort, false), Chosen(bets, n, x, cohort, true);
    && s.takenProfit == ProfitAt(bets, taken) && s.skippedProfit == ProfitAt(bets, held)
    && s.takenBets == |Marked(taken)| && s.skippedBets == |Marked(held)|
    && s.takenWins == |WonAt(bets, taken)|
    && s.offered == s.takenBets + s.skippedBets
  }

  function Mask(bets: seq<Bet>, flags: seq<bool>, cohort: Option<string>, held: bool): (keep: seq<bool>)
    requires |bets| == |flags|
    ensures |keep| == |bets|
  {
    seq(|bets|, k requires 0 <= k < |bets| => Within(bets[k], cohort) && flags[k] == held)
  }

  lemma MarkedSnoc(bets: seq<Bet>, keep: seq<bool>)
    requires |keep| == |bets| && bets != []
    ensures var m := |bets| - 1;
            && |Marked(keep)| == |Marked(keep[..m])| + (if keep[m] then 1 else 0)
            && |WonAt(bets, keep)| == |WonAt(bets[..m], keep[..m])| + (if keep[m] && bets[m].win then 1 else 0)
  {
    var m := |bets| - 1;
    assert Marked(keep) == Marked(keep[..m]) + if keep[m] then {m} else {};
    assert WonAt(bets, keep) == WonAt(bets[..m], keep[..m]) + if keep[m] && bets[m].win then {m} else {};
  }

  lemma {:induction false} StatsAre(bets: seq<Bet>, flags: seq<bool>, cohort: Option<string>)
    requires |bets| == |flags|
    ensures var taken, held := Mask(bets, flags, cohort, false), Mask(bets, flags, cohort, true);
            StatsOf(bets, flags, cohort) ==
            Stats(ProfitAt(bets, taken), |Marked(taken)|, |WonAt(bets, taken)|, |Marked(held)|, ProfitAt(bets, held),
                  |Marked(taken)| + |Marked(held)|)
  {
    hide Marked, WonAt;
    var taken, held := Mask(bets, flags, cohort, false), Mask(bets, flags, cohort, true);
    if bets == [] {
      NothingMarked(taken, bets);
      NothingMarked(held, bets);
    } else {
      var m := |bets| - 1;
      StatsAre(bets[..m], flags[..m], cohort);
      assert taken[..m] == Mask(bets[..m], flags[..m], cohort, false);
      assert held[..m] == Mask(bets[..m], flags[..m], cohort, true);
      MarkedSnoc(bets, taken);
      MarkedSnoc(bets, held);
    }
  }

  lemma NothingMarked(keep: seq<bool>, bets: seq<Bet>)
    requires |keep| == |bets| == 0
    ensures |Marked(keep)| == 0 && |WonAt(bets, keep)| == 0
  {
    assert Marked(keep) == {} && WonAt(bets, keep) == {};
  }

  lemma FlagsAreBooked(bets: seq<Bet>, n: nat, x: real, cohort: Option<string>)
    ensures Booked(StatsOf(bets, Flags(bets, n, x), cohort), bets, n, x, cohort)
  {
    hide StatsOf, ProfitAt, Marked, WonAt, Skipped;
    var flags := Flags(bets, n, x);
    StatsAre(bets, flags, cohort);
    assert Mask(bets, flags, cohort, false) == Chosen(bets, n, x, cohort, false);
    assert Mask(bets, flags, cohort, true) == Chosen(bets, n, x, cohort, true);
  }

  /** The skip rule in terms of the bets: the `n` before bet `k` exist and too small a share of them won. */
  lemma SkippedExactlyWhen(bets: seq<Bet>, n: nat, x: real, k: nat)
    requires k <= |bets| && 1 <= n
    ensures Skipped(bets, n, x, k) <==>
            n <= k && |WonBetween(bets, k - n, k)| as real / n as real < x
  {
    hide WonBetween, SumInts, Outcomes;
    if n <= k {
      WinsAreCounted(bets, k - n, k);
      RateBelow(RecentWins(bets, n, k), n, x);
    }
  }

  /** Which of the bets from `lo` to before `hi` won. */
  function WonBetween(bets: seq<Bet>, lo: nat, hi: nat): set<int>
    requires lo <= hi <= |bets|
  {
    set j | lo <= j < hi && bets[j].win
  }

  lemma WonBetweenSnoc(bets: seq<Bet>, lo: nat, hi: nat)
    requires lo < hi <= |bets|
    ensures |WonBetween(bets, lo, hi)| == |WonBetween(bets, lo, hi - 1)| + if bets[hi - 1].win then 1 else 0
  {
    assert WonBetween(bets, lo, hi) == WonBetween(bets, lo, hi - 1) + if bets[hi - 1].win then {hi - 1} else {};
  }

  lemma {:induction false} WinsAreCounted(bets: seq<Bet>, lo: nat, hi: nat)
    requires lo <= hi <= |bets|
    ensures SumInts(Outcomes(bets[lo..hi])) == |WonBetween(bets, lo, hi)|
    decreases hi
  {
    if lo == hi {
      assert WonBetween(bets, lo, hi) == {};
    } else {
      hide WonBetween;
      WinsAreCounted(bets, lo, hi - 1);
      WonBetweenSnoc(bets, lo, hi);
      assert bets[lo..hi][..hi - lo - 1] == bets[lo..hi - 1];
    }
  }

  datatype Error = DivisionByZero

  /** A window of no bets divides by zero at the first bet. */
  method ApplyWrFilter(bets: seq<Bet>, cohorts: set<string>, n: nat, x: real) returns (r: Result<FilterResult, Error>)
    requires forall k :: 0 <= k < |bets| ==> bets[k].cohort in cohorts
    ensures r.Err? <==> n == 0 && bets != []
    ensures r.Ok? ==> Reports(r.value, bets, cohorts, n, x)
    ensures r.Ok? ==> forall c :: c in cohorts ==> Booked(r.value.byCohort[c], bets, n, x, Some(c))
    ensures r.Ok? ==>
      var taken, held := Chosen(bets, n, x, None, false), Chosen(bets, n, x, None, true);
      && r.value.takenProfit == ProfitAt(bets, taken) && r.value.takenBets == |Marked(taken)|
      && r.value.takenWins == |WonAt(bets, taken)| && r.value.skippedBets == |Marked(held)|
  {
    BooksOf(bets, cohorts, n, x);
    hide StatsOf, ProfitAt, Marked, WonAt, Chosen, Booked;
    if bets == [] {
      return Ok(FilterResult(0.0, 0, 0, 0.0, 0, 0, 0, 0.0, 0, map c | c in cohorts :: NOTHING));
    }
    if n == 0 {
      return Err(DivisionByZero);
    }
    var report := Pass(bets, cohorts, n, x);
    r := Ok(report);
  }

  lemma BooksOf(bets: seq<Bet>, cohorts: set<string>, n: nat, x: real)
    ensures forall c :: c in cohorts ==> Booked(StatsOf(bets, Flags(bets, n, x), Some(c)), bets, n, x, Some(c))
    ensures var s := StatsOf(bets, Flags(bets, n, x), None);
            var taken, held := Chosen(bets, n, x, None, false), Chosen(bets, n, x, None, true);
            && s.takenProfit == ProfitAt(bets, taken) && s.takenBets == |Marked(taken)|
            && s.takenWins == |WonAt(bets, taken)| && s.skippedBets == |Marked(held)|
    ensures bets == [] ==> forall c: Option<string> :: StatsOf(bets, Flags(bets, n, x), c) == NOTHING
  {
    hide Marked, WonAt, ProfitAt, Chosen, Skipped;
    forall c | c in cohorts {
      FlagsAreBooked(bets, n, x, Some(c));
    }
    FlagsAreBooked(bets, n, x, None);
  }

  method Pass(bets: seq<Bet>, cohorts: set<string>, n: nat, x: real) returns (r: FilterResult)
    requires n >= 1
    requires forall k :: 0 <= k < |bets| ==> bets[k].cohort in cohorts
    ensures Reports(r, bets, cohorts, n, x)
  {
    hide StatsOf, RunsOf, Tally, SumInts, Skipped, Window, Outcome, CohortsTallied, Reports, ReportOf;
    ghost var flags := Flags(bets, n, x);
    var window: seq<int> := [];
    var paused := false;
    var all := NOTHING;
    var byCohort := map c | c in cohorts :: NOTHING;
    var pauseEvents: nat, runs: seq<nat>, currentRun: nat := 0, [], 0;
    NothingTallied(byCohort, cohorts, bets, flags);
    WindowDecides(bets, 0, n, x);
    for i := 0 to |bets|
      invariant window == Window(bets, n, i)
      invariant paused == Skipped(bets, n, x, i)
      invariant all == StatsOf(bets[..i], flags[..i], None)
      invariant CohortsTallied(byCohort, cohorts, bets, flags, i)
      invariant pauseEvents == Starts(bets, n, x, i)
      invariant currentRun > 0 <==> i > 0 && flags[i - 1]
      invariant RunsOf(flags[..i]) == if currentRun > 0 then runs + [currentRun] else runs
    {
      var b := bets[i];
      StatsStep(bets, flags, i, None);
      all := Tally(all, b, paused);
      CohortsStep(byCohort, cohorts, bets, flags, i);
      TalliedKeys(byCohort, cohorts, bets, flags, i);
      byCohort := byCohort[b.cohort := Tally(byCohort[b.cohort], b, paused)];
      RunsStep(flags, i, runs, currentRun);
      if paused {
        currentRun := currentRun + 1;
      } else if currentRun > 0 {
        runs := runs + [currentRun];
        currentRun := 0;
      }
      WindowSlides(bets, i, n);
      window := Push(window, n, Outcome(b));
      WindowDecides(bets, i, n, x);
      WindowDecides(bets, i + 1, n, x);
      if |window| >= n {
        var rate := SumInts(window) as real / n as real;
        if !paused && rate < x {
          paused := true;
          pauseEvents := pauseEvents + 1;
        } else if paused && rate >= x {
          paused := false;
        }
      }
    }
    if currentRun > 0 {
      runs := runs + [currentRun];
    }
    assert bets[..|bets|] == bets && flags[..|bets|] == flags;
    TalliedKeys(byCohort, cohorts, bets, flags, |bets|);
    r := ReportOf(all, pauseEvents, runs, byCohort);
    ReportOfReports(bets, cohorts, n, x, r, byCohort);
  }

  lemma NothingTallied(byCohort: map<string, Stats>, cohorts: set<string>, bets: seq<Bet>, flags: seq<bool>)
    requires |bets| == |flags| && byCohort == map c | c in cohorts :: NOTHING
    ensures CohortsTallied(byCohort, cohorts, bets, flags, 0)
    ensures StatsOf(bets[..0], flags[..0], None) == NOTHING && RunsOf(flags[..0]) == []
    ensures forall n :: Window(bets, n, 0) == []
  {
  }

  lemma TalliedKeys(
    byCohort: map<string, Stats>, cohorts: set<string>, bets: seq<Bet>, flags: seq<bool>, i: nat)
    requires |bets| == |flags| && i <= |bets| && CohortsTallied(byCohort, cohorts, bets, flags, i)
    ensures byCohort.Keys == cohorts
    ensures forall c :: c in cohorts ==> byCohort[c] == StatsOf(bets[..i], flags[..i], Some(c))
  {
  }

  // ------------------------------------------------------------------------- laws

  function NoFlags(n: nat): seq<bool> {
    seq(n, _ => false)
  }

  /** What the unfiltered baseline tallies: every bet taken. */
  function Baseline(bets: seq<Bet>, cohort: Option<string>): Stats {
    StatsOf(bets, NoFlags(|bets|), cohort)
  }

  predicate BaselineTallied(byCohort: map<string, Stats>, cohorts: set<string>, bets: seq<Bet>) {
    && byCohort.Keys == cohorts
    && forall c :: c in cohorts ==> byCohort[c] == Baseline(bets, Some(c))
  }

  lemma BaselineStep(bets: seq<Bet>, i: nat, cohort: Option<string>)
    requires i < |bets|
    ensures var before := Baseline(bets[..i], cohort);
            Baseline(bets[..i + 1], cohort) ==
            if cohort == None || cohort.value == bets[i].cohort then Tally(before, bets[i], false) else before
  {
    assert bets[..i + 1][..i] == bets[..i];
    assert NoFlags(i + 1)[..i] == NoFlags(i);
  }

  lemma BaselineCohorts(byCohort: map<string, Stats>, cohorts: set<string>, bets: seq<Bet>, i: nat)
    requires i < |bets| && bets[i].cohort in cohorts && BaselineTallied(byCohort, cohorts, bets[..i])
    ensures BaselineTallied(byCohort[bets[i].cohort := Tally(byCohort[bets[i].cohort], bets[i], false)],
                            cohorts, bets[..i + 1])
  {
    hide Tally, Baseline;
    forall c | c in cohorts
      ensures byCohort[bets[i].cohort := Tally(byCohort[bets[i].cohort], bets[i], false)][c]
              == Baseline(bets[..i + 1], Some(c))
    {
      BaselineStep(bets, i, Some(c));
    }
  }

  method BaselineUnfiltered(bets: seq<Bet>, cohorts: set<string>) returns (all: Stats, winRate: real, byCohort: map<string, Stats>)
    requires forall k :: 0 <= k < |bets| ==> bets[k].cohort in cohorts
    ensures all == Baseline(bets, None) && all.takenBets == |bets|
    ensures winRate == SafeRate(all.takenWins, |bets|)
    ensures BaselineTallied(byCohort, cohorts, bets)
    ensures all.takenProfit == Sum(bets, ProfitOf()) && all.takenWins == |WonBetween(bets, 0, |bets|)|
    ensures all.skippedBets == 0 && all.skippedProfit == 0.0
    ensures forall c :: c in cohorts ==>
      && byCohort[c].takenProfit == ProfitAt(bets, Members(bets, c))
      && byCohort[c].takenBets == |Marked(Members(bets, c))| && byCohort[c].takenWins == |WonAt(bets, Members(bets, c))|
  {
    hide Tally, StatsOf, Sum, WonBetween, ProfitAt, Marked, WonAt;
    all := NOTHING;
    byCohort := map c | c in cohorts :: NOTHING;
    BaselineOfNothing(bets);
    for i := 0 to |bets|
      invariant all == Baseline(bets[..i], None)
      invariant BaselineTallied(byCohort, cohorts, bets[..i])
    {
      var b := bets[i];
      BaselineStep(bets, i, None);
      BaselineCohorts(byCohort, cohorts, bets, i);
      all := Tally(all, b, false);
      byCohort := byCohort[b.cohort := Tally(byCohort[b.cohort], b, false)];
    }
    assert bets[..|bets|] == bets;
    AllAreTaken(bets);
    BaselineIsPlain(bets, |bets|);
    forall c | c in cohorts {
      MembersAreTallied(bets, c);
    }
    winRate := SafeRate(all.takenWins, |bets|);
  }

  lemma {:induction false} AllAreTaken(bets: seq<Bet>)
    ensures Baseline(bets, None).takenBets == |bets|
  {
    if bets != [] {
      var n := |bets| - 1;
      AllAreTaken(bets[..n]);
      BaselineStep(bets, n, None);
      assert bets[..n + 1] == bets;
    }
  }

  function ProfitOf(): Bet -> real {
    (b: Bet) => b.profit
  }

  /** The baseline is the plain sum of profits and count of wins. */
  lemma {:induction false} BaselineIsPlain(bets: seq<Bet>, i: nat)
    requires i <= |bets|
    ensures var all := Baseline(bets[..i], None);
            && all.takenProfit == Sum(bets[..i], ProfitOf()) && all.takenWins == |WonBetween(bets, 0, i)|
            && all.skippedBets == 0 && all.skippedProfit == 0.0
    decreases i
  {
    hide WonBetween, Baseline;
    if i == 0 {
      BaselineOfNothing(bets);
      NoneWon(bets, 0);
    } else {
      BaselineIsPlain(bets, i - 1);
      BaselineStep(bets, i - 1, None);
      WonBetweenSnoc(bets, 0, i);
      assert bets[..i][..i - 1] == bets[..i - 1];
    }
  }

  /** Positions of the bets of one cohort. */
  function Members(bets: seq<Bet>, cohort: string): (keep: seq<bool>)
    ensures |keep| == |bets|
  {
    seq(|bets|, k requires 0 <= k < |bets| => bets[k].cohort == cohort)
  }

  lemma MembersAreTallied(bets: seq<Bet>, cohort: string)
    ensures var s := Baseline(bets, Some(cohort));
            && s.takenProfit == ProfitAt(bets, Members(bets, cohort))
            && s.takenBets == |Marked(Members(bets, cohort))| && s.takenWins == |WonAt(bets, Members(bets, cohort))|
  {
    hide StatsOf, ProfitAt, Marked, WonAt;
    StatsAre(bets, NoFlags(|bets|), Some(cohort));
    assert Mask(bets, NoFlags(|bets|), Some(cohort), false) == Members(bets, cohort);
  }

  lemma NoneWon(bets: seq<Bet>, lo: nat)
    requires lo <= |bets|
    ensures |WonBetween(bets, lo, lo)| == 0
  {
    assert WonBetween(bets, lo, lo) == {};
  }

  lemma BaselineOfNothing(bets: seq<Bet>)
    ensures forall c :: Baseline(bets[..0], c) == NOTHING
  {
  }

  /** Taken and skipped add up to the baseline, overall and in each cohort, in profit and in number. */
  lemma {:induction false} TakenPlusSkipped(bets: seq<Bet>, flags: seq<bool>, cohort: Option<string>)
    requires |bets| == |flags|
    ensures var s, all := StatsOf(bets, flags, cohort), Baseline(bets, cohort);
            && s.takenProfit + s.skippedProfit == all.takenProfit
            && s.takenBets + s.skippedBets == s.offered == all.takenBets
            && s.takenWins <= all.takenWins
  {
    if bets != [] {
      var n := |bets| - 1;
      TakenPlusSkipped(bets[..n], flags[..n], cohort);
      assert bets[..n + 1] == bets;
      BaselineStep(bets, n, cohort);
    }
  }

  /** The run lengths add up to the number of skipped bets. */
  lemma {:induction false} RunsAddUp(bets: seq<Bet>, flags: seq<bool>)
    requires |bets| == |flags|
    ensures SumInts(RunsOf(flags)) == StatsOf(bets, flags, None).skippedBets
  {
    if bets != [] {
      var n := |bets| - 1;
      var runs := RunsOf(flags[..n]);
      RunsAddUp(bets[..n], flags[..n]);
      assert flags[..n + 1] == flags;
      if flags[n] {
        if n > 0 && flags[n - 1] {
          var m := |runs| - 1;
          assert runs[m := runs[m] + 1][..m] == runs[..m];
        } else {
          assert (runs + [1])[..|runs|] == runs;
        }
      }
    }
  }

  /** There is one run for each start of skipping before the last bet. */
  lemma {:induction false} RunsAreStarts(bets: seq<Bet>, n: nat, x: real, m: nat)
    requires n >= 1 && 1 <= m <= |bets|
    ensures |RunsOf(Flags(bets, n, x)[..m])| == Starts(bets, n, x, m - 1)
  {
    hide Skipped, RunsOf;
    var flags := Flags(bets, n, x);
    RunsGrow(flags, m - 1);
    FirstIsTaken(bets, n, x, 0);
    if m > 1 {
      RunsAreStarts(bets, n, x, m - 1);
    } else {
      NoRuns(flags[..m - 1]);
    }
  }

  lemma RunsGrow(flags: seq<bool>, i: nat)
    requires i < |flags|
    ensures |RunsOf(flags[..i + 1])| == |RunsOf(flags[..i])| + if flags[i] && !(i > 0 && flags[i - 1]) then 1 else 0
  {
    assert flags[..i + 1][..i] == flags[..i];
  }

  lemma NoRuns(flags: seq<bool>)
    requires |flags| == 0
    ensures RunsOf(flags) == []
  {
  }

  lemma FirstIsTaken(bets: seq<Bet>, n: nat, x: real, k: nat)
    requires n >= 1 && k == 0
    ensures !Skipped(bets, n, x, k)
  {
  }

  /**
   * The number of runs is the number of pause events, or one less, and it is one less
   * exactly when the very last bet sets off a pause that no bet is left to be skipped by.
   */
  lemma RunsAgainstEvents(bets: seq<Bet>, n: nat, x: real)
    requires n >= 1 && bets != []
    ensures var events, runs := Starts(bets, n, x, |bets|), |RunsOf(Flags(bets, n, x))|;
            var last := |bets|;
            events == runs + if Skipped(bets, n, x, last) && !Skipped(bets, n, x, last - 1) then 1 else 0
  {
    hide Skipped;
    RunsAreStarts(bets, n, x, |bets|);
    assert Flags(bets, n, x)[..|bets|] == Flags(bets, n, x);
  }

  /** `n` times the same flag. */
  function Repeat(flag: bool, n: nat): (f: seq<bool>)
    ensures |f| == n && forall k :: 0 <= k < n ==> f[k] == flag
  {
    seq(n, _ => flag)
  }

  /** Stretches of taken bets with a run of skipped ones between each two. */
  function Spread(gaps: seq<nat>, runs: seq<nat>): seq<bool>
    requires |gaps| == |runs| + 1
    decreases |runs|
  {
    var m := |runs|;
    if m == 0 then Repeat(false, gaps[0])
    else Spread(gaps[..m], runs[..m - 1]) + Repeat(true, runs[m - 1]) + Repeat(false, gaps[m])
  }

  lemma LongerGap(gaps: seq<nat>, runs: seq<nat>)
    requires |gaps| == |runs| + 1
    ensures Spread(gaps[|runs| := gaps[|runs|] + 1], runs) == Spread(gaps, runs) + [false]
  {
    var m := |runs|;
    assert gaps[m := gaps[m] + 1][..m] == gaps[..m];
    assert Repeat(false, gaps[m] + 1) == Repeat(false, gaps[m]) + [false];
  }

  lemma LongerRun(gaps: seq<nat>, runs: seq<nat>)
    requires |gaps| == |runs| + 1 && runs != [] && gaps[|runs|] == 0
    ensures Spread(gaps, runs[|runs| - 1 := runs[|runs| - 1] + 1]) == Spread(gaps, runs) + [true]
  {
    var m := |runs|;
    assert runs[m - 1 := runs[m - 1] + 1][..m - 1] == runs[..m - 1];
    assert Repeat(true, runs[m - 1] + 1) == Repeat(true, runs[m - 1]) + [true];
    assert Repeat(false, 0) == [];
  }

  lemma NewRun(gaps: seq<nat>, runs: seq<nat>)
    requires |gaps| == |runs| + 1
    ensures Spread(gaps + [0], runs + [1]) == Spread(gaps, runs) + [true]
  {
    var m := |runs|;
    assert (gaps + [0])[..m + 1] == gaps && (runs + [1])[..m] == runs;
    assert Repeat(true, 1) == [true] && Repeat(false, 0) == [];
  }

  /** The last flag tells whether the last stretch is of taken bets. */
  lemma LastStretch(gaps: seq<nat>, runs: seq<nat>)
    requires |gaps| == |runs| + 1 && (forall k :: 0 <= k < |runs| ==> runs[k] > 0)
    ensures var f := Spread(gaps, runs);
            && (gaps[|runs|] > 0 ==> f != [] && !f[|f| - 1])
            && (gaps[|runs|] == 0 && runs != [] ==> f != [] && f[|f| - 1])
            && (gaps[|runs|] == 0 && runs == [] ==> f == [])
  {
  }

  /** The flags of a pass are stretches of taken bets around the runs of skipped ones, so the runs are maximal. */
  lemma {:induction false} RunsAreMaximal(flags: seq<bool>) returns (gaps: seq<nat>)
    ensures var runs := RunsOf(flags);
            && |gaps| == |runs| + 1 && flags == Spread(gaps, runs)
            && (forall k :: 0 <= k < |runs| ==> runs[k] > 0)
            && (forall k :: 0 < k < |runs| ==> gaps[k] > 0)
  {
    hide Spread;
    if flags == [] {
      gaps := [0];
      NoRuns(flags);
      EmptySpread(gaps, RunsOf(flags));
    } else {
      var n := |flags| - 1;
      gaps := RunsAreMaximal(flags[..n]);
      var runs := RunsOf(flags[..n]);
      LastStretch(gaps, runs);
      assert flags == flags[..n] + [flags[n]];
      if !flags[n] {
        LongerGap(gaps, runs);
        gaps := gaps[|runs| := gaps[|runs|] + 1];
      } else if n > 0 && flags[n - 1] {
        LongerRun(gaps, runs);
      } else {
        NewRun(gaps, runs);
        gaps := gaps + [0];
      }
    }
  }

  lemma EmptySpread(gaps: seq<nat>, runs: seq<nat>)
    requires gaps == [0] && runs == []
    ensures Spread(gaps, runs) == []
  {
  }
}
