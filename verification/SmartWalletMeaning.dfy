/**
 * What the wallet study of SmartWallets.dfy measures, in terms of the bets: what a record says,
 * whose flow a cell sums, what a row pays, how bets are timed; and what later bets cannot change.
 */
module SmartWalletMeaning {
  import opened Sums
  import opened SmartWallets
  import opened Wagers

  // --------------------------------------------------------------------- records

  /** Bets of a wallet, in parts: the outcomes of a part follow those of the parts before it. */
  lemma {:induction false} OutcomesInParts(a: seq<Settlement.Bet>, b: seq<Settlement.Bet>, bullWon: bool, w: string)
    ensures OutcomesIn(a + b, bullWon, w) == OutcomesIn(a, bullWon, w) + OutcomesIn(b, bullWon, w)
  {
    if b == [] {
      assert a + b == a;
    } else {
      var m := |b| - 1;
      OutcomesInParts(a, b[..m], bullWon, w);
      assert a + b == (a + b[..m]) + [b[m]] && b == b[..m] + [b[m]];
      OutcomesSnoc(a + b[..m], b[m], bullWon, w);
      OutcomesSnoc(b[..m], b[m], bullWon, w);
    }
  }

  /** Each bet on Bull or Bear adds one outcome to its own wallet's record: whether its side won. */
  lemma OutcomeOfOne(b: Settlement.Bet, bullWon: bool, w: string)
    requires b.position == Bull || b.position == Bear
    ensures OutcomesIn([b], bullWon, w) ==
            if b.wallet == w then [b.position == if bullWon then Bull else Bear] else []
  {
    assert [] + [b] == [b];
    OutcomesSnoc([], b, bullWon, w);
  }

  /** A record is the outcomes of the rounds, one round after the other. */
  lemma {:induction false} HistoryInParts(a: seq<Round>, b: seq<Round>, w: string)
    ensures HistoryAfter(a + b, w) == HistoryAfter(a, w) + HistoryAfter(b, w)
    ensures forall r: Round :: b == [r] ==> HistoryAfter(b, w) == OutcomesIn(r.bets, r.bullWon, w)
  {
    if b == [] {
      assert a + b == a;
    } else {
      var m := |b| - 1;
      HistoryInParts(a, b[..m], w);
      assert a + b == (a + b[..m]) + [b[m]] && b == b[..m] + [b[m]];
      HistorySnoc(a + b[..m], b[m], w);
      HistorySnoc(b[..m], b[m], w);
    }
  }

  /** Positions of the wins among the last `n` outcomes. */
  function WonLately(h: seq<bool>, n: nat): set<int>
    requires n <= |h|
  {
    set k | |h| - n <= k < |h| && h[k]
  }

  lemma {:induction false} WinsAreThose(h: seq<bool>, n: nat)
    requires n <= |h|
    ensures Wins(h[|h| - n..]) == |WonLately(h, n)|
    decreases n
  {
    var tail := h[|h| - n..];
    if n == 0 {
      assert WonLately(h, 0) == {};
    } else {
      WinsAreThose(h, n - 1);
      WinsWithoutFirst(tail);
      assert tail[1..] == h[|h| - (n - 1)..];
      assert WonLately(h, n) == WonLately(h, n - 1) + if h[|h| - n] then {|h| - n} else {};
    }
  }

  /** A record counts for its last hundred outcomes, and ten wins and ten losses more. */
  lemma AccuracyIs(h: seq<bool>)
    ensures var n := if |h| <= 100 then |h| else 100;
            && |Trail(h)| == n
            && Accuracy(h) * (n + 20) as real == (|WonLately(h, n)| + 10) as real
  {
    hide WonLately, Wins;
    var n := |Trail(h)|;
    WinsAreThose(h, n);
    assert Trail(h) == h[|h| - n..];
    ShrunkTimes(Wins(Trail(h)), n);
  }

  lemma ShrunkTimes(wins: nat, n: nat)
    ensures ((wins + 10) as real / (n + 20) as real) * (n + 20) as real == (wins + 10) as real
  {
    Undo((wins + 10) as real, (n + 20) as real);
  }

  lemma Undo(x: real, y: real)
    requires y != 0.0
    ensures (x / y) * y == x
  {
  }

  // ----------------------------------------------------------------------- cells

  /** A bet counts when it was placed by `latest` and its wallet's record is long and good enough. */
  predicate Counts(earlier: seq<Round>, b: Settlement.Bet, latest: int, v: Variant) {
    var h := HistoryAfter(earlier, b.wallet);
    b.createdAt <= latest && v.minN <= |Trail(h)| && v.threshold <= Accuracy(h)
  }

  /** Its stake in BNB, towards Bull. */
  function Flow(earlier: seq<Round>, latest: int, v: Variant): Settlement.Bet -> real {
    (b: Settlement.Bet) =>
      if !Counts(earlier, b, latest, v) then 0.0
      else if b.position == Bull then b.amountWei as real / 1000000000000000000.0
      else -(b.amountWei as real / 1000000000000000000.0)
  }

  /** A cell is the net flow of the bets that count, and the wallets that placed them. */
  lemma {:induction false} CellMeans(earlier: seq<Round>, bets: seq<Settlement.Bet>, lockAt: int, v: Variant, horizon: int)
    ensures var cell, latest := CellOf(earlier, bets, lockAt, v, horizon), lockAt - horizon;
            && cell.net == Sum(bets, Flow(earlier, latest, v))
            && cell.wallets == set b | b in bets && Counts(earlier, b, latest, v) :: b.wallet
  {
    hide HistoryAfter, Accuracy, Trail;
    if bets != [] {
      var front, b := bets[..|bets| - 1], bets[|bets| - 1];
      CellMeans(earlier, front, lockAt, v, horizon);
      assert forall x :: x in bets <==> x in front || x == b;
    }
  }

  /** The nine cells of a round: three demands on the record, at 6, 4 and 3 seconds before lock. */
  lemma GridMeans(earlier: seq<Round>, bets: seq<Settlement.Bet>, lockAt: int, i: nat, j: nat)
    requires i < 3 && j < 3
    ensures |Grid(earlier, bets, lockAt)| == 3 && |Grid(earlier, bets, lockAt)[i]| == 3
    ensures var v := [Variant(30, 0.55), Variant(50, 0.56), Variant(20, 0.54)][i];
            var cell, latest := Grid(earlier, bets, lockAt)[i][j], lockAt - [6, 4, 3][j];
            && cell.net == Sum(bets, Flow(earlier, latest, v))
            && cell.wallets == set b | b in bets && Counts(earlier, b, latest, v) :: b.wallet
  {
    hide CellOf, Sum, Flow, Counts;
    CellMeans(earlier, bets, lockAt, VARIANTS[i], HORIZONS[j]);
  }

  /** So it does not depend on the order of the bets. */
  lemma CellIgnoresOrder(earlier: seq<Round>, a: seq<Settlement.Bet>, b: seq<Settlement.Bet>, lockAt: int, v: Variant, h: int)
    requires multiset(a) == multiset(b)
    ensures CellOf(earlier, a, lockAt, v, h) == CellOf(earlier, b, lockAt, v, h)
  {
    hide CellOf, Sum, Flow, Counts;
    CellMeans(earlier, a, lockAt, v, h);
    CellMeans(earlier, b, lockAt, v, h);
    SumIgnoresOrder(a, b, Flow(earlier, lockAt - h, v));
    forall x ensures x in a <==> x in b {
      assert x in a <==> x in multiset(a);
    }
  }

  // --------------------------------------------------------------- no look-ahead

  /** The bets visible at a horizon are those placed by then, each as often as it was placed. */
  lemma {:induction false} VisibleMultiplicity(bets: seq<Settlement.Bet>, lockAt: int, horizon: int, b: Settlement.Bet)
    ensures multiset(Visible(bets, lockAt, horizon))[b] == if b.createdAt <= lockAt - horizon then multiset(bets)[b] else 0
  {
    if bets != [] {
      var n := |bets| - 1;
      VisibleMultiplicity(bets[..n], lockAt, horizon, b);
      assert bets == bets[..n] + [bets[n]];
    }
  }

  lemma SameBetsInTime(a: seq<Settlement.Bet>, b: seq<Settlement.Bet>, lockAt: int, horizon: int)
    requires forall x: Settlement.Bet :: x.createdAt <= lockAt - horizon ==> multiset(a)[x] == multiset(b)[x]
    ensures multiset(Visible(a, lockAt, horizon)) == multiset(Visible(b, lockAt, horizon))
  {
    hide Visible;
    var p, q := multiset(Visible(a, lockAt, horizon)), multiset(Visible(b, lockAt, horizon));
    forall x: Settlement.Bet ensures p[x] == q[x] {
      VisibleMultiplicity(a, lockAt, horizon, x);
      VisibleMultiplicity(b, lockAt, horizon, x);
    }
  }

  /**
   * Two inputs that agree on the rounds before round `k`, and on which bets round `k` got by the
   * horizon, give it the same features: its outcome, its later bets and later rounds have no say.
   */
  lemma NoLookAhead(a: seq<Round>, b: seq<Round>, k: nat, i: nat, j: nat)
    requires k < |a| && k < |b| && i < |VARIANTS| && j < |HORIZONS|
    requires a[..k] == b[..k] && a[k].lockAt == b[k].lockAt
    requires forall x: Settlement.Bet ::
               x.createdAt <= a[k].lockAt - HORIZONS[j] ==> multiset(a[k].bets)[x] == multiset(b[k].bets)[x]
    ensures Grid(a[..k], a[k].bets, a[k].lockAt)[i][j] == Grid(b[..k], b[k].bets, b[k].lockAt)[i][j]
    ensures HasRow(a, k) && HasRow(b, k) && RowsOf(a).Ok? && RowsOf(b).Ok? ==>
      RowsOf(a[..k]).Ok? && RowsAgree(RowsOf(a).value, RowsOf(b).value, |RowsOf(a[..k]).value|, a[k].epoch, b[k].epoch, i, j)
  {
    hide CellOf, Visible, RowsOf, RowOf, HasRow;
    var lockAt, v, h := a[k].lockAt, VARIANTS[i], HORIZONS[j];
    CellReadsVisible(a[..k], a[k].bets, lockAt, v, h);
    CellReadsVisible(b[..k], b[k].bets, lockAt, v, h);
    SameBetsInTime(a[k].bets, b[k].bets, lockAt, h);
    CellIgnoresOrder(a[..k], Visible(a[k].bets, lockAt, h), Visible(b[k].bets, lockAt, h), lockAt, v, h);
    if HasRow(a, k) && HasRow(b, k) && RowsOf(a).Ok? && RowsOf(b).Ok? {
      RowAt(a, k);
      RowAt(b, k);
    }
  }

  // ------------------------------------------------------------------------ rows

  /** A row's payouts per BNB share out 97 per cent of both pools to the winning one. */
  lemma RowPays(earlier: seq<Round>, r: Round)
    requires RowOf(earlier, r).Ok? && RowOf(earlier, r).value.Some?
    ensures var row := RowOf(earlier, r).value.value;
            var bull, bear := Bnb(Settlement.SideWei(r.bets, Bull)), Bnb(Settlement.SideWei(r.bets, Bear));
            && row.epoch == r.epoch && row.bullWon == r.bullWon
            && row.payoutBull * bull == 0.97 * (bull + bear) == row.payoutBear * bear
  {
    hide Grid, Bnb, Settlement.SideWei, Settlement.FirstError;
    var bull, bear := Bnb(Settlement.SideWei(r.bets, Bull)), Bnb(Settlement.SideWei(r.bets, Bear));
    Undo((bull + bear) * (1.0 - FEE), bull);
    Undo((bull + bear) * (1.0 - FEE), bear);
  }

  // ---------------------------------------------------------------------- timing

  /** Bets placed at least that many seconds before lock: all, or those of the wallets with a good record. */
  function Early(earlier: seq<Round>, latest: int, smart: bool): Settlement.Bet -> int {
    (b: Settlement.Bet) =>
      if smart then (if Counts(earlier, b, latest, Variant(30, 0.55)) then 1 else 0)
      else if b.createdAt <= latest then 1 else 0
  }

  function EarlyBets(rounds: seq<Round>, seconds: int, smart: bool): int {
    if rounds == [] then 0 else
      var front, r := rounds[..|rounds| - 1], rounds[|rounds| - 1];
      EarlyBets(front, seconds, smart) + Total(r.bets, Early(front, r.lockAt - seconds, smart))
  }

  /** Bets of a round added to the counters, by how early they were. */
  ghost predicate Timed(before: seq<nat>, after: seq<nat>, earlier: seq<Round>, bets: seq<Settlement.Bet>, lockAt: int, smart: bool) {
    && |before| == |after| == 4
    && after[0] == before[0] + Total(bets, Early(earlier, lockAt - 6, smart))
    && after[0] + after[1] == before[0] + before[1] + Total(bets, Early(earlier, lockAt - 4, smart))
    && after[0] + after[1] + after[2] == before[0] + before[1] + before[2] + Total(bets, Early(earlier, lockAt - 3, smart))
  }

  lemma TimedSnoc(before: seq<nat>, log: seq<nat>, next: seq<nat>, earlier: seq<Round>, bets: seq<Settlement.Bet>,
                  b: Settlement.Bet, lockAt: int, smart: bool)
    requires Timed(before, log, earlier, bets, lockAt, smart)
    requires var k := Bucket(lockAt - b.createdAt);
             next == if !smart || Counts(earlier, b, b.createdAt, Variant(30, 0.55)) then log[k := log[k] + 1] else log
    ensures Timed(before, next, earlier, bets + [b], lockAt, smart)
  {
    hide Total, HistoryAfter, Accuracy, Trail;
    TotalSnoc(bets, b, Early(earlier, lockAt - 6, smart));
    TotalSnoc(bets, b, Early(earlier, lockAt - 4, smart));
    TotalSnoc(bets, b, Early(earlier, lockAt - 3, smart));
  }

  lemma {:induction false} BetsAreTimed(log: Log, earlier: seq<Round>, bets: seq<Settlement.Bet>, lockAt: int, bullWon: bool)
    requires log.Valid()
    ensures Timed(log.timingAll, LogBets(log, earlier, bets, lockAt, bullWon).timingAll, earlier, bets, lockAt, false)
    ensures Timed(log.timingSmart, LogBets(log, earlier, bets, lockAt, bullWon).timingSmart, earlier, bets, lockAt, true)
  {
    hide HistoryAfter, Accuracy, Trail, Timed;
    if bets == [] {
      NothingTimed(log.timingAll, earlier, bets, lockAt, false);
      NothingTimed(log.timingSmart, earlier, bets, lockAt, true);
    } else {
      var front, b := bets[..|bets| - 1], bets[|bets| - 1];
      BetsAreTimed(log, earlier, front, lockAt, bullWon);
      var before, after := LogBets(log, earlier, front, lockAt, bullWon), LogBets(log, earlier, bets, lockAt, bullWon);
      assert bets == front + [b];
      TimedSnoc(log.timingAll, before.timingAll, after.timingAll, earlier, front, b, lockAt, false);
      TimedSnoc(log.timingSmart, before.timingSmart, after.timingSmart, earlier, front, b, lockAt, true);
    }
  }

  lemma NothingTimed(log: seq<nat>, earlier: seq<Round>, bets: seq<Settlement.Bet>, lockAt: int, smart: bool)
    requires |log| == 4 && |bets| == 0
    ensures Timed(log, log, earlier, bets, lockAt, smart)
  {
  }

  /** A sample is taken of each bet of a wallet with 30 outcomes: its accuracy before the round, and whether the bet won. */
  lemma SampleOfOne(log: Log, earlier: seq<Round>, b: Settlement.Bet, lockAt: int, bullWon: bool)
    requires log.Valid() && (b.position == Bull || b.position == Bear)
    ensures var h := HistoryAfter(earlier, b.wallet);
            LogBets(log, earlier, [b], lockAt, bullWon).samples ==
            log.samples + if |Trail(h)| >= 30 then [Sample(Accuracy(h), |Trail(h)|, b.position == if bullWon then Bull else Bear)]
                          else []
  {
    hide HistoryAfter, Accuracy, Trail;
    NothingLogged(log, earlier, [], lockAt, bullWon);
    LogSnoc(log, earlier, [], b, lockAt, bullWon);
    assert [] + [b] == [b];
  }

  /** Bets are logged one after the other. */
  lemma {:induction false} LogInParts(log: Log, earlier: seq<Round>, a: seq<Settlement.Bet>, b: seq<Settlement.Bet>, lockAt: int, bullWon: bool)
    requires log.Valid()
    ensures LogBets(log, earlier, a + b, lockAt, bullWon) ==
            LogBets(LogBets(log, earlier, a, lockAt, bullWon), earlier, b, lockAt, bullWon)
  {
    hide LogBet, HistoryAfter, Accuracy, Trail;
    if b == [] {
      assert a + b == a;
    } else {
      var m := |b| - 1;
      LogInParts(log, earlier, a, b[..m], lockAt, bullWon);
      assert a + b == (a + b[..m]) + [b[m]] && b == b[..m] + [b[m]];
      LogSnoc(log, earlier, a + b[..m], b[m], lockAt, bullWon);
      LogSnoc(LogBets(log, earlier, a, lockAt, bullWon), earlier, b[..m], b[m], lockAt, bullWon);
    }
  }

  /** The counters say how many bets, and how many of wallets with a good record, came 6, 4 and 3 seconds before lock. */
  lemma {:induction false} TimingMeans(rounds: seq<Round>)
    ensures var all, smart := LogOf(rounds).timingAll, LogOf(rounds).timingSmart;
            && all[0] == EarlyBets(rounds, 6, false) && smart[0] == EarlyBets(rounds, 6, true)
            && all[0] + all[1] == EarlyBets(rounds, 4, false) && smart[0] + smart[1] == EarlyBets(rounds, 4, true)
            && all[0] + all[1] + all[2] == EarlyBets(rounds, 3, false)
            && smart[0] + smart[1] + smart[2] == EarlyBets(rounds, 3, true)
  {
    hide LogBets, Total, Early;
    if rounds != [] {
      var front, r := rounds[..|rounds| - 1], rounds[|rounds| - 1];
      TimingMeans(front);
      BetsAreTimed(LogOf(front), front, r.bets, r.lockAt, r.bullWon);
    }
  }
}
