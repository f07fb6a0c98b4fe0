/**
 * The ledger loop of research/in_process_runner.py: one decision per round, settled against the
 * closed round, with the bankroll handed to the in-memory tracker after every round.
 */
module FoldLedger {
  import opened Basics
  import opened Sums
  import opened BankrollHistory
  import opened BankrollSpec
  import opened BankrollTracker
  import Settlement
  import opened Wagers

  /**
   * What the pipeline decides for a round, and the stake it reports in flight after it; any
   * decision and any stake is possible.
   */
  datatype Decision = Decision(isBet: bool, size: real, side: Label, skipReason: Option<string>, openStake: real)

  datatype Round = Round(epoch: int, startAt: int, closed: Settlement.Round)

  datatype Error = NoRounds | BetSideInvalid | SettlementFailed(cause: Settlement.Error)

  /** What one round did: its profit, the side bet if any, and whether the bet won. */
  datatype Turn = Turn(profit: real, bull: Option<bool>, won: bool)

  function TurnOf(d: Decision, r: Round, fee: real): Result<Turn, Error> {
    if !(d.isBet && d.size > 0.0) then Ok(Turn(0.0, None, false))
    else if d.side != Bull && d.side != Bear then Err(BetSideInvalid)
    else
      match Settlement.SettleAgainstClosedRound(d.size, d.side, r.closed, fee)
      case Err(e) => Err(SettlementFailed(e))
      case Ok(s) =>
        Ok(Turn(s.credit - d.size - Settlement.BET_GAS, Some(d.side == Bull), s.outcome == Settlement.Win))
  }

  /** A decision not to bet, or to bet nothing, costs nothing and counts for neither side. */
  lemma SkippedTurn(d: Decision, r: Round, fee: real)
    requires !d.isBet || d.size <= 0.0
    ensures TurnOf(d, r, fee) == Ok(Turn(0.0, None, false))
  {
  }

  /**
   * A bet that is settled costs its gas of 0.0002.  A failed round gives the stake back, a lost bet
   * nothing, and a won one its payout with its own stake in the pools; what comes back costs
   * 0.00025 to claim.  The bet counts for its own side, and as won only in the last case.
   */
  lemma BetTurn(d: Decision, r: Round, fee: real)
    requires d.isBet && d.size > 0.0 && (d.side == Bull || d.side == Bear) && 0.0 <= fee < 1.0
    requires r.closed.failed ||
             (r.closed.position.Some? && r.closed.position != Some(Other) && Settlement.FirstError(r.closed.bets) == None)
    ensures var bets := r.closed.bets;
            var own, opposing := Bnb(Settlement.SideWei(bets, d.side)), Bnb(Settlement.SideWei(bets, Settlement.Opposite(d.side)));
            TurnOf(d, r, fee) ==
            Ok(if r.closed.failed then Turn(-0.00045, Some(d.side == Bull), false)
               else if r.closed.position == Some(d.side)
               then Turn(Settlement.Payout(own, opposing, fee, d.size) - d.size - 0.00045, Some(d.side == Bull), true)
               else Turn(-d.size - 0.0002, Some(d.side == Bull), false))
  {
    hide Settlement.SideWei, Settlement.FirstError, Settlement.Payout, Settlement.SettleAgainstClosedRound, Bnb;
    if !r.closed.failed && r.closed.position == Some(d.side) {
      Settlement.WinPaysPayout(d.size, d.side, r.closed, fee);
    } else {
      Settlement.NoPayout(d.size, d.side, r.closed, fee);
    }
  }

  /** The turns of the first `k` rounds, or the first error among them. */
  function TurnsOf(ds: seq<Decision>, rs: seq<Round>, fee: real, k: nat): (turns: Result<seq<Turn>, Error>)
    requires k <= |ds| == |rs|
    ensures turns.Ok? ==> |turns.value| == k
  {
    if k == 0 then Ok([]) else
      var before := TurnsOf(ds, rs, fee, k - 1);
      if before.Err? then before else
        match TurnOf(ds[k - 1], rs[k - 1], fee)
        case Err(e) => Err(e)
        case Ok(t) => Ok(before.value + [t])
  }

  function ReasonOf(d: Decision): string {
    if d.skipReason.Some? && d.skipReason.value != "" then d.skipReason.value else "unknown_skip_reason"
  }

  /** A skip without a reason, or with an empty one, is counted as of unknown reason. */
  lemma ReasonIs(d: Decision)
    ensures d.skipReason == None || d.skipReason == Some("") ==> ReasonOf(d) == "unknown_skip_reason"
    ensures d.skipReason.Some? && d.skipReason.value != "" ==> Some(ReasonOf(d)) == d.skipReason
  {
  }

  // ------------------------------------------------------------- what a turn counts for

  function Profit(): Turn -> real { (t: Turn) => t.profit }

  function Gain(): Turn -> real { (t: Turn) => if t.profit > 0.0 then t.profit else 0.0 }

  function Loss(): Turn -> real { (t: Turn) => if t.profit < 0.0 then -t.profit else 0.0 }

  function Bet(): Turn -> int { (t: Turn) => if t.bull.Some? then 1 else 0 }

  function BetOn(bull: bool): Turn -> int { (t: Turn) => if t.bull.Some? && t.bull.value == bull then 1 else 0 }

  function Win(): Turn -> int { (t: Turn) => if t.won then 1 else 0 }

  function WinOn(bull: bool): Turn -> int { (t: Turn) => if t.won && t.bull.Some? && t.bull.value == bull then 1 else 0 }

  /** The reasons of the rounds without a bet, in order. */
  function Skips(ds: seq<Decision>, turns: seq<Turn>): seq<string>
    requires |turns| <= |ds|
  {
    if turns == [] then [] else
      var n := |turns| - 1;
      if turns[n].bull.Some? then Skips(ds, turns[..n]) else Skips(ds, turns[..n]) + [ReasonOf(ds[n])]
  }

  function Is(reason: string): string -> int { (s: string) => if s == reason then 1 else 0 }

  datatype Stats = Stats(bets: int, betsBull: int, betsBear: int, wins: int, winsBull: int, winsBear: int,
                         grossProfit: real, grossLoss: real, skips: map<string, int>)

  const NO_STATS := Stats(0, 0, 0, 0, 0, 0, 0.0, 0.0, map[])

  /** The counters are the sums they are named for. */
  ghost predicate CountsTurns(s: Stats, turns: seq<Turn>) {
    && s.bets == Total(turns, Bet()) && s.wins == Total(turns, Win())
    && s.betsBull == Total(turns, BetOn(true)) && s.betsBear == Total(turns, BetOn(false))
    && s.winsBull == Total(turns, WinOn(true)) && s.winsBear == Total(turns, WinOn(false))
    && s.grossProfit == Sum(turns, Gain()) && s.grossLoss == Sum(turns, Loss())
  }

  /** Each reason is counted as often as it was given, and only reasons that were. */
  ghost predicate CountsSkips(m: map<string, int>, skips: seq<string>) {
    && (forall reason :: reason in m <==> reason in skips)
    && (forall reason :: reason in m ==> m[reason] == Total(skips, Is(reason)))
  }

  // ------------------------------------------------------------------ the tracker

  function BankrollAfter(initial: real, turns: seq<Turn>): real {
    initial + Sum(turns, Profit())
  }

  /** The tracker's memory after `k` rounds. */
  function MemoryAfter(cfg: Config, ds: seq<Decision>, rs: seq<Round>, turns: seq<Turn>, k: nat): (m: Memory)
    requires cfg.Valid() && k <= |turns| && k <= |rs| == |ds|
    ensures m.Valid()
  {
    if k == 0 then Start(cfg)
    else Record(cfg, MemoryAfter(cfg, ds, rs, turns, k - 1), BankrollAfter(cfg.initial, turns[..k]), rs[k - 1].startAt,
                ds[k - 1].openStake)
  }

  /** After every round the tracker's current bankroll is the ledger's, up to the dedup tolerance. */
  lemma {:induction false} TrackerFollowsLedger(cfg: Config, ds: seq<Decision>, rs: seq<Round>, turns: seq<Turn>, k: nat)
    requires cfg.Valid() && k <= |turns| && k <= |rs| == |ds|
    ensures Near(Current(cfg, MemoryAfter(cfg, ds, rs, turns, k)), BankrollAfter(cfg.initial, turns[..k]), DEDUP_TOLERANCE)
  {
    hide Prune, Near, Sum;
    if k == 0 {
      NothingEarned(turns[..k]);
    } else {
      RecordIsNear(cfg, MemoryAfter(cfg, ds, rs, turns, k - 1), BankrollAfter(cfg.initial, turns[..k]), rs[k - 1].startAt,
                   ds[k - 1].openStake);
    }
  }

  lemma NothingEarned(turns: seq<Turn>)
    requires |turns| == 0
    ensures Sum(turns, Profit()) == 0.0
    ensures forall x: real :: Near(x, x, DEDUP_TOLERANCE)
  {
  }

  lemma RecordIsNear(cfg: Config, m: Memory, bankroll: real, startAt: int, openStake: real)
    requires cfg.Valid() && m.Valid()
    ensures Near(Current(cfg, Record(cfg, m, bankroll, startAt, openStake)), bankroll, DEDUP_TOLERANCE)
  {
    hide Prune;
    var grown := Seed(cfg, m, startAt) + [Entry(startAt, bankroll, BankrollHistory.Settlement, openStake)];
    PruneNonempty(grown, cfg.Window());
  }

  /**
   * A round that moves the bankroll by the tolerance or more is the tracker's latest sample: at the
   * round's start, with the bankroll after it and the stake then in flight.
   */
  lemma TrackerSample(cfg: Config, ds: seq<Decision>, rs: seq<Round>, turns: seq<Turn>, k: nat)
    requires cfg.Valid() && 0 < k <= |turns| && k <= |rs| == |ds|
    requires var change := BankrollAfter(cfg.initial, turns[..k]) - Current(cfg, MemoryAfter(cfg, ds, rs, turns, k - 1));
             change <= -0.000000000001 || 0.000000000001 <= change
    ensures var m := MemoryAfter(cfg, ds, rs, turns, k);
            && m.entries != []
            && Last(m.entries) == Entry(rs[k - 1].startAt, cfg.initial + Sum(turns[..k], Profit()), BankrollHistory.Settlement,
                                        ds[k - 1].openStake)
  {
    hide Prune, Sum;
    var before := MemoryAfter(cfg, ds, rs, turns, k - 1);
    var grown := Seed(cfg, before, rs[k - 1].startAt) +
                 [Entry(rs[k - 1].startAt, BankrollAfter(cfg.initial, turns[..k]), BankrollHistory.Settlement, ds[k - 1].openStake)];
    PruneNonempty(grown, cfg.Window());
  }

  // --------------------------------------------------------------- laws of the sums

  /** Gross profit less gross loss is the net result. */
  lemma {:induction false} NetIsGainsLessLosses(turns: seq<Turn>)
    ensures Sum(turns, Gain()) - Sum(turns, Loss()) == Sum(turns, Profit())
    ensures 0.0 <= Sum(turns, Gain()) && 0.0 <= Sum(turns, Loss())
  {
    if turns != [] {
      NetIsGainsLessLosses(turns[..|turns| - 1]);
    }
  }

  /** A round is a bet on one side or a skip, and only bets win. */
  lemma {:induction false} BetsAndSkipsFillUp(ds: seq<Decision>, turns: seq<Turn>)
    requires |turns| <= |ds|
    requires forall t :: t in turns ==> (t.won ==> t.bull.Some?)
    ensures |Skips(ds, turns)| + Total(turns, Bet()) == |turns|
    ensures Total(turns, BetOn(true)) + Total(turns, BetOn(false)) == Total(turns, Bet())
    ensures Total(turns, WinOn(true)) + Total(turns, WinOn(false)) == Total(turns, Win())
    ensures 0 <= Total(turns, WinOn(true)) <= Total(turns, BetOn(true))
    ensures 0 <= Total(turns, WinOn(false)) <= Total(turns, BetOn(false))
  {
    hide ReasonOf;
    if turns != [] {
      BetsAndSkipsFillUp(ds, turns[..|turns| - 1]);
      assert turns[|turns| - 1] in turns;
    }
  }

  lemma {:induction false} OnlyBetsWin(ds: seq<Decision>, rs: seq<Round>, fee: real, k: nat)
    requires k <= |ds| == |rs| && TurnsOf(ds, rs, fee, k).Ok?
    ensures forall t :: t in TurnsOf(ds, rs, fee, k).value ==> (t.won ==> t.bull.Some?)
  {
    if k > 0 {
      OnlyBetsWin(ds, rs, fee, k - 1);
    }
  }

  /** The rounds without a bet that gave a reason. */
  function SkippedFor(ds: seq<Decision>, turns: seq<Turn>, reason: string): set<int>
    requires |turns| <= |ds|
  {
    set k | 0 <= k < |turns| && turns[k].bull == None && ReasonOf(ds[k]) == reason
  }

  /** Each reason is listed once for each of those rounds. */
  lemma {:induction false} SkipsAreThose(ds: seq<Decision>, turns: seq<Turn>, reason: string)
    requires |turns| <= |ds|
    ensures Total(Skips(ds, turns), Is(reason)) == |SkippedFor(ds, turns, reason)|
  {
    if turns == [] {
      assert SkippedFor(ds, turns, reason) == {};
    } else {
      hide ReasonOf, Total, SkippedFor, Skips;
      var n := |turns| - 1;
      SkipsAreThose(ds, turns[..n], reason);
      assert turns == turns[..n] + [turns[n]];
      SkipsSnoc(ds, turns[..n], turns[n]);
      TotalSnoc(Skips(ds, turns[..n]), ReasonOf(ds[n]), Is(reason));
      OneMoreSkipped(ds, turns, reason);
    }
  }

  lemma OneMoreSkipped(ds: seq<Decision>, turns: seq<Turn>, reason: string)
    requires turns != [] && |turns| <= |ds|
    ensures var n := |turns| - 1;
            |SkippedFor(ds, turns, reason)| ==
            |SkippedFor(ds, turns[..n], reason)| + if turns[n].bull == None && ReasonOf(ds[n]) == reason then 1 else 0
  {
    hide ReasonOf;
    var n := |turns| - 1;
    assert SkippedFor(ds, turns, reason) ==
           SkippedFor(ds, turns[..n], reason) + if turns[n].bull == None && ReasonOf(ds[n]) == reason then {n} else {};
  }

  function ValueIn(m: map<string, int>): string -> int {
    (reason: string) => if reason in m then m[reason] else 0
  }

  function CountIn(skips: seq<string>): string -> int {
    (reason: string) => Total(skips, Is(reason))
  }

  predicate Distinct(keys: seq<string>) {
    forall i, j :: 0 <= i < j < |keys| ==> keys[i] != keys[j]
  }

  lemma {:induction false} OneMoreSkip(keys: seq<string>, skips: seq<string>, reason: string)
    requires Distinct(keys)
    ensures Total(keys, CountIn(skips + [reason])) ==
            Total(keys, CountIn(skips)) + if reason in keys then 1 else 0
  {
    if keys != [] {
      var n := |keys| - 1;
      OneMoreSkip(keys[..n], skips, reason);
      assert (skips + [reason])[..|skips|] == skips;
      assert keys == keys[..n] + [keys[n]];
    }
  }

  lemma {:induction false} ReasonsDivideSkips(keys: seq<string>, skips: seq<string>)
    requires Distinct(keys) && forall s :: s in skips ==> s in keys
    ensures Total(keys, CountIn(skips)) == |skips|
  {
    if skips == [] {
      NothingCounted(keys, skips);
    } else {
      var front, s := skips[..|skips| - 1], skips[|skips| - 1];
      ReasonsDivideSkips(keys, front);
      assert skips == front + [s];
      OneMoreSkip(keys, front, s);
    }
  }

  lemma {:induction false} NothingCounted(keys: seq<string>, skips: seq<string>)
    requires |skips| == 0
    ensures Total(keys, CountIn(skips)) == 0
  {
    if keys != [] {
      NothingCounted(keys[..|keys| - 1], skips);
    }
  }

  /** The counts by reason add up to the number of rounds without a bet. */
  lemma SkipCountsAddUp(m: map<string, int>, skips: seq<string>, keys: seq<string>)
    requires CountsSkips(m, skips)
    requires Distinct(keys) && forall reason :: reason in keys <==> reason in m
    ensures Total(keys, ValueIn(m)) == |skips|
  {
    hide Total;
    forall reason | reason in keys ensures ValueIn(m)(reason) == CountIn(skips)(reason) {
    }
    TotalOfSame(keys, ValueIn(m), CountIn(skips));
    ReasonsDivideSkips(keys, skips);
  }

  // ---------------------------------------------------------------------- the loop

  /** One turn added to the counters, as the loop body does it. */
  method Tally(s: Stats, reason: string, t: Turn, ghost skips: seq<string>, ghost turns: seq<Turn>) returns (next: Stats)
    requires t.won ==> t.bull.Some?
    requires CountsTurns(s, turns) && CountsSkips(s.skips, skips)
    ensures CountsTurns(next, turns + [t])
    ensures CountsSkips(next.skips, if t.bull.Some? then skips else skips + [reason])
  {
    hide CountsTurns, CountsSkips;
    TallyTurn(s, turns, t);
    next := s;
    if t.bull.Some? {
      next := next.(bets := next.bets + 1);
      if t.bull.value {
        next := next.(betsBull := next.betsBull + 1);
      } else {
        next := next.(betsBear := next.betsBear + 1);
      }
      if t.won {
        next := next.(wins := next.wins + 1);
        if t.bull.value {
          next := next.(winsBull := next.winsBull + 1);
        } else {
          next := next.(winsBear := next.winsBear + 1);
        }
      }
    } else {
      TallySkip(s.skips, skips, reason);
      next := next.(skips := next.skips[reason := (if reason in next.skips then next.skips[reason] else 0) + 1]);
    }
    if t.profit > 0.0 {
      next := next.(grossProfit := next.grossProfit + t.profit);
    } else if t.profit < 0.0 {
      next := next.(grossLoss := next.grossLoss - t.profit);
    }
    SkipsAside(Counted(s, t), turns + [t], next);
  }

  /** The counters after one more turn, the skip counts aside. */
  function Counted(s: Stats, t: Turn): Stats {
    Stats(s.bets + Bet()(t), s.betsBull + BetOn(true)(t), s.betsBear + BetOn(false)(t),
          s.wins + Win()(t), s.winsBull + WinOn(true)(t), s.winsBear + WinOn(false)(t),
          s.grossProfit + Gain()(t), s.grossLoss + Loss()(t), s.skips)
  }

  lemma TallyTurn(s: Stats, turns: seq<Turn>, t: Turn)
    requires CountsTurns(s, turns)
    ensures CountsTurns(Counted(s, t), turns + [t])
  {
    hide Total, Sum, Bet, BetOn, Win, WinOn, Gain, Loss;
    TotalSnoc(turns, t, Bet());
    TotalSnoc(turns, t, BetOn(true));
    TotalSnoc(turns, t, BetOn(false));
    TotalSnoc(turns, t, Win());
    TotalSnoc(turns, t, WinOn(true));
    TotalSnoc(turns, t, WinOn(false));
    SumSnoc(turns, t, Gain());
    SumSnoc(turns, t, Loss());
  }

  lemma SkipsAside(s: Stats, turns: seq<Turn>, next: Stats)
    requires CountsTurns(s, turns) && next.(skips := s.skips) == s
    ensures CountsTurns(next, turns)
  {
    hide Total, Sum;
  }

  lemma SkipsSnoc(ds: seq<Decision>, turns: seq<Turn>, t: Turn)
    requires |turns| < |ds|
    ensures Skips(ds, turns + [t]) ==
            if t.bull.Some? then Skips(ds, turns) else Skips(ds, turns) + [ReasonOf(ds[|turns|])]
  {
    hide ReasonOf;
    assert (turns + [t])[..|turns|] == turns;
  }

  lemma TallySkip(m: map<string, int>, skips: seq<string>, key: string)
    requires CountsSkips(m, skips)
    ensures CountsSkips(m[key := (if key in m then m[key] else 0) + 1], skips + [key])
  {
    hide Total;
    forall reason: string
      ensures Total(skips + [key], Is(reason)) == Total(skips, Is(reason)) + if reason == key then 1 else 0
      ensures reason !in skips ==> Total(skips, Is(reason)) == 0
    {
      TotalSnoc(skips, key, Is(reason));
      if reason !in skips {
        NeverGiven(skips, reason);
      }
    }
  }

  lemma {:induction false} NeverGiven(skips: seq<string>, reason: string)
    requires reason !in skips
    ensures Total(skips, Is(reason)) == 0
  {
    if skips != [] {
      NeverGiven(skips[..|skips| - 1], reason);
    }
  }

  datatype Summary = Summary(rounds: nat, initial: real, final: real, netPnl: real, skips: int,
                             winRate: real, betRate: real, stats: Stats)

  /** One row of the trades file. */
  datatype Trade = Trade(epoch: int, decision: Decision, profit: real, bankroll: real)

  function TradesOf(initial: real, ds: seq<Decision>, rs: seq<Round>, turns: seq<Turn>): seq<Trade>
    requires |turns| <= |ds| == |rs|
  {
    if turns == [] then [] else
      var n := |turns| - 1;
      TradesOf(initial, ds, rs, turns[..n]) + [Trade(rs[n].epoch, ds[n], turns[n].profit, BankrollAfter(initial, turns))]
  }

  lemma TradesSnoc(initial: real, ds: seq<Decision>, rs: seq<Round>, turns: seq<Turn>, t: Turn)
    requires |turns| < |ds| == |rs|
    ensures TradesOf(initial, ds, rs, turns + [t]) ==
            TradesOf(initial, ds, rs, turns) +
            [Trade(rs[|turns|].epoch, ds[|turns|], t.profit, BankrollAfter(initial, turns + [t]))]
  {
    hide BankrollAfter;
    assert (turns + [t])[..|turns|] == turns;
  }

  /** There is a row for each turn, with the bankroll after it. */
  lemma {:induction false} TradeAt(initial: real, ds: seq<Decision>, rs: seq<Round>, turns: seq<Turn>, k: nat)
    requires k < |turns| <= |ds| == |rs|
    ensures |TradesOf(initial, ds, rs, turns)| == |turns|
    ensures TradesOf(initial, ds, rs, turns)[k] ==
            Trade(rs[k].epoch, ds[k], turns[k].profit, initial + Sum(turns[..k + 1], Profit()))
  {
    hide Sum;
    var n := |turns| - 1;
    if k < n {
      TradeAt(initial, ds, rs, turns[..n], k);
      assert turns[..n][..k + 1] == turns[..k + 1];
    } else {
      assert turns[..k + 1] == turns;
      if 0 < n {
        TradeAt(initial, ds, rs, turns[..n], 0);
      }
    }
  }

  /** The summary of a fold whose rounds took these turns. */
  ghost predicate Summarises(s: Summary, cfg: Config, ds: seq<Decision>, turns: seq<Turn>)
    requires |turns| <= |ds|
  {
    && s.rounds == |turns| && s.initial == cfg.initial
    && s.final == BankrollAfter(cfg.initial, turns)
    && s.netPnl == Sum(turns, Profit()) == s.stats.grossProfit - s.stats.grossLoss
    && s.skips == |Skips(ds, turns)|
    && s.winRate == SafeRate(Total(turns, Win()), Total(turns, Bet()))
    && s.betRate == SafeRate(Total(turns, Bet()), |turns|)
    && CountsTurns(s.stats, turns) && CountsSkips(s.stats.skips, Skips(ds, turns))
  }

  /**
   * Final bankroll, counters, trade rows and tracker of a fold, over any decisions.  An error
   * stops it at its round, with the rows of the rounds before it written.
   */
  method RunFold(cfg: Config, ds: seq<Decision>, rs: seq<Round>, fee: real)
    returns (r: Result<Summary, Error>, trades: seq<Trade>, tracker: InMemoryBankrollTracker)
    requires cfg.Valid() && |ds| == |rs|
    ensures rs == [] ==> r == Err(NoRounds)
    ensures |trades| <= |rs| && TurnsOf(ds, rs, fee, |trades|).Ok?
    ensures var turns := TurnsOf(ds, rs, fee, |trades|).value;
            && trades == TradesOf(cfg.initial, ds, rs, turns)
            && tracker.Valid() && tracker.config == cfg
            && tracker.Mem() == MemoryAfter(cfg, ds, rs, turns, |trades|)
    ensures |trades| < |rs| ==> r.Err? && TurnsOf(ds, rs, fee, |trades| + 1) == Err(r.error)
    ensures rs != [] && |trades| == |rs| ==> r.Ok? && Summarises(r.value, cfg, ds, TurnsOf(ds, rs, fee, |rs|).value)
  {
    hide TurnOf, TurnsOf, CountsTurns, CountsSkips, Skips, ReasonOf, Sum, Total, Record, TradesOf, Summarises,
         InMemoryBankrollTracker.Valid;
    tracker := new InMemoryBankrollTracker(cfg);
    var bankroll := cfg.initial;
    var stats := NO_STATS;
    trades := [];
    ghost var turns: seq<Turn> := [];
    NothingYet(ds, rs, fee, stats, turns, cfg.initial);
    if rs == [] {
      return Err(NoRounds), trades, tracker;
    }
    for k := 0 to |rs|
      invariant tracker.Valid() && tracker.config == cfg
      invariant TurnsOf(ds, rs, fee, k) == Ok(turns) && |turns| == k == |trades|
      invariant bankroll == BankrollAfter(cfg.initial, turns)
      invariant CountsTurns(stats, turns) && CountsSkips(stats.skips, Skips(ds, turns))
      invariant tracker.Mem() == MemoryAfter(cfg, ds, rs, turns, k)
      invariant trades == TradesOf(cfg.initial, ds, rs, turns)
    {
      TurnsSnoc(ds, rs, fee, k);
      var turn, after := TakeTurn(ds[k], rs[k], fee, bankroll);
      if turn.Err? {
        return Err(turn.error), trades, tracker;
      }
      var t := turn.value;
      bankroll := after;
      WinsAreBets(ds[k], rs[k], fee);
      SkipsSnoc(ds, turns, t);
      stats := Tally(stats, ReasonOf(ds[k]), t, Skips(ds, turns), turns);
      SumSnoc(turns, t, Profit());
      ProfitIs(t);
      MemorySnoc(cfg, ds, rs, turns, t);
      TradesSnoc(cfg.initial, ds, rs, turns, t);
      turns := turns + [t];
      trades := trades + [Trade(rs[k].epoch, ds[k], t.profit, bankroll)];
      tracker.RecordSettlement(bankroll, rs[k].startAt, ds[k].openStake);
    }
    OnlyBetsWin(ds, rs, fee, |rs|);
    var summary := Summary(|rs|, cfg.initial, bankroll, bankroll - cfg.initial, |rs| - stats.bets,
                           SafeRate(stats.wins, stats.bets), SafeRate(stats.bets, |rs|), stats);
    SummarySums(summary, cfg, ds, turns, stats);
    r := Ok(summary);
  }

  lemma SummarySums(s: Summary, cfg: Config, ds: seq<Decision>, turns: seq<Turn>, stats: Stats)
    requires |turns| <= |ds| && forall t :: t in turns ==> (t.won ==> t.bull.Some?)
    requires CountsTurns(stats, turns) && CountsSkips(stats.skips, Skips(ds, turns))
    requires var final := BankrollAfter(cfg.initial, turns);
             s == Summary(|turns|, cfg.initial, final, final - cfg.initial, |turns| - stats.bets,
                          SafeRate(stats.wins, stats.bets), SafeRate(stats.bets, |turns|), stats)
    ensures Summarises(s, cfg, ds, turns)
  {
    hide CountsSkips, Skips, Sum, Total;
    NetIsGainsLessLosses(turns);
    BetsAndSkipsFillUp(ds, turns);
  }

  lemma ProfitIs(t: Turn)
    ensures Profit()(t) == t.profit
  {
  }

  lemma NothingYet(ds: seq<Decision>, rs: seq<Round>, fee: real, s: Stats, turns: seq<Turn>, initial: real)
    requires |turns| == 0 && |ds| == |rs| && s == NO_STATS
    ensures TurnsOf(ds, rs, fee, 0) == Ok(turns) && Sum(turns, Profit()) == 0.0
    ensures TradesOf(initial, ds, rs, turns) == []
    ensures CountsTurns(s, turns) && CountsSkips(s.skips, Skips(ds, turns))
  {
  }

  lemma TurnsSnoc(ds: seq<Decision>, rs: seq<Round>, fee: real, k: nat)
    requires k < |ds| == |rs| && TurnsOf(ds, rs, fee, k).Ok?
    ensures TurnsOf(ds, rs, fee, k + 1) ==
            match TurnOf(ds[k], rs[k], fee)
            case Err(e) => Err(e)
            case Ok(t) => Ok(TurnsOf(ds, rs, fee, k).value + [t])
  {
    hide TurnOf;
  }

  lemma WinsAreBets(d: Decision, r: Round, fee: real)
    ensures TurnOf(d, r, fee).Ok? && TurnOf(d, r, fee).value.won ==> TurnOf(d, r, fee).value.bull.Some?
  {
    hide Settlement.SettleAgainstClosedRound;
  }

  lemma MemorySnoc(cfg: Config, ds: seq<Decision>, rs: seq<Round>, turns: seq<Turn>, t: Turn)
    requires cfg.Valid() && |turns| < |rs| == |ds|
    ensures MemoryAfter(cfg, ds, rs, turns + [t], |turns| + 1) ==
            Record(cfg, MemoryAfter(cfg, ds, rs, turns, |turns|), BankrollAfter(cfg.initial, turns + [t]), rs[|turns|].startAt,
                   ds[|turns|].openStake)
  {
    hide Record, Sum;
    MemoryOfFront(cfg, ds, rs, turns, t, |turns|);
    assert (turns + [t])[..|turns| + 1] == turns + [t];
  }

  lemma {:induction false} MemoryOfFront(cfg: Config, ds: seq<Decision>, rs: seq<Round>, turns: seq<Turn>, t: Turn, k: nat)
    requires cfg.Valid() && k <= |turns| && k <= |rs| == |ds|
    ensures MemoryAfter(cfg, ds, rs, turns + [t], k) == MemoryAfter(cfg, ds, rs, turns, k)
  {
    hide Record, Sum;
    if k > 0 {
      MemoryOfFront(cfg, ds, rs, turns, t, k - 1);
      assert (turns + [t])[..k] == turns[..k];
    }
  }

  /** Stake and gas leave the bankroll before the bet is settled; a skip leaves it alone. */
  method TakeTurn(d: Decision, r: Round, fee: real, before: real) returns (turn: Result<Turn, Error>, bankroll: real)
    ensures turn == TurnOf(d, r, fee)
    ensures turn.Ok? ==> bankroll == before + turn.value.profit
  {
    hide Settlement.SettleAgainstClosedRound;
    if !(d.isBet && d.size > 0.0) {
      return Ok(Turn(0.0, None, false)), before;
    }
    if d.side != Bull && d.side != Bear {
      return Err(BetSideInvalid), before;
    }
    bankroll := before - (d.size + Settlement.BET_GAS);
    var outcome := Settlement.SettleAgainstClosedRound(d.size, d.side, r.closed, fee);
    if outcome.Err? {
      return Err(SettlementFailed(outcome.error)), bankroll;
    }
    bankroll := bankroll + outcome.value.credit;
    var profit := outcome.value.credit - d.size - Settlement.BET_GAS;
    turn := Ok(Turn(profit, Some(d.side == Bull), outcome.value.outcome == Settlement.Win));
  }
}
