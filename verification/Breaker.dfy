/**
 * The drawdown breaker in three wirings.  In production the pipeline checks "paused" (and
 * ticks), then the bankroll minimum, then the drawdown.  Two research trackers move the
 * drawdown check inside is_paused and set one extra cooldown round for the tick that
 * follows.  They claim the same skips; the theorems say exactly when that is so.
 *
 * The bankroll itself is left abstract: it evolves by any function of the round and of
 * whether the round was skipped, and the breach tests are any functions of it.
 */
module Breaker {
  import opened Basics
  import opened Cooldown

  datatype Check = Check(paused: bool, timer: Timer)

  datatype Decision = Decision(skipped: bool, timer: Timer)

  /** is_paused of the production tracker. */
  function PlainCheck(t: Timer): Check {
    Check(t.remaining > 0, t)
  }

  /** is_paused of AdaptiveBankrollTracker: a fresh breach pauses for one round more. */
  function AdaptiveCheck(rounds: nat, t: Timer, breach: bool, at: int): Check {
    if t.remaining > 0 then Check(true, t)
    else if breach then Check(true, SetPaused(t, rounds + 1, at))
    else Check(false, t)
  }

  /** is_paused of Step15Tracker: the same, except that a cooldown of 0 never pauses. */
  function SweptCheck(rounds: nat, t: Timer, breach: bool, at: int): Check {
    if t.remaining > 0 then Check(true, t)
    else if breach && rounds > 0 then Check(true, SetPaused(t, rounds + 1, at))
    else Check(false, t)
  }

  /** The pipeline's risk checks 1 to 3 on the answer of is_paused. */
  function RiskChecks(c: Check, below: bool, breach: bool, rounds: nat, at: int): Decision {
    if c.paused then Decision(true, Tick(c.timer, Some(at)))
    else if below then Decision(true, c.timer)
    else if breach then Decision(true, SetPaused(c.timer, rounds, at))
    else Decision(false, c.timer)
  }

  // --------------------------------------------------------------------------- runs

  /** One round in bankroll state `W`: its anchor, the tests, and what it does to the bankroll. */
  datatype Round<!W> = Round(
    at: int,
    below: W -> bool,           // bankroll under the betting minimum
    trackerBreach: W -> bool,   // the research tracker's drawdown test
    pipelineBreach: W -> bool,  // the drawdown test left in the research pipeline
    next: (W, bool) -> W)       // bankroll after the round, given whether it was skipped

  datatype System =
    | Production(rounds: nat)                      // fires on either test
    | Adaptive(rounds: nat, pipelineRounds: nat)
    | Swept(rounds: nat, pipelineRounds: nat)

  function Decide<W>(sys: System, w: W, t: Timer, r: Round<W>): Decision {
    match sys
    case Production(rounds) =>
      RiskChecks(PlainCheck(t), r.below(w), r.trackerBreach(w) || r.pipelineBreach(w), rounds, r.at)
    case Adaptive(rounds, pipelineRounds) =>
      RiskChecks(AdaptiveCheck(rounds, t, r.trackerBreach(w), r.at),
                 r.below(w), r.pipelineBreach(w), pipelineRounds, r.at)
    case Swept(rounds, pipelineRounds) =>
      RiskChecks(SweptCheck(rounds, t, r.trackerBreach(w), r.at),
                 r.below(w), r.pipelineBreach(w), pipelineRounds, r.at)
  }

  /** What is seen of a run: for each round whether it was skipped and the cooldown after it. */
  function Trace<W>(sys: System, w: W, t: Timer, rs: seq<Round<W>>): seq<(bool, nat)>
    decreases |rs|
  {
    if rs == [] then [] else
      var d := Decide(sys, w, t, rs[0]);
      [(d.skipped, d.timer.remaining)] + Trace(sys, rs[0].next(w, d.skipped), d.timer, rs[1..])
  }

  /** One decision per round: anchors strictly increase and none was ticked before. */
  predicate Fresh<W>(t: Timer, rs: seq<Round<W>>)
    decreases |rs|
  {
    rs == [] || (
      && (t.lastTick.Some? ==> t.lastTick.value < rs[0].at)
      && Fresh(Timer(0, None, Some(rs[0].at)), rs[1..]))
  }

  /**
   * The rounds on which a research wiring departs from production: the cooldown is not running and
   *   - a breach of the tracker's test is hidden behind the bankroll minimum, the cooldown positive;
   *   - the swept tracker has a cooldown of 0 and does not pause on a breach above the minimum, unless
   *     the pipeline's own test fires as well and pauses for 0 rounds too;
   *   - the pipeline's own test fires alone, above the minimum, and pauses for another length.
   */
  predicate Departs<W>(sys: System, w: W, t: Timer, r: Round<W>) {
    && t.remaining == 0
    && match sys
       case Production(_) => false
       case Adaptive(n, pipelineRounds) =>
         if r.trackerBreach(w) then n > 0 && r.below(w)
         else n != pipelineRounds && r.pipelineBreach(w) && !r.below(w)
       case Swept(n, pipelineRounds) =>
         if r.trackerBreach(w) && n > 0 then r.below(w)
         else if r.trackerBreach(w) then !r.below(w) && !(r.pipelineBreach(w) && pipelineRounds == 0)
         else n != pipelineRounds && r.pipelineBreach(w) && !r.below(w)
  }

  /** No round of the production run is one of those. */
  predicate NeverDeparts<W>(sys: System, w: W, t: Timer, rs: seq<Round<W>>)
    decreases |rs|
  {
    rs == [] || (
      var d := Decide(Production(sys.rounds), w, t, rs[0]);
      && !Departs(sys, w, t, rs[0])
      && NeverDeparts(sys, rs[0].next(w, d.skipped), d.timer, rs[1..]))
  }

  /** Deciding a round leaves the timer fresh for the rounds after it. */
  lemma StaysFresh<W>(sys: System, w: W, t: Timer, rs: seq<Round<W>>)
    requires rs != [] && Fresh(t, rs)
    ensures Fresh(Decide(sys, w, t, rs[0]).timer, rs[1..])
  {
    var u := Decide(sys, w, t, rs[0]).timer;
    assert u.lastTick == t.lastTick || u.lastTick == Some(rs[0].at);
    if rs[1..] != [] {
      assert rs[0].at < rs[1..][0].at;
    }
  }

  /** One round: same skip and same cooldown afterwards unless the round is one of those. */
  lemma RoundAgrees<W>(sys: System, w: W, t: Timer, u: Timer, rs: seq<Round<W>>)
    requires rs != [] && Fresh(t, rs) && Fresh(u, rs) && t.remaining == u.remaining
    ensures var p, a := Decide(Production(sys.rounds), w, t, rs[0]), Decide(sys, w, u, rs[0]);
            (p.skipped == a.skipped && p.timer.remaining == a.timer.remaining) <==> !Departs(sys, w, t, rs[0])
  {
  }

  lemma {:induction false} TracesAgree<W>(sys: System, w: W, t: Timer, u: Timer, rs: seq<Round<W>>)
    requires t.remaining == u.remaining && Fresh(t, rs) && Fresh(u, rs)
    ensures Trace(Production(sys.rounds), w, t, rs) == Trace(sys, w, u, rs) <==> NeverDeparts(sys, w, t, rs)
    decreases |rs|
  {
    if rs != [] {
      var plain := Production(sys.rounds);
      var p, a := Decide(plain, w, t, rs[0]), Decide(sys, w, u, rs[0]);
      StaysFresh(plain, w, t, rs);
      StaysFresh(sys, w, u, rs);
      hide Fresh, Departs, Trace;
      RoundAgrees(sys, w, t, u, rs);
      TraceHeads(plain, sys, w, t, u, rs);
      hide Decide;
      if p.skipped == a.skipped && p.timer.remaining == a.timer.remaining {
        TracesAgree(sys, rs[0].next(w, p.skipped), p.timer, a.timer, rs[1..]);
      }
    }
  }

  /**
   * The adaptive wiring makes the same skips and leaves the same cooldown after every round as
   * production exactly in the runs with no such round, whatever the tests and cooldown lengths.
   */
  lemma AdaptiveAgrees<W>(n: nat, pipelineRounds: nat, w: W, t: Timer, u: Timer, rs: seq<Round<W>>)
    requires t.remaining == u.remaining && Fresh(t, rs) && Fresh(u, rs)
    ensures Trace(Production(n), w, t, rs) == Trace(Adaptive(n, pipelineRounds), w, u, rs)
            <==> NeverDeparts(Adaptive(n, pipelineRounds), w, t, rs)
  {
    TracesAgree(Adaptive(n, pipelineRounds), w, t, u, rs);
  }

  /** So does the swept wiring, with its own such rounds. */
  lemma SweptAgrees<W>(n: nat, pipelineRounds: nat, w: W, t: Timer, u: Timer, rs: seq<Round<W>>)
    requires t.remaining == u.remaining && Fresh(t, rs) && Fresh(u, rs)
    ensures Trace(Production(n), w, t, rs) == Trace(Swept(n, pipelineRounds), w, u, rs)
            <==> NeverDeparts(Swept(n, pipelineRounds), w, t, rs)
  {
    TracesAgree(Swept(n, pipelineRounds), w, t, u, rs);
  }

  lemma TraceHeads<W>(sys: System, sys': System, w: W, t: Timer, u: Timer, rs: seq<Round<W>>)
    requires rs != []
    ensures var p, a := Decide(sys, w, t, rs[0]), Decide(sys', w, u, rs[0]);
            Trace(sys, w, t, rs) == Trace(sys', w, u, rs) <==>
            && p.skipped == a.skipped && p.timer.remaining == a.timer.remaining
            && Trace(sys, rs[0].next(w, p.skipped), p.timer, rs[1..])
               == Trace(sys', rs[0].next(w, a.skipped), a.timer, rs[1..])
  {
    var x, y := Trace(sys, w, t, rs), Trace(sys', w, u, rs);
    var p, a := Decide(sys, w, t, rs[0]), Decide(sys', w, u, rs[0]);
    assert x[0] == (p.skipped, p.timer.remaining) && y[0] == (a.skipped, a.timer.remaining);
    assert x[1..] == Trace(sys, rs[0].next(w, p.skipped), p.timer, rs[1..]);
    assert y[1..] == Trace(sys', rs[0].next(w, a.skipped), a.timer, rs[1..]);
  }

  // ------------------------------------------------------------------ where they differ

  function Says(answer: bool): bool -> bool {
    (w: bool) => answer
  }

  function Stays(): (bool, bool) -> bool {
    (w: bool, skipped: bool) => w
  }

  /** A single round with a breach of either test, under the bankroll minimum or not. */
  function Breaching(below: bool, tracker: bool): Round<bool> {
    Round(1, Says(below), Says(tracker), Says(!tracker), Stays())
  }

  /** Whether a run of that one round skips it, and leaves this cooldown. */
  predicate Leaves(sys: System, below: bool, tracker: bool, skipped: bool, remaining: nat) {
    var rs := [Breaching(below, tracker)];
    Fresh(IDLE, rs) && Trace(sys, true, IDLE, rs) == [(skipped, remaining)]
  }

  lemma LeavesDecision(sys: System, below: bool, tracker: bool)
    ensures var d := Decide(sys, true, IDLE, Breaching(below, tracker));
            Leaves(sys, below, tracker, d.skipped, d.timer.remaining)
  {
    hide Decide;
    var rs := [Breaching(below, tracker)];
    var d := Decide(sys, true, IDLE, rs[0]);
    assert rs[1..] == [];
    assert Trace(sys, rs[0].next(true, d.skipped), d.timer, rs[1..]) == [];
    assert Fresh(Timer(0, None, Some(rs[0].at)), rs[1..]);
    assert Trace(sys, true, IDLE, rs) == [(d.skipped, d.timer.remaining)];
  }

  /** With a dark breach production only skips the round; the research trackers go into their cooldown. */
  lemma DarkBreach(n: nat)
    requires n > 0
    ensures Leaves(Production(n), true, true, true, 0)
    ensures Leaves(Adaptive(n, n), true, true, true, n)
    ensures Leaves(Swept(n, n), true, true, true, n)
  {
    LeavesDecision(Production(n), true, true);
    LeavesDecision(Adaptive(n, n), true, true);
    LeavesDecision(Swept(n, n), true, true);
  }

  /** With a cooldown of zero rounds production still skips the round of the breach; the swept tracker bets on it. */
  lemma ZeroCooldown(pipelineRounds: nat)
    ensures Leaves(Production(0), false, true, true, 0)
    ensures Leaves(Swept(0, pipelineRounds), false, true, false, 0)
  {
    LeavesDecision(Production(0), false, true);
    LeavesDecision(Swept(0, pipelineRounds), false, true);
  }

  /** When the pipeline's own test fires alone, its own cooldown length shows. */
  lemma OwnTestAlone(n: nat, pipelineRounds: nat)
    ensures Leaves(Production(n), false, false, true, n)
    ensures Leaves(Adaptive(n, pipelineRounds), false, false, true, pipelineRounds)
    ensures Leaves(Swept(n, pipelineRounds), false, false, true, pipelineRounds)
  {
    LeavesDecision(Production(n), false, false);
    LeavesDecision(Adaptive(n, pipelineRounds), false, false);
    LeavesDecision(Swept(n, pipelineRounds), false, false);
  }
}
