/**
 * The cooldown counter of the bankroll tracker: a number of rounds, consumed once per
 * round anchor and mirrored to a pause file.  The anchor of the last tick is not in the
 * file, so a restart forgets it.
 */
module Cooldown {
  import opened Basics

  /** `remaining` rounds, since `triggeredAt`; `lastTick` is the anchor of the last tick. */
  datatype Timer = Timer(remaining: nat, triggeredAt: Option<int>, lastTick: Option<int>)

  datatype PauseDoc = PauseDoc(paused: bool, remaining: nat, triggeredAt: Option<int>)

  const IDLE := Timer(0, None, None)

  function SetPaused(t: Timer, rounds: nat, triggeredAt: int): Timer {
    t.(remaining := rounds, triggeredAt := Some(triggeredAt))
  }

  function Tick(t: Timer, anchor: Option<int>): Timer {
    if anchor.Some? && t.lastTick == anchor then t
    else
      var left := if t.remaining > 0 then t.remaining - 1 else 0;
      Timer(left,
            if left == 0 then None else t.triggeredAt,
            if anchor.Some? then anchor else t.lastTick)
  }

  function Mirror(t: Timer): PauseDoc {
    PauseDoc(t.remaining > 0, t.remaining, t.triggeredAt)
  }

  /** The timer that a new process starts with, given the pause file. */
  function Reload(file: Option<PauseDoc>): Timer {
    if file.Some? && file.value.paused then Timer(file.value.remaining, file.value.triggeredAt, None)
    else IDLE
  }

  // ------------------------------------------------------------------------- runs

  datatype Event =
    | Pause(rounds: nat, at: int)
    | RoundTick(anchor: int)   // tick_cooldown with the round's start
    | BareTick                 // tick_cooldown with no anchor
    | Restart

  datatype World = World(timer: Timer, file: Option<PauseDoc>)

  const FRESH := World(IDLE, None)

  /** What tick_cooldown leaves in the file: nothing new for a repeated round or when not paused. */
  function TickFile(before: Timer, after: Timer, file: Option<PauseDoc>): Option<PauseDoc> {
    if before.remaining == 0 || after.remaining == before.remaining then file
    else Some(Mirror(after))
  }

  function Step(w: World, e: Event): World {
    match e
    case Pause(rounds, at) =>
      var t := SetPaused(w.timer, rounds, at);
      World(t, Some(Mirror(t)))
    case RoundTick(anchor) =>
      var t := Tick(w.timer, Some(anchor));
      World(t, TickFile(w.timer, t, w.file))
    case BareTick =>
      var t := Tick(w.timer, None);
      World(t, TickFile(w.timer, t, w.file))
    case Restart =>
      World(Reload(w.file), w.file)
  }

  function Run(w: World, es: seq<Event>): World
    decreases |es|
  {
    if es == [] then w else Run(Step(w, es[0]), es[1..])
  }

  /** The file agrees with the timer: on the rounds left always, on the trigger while paused. */
  predicate InSync(w: World) {
    && Reload(w.file).remaining == w.timer.remaining
    && (w.timer.remaining > 0 ==> Reload(w.file).triggeredAt == w.timer.triggeredAt)
  }

  /** A restart after any run finds the cooldown the run ended with. */
  lemma {:induction false} ReloadMatchesLive(w: World, es: seq<Event>)
    requires InSync(w)
    ensures InSync(Run(w, es))
    decreases |es|
  {
    if es != [] {
      ReloadMatchesLive(Step(w, es[0]), es[1..]);
    }
  }

  /** In particular from a new installation. */
  lemma FreshReloads(es: seq<Event>)
    ensures Reload(Run(FRESH, es).file).remaining == Run(FRESH, es).timer.remaining
  {
    ReloadMatchesLive(FRESH, es);
  }

  // ----------------------------------------------------------------- consumption law

  predicate NoPause(es: seq<Event>) {
    forall i :: 0 <= i < |es| ==> !es[i].Pause?
  }

  /** Round anchors never go back, and none precedes the last one ticked. */
  predicate Forward(last: Option<int>, es: seq<Event>)
    decreases |es|
  {
    es == [] || (
      if es[0].RoundTick?
      then (last.Some? ==> last.value <= es[0].anchor) && Forward(Some(es[0].anchor), es[1..])
      else Forward(last, es[1..]))
  }

  /** The rounds that a run charges: every tick except a repeat that the timer can recognise. */
  function Charged(last: Option<int>, es: seq<Event>): nat
    decreases |es|
  {
    if es == [] then 0 else
      match es[0]
      case RoundTick(anchor) =>
        (if last == Some(anchor) then 0 else 1) + Charged(Some(anchor), es[1..])
      case BareTick => 1 + Charged(last, es[1..])
      case Restart => Charged(None, es[1..])
      case Pause(_, _) => Charged(last, es[1..])
  }

  function Anchors(es: seq<Event>): set<int> {
    if es == [] then {} else
      (if es[0].RoundTick? then {es[0].anchor} else {}) + Anchors(es[1..])
  }

  function Count(es: seq<Event>, bare: bool): nat {
    if es == [] then 0 else
      (if (if bare then es[0].BareTick? else es[0].Restart?) then 1 else 0) + Count(es[1..], bare)
  }

  function BareTicks(es: seq<Event>): nat { Count(es, true) }

  function Restarts(es: seq<Event>): nat { Count(es, false) }

  function SetOf(o: Option<int>): set<int> {
    if o.Some? then {o.value} else {}
  }

  /** Distinct rounds ticked, other than the one last ticked before the run. */
  function DistinctRounds(last: Option<int>, es: seq<Event>): nat {
    |Anchors(es) - SetOf(last)|
  }

  lemma {:induction false} RemainingIsUncharged(w: World, es: seq<Event>)
    requires InSync(w) && NoPause(es)
    ensures Run(w, es).timer.remaining ==
            Less(w.timer.remaining, Charged(w.timer.lastTick, es))
    decreases |es|
  {
    if es != [] {
      assert !es[0].Pause?;
      RemainingIsUncharged(Step(w, es[0]), es[1..]);
    }
  }

  lemma {:induction false} AnchorsAfter(last: int, es: seq<Event>)
    requires Forward(Some(last), es)
    ensures forall a :: a in Anchors(es) ==> last <= a
    decreases |es|
  {
    if es != [] {
      AnchorsAfter(if es[0].RoundTick? then es[0].anchor else last, es[1..]);
    }
  }

  lemma RoundTickCount(last: Option<int>, anchor: int, es: seq<Event>)
    requires es != [] && es[0] == RoundTick(anchor) && Forward(last, es)
    ensures DistinctRounds(last, es) ==
            (if last == Some(anchor) then 0 else 1) + DistinctRounds(Some(anchor), es[1..])
  {
    var rest := Anchors(es[1..]);
    AnchorsAfter(anchor, es[1..]);
    if last == Some(anchor) {
      assert Anchors(es) - SetOf(last) == rest - {anchor};
    } else {
      assert last.Some? ==> last.value !in Anchors(es);
      assert Anchors(es) - SetOf(last) == {anchor} + (rest - {anchor});
    }
  }

  // ------------------------------------------------------------ what a restart adds

  /**
   * Ticks that charge a round again: its anchor was the last one ticked (`prev`), but the timer
   * no longer knows that (`known`), because of a restart in between.
   */
  function Split(prev: Option<int>, known: Option<int>, es: seq<Event>): nat
    decreases |es|
  {
    if es == [] then 0 else
      match es[0]
      case RoundTick(anchor) =>
        (if prev == Some(anchor) && known == None then 1 else 0) + Split(Some(anchor), Some(anchor), es[1..])
      case Restart => Split(prev, None, es[1..])
      case _ => Split(prev, known, es[1..])
  }

  /** The charge exactly: every distinct round, every bare tick, and every round split by a restart. */
  lemma {:induction false} ChargedIs(prev: Option<int>, known: Option<int>, es: seq<Event>)
    requires NoPause(es) && Forward(prev, es) && (known == prev || known == None)
    ensures Charged(known, es) == DistinctRounds(prev, es) + BareTicks(es) + Split(prev, known, es)
    decreases |es|
  {
    hide DistinctRounds;
    if es == [] {
      NoRounds(prev, es);
    } else {
      var rest := es[1..];
      assert !es[0].Pause?;
      match es[0]
      case RoundTick(anchor) =>
        ChargedIs(Some(anchor), Some(anchor), rest);
        RoundTickCount(prev, anchor, es);
      case BareTick =>
        ChargedIs(prev, known, rest);
        SameRounds(prev, es);
      case Restart =>
        ChargedIs(prev, None, rest);
        SameRounds(prev, es);
    }
  }

  lemma NoRounds(prev: Option<int>, es: seq<Event>)
    requires es == []
    ensures DistinctRounds(prev, es) == 0
  {
    assert Anchors(es) - SetOf(prev) == {};
  }

  lemma SameRounds(prev: Option<int>, es: seq<Event>)
    requires es != [] && !es[0].RoundTick?
    ensures DistinctRounds(prev, es) == DistinctRounds(prev, es[1..])
  {
    assert Anchors(es) == Anchors(es[1..]);
  }

  lemma {:induction false} SplitAtMostRestarts(prev: Option<int>, known: Option<int>, es: seq<Event>)
    ensures Split(prev, known, es) <= Restarts(es) + if known == None && prev.Some? then 1 else 0
    decreases |es|
  {
    if es != [] {
      match es[0]
      case RoundTick(anchor) => SplitAtMostRestarts(Some(anchor), Some(anchor), es[1..]);
      case Restart => SplitAtMostRestarts(prev, None, es[1..]);
      case _ => SplitAtMostRestarts(prev, known, es[1..]);
    }
  }

  /** Distinct rounds and bare ticks are all charged; beyond them, at most one round per restart. */
  lemma ChargedBounds(last: Option<int>, es: seq<Event>)
    requires NoPause(es) && Forward(last, es)
    ensures var least := DistinctRounds(last, es) + BareTicks(es);
            least <= Charged(last, es) <= least + Restarts(es)
  {
    ChargedIs(last, last, es);
    SplitAtMostRestarts(last, last, es);
  }

  /** `anchor` is the round last ticked before the run, or is ticked before position `j`. */
  ghost predicate TickedBefore(prev: Option<int>, es: seq<Event>, j: nat, anchor: int)
    requires j <= |es|
  {
    prev == Some(anchor) || RoundTick(anchor) in es[..j]
  }

  /** A restart at `j` falls between two ticks of one round, the second at `k`. */
  ghost predicate Falls(prev: Option<int>, es: seq<Event>, j: int, k: int) {
    0 <= j < k < |es| && es[j].Restart? && es[k].RoundTick? && TickedBefore(prev, es, j, es[k].anchor)
  }

  ghost predicate Interrupted(prev: Option<int>, es: seq<Event>) {
    exists j, k :: Falls(prev, es, j, k)
  }

  /** The round last ticked, since forgotten, comes again. */
  predicate Returns(prev: Option<int>, known: Option<int>, es: seq<Event>) {
    known == None && prev.Some? && RoundTick(prev.value) in es
  }

  lemma FallsLater(prev: Option<int>, before: Option<int>, es: seq<Event>, j: int, k: int)
    requires es != [] && Falls(before, es[1..], j, k)
    requires before == prev || (es[0].RoundTick? && before == Some(es[0].anchor))
    ensures Falls(prev, es, j + 1, k + 1)
  {
    assert es[..j + 1] == [es[0]] + es[1..][..j];
  }

  lemma FallsEarlier(prev: Option<int>, after: Option<int>, es: seq<Event>, j: int, k: int)
    requires es != [] && Forward(prev, es) && Falls(prev, es, j, k) && 0 < j
    requires after == if es[0].RoundTick? then Some(es[0].anchor) else prev
    ensures Falls(after, es[1..], j - 1, k - 1)
  {
    var rest := es[1..];
    var anchor := es[k].anchor;
    assert es[..j] == [es[0]] + rest[..j - 1];
    if es[0].RoundTick? && prev == Some(anchor) && RoundTick(anchor) !in rest[..j - 1] {
      TicksAreLater(rest, es[0].anchor, k - 1);
    }
  }

  lemma {:induction false} TicksAreLater(es: seq<Event>, last: int, k: int)
    requires Forward(Some(last), es) && 0 <= k < |es| && es[k].RoundTick?
    ensures last <= es[k].anchor
    decreases |es|
  {
    if k > 0 {
      TicksAreLater(es[1..], if es[0].RoundTick? then es[0].anchor else last, k - 1);
    }
  }

  /** A round is charged again exactly when a restart falls between two of its ticks. */
  lemma {:induction false} SplitExactlyWhen(prev: Option<int>, known: Option<int>, es: seq<Event>)
    requires NoPause(es) && Forward(prev, es) && (known == prev || known == None)
    ensures Split(prev, known, es) > 0 <==> Interrupted(prev, es) || Returns(prev, known, es)
    decreases |es|, 1
  {
    hide Interrupted, Returns, Split;
    if es == [] {
      NoEvents(prev, known, es);
    } else {
      assert !es[0].Pause?;
      match es[0]
      case RoundTick(anchor) => SplitAtTick(prev, known, anchor, es);
      case BareTick => SplitAtBare(prev, known, es);
      case Restart => SplitAtRestart(prev, known, es);
    }
  }

  lemma NoEvents(prev: Option<int>, known: Option<int>, es: seq<Event>)
    requires es == []
    ensures Split(prev, known, es) == 0 && !Interrupted(prev, es) && !Returns(prev, known, es)
  {
  }

  lemma {:induction false} SplitAtTick(prev: Option<int>, known: Option<int>, anchor: int, es: seq<Event>)
    requires es != [] && es[0] == RoundTick(anchor)
    requires NoPause(es) && Forward(prev, es) && (known == prev || known == None)
    ensures Split(prev, known, es) > 0 <==> Interrupted(prev, es) || Returns(prev, known, es)
    decreases |es|, 0
  {
    hide Falls;
    var rest := es[1..];
    SplitExactlyWhen(Some(anchor), Some(anchor), rest);
    if Interrupted(Some(anchor), rest) {
      var j, k :| Falls(Some(anchor), rest, j, k);
      FallsLater(prev, Some(anchor), es, j, k);
    }
    if Interrupted(prev, es) {
      var j, k :| Falls(prev, es, j, k);
      FallsAfter(prev, es, j, k);
      FallsEarlier(prev, Some(anchor), es, j, k);
    }
    if Returns(prev, known, es) && prev != Some(anchor) {
      var k :| 0 <= k < |es| && es[k] == RoundTick(prev.value);
      TicksAreLater(rest, anchor, k - 1);
    }
  }

  lemma FallsAfter(prev: Option<int>, es: seq<Event>, j: int, k: int)
    requires es != [] && !es[0].Restart? && Falls(prev, es, j, k)
    ensures 0 < j
  {
  }

  lemma {:induction false} SplitAtBare(prev: Option<int>, known: Option<int>, es: seq<Event>)
    requires es != [] && es[0] == BareTick
    requires NoPause(es) && Forward(prev, es) && (known == prev || known == None)
    ensures Split(prev, known, es) > 0 <==> Interrupted(prev, es) || Returns(prev, known, es)
    decreases |es|, 0
  {
    hide Falls;
    var rest := es[1..];
    SplitExactlyWhen(prev, known, rest);
    if Interrupted(prev, rest) {
      var j, k :| Falls(prev, rest, j, k);
      FallsLater(prev, prev, es, j, k);
    }
    if Interrupted(prev, es) {
      var j, k :| Falls(prev, es, j, k);
      FallsAfter(prev, es, j, k);
      FallsEarlier(prev, prev, es, j, k);
    }
    assert es == [BareTick] + rest;
  }

  lemma {:induction false} SplitAtRestart(prev: Option<int>, known: Option<int>, es: seq<Event>)
    requires es != [] && es[0] == Restart
    requires NoPause(es) && Forward(prev, es) && (known == prev || known == None)
    ensures Split(prev, known, es) > 0 <==> Interrupted(prev, es) || Returns(prev, known, es)
    decreases |es|, 0
  {
    hide Falls;
    var rest := es[1..];
    SplitExactlyWhen(prev, None, rest);
    assert es == [Restart] + rest;
    if Interrupted(prev, rest) {
      var j, k :| Falls(prev, rest, j, k);
      FallsLater(prev, prev, es, j, k);
    }
    if Returns(prev, None, rest) {
      var k :| 0 <= k < |rest| && rest[k] == RoundTick(prev.value);
      FallsAtRestart(prev, es, k + 1);
    }
    if Interrupted(prev, es) {
      var j, k :| Falls(prev, es, j, k);
      if j == 0 {
        ReturnsAfter(prev, es, k);
      } else {
        FallsInRange(prev, es, j, k);
        FallsEarlier(prev, prev, es, j, k);
      }
    }
  }

  lemma FallsInRange(prev: Option<int>, es: seq<Event>, j: int, k: int)
    requires Falls(prev, es, j, k)
    ensures 0 <= j < k < |es|
  {
  }

  lemma FallsAtRestart(prev: Option<int>, es: seq<Event>, k: int)
    requires 0 < k < |es| && es[0].Restart? && prev.Some? && es[k] == RoundTick(prev.value)
    ensures Falls(prev, es, 0, k)
  {
  }

  lemma ReturnsAfter(prev: Option<int>, es: seq<Event>, k: int)
    requires Falls(prev, es, 0, k)
    ensures Returns(prev, None, es[1..])
  {
    assert es[..0] == [];
    assert es[1..][k - 1] == es[k];
  }

  // ------------------------------------------------------- what the timer remembers

  /** The round last ticked that the process knows of: ticked since the last restart, whatever else happened. */
  function LastAnchor(es: seq<Event>): Option<int> {
    if es == [] then None else
      match es[|es| - 1]
      case RoundTick(anchor) => Some(anchor)
      case Restart => None
      case _ => LastAnchor(es[..|es| - 1])
  }

  lemma {:induction false} RunInParts(w: World, a: seq<Event>, b: seq<Event>)
    ensures Run(w, a + b) == Run(Run(w, a), b)
    decreases |a|
  {
    hide Step;
    if a == [] {
      assert a + b == b;
    } else {
      RunInParts(Step(w, a[0]), a[1..], b);
      assert (a + b)[1..] == a[1..] + b;
    }
  }

  lemma LastStep(w: World, es: seq<Event>)
    requires es != []
    ensures Run(w, es) == Step(Run(w, es[..|es| - 1]), es[|es| - 1])
  {
    hide Step;
    var front, last := es[..|es| - 1], [es[|es| - 1]];
    assert es == front + last;
    RunInParts(w, front, last);
    assert last[1..] == [];
  }

  /** Every tick of a round is remembered, also one that ends the cooldown or finds none; only a restart forgets. */
  lemma {:induction false} LastTickIs(es: seq<Event>)
    ensures Run(FRESH, es).timer.lastTick == LastAnchor(es)
    decreases |es|
  {
    hide Run;
    if es == [] {
      NoRun(FRESH, es);
    } else {
      LastTickIs(es[..|es| - 1]);
      LastStep(FRESH, es);
    }
  }

  lemma NoRun(w: World, es: seq<Event>)
    requires |es| == 0
    ensures Run(w, es) == w
  {
  }

  // ---------------------------------------------------------------------- the law

  lemma CooldownFrom(w: World, rounds: nat, at: int, es: seq<Event>)
    requires InSync(w) && NoPause(es) && Forward(w.timer.lastTick, es)
    ensures var last := w.timer.lastTick;
            var d, split := DistinctRounds(last, es) + BareTicks(es), Split(last, last, es);
            var end := Run(Step(w, Pause(rounds, at)), es);
            && Reload(end.file).remaining == end.timer.remaining == Less(rounds, d + split)
            && split <= Restarts(es)
            && (split > 0 <==> Interrupted(last, es))
  {
    var paused, last := Step(w, Pause(rounds, at)), w.timer.lastTick;
    hide Forward, Interrupted, DistinctRounds, Charged, Split, Restarts, BareTicks;
    ChargedIs(last, last, es);
    ChargedBounds(last, es);
    SplitExactlyWhen(last, last, es);
    RemainingIsUncharged(paused, es);
    ReloadMatchesLive(paused, es);
    assert !Returns(last, last, es);
  }

  /** What happened before, then set_paused(N), then the rest, from a new installation. */
  function Paused(before: seq<Event>, rounds: nat, at: int, es: seq<Event>): World {
    Run(FRESH, before + [Pause(rounds, at)] + es)
  }

  lemma PausedIs(before: seq<Event>, rounds: nat, at: int, es: seq<Event>)
    ensures Paused(before, rounds, at, es) == Run(Step(Run(FRESH, before), Pause(rounds, at)), es)
  {
    hide Step, Run;
    var middle := before + [Pause(rounds, at)];
    RunInParts(FRESH, middle, es);
    LastStep(FRESH, middle);
    assert middle[..|before|] == before;
  }

  /**
   * The cooldown law.  Whatever happened before, after set_paused(N) any run of ticks and restarts
   * with anchors that never go back leaves max(0, N - consumed) rounds.  Consumed is the number d of
   * distinct rounds and bare ticks, not counting the round last ticked before (unless a restart has
   * made the timer forget it), and one more for each tick of a round whose earlier tick a restart
   * made the timer forget; there are at most as many of those as restarts.  One more restart
   * finds the same number.
   */
  lemma CooldownLaw(before: seq<Event>, rounds: nat, at: int, es: seq<Event>)
    requires NoPause(es) && Forward(LastAnchor(before), es)
    ensures var last := LastAnchor(before);
            var d, split := DistinctRounds(last, es) + BareTicks(es), Split(last, last, es);
            var end := Paused(before, rounds, at, es);
            && Reload(end.file).remaining == end.timer.remaining == Less(rounds, d + split)
            && split <= Restarts(es)
            && (split > 0 <==> Interrupted(last, es))
  {
    hide Step, Run, Forward, Interrupted, DistinctRounds, Split, Restarts, BareTicks, Reload, LastAnchor;
    LastTickIs(before);
    FreshInSync(before);
    PausedIs(before, rounds, at, es);
    CooldownFrom(Run(FRESH, before), rounds, at, es);
  }

  /** So each round is charged once exactly when no restart falls between two of its ticks (or N runs out first). */
  lemma ChargedOnceExactlyWhen(before: seq<Event>, rounds: nat, at: int, es: seq<Event>)
    requires NoPause(es) && Forward(LastAnchor(before), es)
    ensures var d := DistinctRounds(LastAnchor(before), es) + BareTicks(es);
            Paused(before, rounds, at, es).timer.remaining == Less(rounds, d)
            <==> rounds <= d || !Interrupted(LastAnchor(before), es)
  {
    hide Forward, Interrupted, DistinctRounds, Split, Restarts, BareTicks, Paused, LastAnchor;
    CooldownLaw(before, rounds, at, es);
  }

  /** While the pause lasts the timer names the start that triggered it, restarts included, and none afterwards. */
  lemma TriggerLastsWithPause(before: seq<Event>, rounds: nat, at: int, es: seq<Event>)
    requires 0 < rounds && NoPause(es)
    ensures var t := Paused(before, rounds, at, es).timer;
            t.triggeredAt == if t.remaining > 0 then Some(at) else None
  {
    hide Run, Paused;
    FreshInSync(before);
    PausedIs(before, rounds, at, es);
    TriggerFrom(Step(Run(FRESH, before), Pause(rounds, at)), at, es);
  }

  lemma {:induction false} TriggerFrom(w: World, at: int, es: seq<Event>)
    requires InSync(w) && NoPause(es) && w.timer.triggeredAt == if w.timer.remaining > 0 then Some(at) else None
    requires w.file.Some? && (w.file.value.paused <==> w.file.value.remaining > 0)
    ensures var t := Run(w, es).timer;
            t.triggeredAt == if t.remaining > 0 then Some(at) else None
    decreases |es|
  {
    if es != [] {
      assert !es[0].Pause?;
      TriggerFrom(Step(w, es[0]), at, es[1..]);
    }
  }

  /** There is a pause file exactly when something was ever paused, and it says how long and whether. */
  lemma {:induction false} FileIs(es: seq<Event>)
    ensures var w := Run(FRESH, es);
            && (w.file == None <==> NoPause(es))
            && (w.file.Some? ==>
                  && w.file.value.remaining == w.timer.remaining
                  && (w.file.value.paused <==> w.timer.remaining > 0))
    decreases |es|
  {
    hide Run;
    if es == [] {
      NoRun(FRESH, es);
    } else {
      FileIs(es[..|es| - 1]);
      LastStep(FRESH, es);
      assert es == es[..|es| - 1] + [es[|es| - 1]];
      FreshInSync(es[..|es| - 1]);
    }
  }

  lemma FreshInSync(es: seq<Event>)
    ensures InSync(Run(FRESH, es))
  {
    ReloadMatchesLive(FRESH, es);
  }

  function Less(n: nat, m: nat): nat {
    if m < n then n - m else 0
  }

  /** One round ticked, a restart, and the same round again: two rounds are gone instead of one. */
  lemma RestartChargesTwice(at: int, anchor: int)
    ensures var pause, tick := Pause(3, at), RoundTick(anchor);
            && Run(FRESH, [pause] + [tick, tick]).timer.remaining == 2
            && Run(FRESH, [pause] + [tick, Restart, tick]).timer.remaining == 1
  {
    hide Step;
    var pause, tick := Pause(3, at), RoundTick(anchor);
    var paused := Step(FRESH, pause);
    var once := Step(paused, tick);
    Stepwise(FRESH, pause, [tick, tick]);
    Stepwise(paused, tick, [tick]);
    Stepwise(once, tick, []);
    Stepwise(FRESH, pause, [tick, Restart, tick]);
    Stepwise(paused, tick, [Restart, tick]);
    Stepwise(once, Restart, [tick]);
    Stepwise(Step(once, Restart), tick, []);
    TwoTicks(at, anchor);
  }

  /** A pause set on the very round whose tick ended the one before is not charged for that round again. */
  lemma ExtensionIsNotCharged(at: int, anchor: int)
    ensures Run(FRESH, [Pause(1, at)] + [RoundTick(anchor), Pause(288, anchor), RoundTick(anchor)]).timer.remaining == 288
  {
    hide Step;
    var one := Step(FRESH, Pause(1, at));
    var none := Step(one, RoundTick(anchor));
    Stepwise(FRESH, Pause(1, at), [RoundTick(anchor), Pause(288, anchor), RoundTick(anchor)]);
    Stepwise(one, RoundTick(anchor), [Pause(288, anchor), RoundTick(anchor)]);
    Stepwise(none, Pause(288, anchor), [RoundTick(anchor)]);
    Stepwise(Step(none, Pause(288, anchor)), RoundTick(anchor), []);
    ThreeSteps(at, anchor);
  }

  lemma ThreeSteps(at: int, anchor: int)
    ensures var none := Step(Step(FRESH, Pause(1, at)), RoundTick(anchor));
            Step(Step(none, Pause(288, anchor)), RoundTick(anchor)).timer.remaining == 288
  {
  }

  lemma Stepwise(w: World, e: Event, es: seq<Event>)
    ensures Run(w, [e] + es) == Run(Step(w, e), es)
    ensures es == [] ==> Run(w, [e] + es) == Step(w, e)
  {
    hide Step;
    assert ([e] + es)[1..] == es;
  }

  lemma TwoTicks(at: int, anchor: int)
    ensures var once := Step(Step(FRESH, Pause(3, at)), RoundTick(anchor));
            && Step(once, RoundTick(anchor)).timer.remaining == 2
            && Step(Step(once, Restart), RoundTick(anchor)).timer.remaining == 1
  {
  }
}
