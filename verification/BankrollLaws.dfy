/** The main results about the bankroll tracker, for every run of settlements, releases and restarts. */
module BankrollLaws {
  import opened Basics
  import opened BankrollHistory
  import opened BankrollSpec
  import opened BankrollRuns
  import opened BankrollTheorems

  // ------------------------------------------------------------ the complete history

  function AddSettled(settled: seq<Entry>, op: Op): seq<Entry> {
    match op
    case Settle(bankroll, startAt, openStake) => settled + [Entry(startAt, bankroll, Settlement, openStake)]
    case Release(_) => []
    case Restart => settled
  }

  /** The settlements after the last release, restarts ignored. */
  function SettledSinceRelease(ops: seq<Op>): seq<Entry> {
    if ops == [] then [] else AddSettled(SettledSinceRelease(ops[..|ops| - 1]), Last(ops))
  }

  predicate Complete(full: seq<Entry>, settled: seq<Entry>) {
    if full == [] then settled == [] else full[1..] == settled
  }

  lemma StepComplete(cfg: Config, w: World, op: Op, settled: seq<Entry>)
    requires cfg.Valid() && w.mem.Valid() && (w.mem.seeded <==> w.full != []) && Complete(w.full, settled)
    ensures Complete(Step(cfg, w, op).full, AddSettled(settled, op))
  {
    match op
    case Settle(bankroll, startAt, openStake) =>
      hide Record, Persisted, IsRepeat;
      var e := Entry(startAt, bankroll, Settlement, openStake);
      if w.full != [] {
        assert (w.full + [e])[1..] == w.full[1..] + [e];
      } else {
        assert w.full + [InitEntry(cfg, startAt)] == [InitEntry(cfg, startAt)];
        assert ([InitEntry(cfg, startAt)] + [e])[1..] == [e] == settled + [e];
      }
    case Release(startAt) =>
    case Restart =>
      hide Load;
  }

  /** `full` is one starting sample followed by every settlement since, repeated values included. */
  lemma {:induction false} FullIsComplete(cfg: Config, ops: seq<Op>)
    requires cfg.Valid() && Timely(ops)
    ensures Complete(Run(cfg, ops).full, SettledSinceRelease(ops))
  {
    if ops != [] {
      hide Inv, Clock, TimesOf, Complete, Step, AddSettled;
      var before := ops[..|ops| - 1];
      FullIsComplete(cfg, before);
      RunKeeps(cfg, before);
      SeededFull(cfg, Run(cfg, before));
      StepComplete(cfg, Run(cfg, before), Last(ops), SettledSinceRelease(before));
    }
  }

  lemma SeededFull(cfg: Config, w: World)
    requires cfg.Valid() && Inv(cfg, w)
    ensures w.mem.Valid() && (w.mem.seeded <==> w.full != [])
  {
  }

  // ------------------------------------------------------------------------ the peak

  /** Restarts alone record nothing and leave the tracker as it was created. */
  lemma {:induction false} OnlyRestarts(cfg: Config, ops: seq<Op>)
    requires cfg.Valid()
    ensures var w := Run(cfg, ops);
            && (w.full == [] <==> forall i :: 0 <= i < |ops| ==> ops[i] == Restart)
            && (w.full == [] ==> w.mem == Start(cfg) && w.disk == [])
  {
    hide Step;
    if ops != [] {
      var front := ops[..|ops| - 1];
      OnlyRestarts(cfg, front);
      assert ops == front + [Last(ops)];
      OneMoreRestart(cfg, Run(cfg, front), Last(ops));
    }
  }

  lemma OneMoreRestart(cfg: Config, w: World, op: Op)
    requires cfg.Valid() && w.mem.Valid() && (w.full == [] ==> w.mem == Start(cfg) && w.disk == [])
    ensures var r := Step(cfg, w, op);
            && (r.full == [] <==> w.full == [] && op == Restart)
            && (r.full == [] ==> r.mem == Start(cfg) && r.disk == [])
  {
    hide Record, Persisted, IsRepeat, LiveWritten, Load;
    NothingLoaded(cfg, []);
  }

  lemma NothingLoaded(cfg: Config, disk: seq<Entry>)
    requires cfg.Valid() && |disk| == 0
    ensures Load(cfg, disk) == Start(cfg)
  {
  }

  /** Before anything is recorded peak and current are the initial bankroll, in both modes and at any query time. */
  lemma InitialPeak(cfg: Config, ops: seq<Op>, asOf: int)
    requires cfg.Valid() && forall i :: 0 <= i < |ops| ==> ops[i] == Restart
    ensures var m := Run(cfg, ops).mem;
            Peak(cfg, m, asOf) == Current(cfg, m) == cfg.initial
  {
    hide Run, RollingPeak;
    OnlyRestarts(cfg, ops);
  }

  /** The answer is the peak over `full`: to the tolerance, and exactly if only exact repeats were skipped. */
  predicate Answers(answer: real, full: seq<Entry>, windowStart: int)
    requires full != []
  {
    var truth := RollingPeak(full, windowStart);
    && Near(answer, truth, DEDUP_TOLERANCE)
    && (Dedup(full, DEDUP_TOLERANCE) == Dedup(full, 0.0) ==> answer == truth)
  }

  /**
   * The rolling peak answered from the pruned, deduplicated deque is the peak over the
   * complete history since the last release: within the dedup tolerance in general, and
   * exactly when every skipped value was an exact repeat.  So it is in every run in which
   * each restart found the live samples in the file, for every query at or after the
   * latest sample in the deque; BankrollRecovery has the runs with lossy restarts.
   */
  lemma PeakWithoutLosses(cfg: Config, ops: seq<Op>, asOf: int)
    requires cfg.Valid() && cfg.mode == Rolling7d && Timely(ops)
    requires var w := Run(cfg, ops);
             w.lossless && w.full != [] && (w.mem.entries != [] ==> Last(w.mem.entries).startAt <= asOf)
    ensures var w := Run(cfg, ops);
            Answers(Peak(cfg, w.mem, asOf), w.full, asOf - cfg.Window())
  {
    var w := Run(cfg, ops);
    RunKeeps(cfg, ops);
    hide Run;
    PeakInWorld(cfg, w, asOf);
  }

  lemma PeakInWorld(cfg: Config, w: World, asOf: int)
    requires cfg.Valid() && cfg.mode == Rolling7d && Inv(cfg, w) && w.lossless && w.full != [] && w.mem.Valid()
    requires w.mem.entries != [] ==> Last(w.mem.entries).startAt <= asOf
    ensures Answers(Peak(cfg, w.mem, asOf), w.full, asOf - cfg.Window())
  {
    hide Ordered, Dedup, Prune, RollingPeak, Inv, Answers;
    DequeIsPruned(cfg, w);
    PeakOfPruned(w.full, cfg.Window(), asOf - cfg.Window());
  }

  lemma PeakOfPruned(full: seq<Entry>, window: int, windowStart: int)
    requires Ordered(full) && full != [] && 0 <= window
    requires var live := Prune(Dedup(full, DEDUP_TOLERANCE), window);
             live != [] && Last(live).startAt - window <= windowStart
    ensures var live := Prune(Dedup(full, DEDUP_TOLERANCE), window);
            Answers(RollingPeak(live, windowStart), full, windowStart)
  {
    var kept := Dedup(full, DEDUP_TOLERANCE);
    DedupOrdered(full, DEDUP_TOLERANCE);
    hide Ordered, Dedup, Prune, RollingPeak, Near;
    PruneNonempty(kept, window);
    PruneKeepsPeak(kept, window, windowStart);
    DedupKeepsPeak(full, DEDUP_TOLERANCE, windowStart);
    DedupExactly(full, windowStart);
  }

  lemma DedupExactly(full: seq<Entry>, windowStart: int)
    requires Ordered(full) && full != []
    ensures Dedup(full, 0.0) != []
    ensures RollingPeak(Dedup(full, 0.0), windowStart) == RollingPeak(full, windowStart)
  {
    hide Ordered, Dedup, RollingPeak;
    DedupKeepsPeak(full, 0.0, windowStart);
  }

  lemma DequeIsPruned(cfg: Config, w: World)
    requires cfg.Valid() && Inv(cfg, w) && w.lossless && w.full != []
    ensures var kept := Dedup(w.full, DEDUP_TOLERANCE);
            && w.mem.entries == Prune(kept, cfg.Window()) && w.mem.entries != []
            && Ordered(w.full) && Ordered(kept) && kept != []
  {
    DequeFacts(cfg, w);
    DedupOrdered(w.full, DEDUP_TOLERANCE);
  }

  /**
   * The rolling peak is the greatest of the live samples of the last `windowDays` days of 86400
   * seconds and the latest one before them.
   */
  lemma PeakMeans(cfg: Config, ops: seq<Op>, asOf: int)
    requires cfg.Valid() && cfg.mode == Rolling7d && Timely(ops) && Run(cfg, ops).mem.seeded
    ensures var m := Run(cfg, ops).mem;
            IsPeak(m.entries, asOf - 86400 * cfg.windowDays, Peak(cfg, m, asOf))
  {
    RunKeeps(cfg, ops);
    hide Run, Inv, Clock, Timely, Ordered, RollingPeak, IsPeak;
    var w := Run(cfg, ops);
    EntriesOrdered(cfg, w);
    RollingPeakIsPeak(w.mem.entries, asOf - cfg.Window());
  }

  /**
   * A settlement leaves the deque alone when it is within 0.000000000001 of the current bankroll,
   * and is else its new end, where all older samples are kept that are at most `windowDays` days old
   * and one before them.  Either way the ratchet has seen it.
   */
  lemma SettlementMeans(cfg: Config, m: Memory, bankroll: real, startAt: int, openStake: real)
    requires cfg.Valid() && m.Valid() && m.seeded && Ordered(m.entries) && Last(m.entries).startAt <= startAt
    ensures var r := Record(cfg, m, bankroll, startAt, openStake);
            var change, oldest := bankroll - Current(cfg, m), startAt - 86400 * cfg.windowDays;
            && r.absolutePeak == (if bankroll > m.absolutePeak then bankroll else m.absolutePeak)
            && (-0.000000000001 < change < 0.000000000001 ==> r.entries == m.entries)
            && (change <= -0.000000000001 || 0.000000000001 <= change ==>
                  exists c :: 0 <= c <= |m.entries|
                    && r.entries == m.entries[c..] + [Entry(startAt, bankroll, Settlement, openStake)]
                    && (forall i :: c < i < |m.entries| ==> oldest <= m.entries[i].startAt)
                    && (0 < c ==> c < |m.entries| && m.entries[c].startAt < oldest))
  {
    var e := Entry(startAt, bankroll, Settlement, openStake);
    var grown := m.entries + [e];
    OrderedSnoc(m.entries, e);
    CutShape(grown, cfg.Window());
    hide Cut;
    var c := Cut(grown, cfg.Window());
    assert grown[c..] == m.entries[c..] + [e];
    forall i | c < i < |m.entries| ensures startAt - 86400 * cfg.windowDays <= m.entries[i].startAt {
      OrderedAt(grown, c + 1, i);
    }
  }

  /** The first settlement puts the initial bankroll in front of itself, and nothing else if it repeats it. */
  lemma FirstSettlementMeans(cfg: Config, m: Memory, bankroll: real, startAt: int, openStake: real)
    requires cfg.Valid() && m.Valid() && !m.seeded
    ensures var r, change := Record(cfg, m, bankroll, startAt, openStake), bankroll - cfg.initial;
            && r.absolutePeak == (if bankroll > m.absolutePeak then bankroll else m.absolutePeak)
            && r.entries == [Entry(startAt, cfg.initial, Init, 0.0)] +
                 if -0.000000000001 < change < 0.000000000001 then [] else [Entry(startAt, bankroll, Settlement, openStake)]
  {
    hide Prune;
    RecordUnseeded(cfg, m, bankroll, startAt, openStake);
    TwoKept(InitEntry(cfg, startAt), Entry(startAt, bankroll, Settlement, openStake), cfg.Window());
    assert [InitEntry(cfg, startAt)] + [] == [InitEntry(cfg, startAt)];
  }

  lemma TwoKept(x: Entry, y: Entry, window: int)
    requires x.startAt == y.startAt && 0 < window
    ensures Prune([x] + [y], window) == [x] + [y]
  {
    var s := [x] + [y];
    CutIs(s, window, 0);
    assert s[0..] == s;
  }

  /** The rolling peak is never below the current bankroll, whatever the query time. */
  lemma RollingPeakAtLeastCurrent(cfg: Config, ops: seq<Op>, asOf: int)
    requires cfg.Valid() && cfg.mode == Rolling7d && Timely(ops)
    ensures var m := Run(cfg, ops).mem;
            Current(cfg, m) <= Peak(cfg, m, asOf)
  {
    RunKeeps(cfg, ops);
    hide Run, Clock, Inv, Timely, Ordered, Peak, Current;
    EntriesOrdered(cfg, Run(cfg, ops));
    RollingPeakOf(cfg, Run(cfg, ops).mem, asOf);
  }

  lemma RollingPeakOf(cfg: Config, m: Memory, asOf: int)
    requires cfg.mode == Rolling7d && m.Valid() && Ordered(m.entries)
    ensures Current(cfg, m) <= Peak(cfg, m, asOf)
  {
    hide Ordered, RollingPeak;
    if m.seeded {
      PeakAtLeastLast(m.entries, asOf - cfg.Window());
    }
  }

  lemma EntriesOrdered(cfg: Config, w: World)
    requires cfg.Valid() && Inv(cfg, w)
    ensures Ordered(w.mem.entries)
  {
    DequeFacts(cfg, w);
  }

  lemma {:induction false} LoggedInFull(full: seq<Entry>, eps: real, i: nat)
    requires i < |Dedup(full, eps)|
    ensures Dedup(full, eps)[i] in full
  {
    var n := |full| - 1;
    if i < |Dedup(full[..n], eps)| {
      LoggedInFull(full[..n], eps, i);
    }
  }

  /** With no restart since the start or the last release no live sample exceeds the ratchet. */
  lemma RatchetBounds(cfg: Config, w: World, i: nat)
    requires cfg.Valid() && Inv(cfg, w) && w.oneLife && i < |w.mem.entries|
    ensures w.mem.entries[i].bankroll <= w.mem.absolutePeak
  {
    hide Ordered, Prune, Dedup, MaxOf;
    LiveInFull(w.full, cfg.Window(), i);
    ValueAtMostMax(w.full, w.mem.entries[i]);
  }

  lemma LiveInFull(full: seq<Entry>, window: int, i: nat)
    requires i < |Prune(Dedup(full, DEDUP_TOLERANCE), window)|
    ensures Prune(Dedup(full, DEDUP_TOLERANCE), window)[i] in full
  {
    hide Dedup, Cut;
    LoggedInFull(full, DEDUP_TOLERANCE, Cut(Dedup(full, DEDUP_TOLERANCE), window) + i);
  }

  lemma ValueAtMostMax(full: seq<Entry>, e: Entry)
    requires e in full
    ensures e.bankroll <= MaxOf(Values(full))
  {
    var k :| 0 <= k < |full| && full[k] == e;
    assert Values(full)[k] in Values(full);
  }

  /** Rolling peak at most ratchet peak, with no restart since the start or the last release. */
  lemma RollingAtMostRatchetInOneLife(cfg: Config, ops: seq<Op>, windowStart: int)
    requires cfg.Valid() && Timely(ops) && Run(cfg, ops).oneLife && Run(cfg, ops).mem.seeded
    ensures var m := Run(cfg, ops).mem;
            RollingPeak(m.entries, windowStart) <= m.absolutePeak
  {
    hide Inv, Ordered, RollingPeak, Run, Clock;
    var w := Run(cfg, ops);
    RunKeeps(cfg, ops);
    EntriesOrdered(cfg, w);
    RollingPeakIsPeak(w.mem.entries, windowStart);
    var i := PeakWitness(w.mem.entries, windowStart, RollingPeak(w.mem.entries, windowStart));
    RatchetBounds(cfg, w, i);
  }

  /** With no new samples the peak never rises, and drops to the current bankroll once that leaves the window. */
  lemma PeakDecays(cfg: Config, ops: seq<Op>, earlier: int, later: int)
    requires cfg.Valid() && cfg.mode == Rolling7d && Timely(ops) && earlier <= later
    ensures var m := Run(cfg, ops).mem;
            && Peak(cfg, m, later) <= Peak(cfg, m, earlier)
            && (m.seeded && Last(m.entries).startAt < later - cfg.Window() ==> Peak(cfg, m, later) == Current(cfg, m))
  {
    hide Inv, Ordered, RollingPeak, Run, Clock;
    var w := Run(cfg, ops);
    RunKeeps(cfg, ops);
    EntriesOrdered(cfg, w);
    if w.mem.seeded {
      PeakNeverRises(w.mem.entries, earlier - cfg.Window(), later - cfg.Window());
      if Last(w.mem.entries).startAt < later - cfg.Window() {
        PeakWhenAllBefore(w.mem.entries, later - cfg.Window());
      }
    }
  }

  /** Right after a release the peak is the current bankroll in both modes: the drawdown is zero. */
  lemma NoDrawdownAfterRelease(cfg: Config, ops: seq<Op>, startAt: int, asOf: int)
    requires cfg.Valid()
    ensures var before, after := Run(cfg, ops).mem, Step(cfg, Run(cfg, ops), Release(startAt)).mem;
            && Current(cfg, after) == Current(cfg, before)
            && Peak(cfg, after, asOf) == Current(cfg, after)
            && after.entries == [Entry(startAt, Current(cfg, before), PeakReseed, 0.0)]
  {
    hide Run, RollingPeak;
    var before := Run(cfg, ops).mem;
    SinglePeak(Entry(startAt, Current(cfg, before), PeakReseed, 0.0), asOf - cfg.Window());
  }

  lemma SinglePeak(e: Entry, windowStart: int)
    ensures RollingPeak([e], windowStart) == e.bankroll
  {
    assert [] + [e] == [e];
    PeakSnoc([], e, windowStart);
  }

  // -------------------------------------------------------------------- restarts

  /** Replaying the file rebuilds the live deque exactly when the file has every live sample. */
  lemma ReloadRebuildsDeque(cfg: Config, ops: seq<Op>)
    requires cfg.Valid() && Timely(ops)
    ensures var w := Run(cfg, ops);
            Load(cfg, w.disk).entries == w.mem.entries <==> LiveWritten(w)
  {
    hide Inv, Run, Clock, Load, LiveWritten;
    RunKeeps(cfg, ops);
    ReloadExactlyWhen(cfg, Run(cfg, ops));
  }

  /** A settlement of a run reaches the file unless it is lost by the exact rule of `Loses`. */
  lemma SettlementReachesFile(cfg: Config, ops: seq<Op>, e: Entry)
    requires cfg.Valid() && Timely(ops) && e.event == Settlement
    requires NotBefore(TimesOf(ops), Settle(e.bankroll, e.startAt, e.openStake))
    ensures var m := Run(cfg, ops).mem;
            var added := Persisted(m, Record(cfg, m, e.bankroll, e.startAt, e.openStake));
            added == if !m.seeded && IsRepeat(cfg, m, e.bankroll) then [InitEntry(cfg, e.startAt)]
                     else if IsRepeat(cfg, m, e.bankroll) || Loses(cfg, m, e.bankroll, e.startAt) then []
                     else [e]
  {
    hide Inv, Run, Ordered, Persisted, Record, IsRepeat, Loses, TimesOf;
    var w := Run(cfg, ops);
    RunKeeps(cfg, ops);
    EntriesInTime(cfg, w);
    LostExactlyWhen(cfg, w.mem, e.bankroll, e.startAt, e.openStake);
  }

  lemma EntriesInTime(cfg: Config, w: World)
    requires cfg.Valid() && Inv(cfg, w)
    ensures Ordered(w.mem.entries)
    ensures w.mem.seeded ==> w.mem.entries != [] && w.full != []
    ensures w.mem.seeded ==> Last(w.mem.entries).startAt <= Last(w.full).startAt
  {
    DequeFacts(cfg, w);
  }
}
