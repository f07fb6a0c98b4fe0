/**
 * The ratchet peak over every run, restarts included.  A reload takes it from the last release
 * in the file and forgets every ordinary sample, so it can end up below the current bankroll.
 */
module BankrollRatchet {
  import opened Basics
  import opened BankrollHistory
  import opened BankrollSpec
  import opened BankrollRuns
  import opened BankrollTheorems
  import opened BankrollLaws

  /**
   * What a process has been given since it last started or released: the bankroll it had then,
   * the bankrolls settled since, and whether one of those was recorded rather than skipped as a
   * repeat of the current one.
   */
  datatype Process = Process(started: real, settled: seq<real>, recorded: bool)

  /** The bankroll a process starts with. */
  function StartingBankroll(cfg: Config, disk: seq<Entry>): real {
    if disk == [] then cfg.initial else Last(disk).bankroll
  }

  function Since(cfg: Config, ops: seq<Op>): Process
    requires cfg.Valid()
  {
    if ops == [] then Process(cfg.initial, [], false) else
      var front := ops[..|ops| - 1];
      var w := Run(cfg, front);
      match Last(ops)
      case Settle(bankroll, _, _) =>
        var p := Since(cfg, front);
        Process(p.started, p.settled + [bankroll], p.recorded || !IsRepeat(cfg, w.mem, bankroll))
      case Release(_) => Process(Current(cfg, w.mem), [], false)
      case Restart => Process(StartingBankroll(cfg, w.disk), [], false)
  }

  /** The greatest of a base and some values. */
  function Ceiling(base: real, values: seq<real>): real {
    if values == [] then base else MaxReal(Ceiling(base, values[..|values| - 1]), Last(values))
  }

  lemma {:induction false} CeilingIsMaximum(base: real, values: seq<real>)
    ensures base <= Ceiling(base, values)
    ensures forall v :: v in values ==> v <= Ceiling(base, values)
    ensures Ceiling(base, values) == base || Ceiling(base, values) in values
  {
    if values != [] {
      var front := values[..|values| - 1];
      CeilingIsMaximum(base, front);
      assert values == front + [Last(values)];
    }
  }

  lemma CeilingSnoc(base: real, values: seq<real>, x: real)
    ensures Ceiling(base, values + [x]) == MaxReal(Ceiling(base, values), x)
  {
    assert (values + [x])[..|values|] == values;
  }

  // -------------------------------------------------------------------- the invariant

  /** The ratchet is the base in the file or a settlement since; what is current is known too. */
  ghost predicate Tells(cfg: Config, w: World, p: Process) {
    && w.mem.Valid()
    && w.mem.absolutePeak == Ceiling(BaseOf(cfg, w.disk), p.settled)
    && if p.recorded then Current(cfg, w.mem) in p.settled else Current(cfg, w.mem) == p.started
  }

  lemma RecordTells(cfg: Config, m: Memory, bankroll: real, startAt: int, openStake: real)
    requires cfg.Valid() && m.Valid()
    ensures var r := Record(cfg, m, bankroll, startAt, openStake);
            && r.absolutePeak == MaxReal(m.absolutePeak, bankroll)
            && Current(cfg, r) == (if IsRepeat(cfg, m, bankroll) then Current(cfg, m) else bankroll)
            && (|r.entries| > |m.entries| ==> Last(r.entries).event != PeakReseed)
  {
    hide Prune;
    var grown := Seed(cfg, m, startAt) + [Entry(startAt, bankroll, Settlement, openStake)];
    PruneNonempty(grown, cfg.Window());
  }

  /** A settlement's line is never a release, so the base stays. */
  lemma BaseStays(cfg: Config, w: World, bankroll: real, startAt: int, openStake: real)
    requires cfg.Valid() && w.mem.Valid()
    ensures var r := StepSettle(cfg, w, bankroll, startAt, openStake);
            BaseOf(cfg, r.disk) == BaseOf(cfg, w.disk)
  {
    hide Record, BaseOf, IsRepeat;
    RecordTells(cfg, w.mem, bankroll, startAt, openStake);
    var mem := Record(cfg, w.mem, bankroll, startAt, openStake);
    if |mem.entries| > |w.mem.entries| {
      SinceBarrierSnoc(cfg, w.disk, Last(mem.entries));
    } else {
      assert w.disk + [] == w.disk;
    }
  }

  lemma SettleTells(cfg: Config, w: World, p: Process, bankroll: real, startAt: int, openStake: real)
    requires cfg.Valid() && Tells(cfg, w, p)
    ensures Tells(cfg, StepSettle(cfg, w, bankroll, startAt, openStake),
                  Process(p.started, p.settled + [bankroll], p.recorded || !IsRepeat(cfg, w.mem, bankroll)))
  {
    hide Record, BaseOf, IsRepeat, Ceiling, Persisted;
    BaseStays(cfg, w, bankroll, startAt, openStake);
    RecordTells(cfg, w.mem, bankroll, startAt, openStake);
    CeilingSnoc(BaseOf(cfg, w.disk), p.settled, bankroll);
  }

  lemma ReleaseTells(cfg: Config, w: World, startAt: int)
    requires cfg.Valid() && w.mem.Valid()
    ensures Tells(cfg, StepRelease(cfg, w, startAt), Process(Current(cfg, w.mem), [], false))
  {
    hide BaseOf;
    var mem := Reseed(cfg, w.mem, startAt);
    SinceBarrierSnoc(cfg, w.disk, mem.entries[0]);
    assert mem.entries == [mem.entries[0]];
  }

  lemma RestartTells(cfg: Config, w: World)
    requires cfg.Valid()
    ensures Tells(cfg, StepRestart(cfg, w), Process(StartingBankroll(cfg, w.disk), [], false))
  {
    hide BaseOf, Prune, LiveWritten;
    var kept := SinceBarrier(w.disk);
    if w.disk != [] {
      assert Last(kept) == Last(w.disk);
      PruneNonempty(kept, cfg.Window());
    }
  }

  lemma {:induction false} RunTells(cfg: Config, ops: seq<Op>)
    requires cfg.Valid()
    ensures Tells(cfg, Run(cfg, ops), Since(cfg, ops))
  {
    if ops != [] {
      hide Tells, StepSettle, StepRelease, StepRestart, IsRepeat;
      var front := ops[..|ops| - 1];
      RunTells(cfg, front);
      match Last(ops)
      case Settle(bankroll, startAt, openStake) =>
        SettleTells(cfg, Run(cfg, front), Since(cfg, front), bankroll, startAt, openStake);
      case Release(startAt) => ReleaseTells(cfg, Run(cfg, front), startAt);
      case Restart => RestartTells(cfg, Run(cfg, front));
    }
  }

  // --------------------------------------------------------------------- the results

  /** The ratchet of every run: the base in the file and the settlements of this process. */
  lemma RatchetIs(cfg: Config, ops: seq<Op>)
    requires cfg.Valid()
    ensures Run(cfg, ops).mem.absolutePeak == Ceiling(BaseOf(cfg, Run(cfg, ops).disk), Since(cfg, ops).settled)
  {
    hide Run, Since, Ceiling, BaseOf;
    RunTells(cfg, ops);
  }

  /**
   * The process has seen its current bankroll, or as much: it recorded a settlement, or started
   * no higher than the base in the file, or skipped as a repeat a value no lower than it started with.
   */
  predicate SeesCurrent(cfg: Config, disk: seq<Entry>, p: Process) {
    || p.recorded
    || p.started <= BaseOf(cfg, disk)
    || exists v :: v in p.settled && p.started <= v
  }

  /**
   * Peak is at least current for every query time, in every run in rolling mode, and in ratchet
   * mode exactly in the runs whose last process has seen its current bankroll.
   */
  lemma PeakAtLeastCurrent(cfg: Config, ops: seq<Op>, asOf: int)
    requires cfg.Valid() && Timely(ops)
    ensures var w := Run(cfg, ops);
            Current(cfg, w.mem) <= Peak(cfg, w.mem, asOf) <==>
            cfg.mode == Rolling7d || SeesCurrent(cfg, w.disk, Since(cfg, ops))
  {
    hide Run, Since, Ceiling, BaseOf, Timely, RollingPeak;
    var w, p := Run(cfg, ops), Since(cfg, ops);
    if cfg.mode == Rolling7d {
      RollingPeakAtLeastCurrent(cfg, ops, asOf);
    } else {
      RunTells(cfg, ops);
      CeilingIsMaximum(BaseOf(cfg, w.disk), p.settled);
    }
  }

  /** Right after a restart that is so exactly when the last line of the file is no higher than the base in it. */
  lemma PeakAfterRestart(cfg: Config, ops: seq<Op>, asOf: int)
    requires cfg.Valid() && cfg.mode == AbsoluteRatchet && Timely(ops)
    ensures var disk := Run(cfg, ops).disk;
            var m := Run(cfg, ops + [Restart]).mem;
            Current(cfg, m) <= Peak(cfg, m, asOf) <==> disk == [] || Last(disk).bankroll <= BaseOf(cfg, disk)
  {
    var all := ops + [Restart];
    assert all[..|ops|] == ops;
    assert BaseOf(cfg, []) == cfg.initial;
    hide BaseOf, Load;
    assert Timely(all);
    PeakAtLeastCurrent(cfg, all, asOf);
  }

  /**
   * The ratchet is not rebuilt from ordinary lines: a reload keeps it exactly when no settlement
   * since the last restart or release is above the base in the file.
   */
  lemma RatchetSurvivesReload(cfg: Config, ops: seq<Op>)
    requires cfg.Valid()
    ensures var w := Run(cfg, ops);
            Load(cfg, w.disk).absolutePeak == w.mem.absolutePeak <==>
            forall v :: v in Since(cfg, ops).settled ==> v <= BaseOf(cfg, w.disk)
  {
    hide Run, Since, Ceiling, BaseOf;
    RunTells(cfg, ops);
    CeilingIsMaximum(BaseOf(cfg, Run(cfg, ops).disk), Since(cfg, ops).settled);
  }

  // ------------------------------------------------------- rolling peak and ratchet

  /** Some window shows each sample, so a bound on every rolling peak is one on every sample. */
  lemma PeaksAtMost(s: seq<Entry>, bound: real)
    requires Ordered(s) && s != []
    ensures (forall windowStart :: RollingPeak(s, windowStart) <= bound) <==>
            forall i :: 0 <= i < |s| ==> s[i].bankroll <= bound
  {
    hide Ordered, RollingPeak, IsPeak;
    forall windowStart
      ensures (forall i :: 0 <= i < |s| ==> s[i].bankroll <= bound) ==> RollingPeak(s, windowStart) <= bound
    {
      RollingPeakIsPeak(s, windowStart);
      var i := PeakWitness(s, windowStart, RollingPeak(s, windowStart));
    }
    forall i | 0 <= i < |s| ensures s[i].bankroll <= RollingPeak(s, s[i].startAt) {
      RollingPeakIsPeak(s, s[i].startAt);
      PeakBound(s, s[i].startAt, RollingPeak(s, s[i].startAt), i);
    }
  }

  /**
   * No rolling peak exceeds the ratchet exactly when no sample in the deque is above both the
   * base in the file and every settlement of this process.
   */
  lemma RollingAtMostRatchet(cfg: Config, ops: seq<Op>)
    requires cfg.Valid() && Timely(ops) && Run(cfg, ops).mem.seeded
    ensures var w := Run(cfg, ops);
            (forall windowStart :: RollingPeak(w.mem.entries, windowStart) <= w.mem.absolutePeak) <==>
            forall i :: 0 <= i < |w.mem.entries| ==>
              w.mem.entries[i].bankroll <= Ceiling(BaseOf(cfg, w.disk), Since(cfg, ops).settled)
  {
    RunKeeps(cfg, ops);
    hide Run, Since, Ceiling, BaseOf, Timely, RollingPeak, Inv, Clock, Ordered;
    var w := Run(cfg, ops);
    EntriesOrdered(cfg, w);
    RatchetIs(cfg, ops);
    PeaksAtMost(w.mem.entries, w.mem.absolutePeak);
  }

  /** Right after a restart that is so exactly when no line it loads is above the base in the file. */
  lemma RollingAtMostRatchetAfterRestart(cfg: Config, ops: seq<Op>)
    requires cfg.Valid() && Timely(ops) && Run(cfg, ops + [Restart]).mem.seeded
    ensures var m, disk := Run(cfg, ops + [Restart]).mem, Run(cfg, ops).disk;
            (forall windowStart :: RollingPeak(m.entries, windowStart) <= m.absolutePeak) <==>
            forall i :: 0 <= i < |m.entries| ==> m.entries[i].bankroll <= BaseOf(cfg, disk)
  {
    var all := ops + [Restart];
    assert all[..|ops|] == ops;
    assert Timely(all);
    assert Run(cfg, all).disk == Run(cfg, ops).disk && Since(cfg, all).settled == [];
    hide Run, Since, BaseOf, Timely, RollingPeak;
    RollingAtMostRatchet(cfg, all);
  }
}
