/** What holds in every run of the tracker, with any number of releases and restarts. */
module BankrollTheorems {
  import opened Basics
  import opened BankrollHistory
  import opened BankrollSpec
  import opened BankrollRuns
  import opened BankrollReload

  /** The next settlement or release is no earlier than the latest sample. */
  predicate InOrder(w: World, startAt: int) {
    w.full == [] || Last(w.full).startAt <= startAt
  }

  lemma DequeFacts(cfg: Config, w: World)
    requires cfg.Valid() && Shape(w) && Times(w) && Deque(cfg, w)
    ensures Ordered(w.mem.entries)
    ensures w.log != [] ==> Last(w.mem.entries) == Last(w.log).entry
    ensures w.log != [] ==> Last(w.mem.entries).startAt <= Last(w.full).startAt
    ensures |w.mem.entries| <= |w.log|
    ensures w.log != [] ==> |w.log| - |w.mem.entries| == Cut(Entries(w.log), cfg.Window())
  {
    var s := Entries(w.log);
    OrderedPart(s, Cut(s, cfg.Window()), |s|);
    assert s[Cut(s, cfg.Window())..|s|] == w.mem.entries;
    if w.log != [] {
      hide Ordered, Cut;
      PruneNonempty(s, cfg.Window());
    }
  }

  lemma CoreFacts(cfg: Config, w: World)
    requires cfg.Valid() && Core(cfg, w)
    ensures w.mem.Valid() && (w.mem.seeded <==> w.log != []) && (w.mem.seeded <==> w.full != [])
    ensures w.mem.seeded ==> w.mem.entries != [] && Last(w.mem.entries) == Last(w.log).entry
  {
    DequeFacts(cfg, w);
  }

  // ----------------------------------------------------- one more sample in the deque

  lemma GrowTimes(w: World, r: World, l: Logged, kept: bool)
    requires Times(w) && w.log != [] && w.full != [] && InOrder(w, l.entry.startAt)
    requires r.full == w.full + [l.entry] && r.log == if kept then w.log + [l] else w.log
    ensures Times(r)
  {
    OrderedSnoc(w.full, l.entry);
    OrderedSnoc(Entries(w.log), l.entry);
    EntriesSnoc(w.log, l);
    hide Ordered, Entries;
  }

  lemma GrowDeque(cfg: Config, w: World, r: World, l: Logged)
    requires cfg.Valid() && Times(w) && Deque(cfg, w) && w.log != []
    requires Last(w.log).entry.startAt <= l.entry.startAt
    requires r.log == w.log + [l]
    requires r.mem.entries == Prune(w.mem.entries + [l.entry], cfg.Window())
    ensures Deque(cfg, r)
  {
    OrderedSnoc(Entries(w.log), l.entry);
    EntriesSnoc(w.log, l);
    hide Ordered, Entries, Prune;
    PruneThenAppend(Entries(w.log), l.entry, cfg.Window());
  }

  lemma GrowFile(cfg: Config, w: World, r: World, l: Logged)
    requires File(cfg, w) && l.entry.event != PeakReseed
    requires w.full != [] && r.full == w.full + [l.entry]
    requires r.log == w.log + [l] && r.disk == if l.written then w.disk + [l.entry] else w.disk
    ensures File(cfg, r)
  {
    SinceBarrierSnoc(cfg, w.disk, l.entry);
    EntriesSnoc(w.log, l);
    assert r.full[0] == w.full[0];
    hide SinceBarrier, BaseOf, Written, Entries;
  }

  lemma GrowWhole(w: World, r: World, l: Logged, kept: bool)
    requires Whole(w) && w.full != [] && w.log != [] && r.lossless == w.lossless && r.oneLife == w.oneLife
    requires r.full == w.full + [l.entry] && r.log == if kept then w.log + [l] else w.log
    requires kept <==> !Near(Last(w.log).entry.bankroll, l.entry.bankroll, DEDUP_TOLERANCE)
    ensures Whole(r)
  {
    DedupSnoc(w.full, l.entry, DEDUP_TOLERANCE);
    EntriesSnoc(w.log, l);
    assert Last(Entries(w.log)) == Last(w.log).entry;
    hide Dedup, Entries, Near;
  }

  lemma DedupSnoc(f: seq<Entry>, e: Entry, eps: real)
    ensures var kept := Dedup(f, eps);
            Dedup(f + [e], eps) ==
            if kept != [] && Near(Last(kept).bankroll, e.bankroll, eps) then kept else kept + [e]
  {
    assert (f + [e])[..|f|] == f;
  }

  lemma GrowRatchet(cfg: Config, w: World, r: World, e: Entry)
    requires Ratchet(cfg, w) && w.full != [] && r.full == w.full + [e] && r.oneLife == w.oneLife
    requires r.mem.absolutePeak == MaxReal(w.mem.absolutePeak, e.bankroll)
    ensures Ratchet(cfg, r)
  {
    MaxOfSnoc(w.full, e);
    hide MaxOf, Values, MaxReal;
  }

  lemma MaxOfSnoc(f: seq<Entry>, e: Entry)
    requires f != []
    ensures MaxOf(Values(f + [e])) == MaxReal(MaxOf(Values(f)), e.bankroll)
  {
    assert Values(f + [e]) == Values(f) + [e.bankroll];
    assert (Values(f) + [e.bankroll])[..|f|] == Values(f);
  }

  /** Everything that a settlement of an already seeded tracker does. */
  ghost predicate Grows(cfg: Config, w: World, r: World, l: Logged, kept: bool) {
    && r.full == w.full + [l.entry]
    && r.lossless == w.lossless && r.oneLife == w.oneLife
    && r.mem.Valid() && r.mem.seeded
    && r.mem.absolutePeak == MaxReal(w.mem.absolutePeak, l.entry.bankroll)
    && (if kept then
          && r.log == w.log + [l]
          && r.mem.entries == Prune(w.mem.entries + [l.entry], cfg.Window())
          && r.disk == (if l.written then w.disk + [l.entry] else w.disk)
        else
          r.log == w.log && r.mem.entries == w.mem.entries && r.disk == w.disk)
  }

  lemma GrowKeeps(cfg: Config, w: World, r: World, l: Logged, kept: bool)
    requires cfg.Valid() && Core(cfg, w) && w.mem.seeded && InOrder(w, l.entry.startAt)
    requires Grows(cfg, w, r, l, kept) && l.entry.event != PeakReseed
    requires kept <==> !Near(Last(w.log).entry.bankroll, l.entry.bankroll, DEDUP_TOLERANCE)
    ensures Core(cfg, r)
  {
    hide Near, Prune, MaxReal, Ordered, Entries;
    GrowTimes(w, r, l, kept);
    GrowWhole(w, r, l, kept);
    GrowRatchet(cfg, w, r, l.entry);
    hide Whole, Ratchet;
    if kept {
      GrowDeque(cfg, w, r, l);
      GrowFile(cfg, w, r, l);
    } else {
      SameFile(cfg, w, r);
    }
  }

  lemma SameFile(cfg: Config, w: World, r: World)
    requires File(cfg, w) && w.full != [] && r.log == w.log && r.disk == w.disk
    requires w.full <= r.full
    ensures File(cfg, r)
  {
  }

  // ------------------------------------------------------------ the step, case by case

  lemma RecordSeeded(cfg: Config, m: Memory, bankroll: real, startAt: int, openStake: real)
    requires cfg.Valid() && m.Valid() && m.seeded
    ensures var r := Record(cfg, m, bankroll, startAt, openStake);
            && r.absolutePeak == MaxReal(m.absolutePeak, bankroll)
            && r.entries == if IsRepeat(cfg, m, bankroll) then m.entries
                            else Prune(m.entries + [Entry(startAt, bankroll, Settlement, openStake)], cfg.Window())
  {
  }

  lemma SettleSeeded(cfg: Config, w: World, bankroll: real, startAt: int, openStake: real)
    requires cfg.Valid() && Core(cfg, w) && w.mem.Valid() && w.mem.seeded && InOrder(w, startAt)
    ensures var r := StepSettle(cfg, w, bankroll, startAt, openStake);
            var l := Logged(Entry(startAt, bankroll, Settlement, openStake),
                            !Loses(cfg, w.mem, bankroll, startAt));
            Grows(cfg, w, r, l, !IsRepeat(cfg, w.mem, bankroll))
  {
    hide Ordered, Prune, Near, MaxReal, Core, Loses, Persisted, IsRepeat, Record, InOrder;
    SettleWrites(cfg, w, bankroll, startAt, openStake);
    RecordSeeded(cfg, w.mem, bankroll, startAt, openStake);
    assert w.disk + [] == w.disk;
  }

  lemma SettleWrites(cfg: Config, w: World, bankroll: real, startAt: int, openStake: real)
    requires cfg.Valid() && Core(cfg, w) && w.mem.seeded && InOrder(w, startAt)
    ensures Persisted(w.mem, Record(cfg, w.mem, bankroll, startAt, openStake)) ==
            if IsRepeat(cfg, w.mem, bankroll) || Loses(cfg, w.mem, bankroll, startAt) then []
            else [Entry(startAt, bankroll, Settlement, openStake)]
  {
    DequeFacts(cfg, w);
    hide Ordered, Prune, Core, Loses, Persisted, IsRepeat, Record;
    LostExactlyWhen(cfg, w.mem, bankroll, startAt, openStake);
  }

  lemma LossIsLater(cfg: Config, w: World, bankroll: real, startAt: int)
    requires cfg.Valid() && Core(cfg, w) && w.mem.seeded && Loses(cfg, w.mem, bankroll, startAt)
    ensures Last(w.log).entry.startAt < startAt
  {
    var s := Entries(w.log);
    CutShape(s, cfg.Window());
    DequeFacts(cfg, w);
    hide Ordered, Cut;
    assert w.mem.entries[1] == s[Cut(s, cfg.Window()) + 1];
    assert Last(s) == Last(w.log).entry;
  }

  lemma LaterSettleKeeps(cfg: Config, w: World, bankroll: real, startAt: int, openStake: real)
    requires cfg.Valid() && Inv(cfg, w) && w.mem.seeded && InOrder(w, startAt)
    ensures Inv(cfg, StepSettle(cfg, w, bankroll, startAt, openStake))
  {
    var lost := Loses(cfg, w.mem, bankroll, startAt);
    var l := Logged(Entry(startAt, bankroll, Settlement, openStake), !lost);
    var r := StepSettle(cfg, w, bankroll, startAt, openStake);
    hide Core, StepSettle, Loses, Near, Prune, MaxReal;
    CoreFacts(cfg, w);
    SettleSeeded(cfg, w, bankroll, startAt, openStake);
    GrowKeeps(cfg, w, r, l, !IsRepeat(cfg, w.mem, bankroll));
    if lost {
      LossIsLater(cfg, w, bankroll, startAt);
    }
    GapsGrow(w.log, r.log, l);
  }

  lemma GapsGrow(log: seq<Logged>, grown: seq<Logged>, l: Logged)
    requires log != [] && Gaps(log) && (grown == log || grown == log + [l])
    requires !l.written ==> Last(log).entry.startAt < l.entry.startAt
    ensures Gaps(grown)
  {
  }

  lemma SingleSample(cfg: Config, r: World, e: Entry, written: bool)
    requires cfg.Valid()
    requires r.mem.Valid() && r.mem.entries == [e] && r.full == [e] && r.log == [Logged(e, written)]
    requires SinceBarrier(r.disk) == if written then [e] else []
    requires BaseOf(cfg, r.disk) == e.bankroll
    requires r.oneLife ==> r.mem.absolutePeak == e.bankroll && r.lossless
    ensures Core(cfg, r)
  {
    SingleLog(e, written);
    SingleHistory(e);
    hide Written, Entries, BaseOf, SinceBarrier, Dedup, Values, MaxOf, Prune, Ordered;
    SinglePruned(e, cfg.Window());
  }

  lemma SingleLog(e: Entry, written: bool)
    ensures Entries([Logged(e, written)]) == [e]
    ensures Written([Logged(e, written)]) == if written then [e] else []
  {
    EntriesSnoc([], Logged(e, written));
    assert [] + [Logged(e, written)] == [Logged(e, written)];
  }

  lemma SingleHistory(e: Entry)
    ensures Dedup([e], DEDUP_TOLERANCE) == [e] && MaxOf(Values([e])) == e.bankroll && Ordered([e])
  {
    DedupSnoc([], e, DEDUP_TOLERANCE);
    assert [] + [e] == [e];
    assert Values([e]) == [e.bankroll];
  }

  lemma SinglePruned(e: Entry, window: int)
    requires 0 <= window
    ensures Prune([e], window) == [e]
  {
    CutPositive([e], window);
  }

  /** The seed alone: what the first settlement is added to. */
  function SeedWorld(cfg: Config, w: World, startAt: int, written: bool): World {
    var init := InitEntry(cfg, startAt);
    World(Memory([init], true, w.mem.absolutePeak), if written then [init] else [], [init],
          [Logged(init, written)], w.lossless, w.oneLife)
  }

  lemma SeedWorldCore(cfg: Config, w: World, startAt: int, written: bool)
    requires cfg.Valid() && Core(cfg, w) && !w.mem.seeded
    ensures Core(cfg, SeedWorld(cfg, w, startAt, written))
  {
    var init := InitEntry(cfg, startAt);
    SinceBarrierSnoc(cfg, [], init);
    assert [] + [init] == [init];
    hide SinceBarrier, BaseOf;
    SingleSample(cfg, SeedWorld(cfg, w, startAt, written), init, written);
  }

  lemma FirstRepeat(cfg: Config, w: World, bankroll: real, startAt: int, openStake: real)
    requires cfg.Valid() && Core(cfg, w) && !w.mem.seeded && IsRepeat(cfg, w.mem, bankroll)
    ensures Grows(cfg, SeedWorld(cfg, w, startAt, true), StepSettle(cfg, w, bankroll, startAt, openStake),
                  Logged(Entry(startAt, bankroll, Settlement, openStake), true), false)
  {
    assert w.full == [] && w.log == [] && w.disk == [] && w.mem.entries == [];
    hide Core, Persisted, Record, Ordered;
    RecordUnseeded(cfg, w.mem, bankroll, startAt, openStake);
    LostExactlyWhen(cfg, w.mem, bankroll, startAt, openStake);
    hide Near, MaxReal, Prune, IsRepeat, Loses;
    var init := InitEntry(cfg, startAt);
    assert w.full + [init] == [init];
    assert w.log + [Logged(init, true)] == [Logged(init, true)];
    assert w.disk + [init] == [init];
  }

  lemma FirstNew(cfg: Config, w: World, bankroll: real, startAt: int, openStake: real)
    requires cfg.Valid() && Core(cfg, w) && !w.mem.seeded && !IsRepeat(cfg, w.mem, bankroll)
    ensures Grows(cfg, SeedWorld(cfg, w, startAt, false), StepSettle(cfg, w, bankroll, startAt, openStake),
                  Logged(Entry(startAt, bankroll, Settlement, openStake), true), true)
  {
    assert w.full == [] && w.log == [] && w.disk == [] && w.mem.entries == [];
    hide Core, Persisted, Record, Ordered;
    RecordUnseeded(cfg, w.mem, bankroll, startAt, openStake);
    LostExactlyWhen(cfg, w.mem, bankroll, startAt, openStake);
    hide Near, MaxReal, Prune, IsRepeat, Loses;
    var init, e := InitEntry(cfg, startAt), Entry(startAt, bankroll, Settlement, openStake);
    assert w.full + [init] == [init];
    assert w.log + [Logged(init, false)] == [Logged(init, false)];
    assert w.disk + [e] == [] + [e];
  }

  lemma RecordUnseeded(cfg: Config, m: Memory, bankroll: real, startAt: int, openStake: real)
    requires cfg.Valid() && m.Valid() && !m.seeded
    ensures var r := Record(cfg, m, bankroll, startAt, openStake);
            var init := InitEntry(cfg, startAt);
            && r.absolutePeak == MaxReal(m.absolutePeak, bankroll)
            && r.entries == if IsRepeat(cfg, m, bankroll) then [init]
                            else Prune([init] + [Entry(startAt, bankroll, Settlement, openStake)], cfg.Window())
  {
    assert Seed(cfg, m, startAt) == [InitEntry(cfg, startAt)];
  }

  lemma FirstSettleKeeps(cfg: Config, w: World, bankroll: real, startAt: int, openStake: real)
    requires cfg.Valid() && Core(cfg, w) && !w.mem.seeded
    ensures Inv(cfg, StepSettle(cfg, w, bankroll, startAt, openStake))
  {
    var repeat := IsRepeat(cfg, w.mem, bankroll);
    var seed := SeedWorld(cfg, w, startAt, repeat);
    var l := Logged(Entry(startAt, bankroll, Settlement, openStake), true);
    var r := StepSettle(cfg, w, bankroll, startAt, openStake);
    SeedWorldFacts(cfg, w, bankroll, startAt);
    hide Core, StepSettle, Near, SeedWorld, Grows, Gaps;
    SeedWorldCore(cfg, w, startAt, repeat);
    if repeat {
      FirstRepeat(cfg, w, bankroll, startAt, openStake);
    } else {
      FirstNew(cfg, w, bankroll, startAt, openStake);
    }
    FirstGaps(cfg, w, seed, r, startAt, l, repeat);
    GrowKeeps(cfg, seed, r, l, !repeat);
  }

  lemma SeedWorldFacts(cfg: Config, w: World, bankroll: real, startAt: int)
    requires cfg.Valid() && w.mem.Valid() && !w.mem.seeded
    ensures var repeat := IsRepeat(cfg, w.mem, bankroll);
            var seed := SeedWorld(cfg, w, startAt, repeat);
            && seed.mem.Valid() && seed.mem.seeded && InOrder(seed, startAt) && seed.log != []
            && (repeat <==> Near(Last(seed.log).entry.bankroll, bankroll, DEDUP_TOLERANCE))
  {
  }

  lemma FirstGaps(cfg: Config, w: World, seed: World, r: World, startAt: int, l: Logged, repeat: bool)
    requires seed == SeedWorld(cfg, w, startAt, repeat) && l.written
    requires Grows(cfg, seed, r, l, !repeat)
    ensures Gaps(r.log)
  {
    assert r.log == if repeat then seed.log else seed.log + [l];
  }

  lemma SettleKeeps(cfg: Config, w: World, bankroll: real, startAt: int, openStake: real)
    requires cfg.Valid() && Inv(cfg, w) && InOrder(w, startAt)
    ensures Inv(cfg, StepSettle(cfg, w, bankroll, startAt, openStake))
  {
    if w.mem.seeded {
      LaterSettleKeeps(cfg, w, bankroll, startAt, openStake);
    } else {
      FirstSettleKeeps(cfg, w, bankroll, startAt, openStake);
    }
  }

  lemma ReleaseKeeps(cfg: Config, w: World, startAt: int)
    requires cfg.Valid() && w.mem.Valid()
    ensures Inv(cfg, StepRelease(cfg, w, startAt))
  {
    var r := StepRelease(cfg, w, startAt);
    var e := r.mem.entries[0];
    assert r.log == [Logged(e, true)];
    SinceBarrierSnoc(cfg, w.disk, e);
    hide SinceBarrier, BaseOf, Core;
    SingleSample(cfg, r, e, true);
  }

  // ---------------------------------------------------------------------- a restart

  lemma WrittenNonempty(log: seq<Logged>)
    requires Gaps(log) && log != []
    ensures Written(log) != []
  {
    if log[0].written {
      WrittenSplit(log, 1);
      assert log[..1] == [] + [log[0]];
      EntriesSnoc([], log[0]);
    } else {
      WrittenSplit(log, 2);
      assert log[..2] == [log[0]] + [log[1]];
      EntriesSnoc([log[0]], log[1]);
    }
  }

  lemma LiveWrittenIs(cfg: Config, w: World)
    requires cfg.Valid() && Core(cfg, w) && w.log != []
    ensures LiveWritten(w) <==> WrittenFrom(w.log, Cut(Entries(w.log), cfg.Window()))
  {
    DequeFacts(cfg, w);
  }

  /** A reload rebuilds the live deque exactly when every live sample is in the file. */
  lemma ReloadExactlyWhen(cfg: Config, w: World)
    requires cfg.Valid() && Inv(cfg, w)
    ensures Load(cfg, w.disk).entries == w.mem.entries <==> LiveWritten(w)
  {
    if w.log != [] {
      WrittenNonempty(w.log);
      LiveWrittenIs(cfg, w);
      assert Load(cfg, w.disk).entries == Prune(Written(w.log), cfg.Window());
      hide Ordered, Prune, Cut, Written, Entries, LiveWritten, Load;
      if LiveWritten(w) {
        ReplayOfWritten(w.log, cfg.Window());
      } else if Load(cfg, w.disk).entries == w.mem.entries {
        ReplayNeedsWritten(w.log, cfg.Window());
      }
    }
  }

  lemma RestartKeeps(cfg: Config, w: World)
    requires cfg.Valid() && Inv(cfg, w)
    ensures Inv(cfg, StepRestart(cfg, w))
  {
    var r := StepRestart(cfg, w);
    if w.log != [] {
      WrittenNonempty(w.log);
      ReloadExactlyWhen(cfg, w);
      assert r.mem.seeded;
      if !LiveWritten(w) {
        LossyRestartKeeps(cfg, w);
      } else {
        hide Ordered, Prune, Written, Entries, LiveWritten, Load, Gaps, Times, Whole, Dedup;
        assert Times(r) by { SameTimes(w, r); }
      }
    }
  }

  lemma SameTimes(w: World, r: World)
    requires Times(w) && r.log == w.log && r.full == w.full
    ensures Times(r)
  {
  }

  lemma LossyRestartKeeps(cfg: Config, w: World)
    requires cfg.Valid() && Inv(cfg, w) && w.log != [] && !LiveWritten(w) && Written(w.log) != []
    ensures Inv(cfg, StepRestart(cfg, w))
  {
    var s := Written(w.log);
    var r := StepRestart(cfg, w);
    WrittenOrdered(w.log);
    AllWrittenIsWritten(s);
    AllWrittenGaps(s);
    hide AllWritten, Gaps, Ordered, Prune, Written, Entries, Dedup;
    ReplayedCore(cfg, w, r, s);
  }

  lemma AllWrittenGaps(s: seq<Entry>)
    ensures Gaps(AllWritten(s))
    ensures s != [] ==> Last(AllWritten(s)).entry == Last(s)
  {
  }

  lemma ReplayedCore(cfg: Config, w: World, r: World, s: seq<Entry>)
    requires cfg.Valid() && Core(cfg, w) && w.full != [] && s != []
    requires Ordered(s) && Last(s).startAt <= Last(w.full).startAt
    requires r.full == w.full && r.disk == w.disk && SinceBarrier(w.disk) == s
    requires r.log != [] && Entries(r.log) == s && Written(r.log) == s && Last(r.log).entry == Last(s)
    requires r.mem == Load(cfg, w.disk) && !r.lossless && !r.oneLife
    ensures Core(cfg, r)
  {
    hide Ordered, Prune, Written, Entries;
  }

  // -------------------------------------------------------------------- every run

  predicate Clock(w: World, times: seq<int>) {
    && (w.full == [] <==> times == [])
    && (w.full != [] ==> Last(w.full).startAt == Last(times))
  }

  lemma StepKeeps(cfg: Config, w: World, op: Op, times: seq<int>)
    requires cfg.Valid() && Inv(cfg, w) && w.mem.Valid() && Clock(w, times) && NotBefore(times, op)
    ensures Inv(cfg, Step(cfg, w, op)) && Clock(Step(cfg, w, op), AddTime(times, op))
  {
    hide Inv, Record, Persisted, Load, IsRepeat, LiveWritten;
    match op
    case Settle(bankroll, startAt, openStake) =>
      SettleKeeps(cfg, w, bankroll, startAt, openStake);
    case Release(startAt) =>
      ReleaseKeeps(cfg, w, startAt);
    case Restart =>
      RestartKeeps(cfg, w);
  }

  /** The invariant holds in every run, and the latest sample carries the latest time. */
  lemma {:induction false} RunKeeps(cfg: Config, ops: seq<Op>)
    requires cfg.Valid() && Timely(ops)
    ensures Inv(cfg, Run(cfg, ops)) && Clock(Run(cfg, ops), TimesOf(ops))
  {
    if ops == [] {
      BeginHolds(cfg);
    } else {
      hide Inv, Clock, Step, NotBefore;
      var before := ops[..|ops| - 1];
      RunKeeps(cfg, before);
      StepKeeps(cfg, Run(cfg, before), Last(ops), TimesOf(before));
    }
  }

  lemma BeginHolds(cfg: Config)
    requires cfg.Valid()
    ensures Inv(cfg, Begin(cfg)) && Clock(Begin(cfg), [])
  {
  }
}
