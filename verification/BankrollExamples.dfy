/** Concrete runs of the persisted tracker in which a restart forgets something. */
module BankrollExamples {
  import opened Basics
  import opened BankrollHistory
  import opened BankrollSpec
  import opened BankrollRuns
  import opened BankrollLaws
  import opened BankrollTheorems
  import opened BankrollRecovery

  const DAY := SECONDS_PER_DAY

  function Ten(mode: Mode): Config {
    Config(10.0, 7, mode)
  }

  lemma RunSnoc(cfg: Config, ops: seq<Op>, op: Op)
    requires cfg.Valid()
    ensures Run(cfg, ops + [op]) == Step(cfg, Run(cfg, ops), op)
    ensures Timely(ops + [op]) <==> Timely(ops) && NotBefore(TimesOf(ops), op)
    ensures TimesOf(ops + [op]) == AddTime(TimesOf(ops), op)
  {
    hide Step;
    assert (ops + [op])[..|ops|] == ops;
  }

  function Sample(value: real, at: int): Entry {
    Entry(at, value, Settlement, 0.0)
  }

  /** A settlement that is not a repeat, when the deque is cut at `c`. */
  lemma Settled(cfg: Config, m: Memory, value: real, at: int, c: nat)
    requires cfg.Valid() && m.Valid() && !IsRepeat(cfg, m, value)
    requires var grown := Seed(cfg, m, at) + [Sample(value, at)];
             c < |grown| && Cut(grown, cfg.Window()) == c
    ensures Record(cfg, m, value, at, 0.0) ==
            Memory((Seed(cfg, m, at) + [Sample(value, at)])[c..], true, MaxReal(m.absolutePeak, value))
  {
    hide Cut;
  }

  /** Two samples within the window are both kept. */
  lemma KeepsTwo(x: Entry, y: Entry, window: int)
    requires x.startAt <= y.startAt <= x.startAt + window
    ensures Cut([x, y], window) == 0 && Prune([x, y], window) == [x, y]
  {
    CutIs([x, y], window, 0);
    hide Cut;
  }

  /** Of two samples before the window and a new one, the older is dropped. */
  lemma DropsOldest(x: Entry, y: Entry, z: Entry, window: int)
    requires x.startAt <= y.startAt < z.startAt - window && 0 <= window
    ensures Cut([x, y, z], window) == 1
  {
    CutIs([x, y, z], window, 1);
  }

  const FIRST := Entry(0, 10.0, Init, 0.0)
  const SECOND := Entry(DAY, 9.0, Settlement, 0.0)
  const THIRD := Entry(9 * DAY, 20.0, Settlement, 0.0)

  const ONE := [Settle(10.0, 0, 0.0)]
  const TWO := ONE + [Settle(9.0, DAY, 0.0)]
  const THREE := TWO + [Settle(20.0, 9 * DAY, 0.0)]

  lemma AfterOne(mode: Mode)
    ensures var w := Run(Ten(mode), ONE);
            && w.mem == Memory([FIRST], true, 10.0)
            && w.disk == [FIRST]
            && w.full == [FIRST, Sample(10.0, 0)]
            && Timely(ONE) && TimesOf(ONE) == [0]
  {
    var cfg, op := Ten(mode), Settle(10.0, 0, 0.0);
    RunSnoc(cfg, [], op);
    assert [] + [op] == ONE;
    assert Seed(cfg, Start(cfg), 0) == [FIRST];
    assert [] + [FIRST] == [FIRST] && [FIRST] + [Sample(10.0, 0)] == [FIRST, Sample(10.0, 0)];
  }

  lemma AfterTwo(mode: Mode)
    ensures var w := Run(Ten(mode), TWO);
            && w.mem == Memory([FIRST, SECOND], true, 10.0)
            && w.disk == [FIRST, SECOND]
            && w.full == [FIRST, Sample(10.0, 0), SECOND]
            && Timely(TWO) && TimesOf(TWO) == [0, DAY]
  {
    hide Prune, Cut;
    var cfg := Ten(mode);
    AfterOne(mode);
    RunSnoc(cfg, ONE, Settle(9.0, DAY, 0.0));
    assert [FIRST] + [SECOND] == [FIRST, SECOND];
    KeepsTwo(FIRST, SECOND, cfg.Window());
    Settled(cfg, Run(cfg, ONE).mem, 9.0, DAY, 0);
    assert [FIRST, SECOND][0..] == [FIRST, SECOND];
  }

  /**
   * Settlements of 10 at day 0, 9 at day 1 and 20 at day 9: the third drops the seed sample, so
   * the deque keeps its length and nothing is written.
   */
  lemma AfterThree(mode: Mode)
    ensures var w := Run(Ten(mode), THREE);
            && w.mem == Memory([SECOND, THIRD], true, 20.0)
            && w.disk == [FIRST, SECOND]
            && w.full == [FIRST, Sample(10.0, 0), SECOND, THIRD]
            && Timely(THREE)
  {
    hide Prune, Cut;
    var cfg := Ten(mode);
    AfterTwo(mode);
    RunSnoc(cfg, TWO, Settle(20.0, 9 * DAY, 0.0));
    assert [FIRST, SECOND] + [THIRD] == [FIRST, SECOND, THIRD];
    DropsOldest(FIRST, SECOND, THIRD, cfg.Window());
    Settled(cfg, Run(cfg, TWO).mem, 20.0, 9 * DAY, 1);
    assert [FIRST, SECOND, THIRD][1..] == [SECOND, THIRD];
  }

  lemma TwoLines(cfg: Config, x: Entry, y: Entry)
    requires x.event != PeakReseed && y.event != PeakReseed
    ensures SinceBarrier([x] + [y]) == [x] + [y] && BaseOf(cfg, [x] + [y]) == cfg.initial
  {
    SinceBarrierSnoc(cfg, [], x);
    SinceBarrierSnoc(cfg, [x], y);
    assert [] + [x] == [x];
  }

  /** A file that is all of it live reads back as it stands. */
  lemma Reloaded(cfg: Config, disk: seq<Entry>)
    requires cfg.Valid() && disk != [] && SinceBarrier(disk) == disk && Prune(disk, cfg.Window()) == disk
    ensures Load(cfg, disk) == Memory(disk, true, BaseOf(cfg, disk))
  {
    hide Prune, Cut, SinceBarrier, BaseOf;
  }

  /** A restart then falls back from 20 to 9: the settlement is lost. */
  lemma LostSettlement(mode: Mode)
    ensures Timely(THREE + [Restart])
    ensures Current(Ten(mode), Run(Ten(mode), THREE).mem) == 20.0
    ensures var w := Run(Ten(mode), THREE + [Restart]);
            && w.mem == Memory([FIRST, SECOND], true, 10.0)
            && Current(Ten(mode), w.mem) == 9.0
  {
    hide Load;
    var cfg := Ten(mode);
    AfterThree(mode);
    RunSnoc(cfg, THREE, Restart);
    hide Prune, Cut, SinceBarrier, BaseOf;
    assert [FIRST] + [SECOND] == [FIRST, SECOND];
    TwoLines(cfg, FIRST, SECOND);
    KeepsTwo(FIRST, SECOND, cfg.Window());
    Reloaded(cfg, [FIRST, SECOND]);
    assert TimesOf(THREE) == [] || NotBefore(TimesOf(THREE), Restart);
  }

  /** The peak over the complete history is then missed too: a restart that loses a live sample matters. */
  lemma PeakMissesLost()
    ensures var cfg := Ten(Rolling7d);
            var w := Run(cfg, THREE + [Restart]);
            && w.full == COMPLETE
            && Peak(cfg, w.mem, 9 * DAY) == 9.0
            && !Answers(Peak(cfg, w.mem, 9 * DAY), w.full, 9 * DAY - cfg.Window())
  {
    hide RollingPeak, Load, Run, Near, Dedup;
    AfterThree(Rolling7d);
    LostSettlement(Rolling7d);
    RunSnoc(Ten(Rolling7d), THREE, Restart);
    PeakWithout();
    PeakWith();
    FarApart();
  }

  const COMPLETE := [FIRST, Sample(10.0, 0), SECOND, THIRD]

  lemma PeakWithout()
    ensures RollingPeak([FIRST, SECOND], 2 * DAY) == 9.0
  {
    hide RollingPeak;
    assert [FIRST] + [SECOND] == [FIRST, SECOND];
    PeakSnoc([FIRST], SECOND, 2 * DAY);
  }

  lemma PeakWith()
    ensures RollingPeak(COMPLETE, 2 * DAY) >= 20.0
  {
    hide RollingPeak;
    var f := [FIRST, Sample(10.0, 0), SECOND];
    assert f + [THIRD] == COMPLETE;
    PeakSnoc(f, THIRD, 2 * DAY);
  }

  lemma FarApart()
    ensures forall x :: 20.0 <= x ==> !Near(9.0, x, DEDUP_TOLERANCE)
  {
  }

  const LATER := Settle(11.0, 10 * DAY, 0.0)

  lemma NothingSinceLoss()
    ensures Timely(THREE + [Restart]) && TimesOf(THREE + [Restart]) == [0, DAY, 9 * DAY]
    ensures SinceLoss(Ten(Rolling7d), THREE + [Restart]) == []
  {
    hide Run, Load, LiveWritten;
    var cfg := Ten(Rolling7d);
    AfterTwo(Rolling7d);
    AfterThree(Rolling7d);
    LostSettlement(Rolling7d);
    RunSnoc(cfg, THREE, Restart);
    RunSnoc(cfg, TWO, Settle(20.0, 9 * DAY, 0.0));
    assert [0, DAY] + [9 * DAY] == [0, DAY, 9 * DAY];
    ReloadRebuildsDeque(cfg, THREE);
    assert Run(cfg, THREE).mem.entries[0] != Run(cfg, THREE + [Restart]).mem.entries[0];
    assert (THREE + [Restart])[..|THREE|] == THREE;
  }

  lemma AfterLater()
    ensures var cfg, ops := Ten(Rolling7d), THREE + [Restart] + [LATER];
            && Timely(ops) && SinceLoss(cfg, ops) == [Sample(11.0, 10 * DAY)]
            && Run(cfg, ops).mem.seeded && Last(Run(cfg, ops).mem.entries) == Sample(11.0, 10 * DAY)
  {
    hide Run, Load, Prune, SinceLoss, Cut;
    var cfg, ops := Ten(Rolling7d), THREE + [Restart];
    LostSettlement(Rolling7d);
    NothingSinceLoss();
    RunSnoc(cfg, ops, LATER);
    SinceLossSnoc(cfg, ops, LATER);
    var m := Run(cfg, ops).mem;
    PruneNonempty(m.entries + [Sample(11.0, 10 * DAY)], cfg.Window());
    assert [] + [Sample(11.0, 10 * DAY)] == [Sample(11.0, 10 * DAY)];
  }

  lemma SinceLossSnoc(cfg: Config, ops: seq<Op>, op: Op)
    requires cfg.Valid() && op.Settle? && Run(cfg, ops).mem.seeded
    requires SinceLoss(cfg, ops) == [] && !IsRepeat(cfg, Run(cfg, ops).mem, op.bankroll)
    ensures SinceLoss(cfg, ops + [op]) == [] + [Entry(op.startAt, op.bankroll, Settlement, op.openStake)]
  {
    hide Run, IsRepeat;
    assert (ops + [op])[..|ops|] == ops;
  }

  /**
   * After that restart a settlement of 11 at day 10 makes the answer right again once it has left
   * the window: at day 18 it is 11, the peak over the complete history.
   */
  lemma PeakReturns()
    ensures var cfg, ops := Ten(Rolling7d), THREE + [Restart] + [LATER];
            var w := Run(cfg, ops);
            && Timely(ops) && !w.lossless && w.full != []
            && Peak(cfg, w.mem, 18 * DAY) == 11.0 == RollingPeak(w.full, 18 * DAY - cfg.Window())
  {
    hide Run, Peak, SinceLoss, RollingPeak, Dedup, Timely;
    var cfg, ops := Ten(Rolling7d), THREE + [Restart] + [LATER];
    AfterLater();
    PeakRecovers(cfg, ops, 18 * DAY);
    SingleHistory(Sample(11.0, 10 * DAY));
    ExactDedup(Sample(11.0, 10 * DAY));
    PeakDecays(cfg, ops, 0, 18 * DAY);
    StaysLossy();
  }

  lemma ExactDedup(e: Entry)
    ensures Dedup([e], 0.0) == [e]
  {
  }

  lemma StaysLossy()
    ensures !Run(Ten(Rolling7d), THREE + [Restart] + [LATER]).lossless
  {
    hide Run, Load, LiveWritten, Record;
    var cfg := Ten(Rolling7d);
    AfterThree(Rolling7d);
    LostSettlement(Rolling7d);
    RunSnoc(cfg, THREE, Restart);
    RunSnoc(cfg, THREE + [Restart], LATER);
    ReloadRebuildsDeque(cfg, THREE);
    assert Run(cfg, THREE).mem.entries[0] != Run(cfg, THREE + [Restart]).mem.entries[0];
  }

  const RISING := [Settle(12.0, 0, 0.0)]

  lemma AfterRising()
    ensures var w := Run(Ten(AbsoluteRatchet), RISING);
            && w.mem == Memory([FIRST, Sample(12.0, 0)], true, 12.0)
            && w.disk == [Sample(12.0, 0)]
            && Timely(RISING) && TimesOf(RISING) == [0]
  {
    hide Prune, Cut;
    var cfg, op, e := Ten(AbsoluteRatchet), Settle(12.0, 0, 0.0), Sample(12.0, 0);
    RunSnoc(cfg, [], op);
    assert [] + [op] == RISING;
    assert Seed(cfg, Start(cfg), 0) == [FIRST];
    assert [FIRST] + [e] == [FIRST, e] && [FIRST, e][0..] == [FIRST, e] && [] + [e] == [e];
    KeepsTwo(FIRST, e, cfg.Window());
    Settled(cfg, Start(cfg), 12.0, 0, 0);
  }

  /**
   * In ratchet mode a settlement of 12 above the initial 10, then a restart: the reloaded peak
   * of 10 is below the current 12.
   */
  lemma PeakBelowCurrent()
    ensures Timely(RISING + [Restart])
    ensures Run(Ten(AbsoluteRatchet), RISING).mem.absolutePeak == 12.0
    ensures var m := Run(Ten(AbsoluteRatchet), RISING + [Restart]).mem;
            && Current(Ten(AbsoluteRatchet), m) == 12.0
            && forall asOf :: Peak(Ten(AbsoluteRatchet), m, asOf) == 10.0
  {
    hide Prune, Cut, Run, Load;
    var cfg := Ten(AbsoluteRatchet);
    AfterRising();
    RunSnoc(cfg, RISING, Restart);
    ReloadOne(cfg, Sample(12.0, 0));
  }

  /** The rolling peak, by contrast, is 12 for every window: the ratchet of that process is below it. */
  lemma RollingAboveRatchet()
    ensures var m := Run(Ten(AbsoluteRatchet), RISING + [Restart]).mem;
            && m.seeded && m.absolutePeak == 10.0
            && forall windowStart :: RollingPeak(m.entries, windowStart) == 12.0
  {
    hide Prune, Cut, Run, Load, RollingPeak;
    var cfg := Ten(AbsoluteRatchet);
    AfterRising();
    RunSnoc(cfg, RISING, Restart);
    ReloadOne(cfg, Sample(12.0, 0));
    forall windowStart ensures RollingPeak([Sample(12.0, 0)], windowStart) == 12.0 {
      SinglePeak(Sample(12.0, 0), windowStart);
    }
  }

  lemma ReloadOne(cfg: Config, e: Entry)
    requires cfg.Valid() && e.event == Settlement
    ensures Load(cfg, [e]) == Memory([e], true, cfg.initial)
  {
    hide Cut;
    SinceBarrierSnoc(cfg, [], e);
    assert [] + [e] == [e];
    CutIs([e], cfg.Window(), 0);
  }
}
