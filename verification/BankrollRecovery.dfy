/**
 * The rolling peak after restarts that lose samples: exactly when a restart keeps the answer,
 * exactly when the answer is that of the complete history, and from when on it is so again.
 */
module BankrollRecovery {
  import opened Basics
  import opened BankrollHistory
  import opened BankrollSpec
  import opened BankrollRuns
  import opened BankrollTheorems

  /**
   * Some sample in the window, or the latest one before it, is at `p` to the tolerance, and the
   * latest one before the window is not above `p` by more.
   */
  ghost predicate Retains(s: seq<Entry>, windowStart: int, p: real, eps: real) {
    && (exists i :: Counts(s, windowStart, i) && Near(s[i].bankroll, p, eps))
    && (forall i :: Counts(s, windowStart, i) && s[i].startAt < windowStart ==>
          (s[i].bankroll <= p || Near(s[i].bankroll, p, eps)))
  }

  /** The samples of `s` in the window are among those of `t`. */
  ghost predicate WindowWithin(s: seq<Entry>, t: seq<Entry>, windowStart: int) {
    forall i :: 0 <= i < |s| && windowStart <= s[i].startAt ==> s[i] in t
  }

  lemma InWindowAtMost(s: seq<Entry>, t: seq<Entry>, windowStart: int, p: real, i: nat)
    requires WindowWithin(s, t, windowStart) && IsPeak(t, windowStart, p)
    requires i < |s| && windowStart <= s[i].startAt
    ensures s[i].bankroll <= p
  {
    hide IsPeak;
    var j :| 0 <= j < |t| && t[j] == s[i];
    PeakBound(t, windowStart, p, j);
  }

  /** With some of the samples in the window the peak is the full one exactly when they retain it. */
  lemma RetainsIsNear(s: seq<Entry>, t: seq<Entry>, windowStart: int, eps: real)
    requires Ordered(s) && Ordered(t) && s != [] && t != [] && 0.0 <= eps
    requires WindowWithin(s, t, windowStart)
    ensures Near(RollingPeak(s, windowStart), RollingPeak(t, windowStart), eps) <==>
            Retains(s, windowStart, RollingPeak(t, windowStart), eps)
  {
    RollingPeakIsPeak(s, windowStart);
    RollingPeakIsPeak(t, windowStart);
    hide Ordered, RollingPeak, IsPeak;
    var q, p := RollingPeak(s, windowStart), RollingPeak(t, windowStart);
    if Near(q, p, eps) {
      NearRetains(s, windowStart, q, p, eps);
    } else if Retains(s, windowStart, p, eps) {
      RetainsNear(s, t, windowStart, q, p, eps);
    }
  }

  lemma NearRetains(s: seq<Entry>, windowStart: int, q: real, p: real, eps: real)
    requires IsPeak(s, windowStart, q) && Near(q, p, eps)
    ensures Retains(s, windowStart, p, eps)
  {
    hide Counts;
  }

  lemma RetainsNear(s: seq<Entry>, t: seq<Entry>, windowStart: int, q: real, p: real, eps: real)
    requires WindowWithin(s, t, windowStart) && IsPeak(s, windowStart, q) && IsPeak(t, windowStart, p)
    requires Retains(s, windowStart, p, eps)
    ensures Near(q, p, eps)
  {
    hide IsPeak;
    var j := PeakWitness(s, windowStart, q);
    var i :| Counts(s, windowStart, i) && Near(s[i].bankroll, p, eps);
    PeakBound(s, windowStart, q, i);
    if windowStart <= s[j].startAt {
      InWindowAtMost(s, t, windowStart, p, j);
    }
  }

  // ------------------------------------------------------------------ a restart

  lemma {:induction false} WrittenWithin(log: seq<Logged>, e: Entry)
    requires e in Written(log)
    ensures e in Entries(log)
  {
    var n := |log| - 1;
    if e in Written(log[..n]) {
      WrittenWithin(log[..n], e);
      assert Entries(log[..n]) == Entries(log)[..n];
    } else {
      assert Entries(log)[n] == e;
    }
  }

  /** Deque, file and log of a seeded world, as sequences of samples. */
  lemma LiveAndFile(cfg: Config, w: World)
    requires cfg.Valid() && Inv(cfg, w) && w.mem.seeded
    ensures var s, t := Written(w.log), Entries(w.log);
            && SinceBarrier(w.disk) == s && s != [] && Ordered(s)
            && t != [] && Ordered(t) && w.mem.entries == Prune(t, cfg.Window())
            && Last(s).startAt <= Last(t).startAt
            && w.mem.entries != [] && Last(w.mem.entries) == Last(t)
  {
    CoreFacts(cfg, w);
    WrittenNonempty(w.log);
    WrittenOrdered(w.log);
    hide Ordered, Prune, Written;
  }

  lemma ReloadInWorld(cfg: Config, w: World, asOf: int)
    requires cfg.Valid() && cfg.mode == Rolling7d && Inv(cfg, w) && w.mem.Valid() && w.mem.seeded
    requires w.mem.entries != [] && Last(w.mem.entries).startAt <= asOf
    ensures Peak(cfg, Load(cfg, w.disk), asOf) == Peak(cfg, w.mem, asOf) <==>
            Retains(SinceBarrier(w.disk), asOf - cfg.Window(), Peak(cfg, w.mem, asOf), 0.0)
  {
    hide Inv, Ordered, Prune, Written, Entries, Retains, RollingPeak, SinceBarrier, Counts;
    var s, t, ws := Written(w.log), Entries(w.log), asOf - cfg.Window();
    LiveAndFile(cfg, w);
    PruneKeepsPeak(s, cfg.Window(), ws);
    PruneKeepsPeak(t, cfg.Window(), ws);
    forall i | 0 <= i < |s| ensures s[i] in t {
      WrittenWithin(w.log, s[i]);
    }
    RetainsIsNear(s, t, ws, 0.0);
  }

  /**
   * After every run a restart keeps the rolling peak exactly when the lines of the file retain
   * it: one that counts is at the live peak, and the latest one before the window is not above it.
   */
  lemma ReloadKeepsPeakExactlyWhen(cfg: Config, ops: seq<Op>, asOf: int)
    requires cfg.Valid() && cfg.mode == Rolling7d && Timely(ops)
    requires var m := Run(cfg, ops).mem;
             m.seeded && Last(m.entries).startAt <= asOf
    ensures var w := Run(cfg, ops);
            Peak(cfg, Load(cfg, w.disk), asOf) == Peak(cfg, w.mem, asOf) <==>
            Retains(SinceBarrier(w.disk), asOf - cfg.Window(), Peak(cfg, w.mem, asOf), 0.0)
  {
    RunKeeps(cfg, ops);
    hide Run, Inv, Clock, Timely, Load, SinceBarrier, Peak, Retains;
    ReloadInWorld(cfg, Run(cfg, ops), asOf);
  }

  // -------------------------------------------------------- the complete history

  /** Nothing is in the deque's log that did not happen. */
  ghost predicate Real(w: World) {
    forall k :: 0 <= k < |w.log| ==> w.log[k].entry in w.full
  }

  lemma SettleReal(cfg: Config, w: World, bankroll: real, startAt: int, openStake: real)
    requires cfg.Valid() && w.mem.Valid() && Real(w)
    ensures Real(StepSettle(cfg, w, bankroll, startAt, openStake))
  {
    hide Record, IsRepeat, Persisted;
  }

  lemma RestartReal(cfg: Config, w: World)
    requires cfg.Valid() && Real(w) && Inv(cfg, w)
    ensures Real(StepRestart(cfg, w))
  {
    var r := StepRestart(cfg, w);
    if !LiveWritten(w) {
      assert SinceBarrier(w.disk) == Written(w.log);
      hide Inv, Load, Written, SinceBarrier, LiveWritten;
      forall k | 0 <= k < |r.log| ensures r.log[k].entry in r.full {
        WrittenWithin(w.log, r.log[k].entry);
        var i :| 0 <= i < |w.log| && Entries(w.log)[i] == r.log[k].entry;
      }
    }
  }

  lemma {:induction false} RunReal(cfg: Config, ops: seq<Op>)
    requires cfg.Valid() && Timely(ops)
    ensures Real(Run(cfg, ops))
  {
    if ops != [] {
      hide Real, Inv, Clock, StepSettle, StepRestart, NotBefore;
      var front := ops[..|ops| - 1];
      RunReal(cfg, front);
      RunKeeps(cfg, front);
      match Last(ops)
      case Settle(bankroll, startAt, openStake) => SettleReal(cfg, Run(cfg, front), bankroll, startAt, openStake);
      case Release(startAt) => ReleaseReal(Run(cfg, front), cfg, startAt);
      case Restart => RestartReal(cfg, Run(cfg, front));
    } else {
      assert Real(Begin(cfg));
    }
  }

  lemma ReleaseReal(w: World, cfg: Config, startAt: int)
    requires w.mem.Valid()
    ensures Real(StepRelease(cfg, w, startAt))
  {
  }

  lemma DequeIsReal(cfg: Config, w: World)
    requires cfg.Valid() && Inv(cfg, w) && Real(w) && w.full != []
    ensures w.mem.entries != [] && Ordered(w.mem.entries) && Ordered(w.full)
    ensures forall i :: 0 <= i < |w.mem.entries| ==> w.mem.entries[i] in w.full
  {
    DequeFacts(cfg, w);
    hide Ordered, Cut;
    var s := Entries(w.log);
    forall i | 0 <= i < |w.mem.entries| ensures w.mem.entries[i] in w.full {
      assert w.mem.entries[i] == s[Cut(s, cfg.Window()) + i];
    }
  }

  lemma CompleteInWorld(cfg: Config, w: World, asOf: int)
    requires cfg.Valid() && cfg.mode == Rolling7d && Inv(cfg, w) && Real(w) && w.mem.Valid() && w.full != []
    ensures var ws := asOf - cfg.Window();
            Near(Peak(cfg, w.mem, asOf), RollingPeak(w.full, ws), DEDUP_TOLERANCE) <==>
            Retains(w.mem.entries, ws, RollingPeak(w.full, ws), DEDUP_TOLERANCE)
  {
    hide Inv, Real, Ordered, Retains, RollingPeak, Near;
    DequeIsReal(cfg, w);
    RetainsIsNear(w.mem.entries, w.full, asOf - cfg.Window(), DEDUP_TOLERANCE);
  }

  /**
   * In every run, whatever its restarts lost, and at every query time: the rolling peak is the
   * peak over the complete history, to the dedup tolerance, exactly when the deque retains it.
   */
  lemma PeakOverCompleteHistory(cfg: Config, ops: seq<Op>, asOf: int)
    requires cfg.Valid() && cfg.mode == Rolling7d && Timely(ops) && Run(cfg, ops).full != []
    ensures var w, ws := Run(cfg, ops), asOf - cfg.Window();
            Near(Peak(cfg, w.mem, asOf), RollingPeak(w.full, ws), DEDUP_TOLERANCE) <==>
            Retains(w.mem.entries, ws, RollingPeak(w.full, ws), DEDUP_TOLERANCE)
  {
    RunKeeps(cfg, ops);
    RunReal(cfg, ops);
    hide Run, Inv, Clock, Timely, Real, Peak, Retains, RollingPeak, Near;
    CompleteInWorld(cfg, Run(cfg, ops), asOf);
  }

  // ------------------------------------------------------------------- recovery

  /** Samples before one that already precedes the window do not matter. */
  lemma {:induction false} EarlierDoNotMatter(x: seq<Entry>, y: seq<Entry>, windowStart: int)
    requires Ordered(x + y) && y != [] && y[0].startAt < windowStart
    ensures RollingPeak(x + y, windowStart) == RollingPeak(y, windowStart)
  {
    hide RollingPeak;
    var n := |y| - 1;
    var front, e := y[..n], y[n];
    OrderedPart(x + y, |x|, |x + y|);
    OrderedPart(x + y, 0, |x| + n);
    assert (x + y)[|x|..|x + y|] == y && y == front + [e];
    assert (x + y)[0..|x| + n] == x + front && x + y == (x + front) + [e];
    hide Ordered;
    PeakSnoc(x + front, e, windowStart);
    PeakSnoc(front, e, windowStart);
    if n > 0 {
      EarlierDoNotMatter(x, front, windowStart);
    }
  }

  predicate EndsWith(s: seq<Entry>, t: seq<Entry>) {
    |t| <= |s| && s[|s| - |t|..] == t
  }

  lemma EarlierAside(s: seq<Entry>, t: seq<Entry>, windowStart: int)
    requires Ordered(s) && EndsWith(s, t) && t != [] && t[0].startAt < windowStart
    ensures Ordered(t) && RollingPeak(s, windowStart) == RollingPeak(t, windowStart)
  {
    hide RollingPeak;
    var x := s[..|s| - |t|];
    assert s == x + t;
    OrderedPart(s, |x|, |s|);
    assert s[|x|..|s|] == t;
    EarlierDoNotMatter(x, t, windowStart);
  }

  /**
   * The samples from the first one recorded after the last lossy restart on (or all since the
   * last release, if none was lossy), repeats among them included.
   */
  function SinceLoss(cfg: Config, ops: seq<Op>): seq<Entry>
    requires cfg.Valid()
  {
    if ops == [] then [] else
      var front := ops[..|ops| - 1];
      var w, t := Run(cfg, front), SinceLoss(cfg, front);
      match Last(ops)
      case Settle(bankroll, startAt, openStake) =>
        var e := Entry(startAt, bankroll, Settlement, openStake);
        if !w.mem.seeded then [InitEntry(cfg, startAt)] + [e]
        else if t == [] && IsRepeat(cfg, w.mem, bankroll) then []
        else t + [e]
      case Release(startAt) => Reseed(cfg, w.mem, startAt).entries
      case Restart => if LiveWritten(w) then t else []
  }

  /** The complete history ends with `t`, and what entered the deque with the deduplicated `t`. */
  ghost predicate Known(w: World, t: seq<Entry>) {
    EndsWith(w.full, t) && EndsWith(Entries(w.log), Dedup(t, DEDUP_TOLERANCE))
  }

  lemma EndsSnoc(s: seq<Entry>, t: seq<Entry>, e: Entry)
    requires EndsWith(s, t)
    ensures EndsWith(s + [e], t + [e])
  {
    assert (s + [e])[|s| - |t|..] == s[|s| - |t|..] + [e];
  }

  lemma NothingKnown(w: World, t: seq<Entry>)
    requires |t| == 0
    ensures Known(w, t)
  {
    hide Entries;
  }

  lemma GrowKnown(w: World, r: World, t: seq<Entry>, l: Logged, kept: bool)
    requires Known(w, t) && w.log != []
    requires r.full == w.full + [l.entry] && r.log == if kept then w.log + [l] else w.log
    requires kept <==> !Near(Last(w.log).entry.bankroll, l.entry.bankroll, DEDUP_TOLERANCE)
    ensures t != [] || kept ==> Known(r, t + [l.entry])
  {
    hide Entries, Near, EndsWith;
    EndsSnoc(w.full, t, l.entry);
    DedupSnoc(t, l.entry, DEDUP_TOLERANCE);
    EntriesSnoc(w.log, l);
    var k := Dedup(t, DEDUP_TOLERANCE);
    if t != [] {
      LastKnown(Entries(w.log), k);
    }
    hide Dedup;
    if kept {
      EndsSnoc(Entries(w.log), k, l.entry);
    }
  }

  lemma LastKnown(s: seq<Entry>, t: seq<Entry>)
    requires EndsWith(s, t) && t != []
    ensures s != [] && Last(s) == Last(t)
  {
    assert s[|s| - |t|..][|t| - 1] == s[|s| - 1];
  }

  lemma SettleKnown(cfg: Config, w: World, t: seq<Entry>, bankroll: real, startAt: int, openStake: real)
    requires cfg.Valid() && Inv(cfg, w) && w.mem.Valid() && w.mem.seeded && Known(w, t)
    ensures t != [] || !IsRepeat(cfg, w.mem, bankroll) ==>
            Known(StepSettle(cfg, w, bankroll, startAt, openStake), t + [Entry(startAt, bankroll, Settlement, openStake)])
  {
    CoreFacts(cfg, w);
    hide Inv, Record, Persisted, Known, Near;
    var mem, e := Record(cfg, w.mem, bankroll, startAt, openStake), Entry(startAt, bankroll, Settlement, openStake);
    GrowKnown(w, StepSettle(cfg, w, bankroll, startAt, openStake), t, Logged(e, Persisted(w.mem, mem) == [e]),
              !IsRepeat(cfg, w.mem, bankroll));
  }

  lemma SingleKnown(w: World, l: Logged)
    requires w.full == [l.entry] && w.log == [l]
    ensures Known(w, [l.entry])
  {
    SingleLog(l.entry, l.written);
    SingleHistory(l.entry);
    hide Entries, Dedup;
  }

  lemma FirstKnown(cfg: Config, w: World, bankroll: real, startAt: int, openStake: real)
    requires cfg.Valid() && w.mem.Valid() && !w.mem.seeded && w.full == [] && w.log == [] && w.mem.entries == []
    ensures Known(StepSettle(cfg, w, bankroll, startAt, openStake),
                  [InitEntry(cfg, startAt)] + [Entry(startAt, bankroll, Settlement, openStake)])
  {
    hide Record, Persisted, Known, Near, Entries;
    var init, e := InitEntry(cfg, startAt), Entry(startAt, bankroll, Settlement, openStake);
    var persisted := Persisted(w.mem, Record(cfg, w.mem, bankroll, startAt, openStake));
    var seed := w.(full := [init], log := [Logged(init, persisted == [init])]);
    assert w.full + [init] == [init] && w.log + seed.log == seed.log;
    SingleKnown(seed, seed.log[0]);
    GrowKnown(seed, StepSettle(cfg, w, bankroll, startAt, openStake), [init], Logged(e, persisted == [e]),
              !IsRepeat(cfg, w.mem, bankroll));
  }

  lemma ReleaseKnown(cfg: Config, w: World, startAt: int)
    requires w.mem.Valid()
    ensures Known(StepRelease(cfg, w, startAt), Reseed(cfg, w.mem, startAt).entries)
  {
    hide Known;
    var r := StepRelease(cfg, w, startAt);
    var e := r.mem.entries[0];
    assert r.log == [Logged(e, true)];
    SingleKnown(r, r.log[0]);
  }

  lemma StepKnown(cfg: Config, ops: seq<Op>)
    requires cfg.Valid() && ops != []
    requires var front := ops[..|ops| - 1];
             Inv(cfg, Run(cfg, front)) && Known(Run(cfg, front), SinceLoss(cfg, front))
    ensures Known(Run(cfg, ops), SinceLoss(cfg, ops))
  {
    hide Inv, StepSettle, StepRelease, Known, Load, LiveWritten;
    var front := ops[..|ops| - 1];
    var w, t := Run(cfg, front), SinceLoss(cfg, front);
    match Last(ops)
    case Settle(bankroll, startAt, openStake) =>
      if w.mem.seeded {
        SettleKnown(cfg, w, t, bankroll, startAt, openStake);
        NothingKnown(Run(cfg, ops), []);
      } else {
        UnseededIsEmpty(cfg, w);
        FirstKnown(cfg, w, bankroll, startAt, openStake);
      }
    case Release(startAt) => ReleaseKnown(cfg, w, startAt);
    case Restart =>
      if LiveWritten(w) {
        SameKnown(w, Run(cfg, ops), t);
      } else {
        NothingKnown(Run(cfg, ops), SinceLoss(cfg, ops));
      }
  }

  lemma SameKnown(w: World, r: World, t: seq<Entry>)
    requires Known(w, t) && r.full == w.full && r.log == w.log
    ensures Known(r, t)
  {
  }

  lemma UnseededIsEmpty(cfg: Config, w: World)
    requires cfg.Valid() && Inv(cfg, w) && !w.mem.seeded
    ensures w.full == [] && w.log == [] && w.mem.entries == []
  {
  }

  lemma {:induction false} RunKnown(cfg: Config, ops: seq<Op>)
    requires cfg.Valid() && Timely(ops)
    ensures Known(Run(cfg, ops), SinceLoss(cfg, ops))
  {
    hide Known, Inv, Clock, Run;
    if ops == [] {
      NothingKnown(Run(cfg, ops), SinceLoss(cfg, ops));
    } else {
      RunKnown(cfg, ops[..|ops| - 1]);
      RunKeeps(cfg, ops[..|ops| - 1]);
      StepKnown(cfg, ops);
    }
  }

  /** Samples that end alike, up to repeats, from before the window on have the same peak. */
  lemma EndsAlike(log: seq<Entry>, full: seq<Entry>, t: seq<Entry>, windowStart: int)
    requires Ordered(log) && Ordered(full) && log != [] && full != []
    requires EndsWith(log, Dedup(t, DEDUP_TOLERANCE)) && EndsWith(full, t)
    requires t != [] && t[0].startAt < windowStart
    ensures var peak, truth := RollingPeak(log, windowStart), RollingPeak(full, windowStart);
            && Near(peak, truth, DEDUP_TOLERANCE)
            && (Dedup(t, DEDUP_TOLERANCE) == Dedup(t, 0.0) ==> peak == truth)
  {
    hide Ordered, RollingPeak, Near, Dedup, EndsWith;
    EarlierAside(log, Dedup(t, DEDUP_TOLERANCE), windowStart);
    EarlierAside(full, t, windowStart);
    DedupKeepsPeak(t, DEDUP_TOLERANCE, windowStart);
    DedupKeepsPeak(t, 0.0, windowStart);
    ExactlyNear(RollingPeak(Dedup(t, 0.0), windowStart), RollingPeak(t, windowStart));
  }

  lemma KnownPeak(cfg: Config, w: World, t: seq<Entry>, asOf: int)
    requires cfg.Valid() && cfg.mode == Rolling7d && Inv(cfg, w) && w.mem.Valid() && w.mem.seeded && Known(w, t)
    requires w.mem.entries != [] && Last(w.mem.entries).startAt <= asOf
    requires t != [] && t[0].startAt < asOf - cfg.Window()
    ensures w.full != []
    ensures var peak, truth := Peak(cfg, w.mem, asOf), RollingPeak(w.full, asOf - cfg.Window());
            && Near(peak, truth, DEDUP_TOLERANCE)
            && (Dedup(t, DEDUP_TOLERANCE) == Dedup(t, 0.0) ==> peak == truth)
  {
    hide Inv, Ordered, Prune, Written, Entries, RollingPeak, SinceBarrier, Near, Dedup, EndsWith;
    LiveAndFile(cfg, w);
    FullOrdered(cfg, w);
    PruneKeepsPeak(Entries(w.log), cfg.Window(), asOf - cfg.Window());
    EndsAlike(Entries(w.log), w.full, t, asOf - cfg.Window());
  }

  lemma ExactlyNear(x: real, y: real)
    requires Near(x, y, 0.0)
    ensures x == y
  {
  }

  lemma FullOrdered(cfg: Config, w: World)
    requires cfg.Valid() && Inv(cfg, w) && w.mem.seeded
    ensures w.full != [] && Ordered(w.full)
  {
  }

  /**
   * After any restarts the answer is right again for every window that starts after the first
   * settlement recorded since the last lossy one.
   */
  lemma PeakRecovers(cfg: Config, ops: seq<Op>, asOf: int)
    requires cfg.Valid() && cfg.mode == Rolling7d && Timely(ops)
    requires var m := Run(cfg, ops).mem;
             m.seeded && Last(m.entries).startAt <= asOf
    requires var t := SinceLoss(cfg, ops);
             t != [] && t[0].startAt < asOf - cfg.Window()
    ensures var w, t := Run(cfg, ops), SinceLoss(cfg, ops);
            && w.full != []
            && Near(Peak(cfg, w.mem, asOf), RollingPeak(w.full, asOf - cfg.Window()), DEDUP_TOLERANCE)
            && (Dedup(t, DEDUP_TOLERANCE) == Dedup(t, 0.0) ==>
                  Peak(cfg, w.mem, asOf) == RollingPeak(w.full, asOf - cfg.Window()))
  {
    RunKeeps(cfg, ops);
    RunKnown(cfg, ops);
    hide Run, Inv, Clock, Timely, SinceLoss, Known, Peak, RollingPeak, Dedup, Near;
    KnownPeak(cfg, Run(cfg, ops), SinceLoss(cfg, ops), asOf);
  }
}
