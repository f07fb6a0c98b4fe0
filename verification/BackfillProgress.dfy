/**
 * Two more properties of the runs of Backfill: it can always be completed, and what a crash
 * between append and checkpoint does to the counters.
 */
module BackfillProgress {
  import opened Basics
  import opened BackfillFile
  import opened Backfill

  // ------------------------------------------------------------------ resumption

  /** Steps a worker may still have to take in its bucket. */
  function Left(length: nat, s: Symbol): int {
    match s.worker
    case Resting => 0
    case Looking(_, i) => 3 * (length - i)
    case Appended(_, i, _) => 3 * (length - i) - 1
    case Tallied(_, i) => 3 * (length - i) - 2
  }

  function AllLeft(length: nat, symbols: seq<Symbol>): int {
    if symbols == [] then 0 else AllLeft(length, symbols[..|symbols| - 1]) + Left(length, symbols[|symbols| - 1])
  }

  lemma {:induction false} OneMoved(length: nat, symbols: seq<Symbol>, k: nat, t: Symbol)
    requires k < |symbols|
    ensures AllLeft(length, symbols[k := t]) == AllLeft(length, symbols) - Left(length, symbols[k]) + Left(length, t)
  {
    hide Left;
    var n := |symbols| - 1;
    if k < n {
      OneMoved(length, symbols[..n], k, t);
      assert symbols[k := t][..n] == symbols[..n][k := t];
    } else {
      assert symbols[k := t][..n] == symbols[..n];
    }
  }

  lemma {:induction false} LeftIsNatural(length: nat, symbols: seq<Symbol>)
    requires forall s :: s in symbols ==> 0 <= Left(length, s)
    ensures 0 <= AllLeft(length, symbols)
  {
    hide Left;
    if symbols != [] {
      LeftIsNatural(length, symbols[..|symbols| - 1]);
    }
  }

  lemma GoodHasLeft(rs: seq<Round>, s: Symbol, crashes: nat, off: nat, length: nat)
    requires Good(rs, s, crashes, off, length)
    ensures 0 <= Left(length, s)
  {
    hide Durable, InMemory, Before, Checkpoint.Total;
  }

  lemma InvHasLeft(weeks: seq<seq<Round>>, w: World)
    requires Inv(weeks, w)
    ensures 0 <= AllLeft(Length(weeks, w.week), w.symbols)
  {
    hide Flatten, Offset, Good, Left;
    forall s | s in w.symbols ensures 0 <= Left(Length(weeks, w.week), s) {
      GoodHasLeft(Flatten(weeks), s, w.crashes, Offset(weeks, w.week), Length(weeks, w.week));
    }
    LeftIsNatural(Length(weeks, w.week), w.symbols);
  }

  /** The step a worker that is not finished can take, and its effect. */
  lemma WorkerCanMove(rs: seq<Round>, bucket: seq<Round>, s: Symbol, k: nat, crashes: nat, off: nat) returns (op: Op)
    requires Good(rs, s, crashes, off, |bucket|) && !s.worker.Resting? && !Finished(bucket, s)
    ensures op == Skip(k) || (op.Append? && op.s == k) || op == Tally(k) || op == Save(k)
    ensures Left(|bucket|, SymbolStep(bucket, s, op)) < Left(|bucket|, s)
  {
    hide Durable, InMemory, Before, Checkpoint.Total, DoneWith, Checkpoint.Bump;
    match s.worker
    case Looking(last, i) => op := if DoneWith(last, bucket[i]) then Skip(k) else Append(k, OkFull);
    case Appended(_, _, _) => op := Tally(k);
    case Tallied(_, _) => op := Save(k);
  }

  /** Nearer the end: a later week, or the same week once started, or one worker further. */
  ghost predicate Nearer(weeks: seq<seq<Round>>, w: World, v: World) {
    || w.week < v.week
    || (w.week == v.week && !w.inWeek && v.inWeek)
    || (w.week == v.week && w.inWeek && v.inWeek &&
        AllLeft(Length(weeks, v.week), v.symbols) < AllLeft(Length(weeks, w.week), w.symbols))
  }

  lemma CanMove(weeks: seq<seq<Round>>, w: World) returns (op: Op)
    requires ByEpoch(Flatten(weeks)) && Inv(weeks, w) && w.week < |weeks|
    ensures !op.Crash? && !op.RunAgain? && Nearer(weeks, w, Step(weeks, w, op))
  {
    hide Flatten, Offset, Good, ByEpoch, NothingPending, Finished, AllLeft, SymbolStep, Map;
    if !w.inWeek {
      op := NextWeek;
    } else if forall s :: s in w.symbols ==> Finished(weeks[w.week], s) {
      op := WeekDone;
    } else {
      var s :| s in w.symbols && !Finished(weeks[w.week], s);
      var k :| 0 <= k < |w.symbols| && w.symbols[k] == s;
      op := WorkerCanMove(Flatten(weeks), weeks[w.week], s, k, w.crashes, Offset(weeks, w.week));
      OneMoved(|weeks[w.week]|, w.symbols, k, SymbolStep(weeks[w.week], s, op));
      WorkerMoves(weeks, w, k, op);
    }
  }

  lemma WorkerMoves(weeks: seq<seq<Round>>, w: World, k: nat, op: Op)
    requires w.inWeek && w.week < |weeks| && k < |w.symbols|
    requires op == Skip(k) || (op.Append? && op.s == k) || op == Tally(k) || op == Save(k)
    ensures Step(weeks, w, op) == w.(symbols := w.symbols[k := SymbolStep(weeks[w.week], w.symbols[k], op)])
  {
    hide SymbolStep;
  }

  ghost predicate NoCrash(ops: seq<Op>) {
    forall op :: op in ops ==> !op.Crash? && !op.RunAgain?
  }

  lemma {:induction false} RunCons(weeks: seq<seq<Round>>, w: World, op: Op, ops: seq<Op>)
    ensures Run(weeks, w, [op] + ops) == Run(weeks, Step(weeks, w, op), ops)
    decreases |ops|
  {
    hide Step;
    var n := |ops|;
    if n == 0 {
      assert [op] + ops == [op];
      assert [op][..0] == [];
    } else {
      RunCons(weeks, w, op, ops[..n - 1]);
      assert ([op] + ops)[..n] == [op] + ops[..n - 1];
    }
  }

  /** From every state any run leads to, some crash-free continuation completes the backfill. */
  lemma {:induction false} CanFinish(weeks: seq<seq<Round>>, w: World) returns (ops: seq<Op>)
    requires ByEpoch(Flatten(weeks)) && Inv(weeks, w)
    ensures NoCrash(ops) && Run(weeks, w, ops).week == |weeks|
    decreases |weeks| - w.week, !w.inWeek, AllLeft(Length(weeks, w.week), w.symbols)
  {
    hide Flatten, ByEpoch, Inv, Step, AllLeft;
    InvWeek(weeks, w);
    if w.week == |weeks| {
      ops := [];
    } else {
      var op := CanMove(weeks, w);
      var v := Step(weeks, w, op);
      StepKeeps(weeks, w, op);
      InvWeek(weeks, v);
      InvHasLeft(weeks, w);
      InvHasLeft(weeks, v);
      var rest := CanFinish(weeks, v);
      ops := [op] + rest;
      RunCons(weeks, w, op, rest);
    }
  }

  lemma {:induction false} RunInParts(weeks: seq<seq<Round>>, w: World, first: seq<Op>, second: seq<Op>)
    ensures Run(weeks, w, first + second) == Run(weeks, Run(weeks, w, first), second)
    decreases |second|
  {
    hide Step;
    var n := |second|;
    if n == 0 {
      assert first + second == first;
    } else {
      RunInParts(weeks, w, first, second[..n - 1]);
      assert (first + second)[..|first| + n - 1] == first + second[..n - 1];
    }
  }

  /** Resuming after any crashes therefore ends with every symbol's file complete. */
  lemma Resumable(weeks: seq<seq<Round>>, w: World) returns (ops: seq<Op>)
    requires ByEpoch(Flatten(weeks)) && Reachable(weeks, w)
    ensures NoCrash(ops)
    ensures var rs, v := Flatten(weeks), Run(weeks, w, ops);
            && v.week == |weeks|
            && forall k :: 0 <= k < |v.symbols| ==> Matches(Kept(v.symbols[k].file), rs, |rs|)
  {
    hide Flatten, ByEpoch, Inv, Run, Matches, Kept, NoCrash;
    ReachableIsGood(weeks, w);
    ops := CanFinish(weeks, w);
    var v := Run(weeks, w, ops);
    var symbols: nat, before :| Run(weeks, Fresh(symbols), before) == w;
    RunInParts(weeks, Fresh(symbols), before, ops);
    assert Reachable(weeks, v);
    forall k | 0 <= k < |v.symbols| ensures Matches(Kept(v.symbols[k].file), Flatten(weeks), |Flatten(weeks)|) {
      FinishedIsComplete(weeks, v, k);
    }
  }

  // ---------------------------------------------------------- counters after a crash

  lemma ReachableNext(weeks: seq<seq<Round>>, w: World, op: Op)
    requires Reachable(weeks, w)
    ensures Reachable(weeks, Step(weeks, w, op))
  {
    hide Step;
    var symbols: nat, ops :| Run(weeks, Fresh(symbols), ops) == w;
    assert (ops + [op])[..|ops|] == ops;
    assert Run(weeks, Fresh(symbols), ops + [op]) == Step(weeks, w, op);
  }

  /** A world of one symbol and one week. */
  function Only(s: Symbol, inWeek: bool, crashes: nat): World {
    World([s], 0, inWeek, crashes)
  }

  lemma OnlyStep(bucket: seq<Round>, s: Symbol, crashes: nat, op: Op)
    requires op == Append(0, Missing) || op == Append(0, OkFull) || op == Tally(0) || op == Save(0)
    requires Reachable([bucket], Only(s, true, crashes))
    ensures Reachable([bucket], Only(SymbolStep(bucket, s, op), true, crashes))
  {
    hide SymbolStep, Reachable;
    ReachableNext([bucket], Only(s, true, crashes), op);
    assert Only(s, true, crashes).symbols[0 := SymbolStep(bucket, s, op)] == [SymbolStep(bucket, s, op)];
  }

  lemma OnlyStart(bucket: seq<Round>, s: Symbol, crashes: nat)
    requires !NothingPending(bucket, s)
    requires Reachable([bucket], Only(s, false, crashes))
    ensures Reachable([bucket], Only(Started(s), true, crashes))
  {
    hide Started, NothingPending, Reachable;
    ReachableNext([bucket], Only(s, false, crashes), NextWeek);
    assert Map([s], Started) == [Started(s)];
    assert s in Only(s, false, crashes).symbols;
  }

  lemma OnlyCrash(bucket: seq<Round>, s: Symbol, crashes: nat)
    requires Reachable([bucket], Only(s, true, crashes))
    ensures Reachable([bucket], Only(Restarted(s), false, crashes + 1))
  {
    hide Restarted, Reachable;
    ReachableNext([bucket], Only(s, true, crashes), Crash);
    assert Map([s], Restarted) == [Restarted(s)];
  }

  lemma FreshIsReachable(weeks: seq<seq<Round>>, s: Symbol)
    requires s == Symbol([], NOTHING_DONE, NOTHING_DONE, Resting)
    ensures Reachable(weeks, Only(s, false, 0))
  {
    assert Run(weeks, Fresh(1), []) == Fresh(1);
    assert Fresh(1).symbols == [s];
  }

  /**
   * One symbol, one round: a fetch finds nothing, the process dies before the checkpoint, and
   * the next run finds everything.  The counters then speak of a record no reader keeps.
   */
  lemma CountersCanDisagree(r: Round, s: Symbol)
    requires 0 < r.epoch
    requires s == Symbol([RecordOf(r, Missing), RecordOf(r, OkFull)], Checkpoint(Some(r.epoch), 1, 0, 0, 0),
                         Checkpoint(Some(r.epoch), 1, 0, 0, 0), Looking(None, 1))
    ensures Reachable([[r]], Only(s, true, 1))
    ensures Kept(s.file) == [RecordOf(r, Missing)] && s.saved.missing == 0
  {
    hide Reachable;
    var a := Symbol([], NOTHING_DONE, NOTHING_DONE, Resting);
    FreshIsReachable([[r]], a);
    assert r in [r];
    OnlyStart([r], a, 0);
    OnlyStep([r], Started(a), 0, Append(0, Missing));
    var b := SymbolStep([r], Started(a), Append(0, Missing));
    OnlyCrash([r], b, 0);
    var c := Restarted(b);
    OnlyStart([r], c, 1);
    OnlyStep([r], Started(c), 1, Append(0, OkFull));
    var d := SymbolStep([r], Started(c), Append(0, OkFull));
    OnlyStep([r], d, 1, Tally(0));
    OnlyStep([r], SymbolStep([r], d, Tally(0)), 1, Save(0));
    assert b.file == [RecordOf(r, Missing)];
    assert SymbolStep([r], SymbolStep([r], d, Tally(0)), Save(0)) == s;
    KeepsFirst(s.file, RecordOf(r, Missing), RecordOf(r, OkFull));
  }

  lemma KeepsFirst(f: seq<Record>, x: Record, y: Record)
    requires f == [x, y] && x.epoch == y.epoch
    ensures Kept(f) == [x]
  {
    var one := [x];
    assert one[..0] == [];
    assert Kept(one) == Kept([]) + [x];
    assert f[..1] == one && f[1] == y && Mentions(one, y.epoch);
  }
}
