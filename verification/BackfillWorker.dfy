/**
 * One worker's loop over a week, written as the code runs it, and its place among the
 * interleaved steps of Backfill.
 */
module BackfillWorker {
  import opened BackfillFile
  import opened Backfill

  /** The steps that deal with one round: pass it by, or fetch it and record it. */
  function Turn(bucket: seq<Round>, s: Symbol, status: Status): Symbol {
    if s.worker.Looking? && s.worker.i < |bucket| && DoneWith(s.worker.lastDone, bucket[s.worker.i])
    then SymbolStep(bucket, s, Skip(0))
    else
      SymbolStep(bucket, SymbolStep(bucket, SymbolStep(bucket, s, Append(0, status)), Tally(0)), Save(0))
  }

  /** The symbol after its worker has dealt with the first `k` rounds of the bucket. */
  function Fetched(bucket: seq<Round>, s: Symbol, answers: seq<Status>, k: nat): Symbol
    requires k <= |bucket| == |answers|
  {
    if k == 0 then s else Turn(bucket, Fetched(bucket, s, answers, k - 1), answers[k - 1])
  }

  /** What one turn leaves: nothing new, or one more record and the checkpoint that counts it. */
  lemma TurnMovesOn(bucket: seq<Round>, s: Symbol, status: Status)
    requires s.worker.Looking? && s.worker.i < |bucket|
    ensures var r := bucket[s.worker.i];
            var next := Looking(s.worker.lastDone, s.worker.i + 1);
            var tallied := s.memory.Bump(r.epoch, status);
            Turn(bucket, s, status) == if DoneWith(s.worker.lastDone, r) then s.(worker := next)
                                       else Symbol(s.file + [RecordOf(r, status)], tallied, tallied, next)
  {
    hide Checkpoint.Bump, DoneWith;
  }

  lemma {:induction false} FetchedIsAt(bucket: seq<Round>, s: Symbol, answers: seq<Status>, k: nat)
    requires k <= |bucket| == |answers| && s.worker.Looking? && s.worker.i == 0
    ensures Fetched(bucket, s, answers, k).worker == Looking(s.worker.lastDone, k)
  {
    hide Turn;
    if k > 0 {
      FetchedIsAt(bucket, s, answers, k - 1);
      TurnMovesOn(bucket, Fetched(bucket, s, answers, k - 1), answers[k - 1]);
    }
  }

  /** A step of the worker of symbol `k`. */
  predicate StepOf(op: Op, k: nat) {
    match op
    case Skip(s) => s == k
    case Append(s, _) => s == k
    case Tally(s) => s == k
    case Save(s) => s == k
    case _ => false
  }

  /** The process when symbol `k` is as `s` and all else as in `w`. */
  function With(w: World, k: nat, s: Symbol): World
    requires k < |w.symbols|
  {
    w.(symbols := w.symbols[k := s])
  }

  lemma WorkerMoves(weeks: seq<seq<Round>>, w: World, k: nat, s: Symbol, ops: seq<Op>, op: Op)
    requires w.inWeek && w.week < |weeks| && k < |w.symbols| && StepOf(op, k)
    requires Run(weeks, w, ops) == With(w, k, s)
    ensures Run(weeks, w, ops + [op]) == With(w, k, SymbolStep(weeks[w.week], s, op))
  {
    hide SymbolStep, Step;
    assert (ops + [op])[..|ops|] == ops;
    StepIsOwn(weeks, With(w, k, s), k, op);
    var t := SymbolStep(weeks[w.week], s, op);
    assert w.symbols[k := s][k := t] == w.symbols[k := t];
  }

  lemma StepIsOwn(weeks: seq<seq<Round>>, w: World, k: nat, op: Op)
    requires w.inWeek && w.week < |weeks| && k < |w.symbols| && StepOf(op, k)
    ensures Step(weeks, w, op) == With(w, k, SymbolStep(weeks[w.week], w.symbols[k], op))
  {
    hide SymbolStep;
  }

  /** Whose step it is does not matter to the symbol. */
  lemma StepsAlike(bucket: seq<Round>, s: Symbol, k: nat, status: Status)
    ensures SymbolStep(bucket, s, Skip(k)) == SymbolStep(bucket, s, Skip(0))
    ensures SymbolStep(bucket, s, Append(k, status)) == SymbolStep(bucket, s, Append(0, status))
    ensures SymbolStep(bucket, s, Tally(k)) == SymbolStep(bucket, s, Tally(0))
    ensures SymbolStep(bucket, s, Save(k)) == SymbolStep(bucket, s, Save(0))
  {
  }

  lemma TurnIsRun(weeks: seq<seq<Round>>, w: World, k: nat, s: Symbol, before: seq<Op>, status: Status)
    returns (ops: seq<Op>)
    requires w.inWeek && w.week < |weeks| && k < |w.symbols|
    requires Run(weeks, w, before) == With(w, k, s) && forall op :: op in before ==> StepOf(op, k)
    ensures Run(weeks, w, ops) == With(w, k, Turn(weeks[w.week], s, status))
    ensures forall op :: op in ops ==> StepOf(op, k)
  {
    hide SymbolStep, Run;
    var bucket := weeks[w.week];
    StepsAlike(bucket, s, k, status);
    if s.worker.Looking? && s.worker.i < |bucket| && DoneWith(s.worker.lastDone, bucket[s.worker.i]) {
      ops := before + [Skip(k)];
      WorkerMoves(weeks, w, k, s, before, Skip(k));
    } else {
      var a := SymbolStep(bucket, s, Append(k, status));
      var b := SymbolStep(bucket, a, Tally(k));
      StepsAlike(bucket, a, k, status);
      StepsAlike(bucket, b, k, status);
      ops := before + [Append(k, status)] + [Tally(k)] + [Save(k)];
      WorkerMoves(weeks, w, k, s, before, Append(k, status));
      WorkerMoves(weeks, w, k, a, before + [Append(k, status)], Tally(k));
      WorkerMoves(weeks, w, k, b, before + [Append(k, status)] + [Tally(k)], Save(k));
    }
  }

  /**
   * The uninterrupted loop for symbol `k` in a started week is a run of the whole process: it makes
   * steps of that worker only, and leaves the other symbols, the week and the crashes as they were.
   */
  lemma {:induction false} FetchedIsRun(weeks: seq<seq<Round>>, w: World, k: nat, answers: seq<Status>, n: nat)
    returns (ops: seq<Op>)
    requires w.inWeek && w.week < |weeks| && k < |w.symbols|
    requires n <= |weeks[w.week]| == |answers|
    ensures Run(weeks, w, ops) == With(w, k, Fetched(weeks[w.week], w.symbols[k], answers, n))
    ensures forall op :: op in ops ==> StepOf(op, k)
  {
    hide Turn, StepOf;
    if n == 0 {
      ops := [];
      assert w.symbols[k := w.symbols[k]] == w.symbols;
    } else {
      hide Run;
      var before := FetchedIsRun(weeks, w, k, answers, n - 1);
      ops := TurnIsRun(weeks, w, k, Fetched(weeks[w.week], w.symbols[k], answers, n - 1), before, answers[n - 1]);
    }
  }

  /** The files and the checkpoint of one symbol, with the checkpoint's copy in memory. */
  class SymbolStore {
    var file: seq<Record>
    var saved: Checkpoint
    var memory: Checkpoint

    constructor (file: seq<Record>, saved: Checkpoint)
      ensures this.file == file && this.saved == saved && this.memory == saved
    {
      this.file, this.saved, this.memory := file, saved, saved;
    }

    ghost function View(worker: Worker): Symbol
      reads this
    {
      Symbol(file, saved, memory, worker)
    }

    /** `answers[i]` is what the fetch of `bucket[i]` would report, if it is made. */
    method FetchOneSymbolForWeek(bucket: seq<Round>, answers: seq<Status>) returns (attempts: nat)
      requires |answers| == |bucket|
      modifies this
      ensures View(Looking(old(memory.last), |bucket|)) ==
              Fetched(bucket, old(View(Looking(memory.last, 0))), answers, |bucket|)
      ensures |file| == old(|file|) + attempts
    {
      hide Checkpoint.Bump, Turn, RecordOf;
      var lastDone := memory.last;
      ghost var start := View(Looking(lastDone, 0));
      attempts := 0;
      for i := 0 to |bucket|
        invariant View(Looking(lastDone, i)) == Fetched(bucket, start, answers, i)
        invariant |file| == old(|file|) + attempts
      {
        TurnMovesOn(bucket, View(Looking(lastDone, i)), answers[i]);
        var r := bucket[i];
        if lastDone.Some? && r.epoch <= lastDone.value {
          continue;
        }
        file := file + [RecordOf(r, answers[i])];
        memory := memory.Bump(r.epoch, answers[i]);
        saved := memory;
        attempts := attempts + 1;
      }
    }
  }

  /** After an uninterrupted week the symbol is as durable as before and done with the bucket. */
  lemma {:induction false} FetchedKeeps(rs: seq<Round>, bucket: seq<Round>, s: Symbol, answers: seq<Status>, k: nat,
                                        crashes: nat, off: nat)
    requires ByEpoch(rs) && off + |bucket| <= |rs| && rs[off..off + |bucket|] == bucket
    requires k <= |bucket| == |answers| && s.worker.Looking? && s.worker.i == 0
    requires Good(rs, s, crashes, off, |bucket|)
    ensures Good(rs, Fetched(bucket, s, answers, k), crashes, off, |bucket|)
  {
    hide Good, ByEpoch, SymbolStep;
    if k > 0 {
      FetchedKeeps(rs, bucket, s, answers, k - 1, crashes, off);
      FetchedIsAt(bucket, s, answers, k - 1);
      var t := Fetched(bucket, s, answers, k - 1);
      SymbolStepKeeps(rs, bucket, t, Skip(0), crashes, off);
      SymbolStepKeeps(rs, bucket, t, Append(0, answers[k - 1]), crashes, off);
      var a := SymbolStep(bucket, t, Append(0, answers[k - 1]));
      SymbolStepKeeps(rs, bucket, a, Tally(0), crashes, off);
      SymbolStepKeeps(rs, bucket, SymbolStep(bucket, a, Tally(0)), Save(0), crashes, off);
    }
  }

  /** So its checkpoint covers the bucket, and its file holds the bucket's rounds in order. */
  lemma WeekIsFetched(rs: seq<Round>, bucket: seq<Round>, s: Symbol, answers: seq<Status>, crashes: nat, off: nat)
    requires ByEpoch(rs) && off + |bucket| <= |rs| && rs[off..off + |bucket|] == bucket
    requires |bucket| == |answers| && s.worker.Looking? && s.worker.i == 0
    requires Good(rs, s, crashes, off, |bucket|)
    ensures var t := Fetched(bucket, s, answers, |bucket|);
            && off + |bucket| <= t.saved.Total()
            && Matches(Kept(t.file), rs, |Kept(t.file)|)
            && off + |bucket| <= |Kept(t.file)|
  {
    hide Fetched, Legal, Reach, Closing, Tallies, Kept, ByEpoch, InMemory;
    FetchedKeeps(rs, bucket, s, answers, |bucket|, crashes, off);
    FetchedIsAt(bucket, s, answers, |bucket|);
    KeptIsPrefix(rs, Fetched(bucket, s, answers, |bucket|).file);
  }
}
