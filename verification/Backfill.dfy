/**
 * The crash-resumable backfill of research/backfill_okx_extended.py: one worker per symbol,
 * week by week, each worker appending a record and then replacing its checkpoint.  A run is
 * any interleaving of the workers' steps, with crashes at any point.
 */
module Backfill {
  import opened Basics
  import opened BackfillFile

  /** What a checkpoint file holds, and the dictionary loaded from it. */
  datatype Checkpoint = Checkpoint(last: Option<int>, okFull: nat, partial: nat, missing: nat, errors: nat) {
    function Total(): nat {
      okFull + partial + missing + errors
    }

    function Bump(epoch: int, status: Status): Checkpoint {
      match status
      case OkFull => this.(okFull := okFull + 1, last := Some(epoch))
      case OkPartial => this.(partial := partial + 1, last := Some(epoch))
      case Missing => this.(missing := missing + 1, last := Some(epoch))
      case Failed => this.(errors := errors + 1, last := Some(epoch))
    }
  }

  const NOTHING_DONE := Checkpoint(None, 0, 0, 0, 0)

  /**
   * Where a worker is within its bucket.  `lastDone` is read once, when the week starts.
   * Between `Looking` at rounds it has `Appended` a record and then `Tallied` it in memory.
   */
  datatype Worker =
    | Resting
    | Looking(lastDone: Option<int>, i: nat)
    | Appended(lastDone: Option<int>, i: nat, status: Status)
    | Tallied(lastDone: Option<int>, i: nat)

  datatype Symbol = Symbol(file: seq<Record>, saved: Checkpoint, memory: Checkpoint, worker: Worker)

  datatype World = World(symbols: seq<Symbol>, week: nat, inWeek: bool, crashes: nat)

  datatype Op =
    | NextWeek
    | Skip(s: nat)
    | Append(s: nat, status: Status)
    | Tally(s: nat)
    | Save(s: nat)
    | WeekDone
    | Crash
    | RunAgain

  // ---------------------------------------------------------------------- weeks

  function Flatten(weeks: seq<seq<Round>>): seq<Round> {
    if weeks == [] then [] else Flatten(weeks[..|weeks| - 1]) + weeks[|weeks| - 1]
  }

  /** Number of rounds in the first `w` weeks. */
  function Offset(weeks: seq<seq<Round>>, w: nat): nat
    requires w <= |weeks|
  {
    if w == 0 then 0 else Offset(weeks, w - 1) + |weeks[w - 1]|
  }

  lemma {:induction false} OffsetOfFront(weeks: seq<seq<Round>>, n: nat, w: nat)
    requires w <= n <= |weeks|
    ensures Offset(weeks[..n], w) == Offset(weeks, w)
  {
    if w > 0 {
      OffsetOfFront(weeks, n, w - 1);
    }
  }

  lemma {:induction false} OffsetOfAll(weeks: seq<seq<Round>>)
    ensures Offset(weeks, |weeks|) == |Flatten(weeks)|
  {
    if weeks != [] {
      var n := |weeks| - 1;
      OffsetOfAll(weeks[..n]);
      OffsetOfFront(weeks, n, n);
    }
  }

  lemma {:induction false} BucketAt(weeks: seq<seq<Round>>, w: nat)
    requires w < |weeks|
    ensures Offset(weeks, w) + |weeks[w]| <= |Flatten(weeks)|
    ensures Flatten(weeks)[Offset(weeks, w)..Offset(weeks, w) + |weeks[w]|] == weeks[w]
  {
    var n := |weeks| - 1;
    OffsetOfFront(weeks, n, n);
    OffsetOfAll(weeks[..n]);
    if w < n {
      BucketAt(weeks[..n], w);
      OffsetOfFront(weeks, n, w);
    }
  }

  // ----------------------------------------------------------------- transitions

  function Fresh(symbols: nat): World {
    World(seq(symbols, _ => Symbol([], NOTHING_DONE, NOTHING_DONE, Resting)), 0, false, 0)
  }

  predicate DoneWith(last: Option<int>, r: Round) {
    last.Some? && r.epoch <= last.value
  }

  /** The pre-check counts rounds past the checkpoint, reading no checkpoint as epoch zero. */
  predicate NothingPending(bucket: seq<Round>, s: Symbol) {
    var last := if s.memory.last.Some? then s.memory.last.value else 0;
    forall r :: r in bucket ==> r.epoch <= last
  }

  function Restarted(s: Symbol): Symbol {
    s.(memory := s.saved, worker := Resting)
  }

  function Started(s: Symbol): Symbol {
    s.(worker := Looking(s.memory.last, 0))
  }

  /** The steps of one worker; an operation the worker is not ready for changes nothing. */
  function SymbolStep(bucket: seq<Round>, s: Symbol, op: Op): Symbol {
    match (op, s.worker)
    case (Skip(_), Looking(last, i)) =>
      if i < |bucket| && DoneWith(last, bucket[i]) then s.(worker := Looking(last, i + 1)) else s
    case (Append(_, status), Looking(last, i)) =>
      if i < |bucket| && !DoneWith(last, bucket[i])
      then s.(file := s.file + [RecordOf(bucket[i], status)], worker := Appended(last, i, status))
      else s
    case (Tally(_), Appended(last, i, status)) =>
      if i < |bucket| then s.(memory := s.memory.Bump(bucket[i].epoch, status), worker := Tallied(last, i)) else s
    case (Save(_), Tallied(last, i)) =>
      s.(saved := s.memory, worker := Looking(last, i + 1))
    case _ => s
  }

  function Map(symbols: seq<Symbol>, f: Symbol -> Symbol): (r: seq<Symbol>)
    ensures |r| == |symbols|
    ensures forall k :: 0 <= k < |r| ==> r[k] == f(symbols[k])
  {
    seq(|symbols|, k requires 0 <= k < |symbols| => f(symbols[k]))
  }

  predicate Finished(bucket: seq<Round>, s: Symbol) {
    s.worker.Looking? && s.worker.i == |bucket|
  }

  function Step(weeks: seq<seq<Round>>, w: World, op: Op): World {
    match op
    case NextWeek =>
      if w.inWeek || w.week >= |weeks| then w
      else if forall s :: s in w.symbols ==> NothingPending(weeks[w.week], s) then w.(week := w.week + 1)
      else w.(inWeek := true, symbols := Map(w.symbols, Started))
    case WeekDone =>
      if w.inWeek && w.week < |weeks| && forall s :: s in w.symbols ==> Finished(weeks[w.week], s)
      then w.(inWeek := false, week := w.week + 1,
              symbols := Map(w.symbols, (s: Symbol) => s.(worker := Resting)))
      else w
    case Crash =>
      w.(symbols := Map(w.symbols, Restarted), week := 0, inWeek := false, crashes := w.crashes + 1)
    case RunAgain =>
      if w.inWeek || w.week < |weeks| then w
      else w.(symbols := Map(w.symbols, Restarted), week := 0)
    case Skip(s) => WorkerStep(weeks, w, s, op)
    case Append(s, _) => WorkerStep(weeks, w, s, op)
    case Tally(s) => WorkerStep(weeks, w, s, op)
    case Save(s) => WorkerStep(weeks, w, s, op)
  }

  function WorkerStep(weeks: seq<seq<Round>>, w: World, s: nat, op: Op): World {
    if w.inWeek && w.week < |weeks| && s < |w.symbols|
    then w.(symbols := w.symbols[s := SymbolStep(weeks[w.week], w.symbols[s], op)])
    else w
  }

  function Run(weeks: seq<seq<Round>>, w: World, ops: seq<Op>): World
    decreases |ops|
  {
    if ops == [] then w else Step(weeks, Run(weeks, w, ops[..|ops| - 1]), ops[|ops| - 1])
  }

  // ------------------------------------------------------------------- invariant

  /** The checkpoint stands for the first `Total()` rounds. */
  ghost predicate Marks(c: Checkpoint, rs: seq<Round>) {
    && c.Total() <= |rs|
    && c.last == if c.Total() == 0 then None else Some(rs[c.Total() - 1].epoch)
  }

  /** Its counters tally these records. */
  ghost predicate Tallies(c: Checkpoint, recs: seq<Record>) {
    && c.okFull == CountOf(recs, OkFull)
    && c.partial == CountOf(recs, OkPartial)
    && c.missing == CountOf(recs, Missing)
    && c.errors == CountOf(recs, Failed)
  }

  /** A record is on disk that the checkpoint does not know of yet. */
  predicate Pending(s: Symbol) {
    s.worker.Appended? || s.worker.Tallied?
  }

  /** The file is at most one round ahead of the checkpoint, and each repeat was paid for by a crash. */
  ghost predicate Durable(rs: seq<Round>, s: Symbol, crashes: nat) {
    var c, n := s.saved.Total(), Reach(rs, s.file);
    && Legal(rs, s.file)
    && Marks(s.saved, rs)
    && c <= n <= c + 1
    && (Pending(s) ==> n == c + 1)
    && |s.file| + (if n == c + 1 && !Pending(s) then 1 else 0) <= n + crashes
    && c <= |Closing(s.file)|
    && Tallies(s.saved, Closing(s.file)[..c])
  }

  /** Memory is the checkpoint, or the checkpoint about to be saved. */
  ghost predicate InMemory(rs: seq<Round>, s: Symbol) {
    var c := s.saved.Total();
    match s.worker
    case Appended(_, _, status) => s.memory == s.saved && s.file != [] && s.file[|s.file| - 1].status == status
    case Tallied(_, _) => c < |rs| && s.file != [] && s.memory == s.saved.Bump(rs[c].epoch, s.file[|s.file| - 1].status)
    case _ => s.memory == s.saved
  }

  /** A `lastDone` at or before round `c`. */
  ghost predicate Before(last: Option<int>, rs: seq<Round>, c: nat)
    requires c <= |rs|
  {
    last.Some? ==> 0 < c && last.value <= rs[c - 1].epoch
  }

  /** How far a worker has come through a bucket that starts at `off`. */
  ghost predicate Placed(rs: seq<Round>, s: Symbol, off: nat, length: nat)
    requires s.saved.Total() <= |rs|
  {
    var c := s.saved.Total();
    match s.worker
    case Resting => off <= c
    case Looking(last, i) =>
      i <= length && off + i <= c && if c > off + i then last == s.saved.last else Before(last, rs, c)
    case Appended(last, i, _) => i < length && off + i == c && Before(last, rs, c)
    case Tallied(last, i) => i < length && off + i == c && Before(last, rs, c)
  }

  ghost predicate Good(rs: seq<Round>, s: Symbol, crashes: nat, off: nat, length: nat) {
    Durable(rs, s, crashes) && InMemory(rs, s) && Placed(rs, s, off, length)
  }

  function Length(weeks: seq<seq<Round>>, w: nat): nat {
    if w < |weeks| then |weeks[w]| else 0
  }

  ghost predicate Inv(weeks: seq<seq<Round>>, w: World) {
    && w.week <= |weeks|
    && (w.inWeek ==> w.week < |weeks|)
    && forall s :: s in w.symbols ==>
         && Good(Flatten(weeks), s, w.crashes, Offset(weeks, w.week), Length(weeks, w.week))
         && (s.worker.Resting? <==> !w.inWeek)
  }

  // ----------------------------------------------------------- one worker's step

  lemma SkipKeeps(rs: seq<Round>, bucket: seq<Round>, s: Symbol, op: Op, crashes: nat, off: nat)
    requires ByEpoch(rs) && off + |bucket| <= |rs| && rs[off..off + |bucket|] == bucket
    requires Good(rs, s, crashes, off, |bucket|) && op.Skip?
    ensures Good(rs, SymbolStep(bucket, s, op), crashes, off, |bucket|)
  {
    hide Legal, Reach, Closing, Tallies;
    var t := SymbolStep(bucket, s, op);
    if t != s {
      SkipPlaced(rs, bucket, s, off);
    }
  }

  lemma SkipPlaced(rs: seq<Round>, bucket: seq<Round>, s: Symbol, off: nat)
    requires ByEpoch(rs) && off + |bucket| <= |rs| && rs[off..off + |bucket|] == bucket
    requires Marks(s.saved, rs) && Placed(rs, s, off, |bucket|)
    requires s.worker.Looking? && s.worker.i < |bucket| && DoneWith(s.worker.lastDone, bucket[s.worker.i])
    ensures Placed(rs, s.(worker := Looking(s.worker.lastDone, s.worker.i + 1)), off, |bucket|)
  {
    var c, i := s.saved.Total(), s.worker.i;
    assert bucket[i] == rs[off + i];
  }

  lemma AppendKeeps(rs: seq<Round>, bucket: seq<Round>, s: Symbol, op: Op, crashes: nat, off: nat)
    requires ByEpoch(rs) && off + |bucket| <= |rs| && rs[off..off + |bucket|] == bucket
    requires Good(rs, s, crashes, off, |bucket|) && op.Append?
    ensures Good(rs, SymbolStep(bucket, s, op), crashes, off, |bucket|)
  {
    hide Legal, Reach, Closing, Tallies, Durable, Marks, ByEpoch;
    var t := SymbolStep(bucket, s, op);
    if t != s {
      var i := s.worker.i;
      assert bucket[i] == rs[off + i];
      DurableMarks(rs, s, crashes);
      AppendPlaced(rs, s, off, |bucket|, bucket[i]);
      AppendDurable(rs, s, crashes, t.worker, op.status);
    }
  }

  lemma DurableMarks(rs: seq<Round>, s: Symbol, crashes: nat)
    requires Durable(rs, s, crashes)
    ensures Marks(s.saved, rs) && s.saved.Total() <= |rs|
  {
  }

  lemma EpochsRise(rs: seq<Round>, i: nat, j: nat)
    requires ByEpoch(rs) && i <= j < |rs|
    ensures rs[i].epoch <= rs[j].epoch && (i < j ==> rs[i].epoch < rs[j].epoch)
  {
  }

  /** A worker that finds a round not done is at the checkpoint. */
  lemma AppendPlaced(rs: seq<Round>, s: Symbol, off: nat, length: nat, r: Round)
    requires ByEpoch(rs) && off + length <= |rs|
    requires Marks(s.saved, rs) && Placed(rs, s, off, length) && s.worker.Looking? && s.worker.i < length
    requires r == rs[off + s.worker.i] && !DoneWith(s.worker.lastDone, r)
    ensures off + s.worker.i == s.saved.Total() && Before(s.worker.lastDone, rs, s.saved.Total())
  {
    var c, g := s.saved.Total(), off + s.worker.i;
    if c > g {
      EpochsRise(rs, g, c - 1);
    }
  }

  lemma AppendDurable(rs: seq<Round>, s: Symbol, crashes: nat, worker: Worker, status: Status)
    requires ByEpoch(rs) && Durable(rs, s, crashes) && !Pending(s) && s.saved.Total() < |rs| && worker.Appended?
    ensures Durable(rs, s.(file := s.file + [RecordOf(rs[s.saved.Total()], status)], worker := worker), crashes)
  {
    hide Legal, Reach, Closing, Tallies, Marks, ByEpoch;
    var c, n := s.saved.Total(), Reach(rs, s.file);
    var x := RecordOf(rs[c], status);
    if n == c {
      ReachNext(rs, s.file, status);
    } else {
      ReachAgain(rs, s.file, status);
    }
    ClosingKeepsFront(rs, s.file, x, c);
    assert (Closing(s.file)[..c] + [x])[..c] == Closing(s.file)[..c];
  }

  lemma TallyKeeps(rs: seq<Round>, bucket: seq<Round>, s: Symbol, op: Op, crashes: nat, off: nat)
    requires ByEpoch(rs) && off + |bucket| <= |rs| && rs[off..off + |bucket|] == bucket
    requires Good(rs, s, crashes, off, |bucket|) && op.Tally?
    ensures Good(rs, SymbolStep(bucket, s, op), crashes, off, |bucket|)
  {
    hide Legal, Reach, Closing, Tallies, Marks, ByEpoch;
    if s.worker.Appended? {
      assert bucket[s.worker.i] == rs[off + s.worker.i];
    }
  }

  lemma SaveKeeps(rs: seq<Round>, bucket: seq<Round>, s: Symbol, op: Op, crashes: nat, off: nat)
    requires ByEpoch(rs) && off + |bucket| <= |rs| && rs[off..off + |bucket|] == bucket
    requires Good(rs, s, crashes, off, |bucket|) && op.Save?
    ensures Good(rs, SymbolStep(bucket, s, op), crashes, off, |bucket|)
  {
    hide Legal, Reach, Closing, Tallies, Durable, Marks, ByEpoch;
    if s.worker.Tallied? {
      var t := SymbolStep(bucket, s, op);
      DurableMarks(rs, s, crashes);
      SaveTotal(s.saved, rs[s.saved.Total()].epoch, s.file[|s.file| - 1].status);
      SaveBefore(rs, s.worker.lastDone, s.saved.Total());
      SaveDurable(rs, s, crashes, t.worker);
    }
  }

  lemma SaveTotal(c: Checkpoint, epoch: int, status: Status)
    ensures c.Bump(epoch, status).Total() == c.Total() + 1
    ensures c.Bump(epoch, status).last == Some(epoch)
  {
  }

  lemma SaveBefore(rs: seq<Round>, last: Option<int>, c: nat)
    requires ByEpoch(rs) && c < |rs| && Before(last, rs, c)
    ensures Before(last, rs, c + 1)
  {
    assert 0 < c ==> rs[c - 1].epoch < rs[c].epoch;
  }

  lemma SaveDurable(rs: seq<Round>, s: Symbol, crashes: nat, worker: Worker)
    requires ByEpoch(rs) && Durable(rs, s, crashes) && s.worker.Tallied? && InMemory(rs, s) && worker.Looking?
    ensures Durable(rs, s.(saved := s.memory, worker := worker), crashes)
  {
    hide Legal, Reach, Tallies, ByEpoch, Closing, Checkpoint.Bump, Checkpoint.Total;
    var c := s.saved.Total();
    ClosingIsPrefix(rs, s.file);
    ClosingEnds(s.file);
    SaveTotal(s.saved, rs[c].epoch, s.file[|s.file| - 1].status);
    SaveTallies(s.saved, Closing(s.file)[..c], Closing(s.file)[c], rs[c].epoch);
    assert Closing(s.file)[..c] + [Closing(s.file)[c]] == Closing(s.file)[..c + 1];
  }

  lemma ClosingEnds(f: seq<Record>)
    requires f != []
    ensures Closing(f) != [] && Closing(f)[|Closing(f)| - 1] == f[|f| - 1]
  {
    hide Closing;
  }

  lemma SaveTallies(c: Checkpoint, recs: seq<Record>, x: Record, epoch: int)
    requires Tallies(c, recs)
    ensures Tallies(c.Bump(epoch, x.status), recs + [x])
  {
    hide CountOf;
    CountSnoc(recs, x, OkFull);
    CountSnoc(recs, x, OkPartial);
    CountSnoc(recs, x, Missing);
    CountSnoc(recs, x, Failed);
  }

  lemma SymbolStepKeeps(rs: seq<Round>, bucket: seq<Round>, s: Symbol, op: Op, crashes: nat, off: nat)
    requires ByEpoch(rs) && off + |bucket| <= |rs| && rs[off..off + |bucket|] == bucket
    requires Good(rs, s, crashes, off, |bucket|) && !s.worker.Resting?
    ensures Good(rs, SymbolStep(bucket, s, op), crashes, off, |bucket|)
    ensures !SymbolStep(bucket, s, op).worker.Resting?
  {
    hide Good, ByEpoch;
    match op
    case Skip(_) => SkipKeeps(rs, bucket, s, op, crashes, off);
    case Append(_, _) => AppendKeeps(rs, bucket, s, op, crashes, off);
    case Tally(_) => TallyKeeps(rs, bucket, s, op, crashes, off);
    case Save(_) => SaveKeeps(rs, bucket, s, op, crashes, off);
    case _ =>
  }

  // -------------------------------------------------- steps of the whole process

  /** A crash loses memory only: what the checkpoint does not cover will be appended again. */
  lemma CrashKeeps(rs: seq<Round>, s: Symbol, crashes: nat, off: nat, length: nat, length': nat)
    requires Good(rs, s, crashes, off, length)
    ensures Good(rs, Restarted(s), crashes + 1, 0, length')
  {
    hide Legal, Reach, Closing, Tallies;
  }

  /** A second run starts from the checkpoints a finished one left. */
  lemma AgainKeeps(rs: seq<Round>, s: Symbol, crashes: nat, off: nat, length: nat, length': nat)
    requires Good(rs, s, crashes, off, length) && s.worker.Resting?
    ensures Good(rs, Restarted(s), crashes, 0, length')
  {
    hide Legal, Reach, Closing, Tallies;
  }

  lemma StartKeeps(rs: seq<Round>, s: Symbol, crashes: nat, off: nat, length: nat)
    requires Good(rs, s, crashes, off, length) && s.worker.Resting?
    ensures Good(rs, Started(s), crashes, off, length)
  {
    hide Legal, Reach, Closing, Tallies;
  }

  lemma NothingPendingKeeps(rs: seq<Round>, bucket: seq<Round>, s: Symbol, crashes: nat, off: nat, length': nat)
    requires ByEpoch(rs) && off + |bucket| <= |rs| && rs[off..off + |bucket|] == bucket
    requires Good(rs, s, crashes, off, |bucket|) && s.worker.Resting? && NothingPending(bucket, s)
    ensures Good(rs, s, crashes, off + |bucket|, length')
  {
    hide Legal, Reach, Closing, Tallies, Durable;
    DurableMarks(rs, s, crashes);
    var c := s.saved.Total();
    if bucket != [] {
      var k := off + |bucket| - 1;
      assert rs[k] == bucket[|bucket| - 1];
      assert bucket[|bucket| - 1] in bucket;
      assert 0 < rs[k].epoch;
    }
  }

  lemma FinishedKeeps(rs: seq<Round>, bucket: seq<Round>, s: Symbol, crashes: nat, off: nat, length': nat)
    requires Good(rs, s, crashes, off, |bucket|) && Finished(bucket, s)
    ensures Good(rs, s.(worker := Resting), crashes, off + |bucket|, length')
  {
    hide Legal, Reach, Closing, Tallies;
  }

  lemma WorkerStepKeeps(weeks: seq<seq<Round>>, w: World, s: nat, op: Op)
    requires ByEpoch(Flatten(weeks)) && Inv(weeks, w)
    ensures Inv(weeks, WorkerStep(weeks, w, s, op))
  {
    hide Flatten, Offset, Good, ByEpoch, SymbolStep;
    if w.inWeek && s < |w.symbols| {
      BucketAt(weeks, w.week);
      assert w.symbols[s] in w.symbols;
      SymbolStepKeeps(Flatten(weeks), weeks[w.week], w.symbols[s], op, w.crashes, Offset(weeks, w.week));
      ReplacedKeeps(weeks, w, s, SymbolStep(weeks[w.week], w.symbols[s], op));
    }
  }

  lemma ReplacedKeeps(weeks: seq<seq<Round>>, w: World, s: nat, t: Symbol)
    requires Inv(weeks, w) && s < |w.symbols|
    requires Good(Flatten(weeks), t, w.crashes, Offset(weeks, w.week), Length(weeks, w.week))
    requires t.worker.Resting? <==> !w.inWeek
    ensures Inv(weeks, w.(symbols := w.symbols[s := t]))
  {
    hide Flatten, Offset, Good, ByEpoch, SymbolStep;
    var symbols := w.symbols[s := t];
    forall x | x in symbols
      ensures Good(Flatten(weeks), x, w.crashes, Offset(weeks, w.week), Length(weeks, w.week))
      ensures x.worker.Resting? <==> !w.inWeek
    {
      if x != t {
        assert x in w.symbols;
      }
    }
  }

  lemma OffsetNext(weeks: seq<seq<Round>>, w: nat)
    requires w < |weeks|
    ensures Offset(weeks, w + 1) == Offset(weeks, w) + |weeks[w]|
  {
  }

  lemma SkipWeekKeeps(weeks: seq<seq<Round>>, w: World)
    requires ByEpoch(Flatten(weeks)) && Inv(weeks, w) && !w.inWeek && w.week < |weeks|
    requires forall s :: s in w.symbols ==> NothingPending(weeks[w.week], s)
    ensures Inv(weeks, w.(week := w.week + 1))
  {
    hide Flatten, Offset, Good, ByEpoch, NothingPending;
    var bucket, off := weeks[w.week], Offset(weeks, w.week);
    var v := w.(week := w.week + 1);
    BucketAt(weeks, w.week);
    OffsetNext(weeks, w.week);
    forall s | s in v.symbols
      ensures Good(Flatten(weeks), s, v.crashes, Offset(weeks, v.week), Length(weeks, v.week))
    {
      NothingPendingKeeps(Flatten(weeks), bucket, s, w.crashes, off, Length(weeks, v.week));
    }
  }

  lemma StartWeekKeeps(weeks: seq<seq<Round>>, w: World)
    requires Inv(weeks, w) && !w.inWeek && w.week < |weeks|
    ensures Inv(weeks, w.(inWeek := true, symbols := Map(w.symbols, Started)))
  {
    hide Flatten, Offset, Good, Started;
    var symbols := Map(w.symbols, Started);
    forall s | s in symbols
      ensures Good(Flatten(weeks), s, w.crashes, Offset(weeks, w.week), Length(weeks, w.week))
      ensures !s.worker.Resting?
    {
      var k :| 0 <= k < |symbols| && symbols[k] == s;
      assert w.symbols[k] in w.symbols;
      StartedLooks(w.symbols[k]);
      StartKeeps(Flatten(weeks), w.symbols[k], w.crashes, Offset(weeks, w.week), Length(weeks, w.week));
    }
  }

  lemma StartedLooks(s: Symbol)
    ensures !Started(s).worker.Resting?
  {
  }

  lemma NextWeekKeeps(weeks: seq<seq<Round>>, w: World)
    requires ByEpoch(Flatten(weeks)) && Inv(weeks, w) && !w.inWeek && w.week < |weeks|
    ensures Inv(weeks, Step(weeks, w, NextWeek))
  {
    hide Flatten, Good, ByEpoch, NothingPending, Started, Inv, Map;
    if forall s :: s in w.symbols ==> NothingPending(weeks[w.week], s) {
      SkipWeekKeeps(weeks, w);
    } else {
      StartWeekKeeps(weeks, w);
    }
  }

  lemma WeekDoneKeeps(weeks: seq<seq<Round>>, w: World)
    requires Inv(weeks, w) && w.inWeek && forall s :: s in w.symbols ==> Finished(weeks[w.week], s)
    ensures Inv(weeks, Step(weeks, w, WeekDone))
  {
    hide Flatten, Offset, Good, Finished;
    OffsetNext(weeks, w.week);
    var rs, bucket, off := Flatten(weeks), weeks[w.week], Offset(weeks, w.week);
    var v := Step(weeks, w, WeekDone);
    forall s | s in v.symbols
      ensures Good(rs, s, v.crashes, Offset(weeks, v.week), Length(weeks, v.week)) && s.worker.Resting?
    {
      var k :| 0 <= k < |v.symbols| && v.symbols[k] == s;
      assert w.symbols[k] in w.symbols;
      FinishedKeeps(rs, bucket, w.symbols[k], w.crashes, off, Length(weeks, v.week));
    }
  }

  lemma RestartKeeps(weeks: seq<seq<Round>>, w: World, op: Op)
    requires Inv(weeks, w) && (op == Crash || (op == RunAgain && !w.inWeek && w.week == |weeks|))
    ensures Inv(weeks, Step(weeks, w, op))
  {
    hide Flatten, Good, Restarted;
    var rs, off := Flatten(weeks), Offset(weeks, w.week);
    var v := Step(weeks, w, op);
    forall s | s in v.symbols ensures Good(rs, s, v.crashes, 0, Length(weeks, 0)) && s.worker.Resting? {
      var k :| 0 <= k < |v.symbols| && v.symbols[k] == s;
      assert w.symbols[k] in w.symbols;
      RestartedRests(w.symbols[k]);
      if op == Crash {
        CrashKeeps(rs, w.symbols[k], w.crashes, off, Length(weeks, w.week), Length(weeks, 0));
      } else {
        AgainKeeps(rs, w.symbols[k], w.crashes, off, Length(weeks, w.week), Length(weeks, 0));
      }
    }
  }

  lemma RestartedRests(s: Symbol)
    ensures Restarted(s).worker.Resting?
  {
  }

  lemma StepKeeps(weeks: seq<seq<Round>>, w: World, op: Op)
    requires ByEpoch(Flatten(weeks)) && Inv(weeks, w)
    ensures Inv(weeks, Step(weeks, w, op))
  {
    hide Flatten, Offset, Good, ByEpoch, Inv, NothingPending, Finished, WorkerStep;
    InvWeek(weeks, w);
    match op
    case NextWeek =>
      if !w.inWeek && w.week < |weeks| {
        NextWeekKeeps(weeks, w);
      }
    case WeekDone =>
      if w.inWeek && forall s :: s in w.symbols ==> Finished(weeks[w.week], s) {
        WeekDoneKeeps(weeks, w);
      }
    case Crash => RestartKeeps(weeks, w, op);
    case RunAgain =>
      if !w.inWeek && w.week == |weeks| {
        RestartKeeps(weeks, w, op);
      }
    case Skip(s) => WorkerStepKeeps(weeks, w, s, op);
    case Append(s, _) => WorkerStepKeeps(weeks, w, s, op);
    case Tally(s) => WorkerStepKeeps(weeks, w, s, op);
    case Save(s) => WorkerStepKeeps(weeks, w, s, op);
  }

  lemma InvWeek(weeks: seq<seq<Round>>, w: World)
    requires Inv(weeks, w)
    ensures w.week <= |weeks| && (w.inWeek ==> w.week < |weeks|)
  {
  }

  lemma NoRecords(rs: seq<Round>, f: seq<Record>)
    requires |f| == 0
    ensures Legal(rs, f) && Reach(rs, f) == 0 && |Closing(f)| == 0
  {
  }

  lemma NoCount(f: seq<Record>, status: Status)
    requires |f| == 0
    ensures CountOf(f, status) == 0
  {
  }

  lemma NoTallies(c: Checkpoint, f: seq<Record>)
    requires |f| == 0 && c.Total() == 0
    ensures Tallies(c, f)
  {
    hide CountOf;
    NoCount(f, OkFull);
    NoCount(f, OkPartial);
    NoCount(f, Missing);
    NoCount(f, Failed);
  }

  lemma NothingMarked(rs: seq<Round>, c: Checkpoint)
    requires c.Total() == 0 && c.last == None
    ensures Marks(c, rs)
  {
    hide Checkpoint.Total;
  }

  /** A symbol that has done nothing, before any crash and at the start of the rounds. */
  lemma NewSymbolIsGood(rs: seq<Round>, s: Symbol, crashes: nat, off: nat, length: nat)
    requires |s.file| == 0 && s.memory == s.saved && s.worker.Resting? && off == 0
    requires s.saved.Total() == 0 && s.saved.last == None
    ensures Good(rs, s, crashes, off, length)
  {
    hide Legal, Reach, Closing, Tallies, Marks, Checkpoint.Total;
    NoRecords(rs, s.file);
    NothingMarked(rs, s.saved);
    NoTallies(s.saved, Closing(s.file)[..s.saved.Total()]);
  }

  lemma FreshIsGood(weeks: seq<seq<Round>>, symbols: nat)
    ensures Inv(weeks, Fresh(symbols))
  {
    hide Flatten, Good;
    var w := Fresh(symbols);
    forall s | s in w.symbols
      ensures Good(Flatten(weeks), s, w.crashes, Offset(weeks, w.week), Length(weeks, w.week))
      ensures s.worker.Resting?
    {
      NewSymbolIsGood(Flatten(weeks), s, w.crashes, Offset(weeks, w.week), Length(weeks, w.week));
    }
  }

  lemma {:induction false} RunKeeps(weeks: seq<seq<Round>>, w: World, ops: seq<Op>)
    requires ByEpoch(Flatten(weeks)) && Inv(weeks, w)
    ensures Inv(weeks, Run(weeks, w, ops))
    decreases |ops|
  {
    hide Inv, Step, Flatten, ByEpoch;
    if ops != [] {
      RunKeeps(weeks, w, ops[..|ops| - 1]);
      StepKeeps(weeks, Run(weeks, w, ops[..|ops| - 1]), ops[|ops| - 1]);
    }
  }

  // -------------------------------------------------------------------- theorems

  /** A world some run leads to from empty files and no checkpoints. */
  ghost predicate Reachable(weeks: seq<seq<Round>>, w: World) {
    exists symbols: nat, ops :: Run(weeks, Fresh(symbols), ops) == w
  }

  lemma ReachableIsGood(weeks: seq<seq<Round>>, w: World)
    requires ByEpoch(Flatten(weeks)) && Reachable(weeks, w)
    ensures Inv(weeks, w)
  {
    hide Inv, Flatten, ByEpoch, Run;
    var symbols: nat, ops :| Run(weeks, Fresh(symbols), ops) == w;
    FreshIsGood(weeks, symbols);
    RunKeeps(weeks, Fresh(symbols), ops);
  }

  /**
   * Whatever the interleaving and the crashes: each file, read first-record-wins, is a prefix of
   * the rounds, at most one round past its checkpoint, and holds one repeat per crash at most.
   * The checkpoint names the round its counters add up to.
   */
  lemma FilesAreDurable(weeks: seq<seq<Round>>, w: World, k: nat)
    requires ByEpoch(Flatten(weeks)) && Reachable(weeks, w) && k < |w.symbols|
    ensures var rs, s := Flatten(weeks), w.symbols[k];
            var c, n := s.saved.Total(), |Kept(s.file)|;
            && Matches(Kept(s.file), rs, n)
            && c <= n <= c + 1
            && |s.file| <= n + w.crashes
            && s.saved.last == (if c == 0 then None else Some(rs[c - 1].epoch))
            && forall j :: 0 <= j < n ==> Kept(s.file)[j].epoch == rs[j].epoch && Kept(s.file)[j].lockAt == rs[j].startAt + 300
  {
    hide Flatten, ByEpoch, Legal, Reach, Closing, Tallies, Kept, InMemory, Placed;
    ReachableIsGood(weeks, w);
    assert w.symbols[k] in w.symbols;
    KeptIsPrefix(Flatten(weeks), w.symbols[k].file);
  }

  /** The saved counters tally the last record of each checkpointed round, not the one readers keep. */
  lemma CountersTallyLastRecords(weeks: seq<seq<Round>>, w: World, k: nat)
    requires ByEpoch(Flatten(weeks)) && Reachable(weeks, w) && k < |w.symbols|
    ensures var s := w.symbols[k];
            var c := s.saved.Total();
            && c <= |Closing(s.file)| && Tallies(s.saved, Closing(s.file)[..c])
            && Matches(Closing(s.file), Flatten(weeks), |Kept(s.file)|)
  {
    hide Flatten, ByEpoch, Legal, Reach, Closing, Tallies, Kept, InMemory, Placed;
    ReachableIsGood(weeks, w);
    assert w.symbols[k] in w.symbols;
    KeptIsPrefix(Flatten(weeks), w.symbols[k].file);
    ClosingIsPrefix(Flatten(weeks), w.symbols[k].file);
  }

  /**
   * So in every reachable world the counters tally the very records that readers keep exactly
   * when each checkpointed round was last reported as first; and they show the same numbers
   * exactly when, status by status, as many rounds were reported away from it as towards it.
   */
  lemma CountersTallyKeptExactlyWhen(weeks: seq<seq<Round>>, w: World, k: nat)
    requires ByEpoch(Flatten(weeks)) && Reachable(weeks, w) && k < |w.symbols|
    ensures var rs, s := Flatten(weeks), w.symbols[k];
            var c := s.saved.Total();
            && c <= |Kept(s.file)| && c <= |Closing(s.file)| && c <= |rs|
            && (Kept(s.file)[..c] == Closing(s.file)[..c] <==> AnsweredAlike(rs, s.file, c))
            && (Tallies(s.saved, Kept(s.file)[..c]) <==> Balanced(Kept(s.file)[..c], Closing(s.file)[..c]))
            && (AnsweredAlike(rs, s.file, c) ==> Tallies(s.saved, Kept(s.file)[..c]))
  {
    hide Flatten, ByEpoch, Legal, Reach, Closing, Kept, InMemory, Placed, AnsweredAlike, Balanced, Tallies;
    ReachableIsGood(weeks, w);
    var rs, s := Flatten(weeks), w.symbols[k];
    assert s in w.symbols;
    SameReadingsExactlyWhen(rs, s.file, s.saved.Total());
    TalliesEither(s.saved, Kept(s.file)[..s.saved.Total()], Closing(s.file)[..s.saved.Total()]);
  }

  lemma TalliesEither(c: Checkpoint, a: seq<Record>, b: seq<Record>)
    requires |a| == |b| && Tallies(c, b)
    ensures Tallies(c, a) <==> Balanced(a, b)
  {
    hide CountOf, Balanced, Changed;
    BalancedIs(a, b);
    CountsShift(a, b, OkFull);
    CountsShift(a, b, OkPartial);
    CountsShift(a, b, Missing);
    CountsShift(a, b, Failed);
  }

  /** In a run without a crash they are the same records, so the counters tally what readers keep. */
  lemma WithoutCrashesCountersTallyKept(weeks: seq<seq<Round>>, w: World, k: nat)
    requires ByEpoch(Flatten(weeks)) && Reachable(weeks, w) && k < |w.symbols| && w.crashes == 0
    ensures var s := w.symbols[k];
            var c := s.saved.Total();
            && Kept(s.file) == s.file && c <= |s.file| && Tallies(s.saved, s.file[..c])
  {
    hide Flatten, ByEpoch, Legal, Reach, Closing, Tallies, Kept, InMemory, Placed;
    ReachableIsGood(weeks, w);
    assert w.symbols[k] in w.symbols;
    NoRepeats(Flatten(weeks), w.symbols[k].file);
  }

  /** When the last week is over, every symbol has every round, all of them checkpointed. */
  lemma FinishedIsComplete(weeks: seq<seq<Round>>, w: World, k: nat)
    requires ByEpoch(Flatten(weeks)) && Reachable(weeks, w) && k < |w.symbols|
    requires w.week == |weeks|
    ensures var rs, s := Flatten(weeks), w.symbols[k];
            && Matches(Kept(s.file), rs, |rs|)
            && s.saved.Total() == |rs|
  {
    hide Flatten, ByEpoch, Legal, Reach, Closing, Tallies, Kept, InMemory, Offset;
    ReachableIsGood(weeks, w);
    assert w.symbols[k] in w.symbols;
    OffsetOfAll(weeks);
    KeptIsPrefix(Flatten(weeks), w.symbols[k].file);
    ReachBound(Flatten(weeks), w.symbols[k].file);
  }

  lemma ReachBound(rs: seq<Round>, f: seq<Record>)
    ensures Reach(rs, f) <= |rs|
  {
  }

  /** A week is passed by without its workers exactly when every symbol's checkpoint has come to its end. */
  lemma WeekPassedExactlyWhen(weeks: seq<seq<Round>>, w: World)
    requires ByEpoch(Flatten(weeks)) && Reachable(weeks, w) && !w.inWeek && w.week < |weeks|
    ensures var next := Step(weeks, w, NextWeek);
            && (next == w.(week := w.week + 1) <==>
                  forall k :: 0 <= k < |w.symbols| ==> Offset(weeks, w.week + 1) <= w.symbols[k].saved.Total())
            && (next != w.(week := w.week + 1) ==> next.inWeek && next.week == w.week)
  {
    hide Flatten, Offset, Good, ByEpoch, NothingPending, Started, Reachable, Inv, Checkpoint.Total;
    ReachableIsGood(weeks, w);
    forall k | 0 <= k < |w.symbols|
      ensures NothingPending(weeks[w.week], w.symbols[k]) <==> Offset(weeks, w.week + 1) <= w.symbols[k].saved.Total()
    {
      WeekCovered(weeks, w, k);
    }
    assert forall s :: s in w.symbols ==> exists k :: 0 <= k < |w.symbols| && w.symbols[k] == s;
    assert forall k :: 0 <= k < |w.symbols| ==> w.symbols[k] in w.symbols;
  }

  lemma WeekCovered(weeks: seq<seq<Round>>, w: World, k: nat)
    requires ByEpoch(Flatten(weeks)) && Inv(weeks, w) && !w.inWeek && w.week < |weeks|
    requires k < |w.symbols|
    ensures NothingPending(weeks[w.week], w.symbols[k]) <==> Offset(weeks, w.week + 1) <= w.symbols[k].saved.Total()
  {
    hide Flatten, Offset, Good, ByEpoch, NothingPending, Checkpoint.Total;
    assert w.symbols[k] in w.symbols;
    BucketAt(weeks, w.week);
    OffsetNext(weeks, w.week);
    PendingIs(Flatten(weeks), weeks[w.week], w.symbols[k], w.crashes, Offset(weeks, w.week));
  }

  lemma PendingIs(rs: seq<Round>, bucket: seq<Round>, s: Symbol, crashes: nat, off: nat)
    requires ByEpoch(rs) && off + |bucket| <= |rs| && rs[off..off + |bucket|] == bucket
    requires Good(rs, s, crashes, off, |bucket|) && s.worker.Resting?
    ensures NothingPending(bucket, s) <==> off + |bucket| <= s.saved.Total()
  {
    hide Legal, Reach, Closing, Tallies, Durable, ByEpoch;
    DurableMarks(rs, s, crashes);
    var c := s.saved.Total();
    if off + |bucket| <= c {
      forall r | r in bucket ensures r.epoch <= rs[c - 1].epoch {
        var i :| 0 <= i < |bucket| && bucket[i] == r;
        assert rs[off + i] == r;
        EpochsRise(rs, off + i, c - 1);
      }
    } else if NothingPending(bucket, s) {
      NothingPendingCovers(rs, bucket, s, crashes, off);
    }
  }

  lemma NothingPendingCovers(rs: seq<Round>, bucket: seq<Round>, s: Symbol, crashes: nat, off: nat)
    requires ByEpoch(rs) && off + |bucket| <= |rs| && rs[off..off + |bucket|] == bucket
    requires Good(rs, s, crashes, off, |bucket|) && s.worker.Resting? && NothingPending(bucket, s)
    ensures off + |bucket| <= s.saved.Total()
  {
    hide Good, NothingPending, ByEpoch;
    NothingPendingKeeps(rs, bucket, s, crashes, off, |bucket|);
    PlacedAfter(rs, s, crashes, off + |bucket|, |bucket|);
  }

  lemma PlacedAfter(rs: seq<Round>, s: Symbol, crashes: nat, off: nat, length: nat)
    requires Good(rs, s, crashes, off, length) && s.worker.Resting?
    ensures off <= s.saved.Total()
  {
    hide Legal, Reach, Closing, Tallies;
  }
}
