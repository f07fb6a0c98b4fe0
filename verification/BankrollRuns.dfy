/**
 * Runs of the persisted tracker: settlements, suspension releases (peak reseeds) and
 * restarts in any order.  A `World` is the tracker's memory, the history file, and two
 * records the program itself does not keep: every sample since the last reseed (`full`)
 * and every sample that entered the deque since then, with whether the file has it (`log`).
 */
module BankrollRuns {
  import opened Basics
  import opened BankrollHistory
  import opened BankrollSpec

  datatype Logged = Logged(entry: Entry, written: bool)

  datatype World = World(
    mem: Memory,
    disk: seq<Entry>,
    full: seq<Entry>,
    log: seq<Logged>,
    lossless: bool,  // every restart so far found all live samples in the file
    oneLife: bool    // no restart since the last reseed
  )

  datatype Op =
    | Settle(bankroll: real, startAt: int, openStake: real)
    | Release(startAt: int)
    | Restart

  function Entries(log: seq<Logged>): (s: seq<Entry>)
    ensures |s| == |log|
    ensures forall i :: 0 <= i < |log| ==> s[i] == log[i].entry
  {
    seq(|log|, i requires 0 <= i < |log| => log[i].entry)
  }

  function Written(log: seq<Logged>): seq<Entry> {
    if log == [] then [] else
      var n := |log| - 1;
      Written(log[..n]) + if log[n].written then [log[n].entry] else []
  }

  function AllWritten(s: seq<Entry>): (log: seq<Logged>)
    ensures |log| == |s|
    ensures forall i :: 0 <= i < |s| ==> log[i] == Logged(s[i], true)
  {
    seq(|s|, i requires 0 <= i < |s| => Logged(s[i], true))
  }

  /** Every sample now in the deque is in the history file. */
  predicate LiveWritten(w: World) {
    forall k :: 0 <= k < |w.log| && |w.log| - |w.mem.entries| <= k ==> w.log[k].written
  }

  // -------------------------------------------------------------------- transitions

  function Begin(cfg: Config): World {
    World(Start(cfg), [], [], [], true, true)
  }

  function StepSettle(cfg: Config, w: World, bankroll: real, startAt: int, openStake: real): World
    requires cfg.Valid() && w.mem.Valid()
  {
    var mem := Record(cfg, w.mem, bankroll, startAt, openStake);
    var persisted := Persisted(w.mem, mem);
    var init, e := InitEntry(cfg, startAt), Entry(startAt, bankroll, Settlement, openStake);
    var repeat := IsRepeat(cfg, w.mem, bankroll);
    var full := if w.mem.seeded then w.full else w.full + [init];
    var log := if w.mem.seeded then w.log else w.log + [Logged(init, persisted == [init])];
    World(
      mem,
      w.disk + persisted,
      full + [e],
      if repeat then log else log + [Logged(e, persisted == [e])],
      w.lossless,
      w.oneLife)
  }

  function StepRelease(cfg: Config, w: World, startAt: int): World
    requires w.mem.Valid()
  {
    var mem := Reseed(cfg, w.mem, startAt);
    World(mem, w.disk + mem.entries, mem.entries, AllWritten(mem.entries), true, true)
  }

  function StepRestart(cfg: Config, w: World): World
    requires cfg.Valid()
  {
    var kept := LiveWritten(w);
    World(
      Load(cfg, w.disk),
      w.disk,
      w.full,
      if kept then w.log else AllWritten(SinceBarrier(w.disk)),
      w.lossless && kept,
      w.oneLife && w.full == [])
  }

  function Step(cfg: Config, w: World, op: Op): (r: World)
    requires cfg.Valid() && w.mem.Valid()
    ensures r.mem.Valid()
  {
    match op
    case Settle(bankroll, startAt, openStake) => StepSettle(cfg, w, bankroll, startAt, openStake)
    case Release(startAt) => StepRelease(cfg, w, startAt)
    case Restart => StepRestart(cfg, w)
  }

  function Run(cfg: Config, ops: seq<Op>): (w: World)
    requires cfg.Valid()
    ensures w.mem.Valid()
  {
    if ops == [] then Begin(cfg)
    else Step(cfg, Run(cfg, ops[..|ops| - 1]), Last(ops))
  }

  function AddTime(times: seq<int>, op: Op): seq<int> {
    match op
    case Settle(_, startAt, _) => times + [startAt]
    case Release(startAt) => times + [startAt]
    case Restart => times
  }

  function TimesOf(ops: seq<Op>): seq<int> {
    if ops == [] then [] else AddTime(TimesOf(ops[..|ops| - 1]), Last(ops))
  }

  predicate NotBefore(times: seq<int>, op: Op) {
    times == [] || Last(times) <= Last(AddTime(times, op))
  }

  /** Rounds are settled and released in time order; equal times are allowed. */
  predicate Timely(ops: seq<Op>) {
    ops == [] || (Timely(ops[..|ops| - 1]) && NotBefore(TimesOf(ops[..|ops| - 1]), Last(ops)))
  }

  // ---------------------------------------------------------------------- invariant

  predicate Shape(w: World) {
    && w.mem.Valid()
    && (w.mem.seeded <==> w.full != [])
    && (w.full != [] <==> w.log != [])
  }

  ghost predicate Times(w: World) {
    && Ordered(w.full)
    && Ordered(Entries(w.log))
    && (w.log != [] && w.full != [] ==> Last(w.log).entry.startAt <= Last(w.full).startAt)
  }

  predicate Deque(cfg: Config, w: World) {
    w.mem.entries == Prune(Entries(w.log), cfg.Window())
  }

  predicate File(cfg: Config, w: World) {
    && SinceBarrier(w.disk) == Written(w.log)
    && (w.full != [] ==> w.full[0].bankroll == BaseOf(cfg, w.disk))
    && (w.full == [] ==> w.disk == [])
  }

  /** A lost sample is later than all before it; only the seed can be lost at the front. */
  predicate Gaps(log: seq<Logged>) {
    && (forall k :: 0 < k < |log| && !log[k].written ==> log[k - 1].entry.startAt < log[k].entry.startAt)
    && (log != [] && !log[0].written ==> |log| >= 2 && log[1].written)
  }

  predicate Whole(w: World) {
    && (w.lossless ==> Entries(w.log) == Dedup(w.full, DEDUP_TOLERANCE))
    && (w.oneLife ==> w.lossless)
  }

  function Values(s: seq<Entry>): (r: seq<real>)
    ensures |r| == |s|
    ensures forall i :: 0 <= i < |s| ==> r[i] == s[i].bankroll
  {
    seq(|s|, i requires 0 <= i < |s| => s[i].bankroll)
  }

  predicate Ratchet(cfg: Config, w: World) {
    w.oneLife ==> w.mem.absolutePeak == if w.full == [] then cfg.initial else MaxOf(Values(w.full))
  }

  /** Nothing recorded yet: no samples anywhere, and the ratchet at its start. */
  predicate Unused(cfg: Config, w: World) {
    && w.full == [] && w.mem.entries == [] && w.disk == []
    && (w.oneLife ==> w.lossless && w.mem.absolutePeak == cfg.initial)
  }

  ghost predicate Core(cfg: Config, w: World) {
    Shape(w) &&
    if w.log == [] then Unused(cfg, w)
    else Times(w) && Deque(cfg, w) && File(cfg, w) && Whole(w) && Ratchet(cfg, w)
  }

  ghost predicate Inv(cfg: Config, w: World) {
    Core(cfg, w) && Gaps(w.log)
  }

  // ------------------------------------------------------------ lemmas about the log

  lemma EntriesSnoc(log: seq<Logged>, l: Logged)
    ensures Entries(log + [l]) == Entries(log) + [l.entry]
    ensures Written(log + [l]) == Written(log) + if l.written then [l.entry] else []
  {
    assert (log + [l])[..|log|] == log;
  }

  lemma {:induction false} AllWrittenIsWritten(s: seq<Entry>)
    ensures Entries(AllWritten(s)) == s && Written(AllWritten(s)) == s
  {
    if s != [] {
      var n := |s| - 1;
      AllWrittenIsWritten(s[..n]);
      assert AllWritten(s)[..n] == AllWritten(s[..n]);
      assert s == s[..n] + [s[n]];
    }
  }

  lemma NoneWritten(log: seq<Logged>)
    requires |log| == 0
    ensures Written(log) == [] && Entries(log) == []
  {
    hide Entries;
  }

  lemma {:induction false} WrittenSplit(log: seq<Logged>, c: nat)
    requires c <= |log|
    ensures Written(log) == Written(log[..c]) + Written(log[c..])
  {
    hide Written, Entries;
    if c == |log| {
      assert log[..c] == log;
      NoneWritten(log[c..]);
    } else {
      var n := |log| - 1;
      var f := log[..n];
      WrittenSplit(f, c);
      assert log == f + [log[n]] && log[..c] == f[..c] && log[c..] == f[c..] + [log[n]];
      EntriesSnoc(f, log[n]);
      EntriesSnoc(f[c..], log[n]);
    }
  }

  /** The written samples are some of the logged ones, and all of them only if none is lost. */
  lemma {:induction false} WrittenLength(log: seq<Logged>)
    ensures |Written(log)| <= |log|
    ensures |Written(log)| == |log| <==> forall k :: 0 <= k < |log| ==> log[k].written
    ensures (forall k :: 0 <= k < |log| ==> log[k].written) ==> Written(log) == Entries(log)
  {
    hide Written, Entries;
    if log == [] {
      NoneWritten(log);
    } else {
      var n := |log| - 1;
      var f := log[..n];
      WrittenLength(f);
      assert log == f + [log[n]];
      EntriesSnoc(f, log[n]);
    }
  }

  lemma {:induction false} WrittenBounds(log: seq<Logged>, lo: int, hi: int)
    requires forall k :: 0 <= k < |log| ==> lo <= log[k].entry.startAt < hi
    ensures forall k :: 0 <= k < |Written(log)| ==> lo <= Written(log)[k].startAt < hi
  {
    if log != [] {
      WrittenBounds(log[..|log| - 1], lo, hi);
    }
  }

  lemma {:induction false} WrittenOrdered(log: seq<Logged>)
    requires Ordered(Entries(log))
    ensures Ordered(Written(log))
    ensures Written(log) != [] ==> log != [] && Last(Written(log)).startAt <= Last(log).entry.startAt
  {
    if log != [] {
      var n := |log| - 1;
      var f := log[..n];
      OrderedPart(Entries(log), 0, n);
      assert Entries(log)[0..n] == Entries(f);
      WrittenOrdered(f);
      OrderedAt(Entries(log), n - 1, n);
      if log[n].written && f != [] {
        assert Last(f) == log[n - 1];
        OrderedSnoc(Written(f), log[n].entry);
      }
    }
  }
}
