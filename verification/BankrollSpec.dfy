/**
 * The state transitions of the bankroll tracker as functions: what one call of
 * record_settlement, reset_peak_baseline or a reload does to the tracker's memory.
 * The classes in BankrollTracker.dfy are verified against these functions.
 */
module BankrollSpec {
  import opened Basics
  import opened BankrollHistory

  datatype Mode = Rolling7d | AbsoluteRatchet

  datatype Config = Config(initial: real, windowDays: int, mode: Mode) {
    predicate Valid() {
      initial > 0.0 && windowDays > 0
    }

    function Window(): int {
      windowDays * SECONDS_PER_DAY
    }
  }

  datatype Memory = Memory(entries: seq<Entry>, seeded: bool, absolutePeak: real) {
    predicate Valid() {
      seeded <==> entries != []
    }
  }

  function Start(cfg: Config): Memory {
    Memory([], false, cfg.initial)
  }

  function InitEntry(cfg: Config, startAt: int): Entry {
    Entry(startAt, cfg.initial, Init, 0.0)
  }

  function Current(cfg: Config, m: Memory): real
    requires m.Valid()
  {
    if m.seeded then Last(m.entries).bankroll else cfg.initial
  }

  /** The first settlement puts the initial bankroll in front of itself. */
  function Seed(cfg: Config, m: Memory, startAt: int): (s: seq<Entry>)
    requires m.Valid()
    ensures s != []
  {
    if m.seeded then m.entries else m.entries + [InitEntry(cfg, startAt)]
  }

  predicate IsRepeat(cfg: Config, m: Memory, bankroll: real)
    requires m.Valid()
  {
    Near(Current(cfg, m), bankroll, DEDUP_TOLERANCE)
  }

  function Record(cfg: Config, m: Memory, bankroll: real, startAt: int, openStake: real): (r: Memory)
    requires m.Valid() && cfg.Valid()
    ensures r.Valid() && r.seeded
  {
    var seeded := Seed(cfg, m, startAt);
    var peak := MaxReal(m.absolutePeak, bankroll);
    if IsRepeat(cfg, m, bankroll) then Memory(seeded, true, peak)
    else
      var grown := seeded + [Entry(startAt, bankroll, Settlement, openStake)];
      PruneNonempty(grown, cfg.Window());
      Memory(Prune(grown, cfg.Window()), true, peak)
  }

  lemma PruneNonempty(s: seq<Entry>, window: int)
    requires 0 <= window && s != []
    ensures Cut(s, window) < |s|
    ensures Last(Prune(s, window)) == Last(s)
  {
  }

  function Reseed(cfg: Config, m: Memory, startAt: int): (r: Memory)
    requires m.Valid()
    ensures r.Valid()
  {
    var current := Current(cfg, m);
    Memory([Entry(startAt, current, PeakReseed, 0.0)], true, current)
  }

  function Peak(cfg: Config, m: Memory, asOf: int): real
    requires m.Valid()
  {
    if cfg.mode == AbsoluteRatchet then m.absolutePeak
    else if m.entries == [] then cfg.initial
    else RollingPeak(m.entries, asOf - cfg.Window())
  }

  // --------------------------------------------------------------- the history file

  /** What record_settlement appends to the history file: one line if the deque grew. */
  function Persisted(before: Memory, after: Memory): seq<Entry> {
    if |after.entries| > |before.entries| then [Last(after.entries)] else []
  }

  /** The lines from the last peak_reseed on, or all of them. */
  function SinceBarrier(disk: seq<Entry>): seq<Entry> {
    if disk == [] then [] else
      var e := Last(disk);
      if e.event == PeakReseed then [e] else SinceBarrier(disk[..|disk| - 1]) + [e]
  }

  /** The ratchet that a reload starts from: the last peak_reseed's value, else the initial one. */
  function BaseOf(cfg: Config, disk: seq<Entry>): real {
    if disk == [] then cfg.initial else
      var e := Last(disk);
      if e.event == PeakReseed then e.bankroll else BaseOf(cfg, disk[..|disk| - 1])
  }

  function Load(cfg: Config, disk: seq<Entry>): (m: Memory)
    requires cfg.Valid()
    ensures m.Valid()
  {
    var kept := SinceBarrier(disk);
    assert kept != [] ==> Cut(kept, cfg.Window()) < |kept|;
    Memory(Prune(kept, cfg.Window()), kept != [], BaseOf(cfg, disk))
  }

  lemma SinceBarrierSnoc(cfg: Config, disk: seq<Entry>, e: Entry)
    ensures SinceBarrier(disk + [e]) == if e.event == PeakReseed then [e] else SinceBarrier(disk) + [e]
    ensures BaseOf(cfg, disk + [e]) == if e.event == PeakReseed then e.bankroll else BaseOf(cfg, disk)
  {
    assert (disk + [e])[..|disk|] == disk;
  }

  // ------------------------------------------------------------------ the write rule

  /**
   * A settlement is lost to the history file exactly when it is a new value and its own
   * append makes the second oldest sample leave the window, so that the deque does not grow.
   */
  predicate Loses(cfg: Config, m: Memory, bankroll: real, startAt: int)
    requires m.Valid()
  {
    && m.seeded
    && !IsRepeat(cfg, m, bankroll)
    && |m.entries| >= 2
    && m.entries[1].startAt < startAt - cfg.Window()
  }

  lemma CutPositive(s: seq<Entry>, window: int)
    requires Ordered(s) && 0 <= window && s != []
    ensures Cut(s, window) > 0 <==> |s| >= 2 && s[1].startAt < Last(s).startAt - window
  {
    CutShape(s, window);
    OrderedAt(s, 1, Cut(s, window));
  }

  lemma LostExactlyWhen(cfg: Config, m: Memory, bankroll: real, startAt: int, openStake: real)
    requires cfg.Valid() && m.Valid() && Ordered(m.entries)
    requires m.seeded ==> Last(m.entries).startAt <= startAt
    ensures var after := Record(cfg, m, bankroll, startAt, openStake);
            var e := Entry(startAt, bankroll, Settlement, openStake);
            Persisted(m, after) ==
            if !m.seeded && IsRepeat(cfg, m, bankroll) then [InitEntry(cfg, startAt)]
            else if IsRepeat(cfg, m, bankroll) || Loses(cfg, m, bankroll, startAt) then []
            else [e]
  {
    var e := Entry(startAt, bankroll, Settlement, openStake);
    var grown := Seed(cfg, m, startAt) + [e];
    OrderedSnoc(Seed(cfg, m, startAt), e);
    hide Ordered, Cut;
    PruneNonempty(grown, cfg.Window());
    CutPositive(grown, cfg.Window());
  }
}
