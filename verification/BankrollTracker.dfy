/**
 * The two trackers of pancakebot/bankroll_tracker.py as objects.  Each method is verified
 * against the transition function of BankrollSpec.dfy or Cooldown.dfy that it performs, so
 * the results of BankrollLaws.dfy and Cooldown.dfy are results about these objects.
 */
module BankrollTracker {
  import opened Basics
  import opened BankrollHistory
  import opened BankrollSpec
  import Cooldown

  /** Backtest-mode tracker: no files. */
  class InMemoryBankrollTracker {
    var entries: seq<Entry>
    var seeded: bool
    var absolutePeak: real
    var cooldown: nat
    var triggeredAt: Option<int>
    var lastTick: Option<int>
    const config: Config

    ghost function Mem(): Memory
      reads this
    {
      Memory(entries, seeded, absolutePeak)
    }

    ghost function Timer(): Cooldown.Timer
      reads this
    {
      Cooldown.Timer(cooldown, triggeredAt, lastTick)
    }

    ghost predicate Valid()
      reads this
    {
      config.Valid() && Mem().Valid()
    }

    constructor (config: Config)
      requires config.Valid()
      ensures Valid() && this.config == config
      ensures Mem() == Start(config) && Timer() == Cooldown.IDLE
    {
      this.config := config;
      entries, seeded, absolutePeak := [], false, config.initial;
      cooldown, triggeredAt, lastTick := 0, None, None;
    }

    method RecordSettlement(bankroll: real, startAt: int, openStake: real)
      requires Valid()
      modifies this`entries, this`seeded, this`absolutePeak
      ensures Valid()
      ensures Mem() == Record(config, old(Mem()), bankroll, startAt, openStake)
    {
      if !seeded {
        entries := entries + [Entry(startAt, config.initial, Init, 0.0)];
        seeded := true;
      }
      if bankroll > absolutePeak {
        absolutePeak := bankroll;
      }
      if entries != [] && Abs(entries[|entries| - 1].bankroll - bankroll) < DEDUP_TOLERANCE {
        return;
      }
      entries := entries + [Entry(startAt, bankroll, Settlement, openStake)];
      PruneEntries();
    }

    /** Keeps the samples in the window and the one just before it. */
    method PruneEntries()
      requires config.Valid()
      modifies this`entries
      ensures entries == Prune(old(entries), config.Window())
      ensures old(entries) != [] ==> entries != []
    {
      if entries == [] {
        return;
      }
      var windowStart := entries[|entries| - 1].startAt - config.windowDays * SECONDS_PER_DAY;
      var first := 0;
      while first < |entries| && entries[first].startAt < windowStart
        invariant first <= |entries|
        invariant FirstInWindow(entries, windowStart) == first + FirstInWindow(entries[first..], windowStart)
      {
        assert entries[first..][1..] == entries[first + 1..];
        first := first + 1;
      }
      assert first < |entries| by {
        // the latest sample is in its own window
        FirstInWindowShape(entries, windowStart);
      }
      var boundary := if first == 0 then 0 else first - 1;
      if boundary == 0 {
        return;
      }
      entries := entries[boundary..];
    }

    method CurrentBankroll() returns (current: real)
      requires Valid()
      ensures current == Current(config, Mem())
    {
      if !seeded {
        return config.initial;
      }
      current := entries[|entries| - 1].bankroll;
    }

    method PeakBankroll(asOf: int) returns (peak: real)
      requires Valid()
      ensures peak == Peak(config, Mem(), asOf)
    {
      if config.mode == AbsoluteRatchet {
        return absolutePeak;
      }
      if entries == [] {
        return config.initial;
      }
      var candidates := CollectCandidates(entries, asOf - config.windowDays * SECONDS_PER_DAY);
      peak := MaxOf(candidates);
    }

    static method CollectCandidates(s: seq<Entry>, windowStart: int) returns (candidates: seq<real>)
      ensures candidates == Candidates(s, windowStart)
    {
      var inWindow: seq<real>, before: seq<real> := [], [];
      for i := 0 to |s|
        invariant inWindow == InWindow(s[..i], windowStart)
        invariant before == BeforeWindow(s[..i], windowStart)
      {
        assert s[..i + 1][..i] == s[..i];
        if s[i].startAt >= windowStart {
          inWindow := inWindow + [s[i].bankroll];
        } else {
          before := before + [s[i].bankroll];
        }
      }
      assert s[..|s|] == s;
      candidates := inWindow;
      if before != [] {
        candidates := candidates + [before[|before| - 1]];
      }
    }

    method IsPaused() returns (paused: bool)
      ensures paused <==> Timer().remaining > 0
    {
      paused := cooldown > 0;
    }

    /** Refuses a negative number of rounds and then changes nothing. */
    method SetPaused(rounds: int, at: int) returns (ok: bool)
      modifies this`cooldown, this`triggeredAt
      ensures ok <==> rounds >= 0
      ensures Timer() == if rounds >= 0 then Cooldown.SetPaused(old(Timer()), rounds, at) else old(Timer())
    {
      if rounds < 0 {
        return false;
      }
      cooldown, triggeredAt := rounds, Some(at);
      ok := true;
    }

    method TickCooldown(anchor: Option<int>)
      modifies this`cooldown, this`triggeredAt, this`lastTick
      ensures Timer() == Cooldown.Tick(old(Timer()), anchor)
    {
      if anchor.Some? {
        if lastTick == anchor {
          return;
        }
        lastTick := anchor;
      }
      if cooldown > 0 {
        cooldown := cooldown - 1;
      }
      if cooldown == 0 {
        triggeredAt := None;
      }
    }

    method ResetPeakBaseline(startAt: int)
      requires Valid()
      modifies this`entries, this`seeded, this`absolutePeak
      ensures Valid()
      ensures Mem() == Reseed(config, old(Mem()), startAt)
    {
      var current := CurrentBankroll();
      entries := [Entry(startAt, current, PeakReseed, 0.0)];
      seeded := true;
      absolutePeak := current;
    }
  }

  /** The two state files, which outlive the process. */
  class Disk {
    var history: seq<Entry>
    var pause: Option<Cooldown.PauseDoc>
  }

  /** Dry/live-mode tracker: an in-memory tracker that mirrors itself to a `Disk`. */
  class PersistedBankrollTracker {
    const base: InMemoryBankrollTracker
    const disk: Disk

    ghost predicate Valid()
      reads this, base
    {
      base.Valid()
    }

    /** Starting a process on an existing disk replays the history and reads the pause file. */
    constructor (config: Config, disk: Disk)
      requires config.Valid()
      ensures Valid() && fresh(base) && this.disk == disk && base.config == config
      ensures base.Mem() == Load(config, disk.history)
      ensures base.Timer() == Cooldown.Reload(disk.pause)
    {
      base := new InMemoryBankrollTracker(config);
      this.disk := disk;
      new;
      LoadHistory();
      if disk.pause.Some? && disk.pause.value.paused {
        base.cooldown := disk.pause.value.remaining;
        base.triggeredAt := disk.pause.value.triggeredAt;
      }
    }

    method LoadHistory()
      requires base.config.Valid() && base.Mem() == Start(base.config)
      modifies base`entries, base`seeded, base`absolutePeak
      ensures base.Valid() && base.Mem() == Load(base.config, disk.history)
    {
      for i := 0 to |disk.history|
        invariant base.entries == SinceBarrier(disk.history[..i])
        invariant base.absolutePeak == BaseOf(base.config, disk.history[..i])
        invariant !base.seeded
      {
        var entry := disk.history[i];
        SinceBarrierSnoc(base.config, disk.history[..i], entry);
        assert disk.history[..i + 1] == disk.history[..i] + [entry];
        if entry.event == PeakReseed {
          base.entries := [];
          base.absolutePeak := entry.bankroll;
        }
        base.entries := base.entries + [entry];
      }
      assert disk.history[..|disk.history|] == disk.history;
      if base.entries != [] {
        base.seeded := true;
        base.PruneEntries();
      }
    }

    /** Writes the newest sample when the deque grew, and nothing otherwise. */
    method RecordSettlement(bankroll: real, startAt: int, openStake: real)
      requires Valid()
      modifies base`entries, base`seeded, base`absolutePeak, disk`history
      ensures Valid()
      ensures base.Mem() == Record(base.config, old(base.Mem()), bankroll, startAt, openStake)
      ensures disk.history == old(disk.history) + Persisted(old(base.Mem()), base.Mem())
    {
      var before := |base.entries|;
      base.RecordSettlement(bankroll, startAt, openStake);
      var after := |base.entries|;
      if after > before {
        disk.history := disk.history + [base.entries[after - 1]];
      } else if before == 0 && after == 1 {
        assert false;  // a deque grown from nothing to one has grown
      }
    }

    method SetPaused(rounds: int, at: int) returns (ok: bool)
      modifies base`cooldown, base`triggeredAt, disk`pause
      ensures ok <==> rounds >= 0
      ensures ok ==> base.Timer() == Cooldown.SetPaused(old(base.Timer()), rounds, at)
      ensures ok ==> disk.pause == Some(Cooldown.Mirror(base.Timer()))
      ensures !ok ==> base.Timer() == old(base.Timer()) && disk.pause == old(disk.pause)
    {
      ok := base.SetPaused(rounds, at);
      if ok {
        PersistPauseState();
      }
    }

    method PersistPauseState()
      modifies disk`pause
      ensures disk.pause == Some(Cooldown.Mirror(base.Timer()))
    {
      disk.pause := Some(Cooldown.PauseDoc(base.cooldown > 0, base.cooldown, base.triggeredAt));
    }

    method TickCooldown(anchor: Option<int>)
      modifies base`cooldown, base`triggeredAt, base`lastTick, disk`pause
      ensures base.Timer() == Cooldown.Tick(old(base.Timer()), anchor)
      ensures disk.pause == Cooldown.TickFile(old(base.Timer()), base.Timer(), old(disk.pause))
    {
      var wasPaused, before := base.cooldown > 0, base.cooldown;
      base.TickCooldown(anchor);
      if base.cooldown == before && wasPaused {
        return;
      }
      if wasPaused {
        PersistPauseState();
      }
    }

    method ResetPeakBaseline(startAt: int)
      requires Valid()
      modifies base`entries, base`seeded, base`absolutePeak, disk`history
      ensures Valid()
      ensures base.Mem() == Reseed(base.config, old(base.Mem()), startAt)
      ensures disk.history == old(disk.history) + base.Mem().entries
    {
      base.ResetPeakBaseline(startAt);
      disk.history := disk.history + [base.entries[|base.entries| - 1]];
    }
  }
}
