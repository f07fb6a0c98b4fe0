/**
 * The two research trackers as objects around an in-memory tracker.  Their is_paused does
 * the drawdown test itself; each is verified against the check of Breaker.dfy that it makes.
 */
module ResearchTrackers {
  import opened Basics
  import opened BankrollSpec
  import opened BankrollTracker
  import opened Breaker

  /** Drawdown from the peak at or above a fraction; never with a peak that is not positive. */
  predicate Breached(cfg: Config, m: Memory, asOf: int, fraction: real)
    requires m.Valid()
  {
    var peak := Peak(cfg, m, asOf);
    peak > 0.0 && (peak - Current(cfg, m)) / peak >= fraction
  }

  /** Such a drawdown leaves at most the rest of the peak. */
  lemma BreachedExactlyWhen(cfg: Config, m: Memory, asOf: int, fraction: real)
    requires m.Valid()
    ensures Breached(cfg, m, asOf, fraction) <==>
            0.0 < Peak(cfg, m, asOf) && Current(cfg, m) <= (1.0 - fraction) * Peak(cfg, m, asOf)
  {
    hide Peak, Current;
    var peak := Peak(cfg, m, asOf);
    if 0.0 < peak {
      QuotientAtLeast(peak - Current(cfg, m), peak, fraction);
      assert (1.0 - fraction) * peak == peak - fraction * peak;
    }
  }

  class AdaptiveBankrollTracker {
    const base: InMemoryBankrollTracker
    const curve: (real, real) -> real  // current and initial bankroll to drawdown fraction
    const rounds: nat
    var pausesFired: nat
    var lastFraction: real

    constructor (config: Config, curve: (real, real) -> real, rounds: nat)
      requires config.Valid()
      ensures base.Valid() && base.config == config && this.curve == curve && this.rounds == rounds
      ensures base.Mem() == Start(config) && pausesFired == 0 && lastFraction == curve(config.initial, config.initial)
    {
      base := new InMemoryBankrollTracker(config);
      this.curve, this.rounds := curve, rounds;
      pausesFired := 0;
      lastFraction := curve(config.initial, config.initial);
    }

    method IsPaused(asOf: int) returns (paused: bool)
      requires base.Valid()
      modifies base`cooldown, base`triggeredAt, this
      ensures base.Valid() && base.Mem() == old(base.Mem())
      ensures var fraction := curve(Current(base.config, base.Mem()), base.config.initial);
              Check(paused, base.Timer()) ==
              AdaptiveCheck(rounds, old(base.Timer()), Breached(base.config, base.Mem(), asOf, fraction), asOf)
      ensures var peak, current := Peak(base.config, base.Mem(), asOf), Current(base.config, base.Mem());
              paused <==> old(base.cooldown) > 0 ||
                          (0.0 < peak && current <= (1.0 - curve(current, base.config.initial)) * peak)
      ensures base.cooldown == if paused && old(base.cooldown) == 0 then rounds + 1 else old(base.cooldown)
      ensures pausesFired == old(pausesFired) + if paused && old(base.cooldown) == 0 then 1 else 0
      ensures lastFraction == if old(base.cooldown) > 0 then old(lastFraction)
                              else curve(Current(base.config, base.Mem()), base.config.initial)
    {
      paused := base.IsPaused();
      if paused {
        return;
      }
      BreachedExactlyWhen(base.config, base.Mem(), asOf,
                          curve(Current(base.config, base.Mem()), base.config.initial));
      var current := base.CurrentBankroll();
      var peak := base.PeakBankroll(asOf);
      lastFraction := curve(current, base.config.initial);
      if peak > 0.0 {
        var drawdown := (peak - current) / peak;
        if drawdown >= lastFraction {
          var _ := base.SetPaused(rounds + 1, asOf);
          pausesFired := pausesFired + 1;
          paused := true;
        }
      }
    }
  }

  class Step15Tracker {
    const base: InMemoryBankrollTracker
    const fraction: real
    const rounds: nat
    var pausesFired: nat
    var cooldownSkips: nat

    constructor (config: Config, fraction: real, rounds: nat)
      requires config.Valid()
      ensures base.Valid() && base.config == config && this.fraction == fraction && this.rounds == rounds
      ensures base.Mem() == Start(config) && pausesFired == 0 && cooldownSkips == 0
    {
      base := new InMemoryBankrollTracker(config);
      this.fraction, this.rounds := fraction, rounds;
      pausesFired, cooldownSkips := 0, 0;
    }

    method IsPaused(asOf: int) returns (paused: bool)
      requires base.Valid()
      modifies base`cooldown, base`triggeredAt, this
      ensures base.Valid() && base.Mem() == old(base.Mem())
      ensures Check(paused, base.Timer()) ==
              SweptCheck(rounds, old(base.Timer()), Breached(base.config, base.Mem(), asOf, fraction), asOf)
      ensures var peak, current := Peak(base.config, base.Mem(), asOf), Current(base.config, base.Mem());
              paused <==> old(base.cooldown) > 0 ||
                          (rounds > 0 && 0.0 < peak && current <= (1.0 - fraction) * peak)
      ensures base.cooldown == if paused && old(base.cooldown) == 0 then rounds + 1 else old(base.cooldown)
      ensures cooldownSkips == old(cooldownSkips) + if old(base.cooldown) > 0 then 1 else 0
      ensures var peak, current := Peak(base.config, base.Mem(), asOf), Current(base.config, base.Mem());
              pausesFired == old(pausesFired) +
                if old(base.cooldown) == 0 && 0.0 < peak && current <= (1.0 - fraction) * peak then 1 else 0
    {
      if base.cooldown > 0 {
        cooldownSkips := cooldownSkips + 1;
        return true;
      }
      BreachedExactlyWhen(base.config, base.Mem(), asOf, fraction);
      var current := base.CurrentBankroll();
      var peak := base.PeakBankroll(asOf);
      if peak > 0.0 {
        var drawdown := (peak - current) / peak;
        if drawdown >= fraction {
          if rounds > 0 {
            var _ := base.SetPaused(rounds + 1, asOf);
          }
          pausesFired := pausesFired + 1;
          return rounds > 0;
        }
      }
      paused := false;
    }
  }
}
