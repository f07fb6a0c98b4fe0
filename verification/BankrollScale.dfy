/** The tracker works in proportions: with every bankroll multiplied, so are its answers. */
module BankrollScale {
  import opened Basics
  import opened BankrollHistory
  import opened BankrollSpec

  function Times(k: real, x: real): real {
    k * x
  }

  lemma TimesKeepsOrder(k: real, x: real, y: real)
    requires 0.0 < k
    ensures x <= y <==> Times(k, x) <= Times(k, y)
  {
    if x <= y {
      assert k * (y - x) >= 0.0;
    } else {
      assert k * (x - y) > 0.0;
    }
  }

  function TimesAll(k: real, xs: seq<real>): (r: seq<real>)
    ensures |r| == |xs| && forall i :: 0 <= i < |xs| ==> r[i] == Times(k, xs[i])
  {
    seq(|xs|, i requires 0 <= i < |xs| => Times(k, xs[i]))
  }

  /** Every sample multiplied. */
  function ScaledEntries(k: real, s: seq<Entry>): (r: seq<Entry>)
    ensures |r| == |s| && forall i :: 0 <= i < |s| ==> r[i] == s[i].(bankroll := Times(k, s[i].bankroll))
  {
    seq(|s|, i requires 0 <= i < |s| => s[i].(bankroll := Times(k, s[i].bankroll)))
  }

  function ScaledConfig(k: real, cfg: Config): Config {
    cfg.(initial := Times(k, cfg.initial))
  }

  function Scaled(k: real, m: Memory): Memory {
    Memory(ScaledEntries(k, m.entries), m.seeded, Times(k, m.absolutePeak))
  }

  lemma {:induction false} WindowScales(k: real, s: seq<Entry>, windowStart: int)
    ensures InWindow(ScaledEntries(k, s), windowStart) == TimesAll(k, InWindow(s, windowStart))
    ensures BeforeWindow(ScaledEntries(k, s), windowStart) == TimesAll(k, BeforeWindow(s, windowStart))
  {
    hide Times;
    if s != [] {
      var n := |s| - 1;
      WindowScales(k, s[..n], windowStart);
      assert ScaledEntries(k, s)[..n] == ScaledEntries(k, s[..n]);
    }
  }

  lemma MaxScales(k: real, xs: seq<real>)
    requires 0.0 < k && xs != []
    ensures MaxOf(TimesAll(k, xs)) == Times(k, MaxOf(xs))
  {
    hide Times, MaxOf;
    var r := TimesAll(k, xs);
    var i :| 0 <= i < |xs| && xs[i] == MaxOf(xs);
    var j :| 0 <= j < |r| && r[j] == MaxOf(r);
    assert r[i] in r && xs[j] in xs;
    TimesKeepsOrder(k, xs[j], xs[i]);
  }

  lemma RollingPeakScales(k: real, s: seq<Entry>, windowStart: int)
    requires 0.0 < k && s != []
    ensures RollingPeak(ScaledEntries(k, s), windowStart) == Times(k, RollingPeak(s, windowStart))
  {
    hide Times, MaxOf, InWindow, BeforeWindow;
    WindowScales(k, s, windowStart);
    assert Candidates(ScaledEntries(k, s), windowStart) == TimesAll(k, Candidates(s, windowStart));
    MaxScales(k, Candidates(s, windowStart));
  }

  lemma PeakScales(k: real, cfg: Config, m: Memory, asOf: int)
    requires 0.0 < k && m.Valid()
    ensures Peak(ScaledConfig(k, cfg), Scaled(k, m), asOf) == Times(k, Peak(cfg, m, asOf))
    ensures Current(ScaledConfig(k, cfg), Scaled(k, m)) == Times(k, Current(cfg, m))
  {
    hide Times, RollingPeak;
    if m.entries != [] {
      RollingPeakScales(k, m.entries, asOf - cfg.Window());
    }
  }

  /**
   * Whether a drawdown has reached a fraction of the peak is unchanged when every bankroll is
   * multiplied by the same positive number.
   */
  lemma DrawdownScales(k: real, cfg: Config, m: Memory, asOf: int, fraction: real)
    requires 0.0 < k && m.Valid()
    ensures var peak, current := Peak(cfg, m, asOf), Current(cfg, m);
            var peak', current' := Peak(ScaledConfig(k, cfg), Scaled(k, m), asOf), Current(ScaledConfig(k, cfg), Scaled(k, m));
            (0.0 < peak' && current' <= (1.0 - fraction) * peak') <==> (0.0 < peak && current <= (1.0 - fraction) * peak)
  {
    hide Times, Peak, Current;
    PeakScales(k, cfg, m, asOf);
    ShareScales(k, 1.0 - fraction, Peak(cfg, m, asOf), Current(cfg, m));
  }

  lemma ShareScales(k: real, r: real, peak: real, current: real)
    requires 0.0 < k
    ensures (0.0 < Times(k, peak) && Times(k, current) <= r * Times(k, peak)) <==> (0.0 < peak && current <= r * peak)
  {
    hide Times;
    TimesKeepsOrder(k, peak, 0.0);
    TimesKeepsOrder(k, current, r * peak);
    Exchange(k, r, peak);
  }

  lemma Exchange(k: real, r: real, x: real)
    ensures Times(k, r * x) == r * Times(k, x)
    ensures Times(k, 0.0) == 0.0
  {
  }
}
