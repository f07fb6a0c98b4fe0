/** The range of each feature of WalletFeatures.dfy, over every round and every history. */
module WalletFeatureBounds {
  import opened Basics
  import opened Sums
  import opened WalletFeatures
  import opened WalletFeatureLaws
  import opened Wagers

  // --------------------------------------------- the wallets divide up the pool

  lemma WholeSnoc(seen: seq<BetRecord>, b: BetRecord, w: string)
    ensures Whole(seen + [b], w) == Whole(seen, w) + if w == b.wallet then b.amountWei else 0
  {
    assert (seen + [b])[..|seen|] == seen;
  }

  /** A further bet adds its amount to one wallet of the list, if it is there. */
  lemma {:induction false} OneWalletGrows(seen: seq<BetRecord>, b: BetRecord, ws: seq<string>)
    requires forall i, j :: 0 <= i < j < |ws| ==> ws[i] != ws[j]
    ensures Total(ws, WholeOf(seen + [b])) == Total(ws, WholeOf(seen)) + if b.wallet in ws then b.amountWei else 0
  {
    hide Whole;
    if ws != [] {
      var n := |ws| - 1;
      OneWalletGrows(seen, b, ws[..n]);
      WholeSnoc(seen, b, ws[n]);
      assert ws == ws[..n] + [ws[n]];
    }
  }

  lemma {:induction false} NothingStaked(seen: seq<BetRecord>, w: string)
    requires w !in Wallets(seen)
    ensures Whole(seen, w) == 0
  {
    if seen != [] {
      NothingStaked(seen[..|seen| - 1], w);
    }
  }

  lemma {:induction false} WalletsDividePool(seen: seq<BetRecord>)
    ensures Total(Wallets(seen), WholeOf(seen)) == Total(seen, Side(true)) + Total(seen, Side(false))
  {
    hide Whole;
    if seen != [] {
      var front, b := seen[..|seen| - 1], seen[|seen| - 1];
      WalletsDividePool(front);
      assert seen == front + [b];
      NextWallet(front, b);
    }
  }

  lemma NextWallet(front: seq<BetRecord>, b: BetRecord)
    ensures Total(Wallets(front + [b]), WholeOf(front + [b])) == Total(Wallets(front), WholeOf(front)) + b.amountWei
  {
    hide Whole;
    var ws := Wallets(front);
    WalletsAreDistinct(front);
    OneWalletGrows(front, b, ws);
    assert (front + [b])[..|front|] == front;
    if b.wallet !in ws {
      WholeSnoc(front, b, b.wallet);
      NothingStaked(front, b.wallet);
      assert (ws + [b.wallet])[..|ws|] == ws;
    }
  }

  // ----------------------------------------------------------------- the counts

  lemma {:induction false} StakesAreNatural(seen: seq<BetRecord>, w: string, bull: bool)
    ensures 0 <= Stake(seen, w, bull) <= Total(seen, Side(bull))
  {
    if seen != [] {
      StakesAreNatural(seen[..|seen| - 1], w, bull);
    }
  }

  lemma {:induction false} LateIsPart(seen: seq<BetRecord>, bull: bool, from: int)
    ensures 0 <= Total(seen, Late(bull, from)) <= Total(seen, Side(bull))
  {
    if seen != [] {
      LateIsPart(seen[..|seen| - 1], bull, from);
    }
  }

  lemma {:induction false} CountsAreParts(ws: seq<string>, seen: seq<BetRecord>, events: seq<Event>)
    ensures 0 <= Total(ws, LeansBull(seen)) <= |ws|
    ensures 0 <= Total(ws, CountsFresh(events)) && 0 <= Total(ws, CountsLoser(events))
    ensures Total(ws, CountsFresh(events)) + Total(ws, CountsLoser(events)) <= |ws|
  {
    hide After, Stake, History.IsRepeatLoser;
    if ws != [] {
      CountsAreParts(ws[..|ws| - 1], seen, events);
    }
  }

  lemma {:induction false} RecentIsPart(seen: seq<BetRecord>, from: int)
    ensures 0 <= Total(seen, Recent(from)) <= |seen|
  {
    if seen != [] {
      RecentIsPart(seen[..|seen| - 1], from);
    }
  }

  /** The largest wallet is part of the five largest, and those are part of the pool. */
  lemma TopsAreParts(seen: seq<BetRecord>)
    ensures var sizes := Sizes(seen);
            0 <= TopOf(sizes) <= SumFirst(sizes, 5) <= Total(seen, Side(true)) + Total(seen, Side(false))
  {
    hide Stake, Total, Side, Wallets, Descending, SumFirst, SumInts;
    var values, sizes := Values(Wallets(seen), WholeOf(seen)), Sizes(seen);
    DescendingSorts(values);
    SumIntsIgnoresOrder(values, sizes);
    TotalIsSumOfValues(Wallets(seen), WholeOf(seen));
    WalletsDividePool(seen);
    SizesAreNatural(seen);
    FirstFewSumToLess(sizes, 5);
    FirstOne(sizes);
    assert SumFirst(sizes, 1) <= SumFirst(sizes, 5);
  }

  lemma SizesAreNatural(seen: seq<BetRecord>)
    ensures forall k :: 0 <= k < |Sizes(seen)| ==> 0 <= Sizes(seen)[k]
  {
    hide Stake, Wallets, Descending;
    var values, sizes := Values(Wallets(seen), WholeOf(seen)), Sizes(seen);
    DescendingSorts(values);
    forall k | 0 <= k < |sizes| ensures 0 <= sizes[k] {
      assert sizes[k] in multiset(values);
      var i :| 0 <= i < |values| && values[i] == sizes[k];
      StakesAreNatural(seen, Wallets(seen)[i], true);
      StakesAreNatural(seen, Wallets(seen)[i], false);
    }
  }

  lemma FirstOne(sizes: seq<int>)
    ensures SumFirst(sizes, 1) == TopOf(sizes)
  {
    if sizes != [] {
      var one := [sizes[0]];
      assert one[..0] == [];
      assert SumInts(one) == sizes[0];
      assert |sizes| > 1 ==> sizes[..1] == one;
      assert |sizes| == 1 ==> sizes == one;
    }
  }

  // ----------------------------------------------------------- the smart numerator

  lemma WinRateIsProper(events: seq<Event>, w: string)
    ensures var h := After(events, w);
            h.Some? ==> 0.0 <= h.value.WinRate() <= 1.0
  {
    hide After, Total;
    AfterIsTotals(events, w);
    var h := After(events, w);
    if h.Some? {
      RateIsProper(h.value.wins, h.value.settled);
    }
  }

  lemma RateIsProper(wins: nat, settled: nat)
    requires wins <= settled && 0 < settled
    ensures 0.0 <= wins as real / settled as real <= 1.0
  {
    Fraction(wins as real, settled as real);
  }

  lemma Fraction(x: real, y: real)
    requires 0.0 <= x <= y && 0.0 < y
    ensures 0.0 <= x / y <= 1.0
  {
    var q := x / y;
    assert q * y == x;
    Factor(q, y);
  }

  lemma Factor(q: real, y: real)
    requires 0.0 < y && 0.0 <= q * y <= y
    ensures 0.0 <= q <= 1.0
  {
  }

  /** No wallet can weigh more than it staked. */
  lemma ConvictionIsBounded(net: int, whole: int, h: Option<History>)
    requires -whole <= net <= whole
    requires h.Some? ==> 0.0 <= h.value.WinRate() <= 1.0
    ensures -Bnb(whole) <= Conviction(net, h) <= Bnb(whole)
  {
    hide History.WinRate;
    BnbKeepsOrder(-whole, net);
    BnbKeepsOrder(net, whole);
    if !Fresh(h) {
      Scale(Bnb(net), (h.value.WinRate() - 0.5) * 2.0, Bnb(whole));
    }
  }

  lemma BnbKeepsOrder(x: int, y: int)
    ensures Bnb(-x) == -Bnb(x)
    ensures x <= y ==> Bnb(x) <= Bnb(y)
    ensures Bnb(0) == 0.0
  {
  }

  function Times(x: real, r: real): real {
    x * r
  }

  lemma Scale(x: real, r: real, bound: real)
    requires -bound <= x <= bound && -1.0 <= r <= 1.0
    ensures -bound <= Times(x, r) <= bound
  {
    hide Times;
    if 0.0 <= x {
      Below(x, r);
    } else {
      Above(x, r);
    }
  }

  lemma Below(x: real, r: real)
    requires 0.0 <= x && -1.0 <= r <= 1.0
    ensures -x <= Times(x, r) <= x
  {
    assert x * (1.0 - r) >= 0.0 && x * (1.0 + r) >= 0.0;
  }

  lemma Above(x: real, r: real)
    requires x <= 0.0 && -1.0 <= r <= 1.0
    ensures x <= Times(x, r) <= -x
  {
    assert x * (1.0 - r) <= 0.0 && x * (1.0 + r) <= 0.0;
  }

  lemma {:induction false} SmartIsBounded(ws: seq<string>, seen: seq<BetRecord>, events: seq<Event>)
    ensures -Bnb(Total(ws, WholeOf(seen))) <= Sum(ws, Backs(seen, events)) <= Bnb(Total(ws, WholeOf(seen)))
  {
    hide Bnb, Stake, Conviction, After;
    BnbKeepsOrder(0, 0);
    if ws != [] {
      var front, w := ws[..|ws| - 1], ws[|ws| - 1];
      SmartIsBounded(front, seen, events);
      OneIsBounded(seen, events, w);
      BnbAdds(Total(front, WholeOf(seen)), Whole(seen, w));
    }
  }

  lemma OneIsBounded(seen: seq<BetRecord>, events: seq<Event>, w: string)
    ensures -Bnb(Whole(seen, w)) <= Backs(seen, events)(w) <= Bnb(Whole(seen, w))
  {
    hide Bnb, Stake, Conviction, After;
    WinRateIsProper(events, w);
    StakesAreNatural(seen, w, true);
    StakesAreNatural(seen, w, false);
    ConvictionIsBounded(Stake(seen, w, true) - Stake(seen, w, false), Whole(seen, w), After(events, w));
  }

  // --------------------------------------------------------------- the features

  /** What the aggregates of any round satisfy. */
  ghost predicate Proper(s: Aggregates, bets: nat) {
    && 0 <= s.bull && 0 <= s.bear && 0 <= s.top <= s.topFive <= s.bull + s.bear
    && 0 <= s.leaning <= s.n && 0 <= s.newcomers && 0 <= s.losers && s.newcomers + s.losers <= s.n
    && -Bnb(s.bull + s.bear) <= s.smart <= Bnb(s.bull + s.bear)
    && 0 <= s.lateBull <= s.bull && 0 <= s.lateBear <= s.bear
    && 0 <= s.recent <= bets
  }

  lemma AggregatesAreProper(seen: seq<BetRecord>, lockAt: int, events: seq<Event>)
    ensures Proper(AggregatesOf(seen, lockAt, events), |seen|)
  {
    hide Wallets, Total, Sum, Sizes, SumFirst, TopOf, Stake, Bnb, Side, Late, Recent, LeansBull, CountsFresh, CountsLoser, Backs, WholeOf;
    var ws := Wallets(seen);
    StakesAreNatural(seen, "", true);
    StakesAreNatural(seen, "", false);
    TopsAreParts(seen);
    CountsAreParts(ws, seen, events);
    SmartIsBounded(ws, seen, events);
    WalletsDividePool(seen);
    LateIsPart(seen, true, lockAt - LATE_FLOW_WINDOW);
    LateIsPart(seen, false, lockAt - LATE_FLOW_WINDOW);
    RecentIsPart(seen, lockAt - BET_VELOCITY_WINDOW);
  }

  predicate Unit(x: real) {
    0.0 <= x <= 1.0
  }

  lemma RatioIsUnit(x: int, y: int)
    requires 0 <= x <= y && 0 < y
    ensures Unit(Ratio(x, y))
  {
    Fraction(x as real, y as real);
  }

  lemma SignedFraction(x: real, y: real)
    requires -y <= x <= y && 0.0 < y
    ensures -1.0 <= x / y <= 1.0
  {
    if 0.0 <= x {
      Fraction(x, y);
    } else {
      Fraction(-x, y);
      Negated(x, y);
    }
  }

  lemma Negated(x: real, y: real)
    requires y != 0.0
    ensures (-x) / y == -(x / y)
  {
    assert (x / y) * y == x;
  }

  lemma HalfOrMore(x: int, y: int)
    requires x <= y <= 2 * x && 0 < y
    ensures 0.5 <= Ratio(x, y)
  {
    QuotientAtLeast(x as real, y as real, 0.5);
  }

  /**
   * Every share, ratio and majority lies between zero and one, the majority never below one half,
   * and the smart bias between minus one and one.
   */
  lemma FeaturesAreProper(seen: seq<BetRecord>, lockAt: int, events: seq<Event>)
    requires var r := FeaturesOf(seen, lockAt, events);
             r.Ok? && r.value.Features?
    ensures var f := FeaturesOf(seen, lockAt, events).value;
            && 0.0 <= f.top1Share <= f.top5Share <= 1.0 && Unit(f.bullRatio) && 0.5 <= f.consensus <= 1.0
            && -1.0 <= f.smartBias <= 1.0
            && Unit(f.freshRatio) && Unit(f.repeatLoserRatio) && Unit(f.lateFlow)
            && (f.lateBias.Some? ==> Unit(f.lateBias.value))
  {
    hide AggregatesOf, Wallets, Total, Sum, Bnb, Ratio, Proper, Unit, OneSided, FeaturesFrom;
    AggregatesAreProper(seen, lockAt, events);
    FromProper(AggregatesOf(seen, lockAt, events), |seen|);
  }

  lemma FromProper(s: Aggregates, bets: nat)
    requires Proper(s, bets) && s.n != 0 && s.bull + s.bear != 0
    ensures var f := FeaturesFrom(s);
            && 0.0 <= f.top1Share <= f.top5Share <= 1.0 && Unit(f.bullRatio) && 0.5 <= f.consensus <= 1.0
            && -1.0 <= f.smartBias <= 1.0
            && Unit(f.freshRatio) && Unit(f.repeatLoserRatio) && Unit(f.lateFlow)
            && (f.lateBias.Some? ==> Unit(f.lateBias.value))
  {
    hide Bnb, Ratio, Unit;
    var total, late := s.bull + s.bear, s.lateBull + s.lateBear;
    var majority := if s.leaning > s.n - s.leaning then s.leaning else s.n - s.leaning;
    RatioIsUnit(s.top, total);
    RatioIsUnit(s.topFive, total);
    RatiosRise(s.top, s.topFive, total);
    UnitBounds(Ratio(s.top, total));
    UnitBounds(Ratio(s.topFive, total));
    RatioIsUnit(s.bull, total);
    RatioIsUnit(majority, s.n);
    UnitBounds(Ratio(majority, s.n));
    HalfOrMore(majority, s.n);
    RatioIsUnit(s.newcomers, s.n);
    if s.n - s.newcomers > 0 {
      RatioIsUnit(s.losers, s.n - s.newcomers);
    }
    ZeroIsUnit();
    RatioIsUnit(late, total);
    if late > 0 {
      RatioIsUnit(s.lateBull, late);
    }
    BnbIsPositive(total);
    SignedFraction(s.smart, Bnb(total));
  }

  lemma UnitBounds(x: real)
    requires Unit(x)
    ensures 0.0 <= x <= 1.0
  {
  }

  lemma RatiosRise(x: int, y: int, total: int)
    requires x <= y && 0 < total
    ensures Ratio(x, total) <= Ratio(y, total)
  {
    QuotientsRise(x as real, y as real, total as real);
  }

  lemma ZeroIsUnit()
    ensures Unit(0.0)
  {
  }
}
