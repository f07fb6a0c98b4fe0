/**
 * What the features of WalletFeatures.dfy say about the bets of a round, without the functions
 * that compute them: which bets count, what one bet alone gives, and what each ratio is of what.
 */
module WalletFeatureMeaning {
  import opened Basics
  import opened Sums
  import opened WalletFeatures
  import opened WalletFeatureBounds
  import opened Wagers

  // ------------------------------------------------------------ which bets count

  /** The visible bets are those placed within 298 seconds of the start, each as often as it was placed. */
  lemma {:induction false} SeenMultiplicity(bets: seq<BetRecord>, startAt: int, b: BetRecord)
    ensures multiset(Seen(bets, startAt + ROUND_SECONDS))[b] ==
            if b.createdAt < startAt + 298 then multiset(bets)[b] else 0
  {
    if bets != [] {
      var n := |bets| - 1;
      SeenMultiplicity(bets[..n], startAt, b);
      assert bets == bets[..n] + [bets[n]];
    }
  }

  /** Two rounds with the same start show the same bets when they agree on those placed in time. */
  lemma SameBetsInTime(a: seq<BetRecord>, b: seq<BetRecord>, startAt: int)
    requires forall x: BetRecord :: x.createdAt < startAt + 298 ==> multiset(a)[x] == multiset(b)[x]
    ensures multiset(Seen(a, startAt + ROUND_SECONDS)) == multiset(Seen(b, startAt + ROUND_SECONDS))
  {
    hide Seen;
    var p, q := multiset(Seen(a, startAt + ROUND_SECONDS)), multiset(Seen(b, startAt + ROUND_SECONDS));
    forall x: BetRecord ensures p[x] == q[x] {
      SeenMultiplicity(a, startAt, x);
      SeenMultiplicity(b, startAt, x);
    }
  }

  // -------------------------------------------------------------- what is settled

  /** A round with a winner settles each of its bets once: a win for those on the winning side. */
  lemma {:induction false} EventsAreBets(bets: seq<BetRecord>, side: Label)
    ensures EventsOf(bets, None) == []
    ensures |EventsOf(bets, Some(side))| == |bets|
    ensures forall k :: 0 <= k < |bets| ==>
      EventsOf(bets, Some(side))[k] == Event(bets[k].wallet, bets[k].position == side, bets[k].amountWei)
  {
    if bets != [] {
      EventsAreBets(bets[..|bets| - 1], side);
    }
  }

  // ----------------------------------------------------------------- one bet alone

  predicate Experienced(h: Option<History>) {
    h.Some? && h.value.settled >= 10
  }

  /** How a wallet's record weighs: from -1 for one that always lost to 1 for one that always won. */
  function Weight(h: Option<History>): real {
    if Experienced(h) then 2.0 * (h.value.wins as real / h.value.settled as real) - 1.0 else 0.0
  }

  /** Fewer than two in five settled bets won. */
  predicate Loses(h: Option<History>) {
    Experienced(h) && 5 * h.value.wins < 2 * h.value.settled
  }

  function Flag(yes: bool): int {
    if yes then 1 else 0
  }

  lemma SumOfOne<T>(x: T, f: T -> int, g: T -> real)
    ensures Total([x], f) == f(x) && Sum([x], g) == g(x)
  {
    assert [x][..0] == [];
  }

  lemma LoneStakes(b: BetRecord)
    requires OneSided(b)
    ensures Wallets([b]) == [b.wallet]
    ensures Stake([b], b.wallet, true) == b.amountWei * Flag(b.position == Bull)
    ensures Stake([b], b.wallet, false) == b.amountWei * Flag(b.position == Bear)
  {
    assert [b][..0] == [];
    SumOfOne(b, Size(b.wallet, true), x => 0.0);
    SumOfOne(b, Size(b.wallet, false), x => 0.0);
  }

  lemma LoneTotals(b: BetRecord, from: int)
    requires OneSided(b)
    ensures Total([b], Side(true)) == b.amountWei * Flag(b.position == Bull)
    ensures Total([b], Side(false)) == b.amountWei * Flag(b.position == Bear)
    ensures Total([b], Late(true, from)) == b.amountWei * Flag(from <= b.createdAt && b.position == Bull)
    ensures Total([b], Late(false, from)) == b.amountWei * Flag(from <= b.createdAt && b.position == Bear)
    ensures Total([b], Recent(from)) == Flag(from <= b.createdAt)
  {
    hide Total, Sum;
    var none: BetRecord -> real := x => 0.0;
    SumOfOne(b, Side(true), none);
    SumOfOne(b, Side(false), none);
    SumOfOne(b, Late(true, from), none);
    SumOfOne(b, Late(false, from), none);
    SumOfOne(b, Recent(from), none);
  }

  lemma LosesIs(h: Option<History>)
    ensures h.Some? ==> (h.value.IsRepeatLoser() <==> Loses(h))
    ensures !Fresh(h) <==> Experienced(h)
    ensures Experienced(h) ==> (h.value.WinRate() - 0.5) * 2.0 == Weight(h)
    ensures Loses(h) ==> Experienced(h)
    ensures Experienced(h) ==> h.Some?
  {
    if Experienced(h) {
      QuotientAtLeast(h.value.wins as real, h.value.settled as real, 0.4);
    }
  }

  /** The rate of an empty record is zero, and else the share of its bets that won. */
  lemma WinRateIs(h: History)
    ensures if h.settled == 0 then h.WinRate() == 0.0 else h.WinRate() * h.settled as real == h.wins as real
  {
    if h.settled > 0 {
      TimesBack(h.wins as real, h.settled as real);
    }
  }

  lemma LoneCounts(b: BetRecord, events: seq<Event>)
    requires OneSided(b) && b.amountWei > 0
    ensures Total([b.wallet], LeansBull([b])) == Flag(b.position == Bull)
    ensures Total([b.wallet], CountsFresh(events)) == Flag(!Experienced(After(events, b.wallet)))
    ensures Total([b.wallet], CountsLoser(events)) == Flag(Loses(After(events, b.wallet)))
    ensures Sum([b.wallet], Backs([b], events)) ==
            Conviction(b.amountWei * Flag(b.position == Bull) - b.amountWei * Flag(b.position == Bear), After(events, b.wallet))
  {
    hide After, Stake, Total, Sum, Conviction;
    LoneStakes(b);
    LosesIs(After(events, b.wallet));
    SumOfOne(b.wallet, LeansBull([b]), Backs([b], events));
    SumOfOne(b.wallet, CountsFresh(events), Backs([b], events));
    SumOfOne(b.wallet, CountsLoser(events), Backs([b], events));
  }

  lemma LoneSizes(b: BetRecord)
    requires OneSided(b)
    ensures TopOf(Sizes([b])) == b.amountWei && SumFirst(Sizes([b]), 5) == b.amountWei
  {
    hide Stake, Wallets, SumInts;
    LoneStakes(b);
    assert Values([b.wallet], WholeOf([b])) == [b.amountWei];
    LoneSort(b.amountWei);
  }

  lemma LoneSort(x: int)
    ensures Descending([x]) == [x] && SumInts([x]) == x
  {
    assert [x][..0] == [];
  }

  /** Aggregates of one bet. */
  lemma LoneAggregates(b: BetRecord, lockAt: int, events: seq<Event>)
    requires OneSided(b) && b.amountWei > 0
    ensures var h, w, bull, bear := After(events, b.wallet), b.amountWei, b.position == Bull, b.position == Bear;
            var late := lockAt - 30 <= b.createdAt;
            AggregatesOf([b], lockAt, events) ==
            Aggregates(1, w * Flag(bull), w * Flag(bear), w, w, Flag(bull), Flag(!Experienced(h)), Flag(Loses(h)),
                       Conviction(w * Flag(bull) - w * Flag(bear), h),
                       w * Flag(late && bull), w * Flag(late && bear), Flag(lockAt - 60 <= b.createdAt))
  {
    hide After, Conviction, Experienced, Loses, Total, Sum, Wallets, Sizes, SumFirst, TopOf, Stake, Flag;
    LoneStakes(b);
    LoneTotals(b, lockAt - 30);
    LoneTotals(b, lockAt - 60);
    LoneCounts(b, events);
    LoneSizes(b);
  }

  function One(yes: bool): real {
    if yes then 1.0 else 0.0
  }

  /**
   * The features of a round with one visible bet of a positive amount.  The windows are the last 30
   * and 60 seconds before lock, a record counts from ten settled bets on, and loses below two fifths.
   */
  lemma LoneBet(b: BetRecord, lockAt: int, events: seq<Event>)
    requires OneSided(b) && b.amountWei > 0
    ensures var h, bull := After(events, b.wallet), b.position == Bull;
            var late := lockAt - 30 <= b.createdAt;
            FeaturesOf([b], lockAt, events) ==
            Ok(Features(1, b.amountWei as real / 1000000000000000000.0, 1.0, 1.0, One(bull), 1.0,
                        if bull then Weight(h) else -Weight(h), One(!Experienced(h)), One(Loses(h)),
                        One(late), true, One(lockAt - 60 <= b.createdAt) / 58.0, if late then Some(One(bull)) else None))
  {
    hide AggregatesOf, After, FeaturesFrom, Conviction, Experienced, Loses;
    LoneAggregates(b, lockAt, events);
    assert b in [b] && forall x :: x in [b] ==> OneSided(x);
    LoneFeatures(b.amountWei, b.position == Bull, After(events, b.wallet), lockAt - 30 <= b.createdAt,
                 lockAt - 60 <= b.createdAt);
  }

  lemma LoneFeatures(w: int, bull: bool, h: Option<History>, late: bool, recent: bool)
    requires w > 0 && (late ==> recent)
    ensures var s := Aggregates(1, w * Flag(bull), w * Flag(!bull), w, w, Flag(bull), Flag(!Experienced(h)), Flag(Loses(h)),
                                Conviction(w * Flag(bull) - w * Flag(!bull), h),
                                w * Flag(late && bull), w * Flag(late && !bull), Flag(recent));
            && s.bull + s.bear == w
            && FeaturesFrom(s) ==
               Features(1, w as real / 1000000000000000000.0, 1.0, 1.0, One(bull), 1.0,
                        if bull then Weight(h) else -Weight(h), One(!Experienced(h)), One(Loses(h)),
                        One(late), true, One(recent) / 58.0, if late then Some(One(bull)) else None)
  {
    hide Experienced, Weight, Conviction, Bnb, Ratio;
    LoneRatios(w);
    LoneBias(w, bull, h);
    BnbOf(w);
  }

  lemma BnbOf(w: int)
    ensures Bnb(w) == w as real / 1000000000000000000.0
  {
  }

  lemma LoneRatios(w: int)
    requires w > 0
    ensures Ratio(w, w) == 1.0 && Ratio(0, w) == 0.0 && Ratio(1, 1) == 1.0 && Ratio(0, 1) == 0.0
    ensures Ratio(1, 58) == 1.0 / 58.0 && Ratio(0, 58) == 0.0 / 58.0
  {
  }

  lemma LoneBias(w: int, bull: bool, h: Option<History>)
    requires w > 0
    ensures Conviction(w * Flag(bull) - w * Flag(!bull), h) / Bnb(w) == if bull then Weight(h) else -Weight(h)
  {
    hide Bnb, Weight, Fresh, Experienced, History.WinRate;
    LosesIs(h);
    BnbIsPositive(w);
    BnbKeepsOrder(w, w);
    WeightOfFresh(h);
    Undo(Bnb(w), Weight(h));
    Undo(Bnb(w), -Weight(h));
    assert -Bnb(w) * Weight(h) == Bnb(w) * -Weight(h);
  }

  lemma WeightOfFresh(h: Option<History>)
    ensures !Experienced(h) ==> Weight(h) == 0.0
  {
  }

  lemma Undo(p: real, x: real)
    requires p > 0.0
    ensures (p * x) / p == x && 0.0 / p == 0.0
  {
  }

  // ------------------------------------------------------------ what each ratio is of

  /** What was staked, and of that on Bull. */
  function Staked(): BetRecord -> int {
    (b: BetRecord) => b.amountWei
  }

  function OnBull(): BetRecord -> int {
    (b: BetRecord) => if b.position == Bull then b.amountWei else 0
  }

  /** What was staked at or after `from`, and of that on Bull. */
  function StakedFrom(from: int): BetRecord -> int {
    (b: BetRecord) => if b.createdAt >= from then b.amountWei else 0
  }

  function BullFrom(from: int): BetRecord -> int {
    (b: BetRecord) => if b.createdAt >= from && b.position == Bull then b.amountWei else 0
  }

  /** What a wallet staked. */
  function StakedBy(w: string): BetRecord -> int {
    (b: BetRecord) => if b.wallet == w then b.amountWei else 0
  }

  function BullBy(w: string): BetRecord -> int {
    (b: BetRecord) => if b.wallet == w && b.position == Bull then b.amountWei else 0
  }

  /** One for each wallet with at least half of its stake on Bull, with no record to speak of, or with a losing one. */
  function BacksBull(seen: seq<BetRecord>): string -> int {
    (w: string) => Flag(2 * Total(seen, BullBy(w)) >= Total(seen, StakedBy(w)))
  }

  function IsNew(events: seq<Event>): string -> int {
    (w: string) => Flag(!Experienced(After(events, w)))
  }

  function IsLoser(events: seq<Event>): string -> int {
    (w: string) => Flag(Loses(After(events, w)))
  }

  /** A wallet's net stake on Bull times the weight of its record. */
  function NetWeight(seen: seq<BetRecord>, events: seq<Event>): string -> real {
    (w: string) => Bnb(2 * Total(seen, BullBy(w)) - Total(seen, StakedBy(w))) * Weight(After(events, w))
  }

  function PlacedFrom(from: int): BetRecord -> int {
    (b: BetRecord) => Flag(b.createdAt >= from)
  }

  lemma {:induction false} SidesAreAll(seen: seq<BetRecord>, from: int)
    ensures Total(seen, Late(true, from)) == Total(seen, BullFrom(from))
    ensures Total(seen, Late(true, from)) + Total(seen, Late(false, from)) == Total(seen, StakedFrom(from))
  {
    if seen != [] {
      SidesAreAll(seen[..|seen| - 1], from);
    }
  }

  lemma {:induction false} PoolIsAll(seen: seq<BetRecord>)
    ensures Total(seen, Side(true)) == Total(seen, OnBull())
    ensures Total(seen, Side(true)) + Total(seen, Side(false)) == Total(seen, Staked())
  {
    if seen != [] {
      PoolIsAll(seen[..|seen| - 1]);
    }
  }

  lemma {:induction false} WalletSides(seen: seq<BetRecord>, w: string)
    ensures Stake(seen, w, true) == Total(seen, BullBy(w))
    ensures Whole(seen, w) == Total(seen, StakedBy(w))
  {
    if seen != [] {
      WalletSides(seen[..|seen| - 1], w);
    }
  }

  lemma {:induction false} CountsAreThose(ws: seq<string>, seen: seq<BetRecord>, events: seq<Event>)
    ensures Total(ws, LeansBull(seen)) == Total(ws, BacksBull(seen))
    ensures Total(ws, CountsFresh(events)) == Total(ws, IsNew(events))
    ensures Total(ws, CountsLoser(events)) == Total(ws, IsLoser(events))
    ensures Sum(ws, Backs(seen, events)) == Sum(ws, NetWeight(seen, events))
  {
    hide After, Stake, Experienced, Loses, Weight, Bnb, History.WinRate, History.IsRepeatLoser;
    if ws != [] {
      var w := ws[|ws| - 1];
      CountsAreThose(ws[..|ws| - 1], seen, events);
      WalletSides(seen, w);
      LosesIs(After(events, w));
      ConvictionIs(2 * Total(seen, BullBy(w)) - Total(seen, StakedBy(w)), After(events, w));
    }
  }

  lemma ConvictionIs(net: int, h: Option<History>)
    ensures Conviction(net, h) == Bnb(net) * Weight(h)
  {
    hide Bnb, History.WinRate;
    LosesIs(h);
    if !Experienced(h) {
      Nothing(Bnb(net));
    }
  }

  lemma Nothing(x: real)
    ensures x * 0.0 == 0.0
  {
  }

  lemma {:induction false} RecentIsPlaced(seen: seq<BetRecord>, from: int)
    ensures Total(seen, Recent(from)) == Total(seen, PlacedFrom(from))
  {
    if seen != [] {
      RecentIsPlaced(seen[..|seen| - 1], from);
    }
  }

  /** The sums behind the features, from bets and histories. */
  lemma AggregatesAre(seen: seq<BetRecord>, lockAt: int, events: seq<Event>)
    ensures var s, ws := AggregatesOf(seen, lockAt, events), Wallets(seen);
            && s.n == |ws| && s.bull == Total(seen, OnBull()) && s.bull + s.bear == Total(seen, Staked())
            && s.leaning == Total(ws, BacksBull(seen)) && s.newcomers == Total(ws, IsNew(events))
            && s.losers == Total(ws, IsLoser(events)) && s.smart == Sum(ws, NetWeight(seen, events))
            && s.lateBull == Total(seen, BullFrom(lockAt - 30))
            && s.lateBull + s.lateBear == Total(seen, StakedFrom(lockAt - 30))
            && s.recent == Total(seen, PlacedFrom(lockAt - 60))
  {
    hide Total, Sum, Wallets, Sizes, SumFirst, TopOf;
    PoolIsAll(seen);
    SidesAreAll(seen, lockAt - 30);
    CountsAreThose(Wallets(seen), seen, events);
    RecentIsPlaced(seen, lockAt - 60);
  }

  /** Each ratio times its denominator. */
  ghost predicate Ratios(f: Features, s: Aggregates) {
    var total, late, experienced := s.bull + s.bear, s.lateBull + s.lateBear, s.n - s.newcomers;
    && f.Features? && f.nBettors == s.n
    && f.pool * 1000000000000000000.0 == total as real
    && f.top1Share * total as real == s.top as real && f.top5Share * total as real == s.topFive as real
    && f.bullRatio * total as real == s.bull as real
    && f.consensus * s.n as real == (if 2 * s.leaning >= s.n then s.leaning else s.n - s.leaning) as real
    && f.smartBias * f.pool == s.smart
    && f.freshRatio * s.n as real == s.newcomers as real
    && (if experienced > 0 then f.repeatLoserRatio * experienced as real == s.losers as real else f.repeatLoserRatio == 0.0)
    && f.lateFlow * total as real == late as real
    && (f.whale <==> 10 * s.top >= total)
    && f.velocity * 58.0 == s.recent as real
    && (f.lateBias.Some? <==> late > 0)
    && (f.lateBias.Some? ==> f.lateBias.value * late as real == s.lateBull as real)
  }

  lemma RatioTimes(x: int, y: int)
    requires y != 0
    ensures Ratio(x, y) * y as real == x as real
  {
    TimesBack(x as real, y as real);
  }

  lemma TimesBack(x: real, y: real)
    requires y != 0.0
    ensures (x / y) * y == x
  {
  }

  lemma WhaleIs(top: int, total: int)
    requires 0 < total
    ensures Ratio(top, total) >= WHALE_THRESHOLD <==> 10 * top >= total
  {
    QuotientAtLeast(top as real, total as real, 0.1);
  }

  lemma FeaturesAreRatios(s: Aggregates)
    requires s.n != 0 && 0 < s.bull + s.bear
    ensures Ratios(FeaturesFrom(s), s)
  {
    hide Ratio, Bnb;
    var total := s.bull + s.bear;
    RatioTimes(s.top, total);
    RatioTimes(s.topFive, total);
    RatioTimes(s.bull, total);
    RatioTimes(s.leaning, s.n);
    RatioTimes(s.n - s.leaning, s.n);
    RatioTimes(s.newcomers, s.n);
    if s.n - s.newcomers > 0 {
      RatioTimes(s.losers, s.n - s.newcomers);
    }
    RatioTimes(s.lateBull + s.lateBear, total);
    RatioTimes(s.recent, 58);
    if s.lateBull + s.lateBear > 0 {
      RatioTimes(s.lateBull, s.lateBull + s.lateBear);
    }
    WhaleIs(s.top, total);
    BnbIsPositive(total);
    TimesBack(s.smart, Bnb(total));
    PoolTimes(total);
  }

  lemma PoolTimes(total: int)
    ensures Bnb(total) * 1000000000000000000.0 == total as real
  {
  }

  /** The features of a round are these ratios of these sums. */
  lemma FeaturesMean(seen: seq<BetRecord>, lockAt: int, events: seq<Event>)
    requires var r := FeaturesOf(seen, lockAt, events);
             r.Ok? && r.value.Features?
    ensures var s, ws := AggregatesOf(seen, lockAt, events), Wallets(seen);
            && Ratios(FeaturesOf(seen, lockAt, events).value, s)
            && s.n == |ws| && s.bull == Total(seen, OnBull()) && s.bull + s.bear == Total(seen, Staked())
            && s.leaning == Total(ws, BacksBull(seen)) && s.newcomers == Total(ws, IsNew(events))
            && s.losers == Total(ws, IsLoser(events)) && s.smart == Sum(ws, NetWeight(seen, events))
            && s.lateBull == Total(seen, BullFrom(lockAt - 30))
            && s.lateBull + s.lateBear == Total(seen, StakedFrom(lockAt - 30))
            && s.recent == Total(seen, PlacedFrom(lockAt - 60))
  {
    hide AggregatesOf, Wallets, Total, Sum, OneSided, FeaturesFrom, Ratios, Proper;
    AggregatesAre(seen, lockAt, events);
    AggregatesAreProper(seen, lockAt, events);
    PoolIsPositive(AggregatesOf(seen, lockAt, events), |seen|);
    FeaturesAreRatios(AggregatesOf(seen, lockAt, events));
  }

  lemma PoolIsPositive(s: Aggregates, bets: nat)
    requires Proper(s, bets) && s.bull + s.bear != 0
    ensures 0 < s.bull + s.bear
  {
  }

  /** The largest share is that of the wallet that staked most. */
  lemma TopIsLargest(seen: seq<BetRecord>)
    requires seen != []
    ensures var top := TopOf(Sizes(seen));
            && (forall w :: w in Wallets(seen) ==> Total(seen, StakedBy(w)) <= top)
            && (exists w :: w in Wallets(seen) && Total(seen, StakedBy(w)) == top)
  {
    hide Stake, Total, Descending;
    var ws := Wallets(seen);
    var values, sizes := Values(ws, WholeOf(seen)), Sizes(seen);
    DescendingSorts(values);
    assert |values| == |ws| > 0;
    forall w | w in ws ensures Total(seen, StakedBy(w)) <= sizes[0] {
      WalletSides(seen, w);
      var k :| 0 <= k < |ws| && ws[k] == w;
      assert values[k] in multiset(values);
      assert values[k] in multiset(sizes);
      var j :| 0 <= j < |sizes| && sizes[j] == values[k];
    }
    assert sizes[0] in multiset(sizes);
    assert sizes[0] in multiset(values);
    var i :| 0 <= i < |values| && values[i] == sizes[0];
    WalletSides(seen, ws[i]);
    assert ws[i] in ws;
  }

  function TotalBy(seen: seq<BetRecord>): string -> int {
    (w: string) => Total(seen, StakedBy(w))
  }

  /** The five largest are the first five, if there are as many, of the wallets' totals in falling order. */
  lemma TopFiveAre(seen: seq<BetRecord>, lockAt: int, events: seq<Event>) returns (totals: seq<int>)
    ensures multiset(totals) == multiset(Values(Wallets(seen), TotalBy(seen)))
    ensures forall i, j :: 0 <= i < j < |totals| ==> totals[i] >= totals[j]
    ensures AggregatesOf(seen, lockAt, events).topFive == SumInts(if |totals| > 5 then totals[..5] else totals)
  {
    hide Stake, Total, Wallets, Descending, SumInts, Sum, TopOf;
    totals := Sizes(seen);
    DescendingSorts(Values(Wallets(seen), WholeOf(seen)));
    forall k | 0 <= k < |Wallets(seen)| ensures WholeOf(seen)(Wallets(seen)[k]) == TotalBy(seen)(Wallets(seen)[k]) {
      WalletSides(seen, Wallets(seen)[k]);
    }
    assert Values(Wallets(seen), WholeOf(seen)) == Values(Wallets(seen), TotalBy(seen));
    assert |totals| <= 5 ==> |totals| == 5 ==> totals[..5] == totals;
  }

  lemma {:induction false} StakedIsNone(seen: seq<BetRecord>)
    ensures 0 <= Total(seen, Staked())
    ensures Total(seen, Staked()) == 0 <==> forall b :: b in seen ==> b.amountWei == 0
    ensures Wallets(seen) == [] <==> seen == []
  {
    if seen != [] {
      var front, b := seen[..|seen| - 1], seen[|seen| - 1];
      StakedIsNone(front);
      assert forall x :: x in seen <==> x in front || x == b;
    }
  }

  /** No features without a visible bet; an error for a bet on no side, and for bets that are all of nothing. */
  lemma ErrorsExactlyWhen(seen: seq<BetRecord>, lockAt: int, events: seq<Event>)
    ensures var r := FeaturesOf(seen, lockAt, events);
            && (r == Ok(NoBets) <==> seen == [])
            && (r == Err(PositionInvalid) <==> exists b :: b in seen && b.position != Bull && b.position != Bear)
            && (r == Err(DivisionByZero) <==>
                && seen != [] && (forall b :: b in seen ==> b.position == Bull || b.position == Bear)
                && forall b :: b in seen ==> b.amountWei == 0)
  {
    hide Total, Sum, Wallets, Sizes, FeaturesFrom;
    StakedIsNone(seen);
    PoolIsAll(seen);
    forall b | b in seen ensures OneSided(b) <==> b.position == Bull || b.position == Bear {
    }
    FromIsFeatures();
  }

  lemma FromIsFeatures()
    ensures forall s: Aggregates :: s.n != 0 && s.bull + s.bear != 0 ==> FeaturesFrom(s).Features?
  {
    hide Ratio, Bnb;
  }
}
