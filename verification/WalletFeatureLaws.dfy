/**
 * What the features of WalletFeatures.dfy depend on, and how large they can be.
 */
module WalletFeatureLaws {
  import opened Basics
  import opened Sums
  import opened WalletFeatures
  import opened Wagers

  // ---------------------------------------------------- order of settlement

  function Of(w: string): Event -> int {
    (e: Event) => if e.wallet == w then 1 else 0
  }

  function WonBy(w: string): Event -> int {
    (e: Event) => if e.wallet == w && e.won then 1 else 0
  }

  function StakedBy(w: string): Event -> int {
    (e: Event) => if e.wallet == w then e.amountWei else 0
  }

  /** A wallet's history is a count, a count of wins and a volume over its events. */
  lemma {:induction false} AfterIsTotals(events: seq<Event>, w: string)
    ensures 0 <= Total(events, WonBy(w)) <= Total(events, Of(w))
    ensures After(events, w) ==
            if Total(events, Of(w)) == 0 then None
            else Some(History(Total(events, Of(w)), Total(events, WonBy(w)), Bnb(Total(events, StakedBy(w)))))
    ensures Total(events, Of(w)) == 0 ==> Total(events, StakedBy(w)) == 0
  {
    hide Bnb;
    BnbOfNothing();
    if events != [] {
      var front, e := events[..|events| - 1], events[|events| - 1];
      AfterIsTotals(front, w);
      BnbAdds(Total(front, StakedBy(w)), e.amountWei);
    }
  }

  lemma BnbOfNothing()
    ensures Bnb(0) == 0.0
  {
  }

  /** So it does not matter in which order bets and rounds were settled. */
  lemma HistoryIgnoresOrder(a: seq<Event>, b: seq<Event>, w: string)
    requires multiset(a) == multiset(b)
    ensures After(a, w) == After(b, w)
  {
    hide After, Total, Of, WonBy, StakedBy;
    AfterIsTotals(a, w);
    AfterIsTotals(b, w);
    TotalIgnoresOrder(a, b, Of(w));
    TotalIgnoresOrder(a, b, WonBy(w));
    TotalIgnoresOrder(a, b, StakedBy(w));
  }

  /** Two stores that hold the same history for every wallet. */
  ghost predicate SameStore(a: seq<Event>, b: seq<Event>) {
    forall w: string :: After(a, w) == After(b, w)
  }

  /**
   * settle_round says it is idempotent.  Settling a round a second time leaves the store as it
   * was exactly when the round settles nothing.
   */
  lemma SettlingTwiceIsOnceExactlyWhen(before: seq<Event>, bets: seq<BetRecord>, winning: Option<Label>)
    ensures var once := before + EventsOf(bets, winning);
            SameStore(once + EventsOf(bets, winning), once) <==> bets == [] || winning == None
  {
    var e := EventsOf(bets, winning);
    if bets == [] || winning == None {
      assert before + e + e == before + e;
    } else {
      SettlesMore(before + e, e);
    }
  }

  lemma SettlesMore(before: seq<Event>, e: seq<Event>)
    requires e != []
    ensures !SameStore(before + e, before)
  {
    hide Total, Of, WonBy, StakedBy;
    var w := e[|e| - 1].wallet;
    AfterIsTotals(before, w);
    AfterIsTotals(before + e, w);
    TotalOfParts(before, e, Of(w));
    EventsOfWallet(e, w);
  }

  lemma {:induction false} TotalOfParts<T>(a: seq<T>, b: seq<T>, f: T -> int)
    ensures Total(a + b, f) == Total(a, f) + Total(b, f)
  {
    if b == [] {
      assert a + b == a;
    } else {
      TotalOfParts(a, b[..|b| - 1], f);
      assert (a + b)[..|a| + |b| - 1] == a + b[..|b| - 1];
    }
  }

  lemma EventsOfWallet(e: seq<Event>, w: string)
    requires e != [] && e[|e| - 1].wallet == w
    ensures 0 < Total(e, Of(w))
  {
    hide After;
    AfterIsTotals(e[..|e| - 1], w);
  }

  // -------------------------------------------------------- order of the bets

  lemma {:induction false} WalletsAreDistinct(seen: seq<BetRecord>)
    ensures forall i, j :: 0 <= i < j < |Wallets(seen)| ==> Wallets(seen)[i] != Wallets(seen)[j]
    ensures forall w :: w in Wallets(seen) <==> exists b :: b in seen && b.wallet == w
    ensures |Wallets(seen)| <= |seen|
  {
    if seen != [] {
      var front, b := seen[..|seen| - 1], seen[|seen| - 1];
      WalletsAreDistinct(front);
      assert forall x :: x in seen <==> x in front || x == b;
    }
  }

  lemma {:induction false} DistinctCounts(ws: seq<string>, w: string)
    requires forall i, j :: 0 <= i < j < |ws| ==> ws[i] != ws[j]
    ensures multiset(ws)[w] == if w in ws then 1 else 0
  {
    if ws != [] {
      var n := |ws| - 1;
      DistinctCounts(ws[..n], w);
      assert ws == ws[..n] + [ws[n]];
    }
  }

  lemma WalletsIgnoreOrder(a: seq<BetRecord>, b: seq<BetRecord>)
    requires multiset(a) == multiset(b)
    ensures multiset(Wallets(a)) == multiset(Wallets(b))
  {
    hide Wallets;
    WalletsAreDistinct(a);
    WalletsAreDistinct(b);
    SameElements(a, b);
    forall w ensures multiset(Wallets(a))[w] == multiset(Wallets(b))[w] {
      DistinctCounts(Wallets(a), w);
      DistinctCounts(Wallets(b), w);
      assert w in Wallets(a) <==> w in Wallets(b);
    }
  }

  lemma SameElements<T>(a: seq<T>, b: seq<T>)
    requires multiset(a) == multiset(b)
    ensures |a| == |b|
    ensures forall x :: x in a <==> x in b
  {
    assert |multiset(a)| == |a| && |multiset(b)| == |b|;
    forall x ensures x in a <==> x in b {
      assert x in a <==> x in multiset(a);
    }
  }

  lemma StakeIgnoresOrder(a: seq<BetRecord>, b: seq<BetRecord>, w: string, bull: bool)
    requires multiset(a) == multiset(b)
    ensures Stake(a, w, bull) == Stake(b, w, bull)
  {
    TotalIgnoresOrder(a, b, Size(w, bull));
  }

  /** The wallets' totals, sorted, do not depend on the order of the bets. */
  lemma SizesIgnoreOrder(a: seq<BetRecord>, b: seq<BetRecord>)
    requires multiset(a) == multiset(b)
    ensures Sizes(a) == Sizes(b)
  {
    hide Stake, Wallets, Descending;
    forall w ensures Whole(a, w) == Whole(b, w) {
      StakeIgnoresOrder(a, b, w, true);
      StakeIgnoresOrder(a, b, w, false);
    }
    assert Values(Wallets(a), WholeOf(a)) == Values(Wallets(a), WholeOf(b));
    WalletsIgnoreOrder(a, b);
    ValuesIgnoreOrder(Wallets(a), Wallets(b), WholeOf(b));
    DescendingIgnoresOrder(Values(Wallets(a), WholeOf(b)), Values(Wallets(b), WholeOf(b)));
  }

  lemma BetTotalsIgnoreOrder(a: seq<BetRecord>, b: seq<BetRecord>, lockAt: int)
    requires multiset(a) == multiset(b)
    ensures Total(a, Side(true)) == Total(b, Side(true)) && Total(a, Side(false)) == Total(b, Side(false))
    ensures var from := lockAt - LATE_FLOW_WINDOW;
            && Total(a, Late(true, from)) == Total(b, Late(true, from))
            && Total(a, Late(false, from)) == Total(b, Late(false, from))
    ensures var from := lockAt - BET_VELOCITY_WINDOW;
            Total(a, Recent(from)) == Total(b, Recent(from))
  {
    hide Total, Side, Late, Recent;
    TotalIgnoresOrder(a, b, Side(true));
    TotalIgnoresOrder(a, b, Side(false));
    TotalIgnoresOrder(a, b, Late(true, lockAt - LATE_FLOW_WINDOW));
    TotalIgnoresOrder(a, b, Late(false, lockAt - LATE_FLOW_WINDOW));
    TotalIgnoresOrder(a, b, Recent(lockAt - BET_VELOCITY_WINDOW));
  }

  lemma LeansIgnoreOrder(a: seq<BetRecord>, b: seq<BetRecord>)
    requires multiset(a) == multiset(b)
    ensures Total(Wallets(a), LeansBull(a)) == Total(Wallets(b), LeansBull(b))
  {
    hide Total, Wallets, Stake;
    WalletsIgnoreOrder(a, b);
    forall w ensures LeansBull(a)(w) == LeansBull(b)(w) {
      StakeIgnoresOrder(a, b, w, true);
      StakeIgnoresOrder(a, b, w, false);
    }
    TotalOfSame(Wallets(a), LeansBull(a), LeansBull(b));
    TotalIgnoresOrder(Wallets(a), Wallets(b), LeansBull(b));
  }

  lemma CountsIgnoreOrder(a: seq<BetRecord>, b: seq<BetRecord>, e: seq<Event>, f: seq<Event>)
    requires multiset(a) == multiset(b) && multiset(e) == multiset(f)
    ensures Total(Wallets(a), CountsFresh(e)) == Total(Wallets(b), CountsFresh(f))
    ensures Total(Wallets(a), CountsLoser(e)) == Total(Wallets(b), CountsLoser(f))
  {
    hide Total, Wallets, After;
    WalletsIgnoreOrder(a, b);
    forall w ensures CountsFresh(e)(w) == CountsFresh(f)(w) && CountsLoser(e)(w) == CountsLoser(f)(w) {
      HistoryIgnoresOrder(e, f, w);
    }
    TotalOfSame(Wallets(a), CountsFresh(e), CountsFresh(f));
    TotalOfSame(Wallets(a), CountsLoser(e), CountsLoser(f));
    TotalIgnoresOrder(Wallets(a), Wallets(b), CountsFresh(f));
    TotalIgnoresOrder(Wallets(a), Wallets(b), CountsLoser(f));
  }

  lemma SmartIgnoresOrder(a: seq<BetRecord>, b: seq<BetRecord>, e: seq<Event>, f: seq<Event>)
    requires multiset(a) == multiset(b) && multiset(e) == multiset(f)
    ensures Sum(Wallets(a), Backs(a, e)) == Sum(Wallets(b), Backs(b, f))
  {
    hide Sum, Wallets, After, Stake, Conviction;
    WalletsIgnoreOrder(a, b);
    forall w ensures Backs(a, e)(w) == Backs(b, f)(w) {
      HistoryIgnoresOrder(e, f, w);
      StakeIgnoresOrder(a, b, w, true);
      StakeIgnoresOrder(a, b, w, false);
    }
    SumOfSame(Wallets(a), Backs(a, e), Backs(b, f));
    SumIgnoresOrder(Wallets(a), Wallets(b), Backs(b, f));
  }

  /** Neither the order of the visible bets nor the order of earlier settlements changes a feature. */
  lemma FeaturesIgnoreOrder(a: seq<BetRecord>, b: seq<BetRecord>, lockAt: int, e: seq<Event>, f: seq<Event>)
    requires multiset(a) == multiset(b) && multiset(e) == multiset(f)
    ensures FeaturesOf(a, lockAt, e) == FeaturesOf(b, lockAt, f)
  {
    hide AggregatesOf, FeaturesFrom, OneSided;
    SameElements(a, b);
    AggregatesIgnoreOrder(a, b, lockAt, e, f);
  }

  lemma AggregatesIgnoreOrder(a: seq<BetRecord>, b: seq<BetRecord>, lockAt: int, e: seq<Event>, f: seq<Event>)
    requires multiset(a) == multiset(b) && multiset(e) == multiset(f)
    ensures AggregatesOf(a, lockAt, e) == AggregatesOf(b, lockAt, f)
  {
    hide Total, Sum, Wallets, Sizes, SumFirst, Side, Late, Recent, LeansBull, CountsFresh, CountsLoser, Backs;
    WalletsIgnoreOrder(a, b);
    SameElements(Wallets(a), Wallets(b));
    SizesIgnoreOrder(a, b);
    BetTotalsIgnoreOrder(a, b, lockAt);
    LeansIgnoreOrder(a, b);
    CountsIgnoreOrder(a, b, e, f);
    SmartIgnoresOrder(a, b, e, f);
  }
}
