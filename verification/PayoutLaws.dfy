/** Conservation over all bettors of a round, and the shape of the payout in the stake. */
module PayoutLaws {
  import opened Basics
  import opened Sums
  import opened Settlement
  import opened Wagers

  // ------------------------------------------------------------------- conservation

  /** Sum over the first `n` bettors: each paid its share of the winning side. */
  lemma {:induction false} PaidToWinners(round: Round, fee: real, n: nat)
    requires n <= |round.bets| && ValidBets(round.bets) && 0.0 <= fee < 1.0
    requires !round.failed && round.position.Some? && round.position != Some(Other)
    ensures PaidOut(round, fee, n) ==
            if round.position == Some(House) then 0.0
            else Scaled(Bnb(SideWei(round.bets[..n], round.position.value)), Rate(round.bets, round.position.value, fee))
  {
    hide SideWei, Rate, Scaled, Bnb, ValidBets, SettleOwn;
    var winner := round.position.value;
    if n == 0 {
      SideNone(winner);
      NothingScaled(Rate(round.bets, winner, fee));
      assert round.bets[..0] == [];
    } else {
      var b := round.bets[n - 1];
      PaidToWinners(round, fee, n - 1);
      OwnBetGross(round, n - 1, fee);
      BettorSide(round.bets, n - 1);
      assert round.bets[..n] == round.bets[..n - 1] + [b];
      SideSnoc(round.bets[..n - 1], b, winner);
      ScaledAdds(SideWei(round.bets[..n - 1], winner), b.amountWei, Rate(round.bets, winner, fee));
    }
  }

  lemma BettorSide(bets: seq<Bet>, i: nat)
    requires i < |bets| && ValidBets(bets)
    ensures bets[i].position == Bull || bets[i].position == Bear
  {
    assert ErrorOf(bets[i]) == None;
  }

  lemma SideNone(side: Label)
    ensures SideWei([], side) == 0
  {
  }

  lemma NothingScaled(rate: real)
    ensures Scaled(Bnb(0), rate) == 0.0
  {
  }

  lemma ScaledAdds(a: int, b: int, rate: real)
    ensures Scaled(Bnb(a), rate) + Scaled(Bnb(b), rate) == Scaled(Bnb(a + b), rate)
  {
  }

  /** In a failed round every bettor is paid the stake back. */
  lemma {:induction false} PaidBack(round: Round, fee: real, n: nat)
    requires n <= |round.bets| && ValidBets(round.bets) && 0.0 <= fee < 1.0 && round.failed
    ensures PaidOut(round, fee, n) == TotalBnb(round.bets[..n])
  {
    hide SideWei, Bnb, ValidBets, SettleOwn;
    if n == 0 {
      SideNone(Bull);
      SideNone(Bear);
      ZeroBnb();
      assert round.bets[..0] == [];
    } else {
      var b := round.bets[n - 1];
      PaidBack(round, fee, n - 1);
      OwnBetGross(round, n - 1, fee);
      BettorSide(round.bets, n - 1);
      assert round.bets[..n] == round.bets[..n - 1] + [b];
      SideSnoc(round.bets[..n - 1], b, Bull);
      SideSnoc(round.bets[..n - 1], b, Bear);
      BnbAdds(SideWei(round.bets[..n - 1], b.position), b.amountWei);
    }
  }

  lemma ZeroBnb()
    ensures Bnb(0) == 0.0
  {
  }

  /**
   * Conservation.  Settle every bet of a round against the round with that bet removed and
   * add what is paid, before claim gas: all stakes on a failed round; (1 - fee) of all stakes
   * when somebody backed the winner; nothing on a tie or when nobody did.  Never more than
   * was staked.
   */
  lemma Conservation(round: Round, fee: real)
    requires ValidBets(round.bets) && 0.0 <= fee < 1.0
    requires round.failed || (round.position.Some? && round.position != Some(Other))
    ensures var paid, staked := PaidOut(round, fee, |round.bets|), TotalBnb(round.bets);
            && paid == (if round.failed then staked
                        else if SideWei(round.bets, round.position.value) > 0 then staked * (1.0 - fee)
                        else 0.0)
            && paid <= staked
  {
    hide SideWei, PaidOut, ValidBets, Rate, TotalBnb, Scaled, Bnb;
    var bets := round.bets;
    assert bets[..|bets|] == bets;
    StakedIsPositive(bets);
    if round.failed {
      PaidBack(round, fee, |bets|);
    } else {
      var winner := round.position.value;
      PaidToWinners(round, fee, |bets|);
      if winner == House {
        NobodyBacksHouse(bets);
      } else {
        WholePool(bets, winner, fee);
      }
      FeeTakes(TotalBnb(bets), fee);
    }
  }

  lemma StakedIsPositive(bets: seq<Bet>)
    requires ValidBets(bets)
    ensures SideWei(bets, Bull) >= 0 && SideWei(bets, Bear) >= 0 && TotalBnb(bets) >= 0.0
  {
    hide SideWei;
    ValidBetsFold(bets);
    BnbAdds(SideWei(bets, Bull), SideWei(bets, Bear));
    BnbAdds(SideWei(bets, Bear), SideWei(bets, Bull));
  }

  lemma FeeTakes(staked: real, fee: real)
    requires 0.0 <= staked && 0.0 <= fee < 1.0
    ensures 0.0 <= staked * (1.0 - fee) <= staked
  {
  }

  lemma {:induction false} NobodyBacksHouse(bets: seq<Bet>)
    requires ValidBets(bets)
    ensures SideWei(bets, House) == 0
  {
    if bets != [] {
      assert ErrorOf(bets[|bets| - 1]) == None;
      NobodyBacksHouse(bets[..|bets| - 1]);
    }
  }

  /** The winning side, paid at its rate, gets the whole pool after the fee. */
  lemma WholePool(bets: seq<Bet>, winner: Label, fee: real)
    requires winner == Bull || winner == Bear
    requires SideWei(bets, Bull) >= 0 && SideWei(bets, Bear) >= 0
    ensures Scaled(Bnb(SideWei(bets, winner)), Rate(bets, winner, fee)) ==
            if SideWei(bets, winner) > 0 then TotalBnb(bets) * (1.0 - fee) else 0.0
  {
    hide SideWei, Bnb;
    var side, total := Bnb(SideWei(bets, winner)), TotalBnb(bets);
    BnbIsPositive(SideWei(bets, Bull));
    BnbIsPositive(SideWei(bets, Bear));
    BnbAdds(SideWei(bets, Bull), SideWei(bets, Bear));
    if SideWei(bets, winner) > 0 {
      assert Rate(bets, winner, fee) == PerUnit(total, fee, side);
      DivideBack(total * (1.0 - fee), side);
    } else {
      ZeroBnb();
      NothingScaled(Rate(bets, winner, fee));
    }
  }

  lemma DivideBack(a: real, b: real)
    requires b > 0.0
    ensures b * (a / b) == a
  {
  }

  // -------------------------------------------------------------- the payout curve

  /** The part of its own side's pool that a stake makes up. */
  function Share(own: real, x: real): real
    requires 0.0 <= own && 0.0 <= x
  {
    if own + x == 0.0 then 0.0 else x / (own + x)
  }

  /** The payout is the stake plus its share of the opposing pool, after the fee. */
  lemma PayoutIsShare(own: real, opposing: real, fee: real, x: real)
    requires 0.0 <= own && 0.0 <= opposing && 0.0 <= x
    ensures Payout(own, opposing, fee, x) == (1.0 - fee) * (x + opposing * Share(own, x))
  {
    var d := own + x;
    if d > 0.0 {
      assert Multiple(own, opposing, fee, x) == ((d + opposing) * (1.0 - fee)) / d;
      SplitQuotient(x, d, opposing, 1.0 - fee);
    }
  }

  lemma SplitQuotient(x: real, d: real, opposing: real, k: real)
    requires d > 0.0
    ensures x * (((d + opposing) * k) / d) == k * (x + opposing * (x / d))
  {
    var q, r := ((d + opposing) * k) / d, x / d;
    DivideBack((d + opposing) * k, d);
    DivideBack(x, d);
    ScaledQuotient(x, d, opposing, k, q, r);
    CancelFactor(d, x * q, k * (x + opposing * r));
  }

  lemma ScaledQuotient(x: real, d: real, opposing: real, k: real, q: real, r: real)
    requires d * q == (d + opposing) * k && d * r == x
    ensures d * (x * q) == d * (k * (x + opposing * r))
  {
    assert d * (x * q) == x * (d * q);
    assert d * (k * (x + opposing * r)) == k * (d * x + opposing * (d * r));
  }

  lemma CancelFactor(d: real, a: real, b: real)
    requires d > 0.0 && d * a == d * b
    ensures a == b
  {
  }

  /** How much a share grows when `h` is added to the stake. */
  lemma ShareStep(own: real, x: real, h: real)
    requires 0.0 <= own && 0.0 <= x && 0.0 <= h && own + x > 0.0
    ensures (own + x) * (own + x + h) > 0.0
    ensures Share(own, x + h) - Share(own, x) == (own * h) / ((own + x) * (own + x + h))
  {
    var d, e := own + x, own + x + h;
    var a, b := (x + h) / e, x / d;
    DivideBack(x + h, e);
    DivideBack(x, d);
    PositiveProduct(d, e);
    StepDifference(own, x, h, a, b);
    DivideBack(own * h, d * e);
    CancelFactor(d * e, a - b, (own * h) / (d * e));
  }

  lemma StepDifference(own: real, x: real, h: real, a: real, b: real)
    requires (own + x + h) * a == x + h && (own + x) * b == x
    ensures ((own + x) * (own + x + h)) * (a - b) == own * h
  {
    var d, e := own + x, own + x + h;
    assert (d * e) * (a - b) == d * (e * a) - e * (d * b);
  }

  lemma PositiveProduct(a: real, b: real)
    requires a > 0.0 && b > 0.0
    ensures a * b > 0.0
  {
  }

  lemma ScaleOrder(k: real, a: real, b: real)
    requires 0.0 <= k && a <= b
    ensures k * a <= k * b
    ensures k > 0.0 && a < b ==> k * a < k * b
  {
  }

  /** Order is read back from products with a positive factor. */
  lemma CancelOrder(k: real, a: real, b: real)
    requires k > 0.0 && k * a <= k * b
    ensures a <= b
  {
  }

  lemma QuotientOrder(a: real, p: real, q: real)
    requires 0.0 <= a && 0.0 < p <= q
    ensures 0.0 <= a / q <= a / p
  {
    var u, v := a / p, a / q;
    DivideBack(a, p);
    DivideBack(a, q);
    CancelOrder(p, 0.0, u);
    CancelOrder(q, 0.0, v);
    ScaleOrder(u, p, q);
    CancelOrder(q, v, u);
  }

  lemma ProductOrder(a: real, b: real, c: real, d: real)
    requires 0.0 <= a <= b && 0.0 <= c <= d
    ensures 0.0 <= a * c <= b * d
  {
    ScaleOrder(c, a, b);
    ScaleOrder(b, c, d);
    ScaleOrder(a, 0.0, c);
  }

  /** Shares never fall, and the same increment adds less to a larger stake. */
  lemma ShareShape(own: real, x: real, y: real, h: real)
    requires 0.0 <= own && 0.0 <= x <= y && 0.0 <= h
    ensures 0.0 <= Share(own, y + h) - Share(own, y)
    ensures Share(own, y + h) - Share(own, y) <= Share(own, x + h) - Share(own, x)
  {
    hide Share;
    if own + x > 0.0 {
      ShareStep(own, x, h);
      ShareStep(own, y, h);
      ProductOrder(own, own, h, h);
      ProductOrder(own + x, own + y, own + x + h, own + y + h);
      QuotientOrder(own * h, (own + x) * (own + x + h), (own + y) * (own + y + h));
    } else {
      // an empty pool: any positive stake is all of it
      WholeShare(x);
      WholeShare(x + h);
      WholeShare(y + h);
      WholeShare(y);
    }
  }

  lemma WholeShare(x: real)
    requires 0.0 <= x
    ensures Share(0.0, x) == if x == 0.0 then 0.0 else 1.0
  {
    if x > 0.0 {
      DivideBack(x, x);
      CancelFactor(x, x / x, 1.0);
    }
  }

  lemma ShareRises(own: real, x: real, y: real)
    requires 0.0 <= own && 0.0 <= x <= y
    ensures Share(own, x) <= Share(own, y)
  {
    hide Share;
    assert x + (y - x) == y;
    ShareShape(own, x, x, y - x);
  }

  /** A larger stake is paid strictly more. */
  lemma PayoutIncreases(own: real, opposing: real, fee: real, x: real, y: real)
    requires 0.0 <= own && 0.0 <= opposing && 0.0 <= fee < 1.0 && 0.0 <= x < y
    ensures Payout(own, opposing, fee, x) < Payout(own, opposing, fee, y)
  {
    hide Payout, Share;
    PayoutIsShare(own, opposing, fee, x);
    PayoutIsShare(own, opposing, fee, y);
    ShareRises(own, x, y);
    var s, t := Share(own, x), Share(own, y);
    ScaleOrder(opposing, s, t);
    Scales(1.0 - fee, x + opposing * s, y + opposing * t,
           Payout(own, opposing, fee, x), Payout(own, opposing, fee, y));
  }

  lemma Scales(k: real, u: real, v: real, p: real, q: real)
    requires k > 0.0 && u < v && p == k * u && q == k * v
    ensures p < q
  {
    ScaleOrder(k, u, v);
  }

  lemma StrictQuotient(a: real, p: real, q: real)
    requires 0.0 < a && 0.0 < p < q
    ensures a / q < a / p
  {
    var u, v := a / p, a / q;
    QuotientOrder(a, p, q);
    DivideBack(a, p);
    DivideBack(a, q);
    if u == v {
      SameFactor(p, q, u, a);
    }
  }

  lemma SameFactor(p: real, q: real, u: real, a: real)
    requires p * u == a && q * u == a && p < q
    ensures a == 0.0
  {
    assert (q - p) * u == 0.0;
    if u > 0.0 {
      PositiveProduct(q - p, u);
    } else if u < 0.0 {
      PositiveProduct(q - p, -u);
    }
  }

  lemma StrictProduct(d: real, e: real, h: real)
    requires 0.0 < d < e && 0.0 <= h
    ensures d * (d + h) < e * (e + h)
  {
    ScaleOrder(d + h, d, e);
    ScaleOrder(e, d + h, e + h);
  }

  /** Shares of a pool that others are in grow strictly less and less. */
  lemma ShareDiminishes(own: real, x: real, y: real, h: real)
    requires 0.0 < own && 0.0 <= x < y && 0.0 < h
    ensures Share(own, y + h) - Share(own, y) < Share(own, x + h) - Share(own, x)
  {
    hide Share;
    ShareStep(own, x, h);
    ShareStep(own, y, h);
    PositiveProduct(own, h);
    StrictProduct(own + x, own + y, h);
    StrictQuotient(own * h, (own + x) * (own + x + h), (own + y) * (own + y + h));
  }

  lemma ShareDiminishesExactlyWhen(own: real, x: real, y: real, h: real)
    requires 0.0 <= own && 0.0 <= x <= y && 0.0 <= h
    ensures Share(own, y + h) - Share(own, y) < Share(own, x + h) - Share(own, x)
            <==> 0.0 < h && x < y && (0.0 < own || x == 0.0)
  {
    hide Share;
    if own == 0.0 {
      WholeShare(x);
      WholeShare(x + h);
      WholeShare(y);
      WholeShare(y + h);
    } else if x < y && 0.0 < h {
      ShareDiminishes(own, x, y, h);
    }
  }

  /** How much a payout grows when `h` is added to the stake. */
  function Added(own: real, opposing: real, fee: real, x: real, h: real): real {
    Payout(own, opposing, fee, x + h) - Payout(own, opposing, fee, x)
  }

  /**
   * The same increment adds no more to a larger stake, and strictly less exactly against a
   * positive opposing pool, unless the stake already had its side to itself.
   */
  lemma PayoutDiminishes(own: real, opposing: real, fee: real, x: real, y: real, h: real)
    requires 0.0 <= own && 0.0 <= opposing && 0.0 <= fee < 1.0 && 0.0 <= x <= y && 0.0 <= h
    ensures Added(own, opposing, fee, y, h) <= Added(own, opposing, fee, x, h)
    ensures Added(own, opposing, fee, y, h) < Added(own, opposing, fee, x, h)
            <==> 0.0 < opposing && 0.0 < h && x < y && (0.0 < own || x == 0.0)
  {
    hide Payout, Share;
    AddedIs(own, opposing, fee, x, h);
    AddedIs(own, opposing, fee, y, h);
    ShareShape(own, x, y, h);
    ShareDiminishesExactlyWhen(own, x, y, h);
    hide Added;
    Compare(1.0 - fee, opposing, h, Share(own, y + h) - Share(own, y), Share(own, x + h) - Share(own, x),
            Added(own, opposing, fee, y, h), Added(own, opposing, fee, x, h));
  }

  lemma AddedIs(own: real, opposing: real, fee: real, x: real, h: real)
    requires 0.0 <= own && 0.0 <= opposing && 0.0 <= x && 0.0 <= h
    ensures Added(own, opposing, fee, x, h) == (1.0 - fee) * (h + opposing * (Share(own, x + h) - Share(own, x)))
  {
    hide Payout, Share;
    PayoutIsShare(own, opposing, fee, x);
    PayoutIsShare(own, opposing, fee, x + h);
    Increment(1.0 - fee, opposing, x, h, Share(own, x), Share(own, x + h));
  }

  lemma Compare(k: real, opposing: real, h: real, s: real, t: real, p: real, q: real)
    requires 0.0 < k && 0.0 <= opposing && s <= t
    requires p == k * (h + opposing * s) && q == k * (h + opposing * t)
    ensures p <= q && (p < q <==> 0.0 < opposing && s < t)
  {
    ScaleOrder(opposing, s, t);
    ScaleOrder(k, h + opposing * s, h + opposing * t);
  }

  lemma Increment(k: real, opposing: real, x: real, h: real, s: real, t: real)
    ensures k * (x + h + opposing * t) - k * (x + opposing * s) == k * (h + opposing * (t - s))
  {
  }

  /** The multiple strictly falls with the stake against a positive opposing pool, and is flat against none. */
  lemma MultipleFalls(own: real, opposing: real, fee: real, x: real, y: real)
    requires 0.0 <= own && 0.0 <= opposing && 0.0 <= fee < 1.0 && 0.0 <= x < y && 0.0 < own + x
    ensures if opposing > 0.0 then Multiple(own, opposing, fee, y) < Multiple(own, opposing, fee, x)
            else Multiple(own, opposing, fee, y) == Multiple(own, opposing, fee, x) == 1.0 - fee
  {
    hide PerUnit;
    var k, d, e := 1.0 - fee, own + x, own + y;
    PerUnitIs(d + opposing, fee, d);
    PerUnitIs(e + opposing, fee, e);
    var u, v := PerUnit(d + opposing, fee, d), PerUnit(e + opposing, fee, e);
    CrossDifference(k, d, e, opposing, u, v);
    PositiveProduct(d, e);
    if opposing > 0.0 {
      PositiveProduct(opposing, k);
      PositiveProduct(opposing * k, e - d);
      if u <= v {
        ScaleOrder(d * e, u - v, 0.0);
        assert false;
      }
    } else {
      FlatMultiple(d, opposing, k, u);
      FlatMultiple(e, opposing, k, v);
    }
  }

  lemma FlatMultiple(d: real, opposing: real, k: real, u: real)
    requires d > 0.0 && opposing == 0.0 && d * u == (d + opposing) * k
    ensures u == k
  {
    var sum := d + opposing;
    assert sum == d;
    CancelFactor(d, u, k);
  }

  lemma PerUnitIs(total: real, fee: real, denom: real)
    requires denom > 0.0
    ensures denom * PerUnit(total, fee, denom) == total * (1.0 - fee)
  {
    DivideBack(total * (1.0 - fee), denom);
  }

  lemma CrossDifference(k: real, d: real, e: real, opposing: real, u: real, v: real)
    requires d * u == (d + opposing) * k && e * v == (e + opposing) * k
    ensures (d * e) * (u - v) == opposing * k * (e - d)
  {
    assert (d * e) * (u - v) == e * (d * u) - d * (e * v);
  }

  /** No stake is paid more than itself and the whole opposing pool, after the fee. */
  lemma PayoutBounded(own: real, opposing: real, fee: real, x: real)
    requires 0.0 <= own && 0.0 <= opposing && 0.0 <= fee < 1.0 && 0.0 <= x
    ensures 0.0 <= Payout(own, opposing, fee, x) <= (1.0 - fee) * (x + opposing)
  {
    hide Payout;
    PayoutIsShare(own, opposing, fee, x);
    var s := Share(own, x);
    ShareBounds(own, x);
    ScaleOrder(opposing, 0.0, s);
    ScaleOrder(opposing, s, 1.0);
    ScaleOrder(1.0 - fee, 0.0, x + opposing * s);
    ScaleOrder(1.0 - fee, x + opposing * s, x + opposing);
  }

  lemma ProperFactor(d: real, r: real, x: real)
    requires d > 0.0 && d * r == x && 0.0 <= x <= d
    ensures 0.0 <= r <= 1.0
  {
    CancelOrder(d, 0.0, r);
    CancelOrder(d, r, 1.0);
  }

  lemma ShareBounds(own: real, x: real)
    requires 0.0 <= own && 0.0 <= x
    ensures 0.0 <= Share(own, x) <= 1.0
  {
    if own + x > 0.0 {
      DivideBack(x, own + x);
      ProperFactor(own + x, x / (own + x), x);
    }
  }

  // ------------------------------------------------------------- splitting a stake

  /** The first `n` parts, each settled with all the other parts in its own side's pool. */
  function PaidInParts(own: real, opposing: real, fee: real, parts: seq<real>, n: nat): real
    requires n <= |parts|
  {
    if n == 0 then 0.0 else
      var x := parts[n - 1];
      PaidInParts(own, opposing, fee, parts, n - 1) + Payout(own + (SumReals(parts) - x), opposing, fee, x)
  }

  lemma {:induction false} PartsAddUp(own: real, opposing: real, fee: real, parts: seq<real>, n: nat)
    requires n <= |parts|
    ensures PaidInParts(own, opposing, fee, parts, n) ==
            Scaled(SumReals(parts[..n]), Multiple(own, opposing, fee, SumReals(parts)))
  {
    hide Multiple;
    var m := Multiple(own, opposing, fee, SumReals(parts));
    if n == 0 {
      assert parts[..0] == [];
    } else {
      var x := parts[n - 1];
      PartsAddUp(own, opposing, fee, parts, n - 1);
      SameMultiple(own, opposing, fee, x, SumReals(parts));
      assert parts[..n][..n - 1] == parts[..n - 1];
      assert SumReals(parts[..n]) == SumReals(parts[..n - 1]) + x;
      Distribute(SumReals(parts[..n - 1]), x, m);
    }
  }

  lemma Distribute(a: real, b: real, m: real)
    ensures Scaled(a, m) + Scaled(b, m) == Scaled(a + b, m)
  {
  }

  lemma SameMultiple(own: real, opposing: real, fee: real, x: real, all: real)
    ensures Multiple(own + (all - x), opposing, fee, x) == Multiple(own, opposing, fee, all)
  {
    assert own + (all - x) + x == own + all;
  }

  /** Splitting a stake into same-side parts earns the same total before claim gas. */
  lemma SplittingIsNeutral(own: real, opposing: real, fee: real, parts: seq<real>)
    ensures PaidInParts(own, opposing, fee, parts, |parts|) == Payout(own, opposing, fee, SumReals(parts))
  {
    hide Multiple, Scaled, PaidInParts, SumReals;
    PartsAddUp(own, opposing, fee, parts, |parts|);
    assert parts[..|parts|] == parts;
  }
}
