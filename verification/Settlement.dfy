/**
 * Pari-mutuel settlement: folding a round's bets into pools, and the four separately written
 * routines that settle one bet against them (pancakebot/settlement.py, pancakebot/pool_amounts.py
 * and two research scripts).  Amounts are in wei, pools and credits in BNB.
 */
module Settlement {
  import opened Basics
  import opened Sums
  import opened Wagers

  datatype Bet = Bet(wallet: string, amountWei: int, position: Label, createdAt: int)

  datatype Round = Round(failed: bool, position: Option<Label>, bets: seq<Bet>)

  datatype Error =
    | NegativeBet | FeeOutOfRange | SideInvalid | RoundNotClosed | WinnerInvalid
    | AmountNotPositive | PositionInvalid | BullBearExceedTotal

  datatype Outcome = Win | Loss | Refund

  datatype Settled = Settled(outcome: Outcome, credit: real, multiple: real)

  datatype Pools = Pools(total: int, bull: int, bear: int)

  const BET_GAS := 0.0002     // 200000 gas at 1 gwei, in BNB
  const CLAIM_GAS := 0.00025  // 250000 gas at 1 gwei, in BNB

  // -------------------------------------------------------------------------- pools

  function ErrorOf(b: Bet): Option<Error> {
    if b.amountWei <= 0 then Some(AmountNotPositive)
    else if b.position != Bull && b.position != Bear then Some(PositionInvalid)
    else None
  }

  /** The error that the fold stops at: the first bet that has one. */
  function FirstError(bets: seq<Bet>): Option<Error> {
    if bets == [] then None else
      var before := FirstError(bets[..|bets| - 1]);
      if before.Some? then before else ErrorOf(bets[|bets| - 1])
  }

  lemma FirstErrorSnoc(bets: seq<Bet>, b: Bet)
    ensures FirstError(bets + [b]) == if FirstError(bets).Some? then FirstError(bets) else ErrorOf(b)
  {
    assert (bets + [b])[..|bets|] == bets;
  }

  function SideWei(bets: seq<Bet>, side: Label): int {
    if bets == [] then 0 else
      var b := bets[|bets| - 1];
      SideWei(bets[..|bets| - 1], side) + if b.position == side then b.amountWei else 0
  }

  function PoolsOf(bets: seq<Bet>): Result<Pools, Error> {
    var e := FirstError(bets);
    if e.Some? then Err(e.value) else
      var bull, bear := SideWei(bets, Bull), SideWei(bets, Bear);
      Ok(Pools(bull + bear, bull, bear))
  }

  method ComputePoolAmountsWei(bets: seq<Bet>) returns (r: Result<Pools, Error>)
    ensures r == PoolsOf(bets)
  {
    var total, bull, bear := 0, 0, 0;
    for i := 0 to |bets|
      invariant FirstError(bets[..i]) == None
      invariant bull == SideWei(bets[..i], Bull) && bear == SideWei(bets[..i], Bear)
      invariant total == bull + bear
    {
      var b := bets[i];
      assert bets[..i + 1][..i] == bets[..i];
      if b.amountWei <= 0 {
        ErrorStays(bets, i + 1);
        return Err(AmountNotPositive);
      }
      total := total + b.amountWei;
      if b.position == Bull {
        bull := bull + b.amountWei;
      } else if b.position == Bear {
        bear := bear + b.amountWei;
      } else {
        ErrorStays(bets, i + 1);
        return Err(PositionInvalid);
      }
    }
    assert bets[..|bets|] == bets;
    if bull + bear > total {
      return Err(BullBearExceedTotal);
    }
    r := Ok(Pools(total, bull, bear));
  }

  lemma {:induction false} ErrorStays(bets: seq<Bet>, n: nat)
    requires n <= |bets| && FirstError(bets[..n]).Some?
    ensures FirstError(bets) == FirstError(bets[..n])
    decreases |bets|
  {
    if n == |bets| {
      assert bets[..n] == bets;
    } else {
      assert bets[..|bets| - 1][..n] == bets[..n];
      ErrorStays(bets[..|bets| - 1], n);
    }
  }

  function Before(bets: seq<Bet>, cutoff: int): seq<Bet> {
    if bets == [] then [] else
      var b := bets[|bets| - 1];
      Before(bets[..|bets| - 1], cutoff) + if b.createdAt < cutoff then [b] else []
  }

  /** Exactly the bets placed before the cutoff, each as often as it was placed. */
  lemma {:induction false} BeforeMultiplicity(bets: seq<Bet>, cutoff: int, b: Bet)
    ensures multiset(Before(bets, cutoff))[b] == if b.createdAt < cutoff then multiset(bets)[b] else 0
  {
    if bets != [] {
      var n := |bets| - 1;
      BeforeMultiplicity(bets[..n], cutoff, b);
      assert bets == bets[..n] + [bets[n]];
    }
  }

  method ComputePoolAmountsWeiBefore(bets: seq<Bet>, cutoff: int) returns (r: Result<Pools, Error>)
    ensures r == PoolsOf(Before(bets, cutoff))
  {
    var eligible: seq<Bet> := [];
    for i := 0 to |bets|
      invariant eligible == Before(bets[..i], cutoff)
    {
      assert bets[..i + 1][..i] == bets[..i];
      if bets[i].createdAt < cutoff {
        eligible := eligible + [bets[i]];
      }
    }
    assert bets[..|bets|] == bets;
    r := ComputePoolAmountsWei(eligible);
  }

  // ----------------------------------------------------------- the four routines

  /** The payout per unit staked: the pools after the fee over the winning side. */
  function PerUnit(total: real, fee: real, denom: real): real
    requires denom > 0.0
  {
    (total * (1.0 - fee)) / denom
  }

  function Scaled(bet: real, multiple: real): real {
    bet * multiple
  }

  /** settle_from_round_data: from the chain's own record of the round. */
  function SettleFromRoundData(
    bet: real, side: Label, lockPrice: real, closePrice: real,
    bullWei: int, bearWei: int, oracleCalled: bool, fee: real): Result<Settled, Error>
  {
    if bet < 0.0 then Err(NegativeBet)
    else if !(0.0 <= fee < 1.0) then Err(FeeOutOfRange)
    else if side != Bull && side != Bear then Err(SideInvalid)
    else if !oracleCalled then Ok(Settled(Refund, bet - CLAIM_GAS, 0.0))
    else if closePrice == lockPrice then Ok(Settled(Loss, 0.0, 0.0))
    else
      var winner := if closePrice > lockPrice then Bull else Bear;
      if winner != side then Ok(Settled(Loss, 0.0, 0.0)) else
        var bull := Bnb(bullWei) + if side == Bull then bet else 0.0;
        var bear := Bnb(bearWei) + if side == Bear then bet else 0.0;
        var total := bull + bear;
        var denom := if side == Bull then bull else bear;
        if denom <= 0.0 || total <= 0.0 then Ok(Settled(Win, -CLAIM_GAS, 0.0)) else
          var multiple := PerUnit(total, fee, denom);
          Ok(Settled(Win, Scaled(bet, multiple) - CLAIM_GAS, multiple))
  }

  /** settle_bet_against_closed_round: from the stored round and its list of bets. */
  function SettleAgainstClosedRound(bet: real, side: Label, round: Round, fee: real): Result<Settled, Error> {
    if bet < 0.0 then Err(NegativeBet)
    else if !(0.0 <= fee < 1.0) then Err(FeeOutOfRange)
    else if side != Bull && side != Bear then Err(SideInvalid)
    else if round.failed then Ok(Settled(Refund, bet - CLAIM_GAS, 0.0))
    else if round.position == None then Err(RoundNotClosed)
    else
      var winner := round.position.value;
      var pools := PoolsOf(round.bets);
      if pools.Err? then Err(pools.error)
      else if winner == Other then Err(WinnerInvalid)
      else if winner != side then Ok(Settled(Loss, 0.0, 0.0))
      else
        var bull := Bnb(pools.value.bull) + if side == Bull then bet else 0.0;
        var bear := Bnb(pools.value.bear) + if side == Bear then bet else 0.0;
        var total := bull + bear;
        var denom := if side == Bull then bull else bear;
        if denom <= 0.0 || total <= 0.0 then Ok(Settled(Win, -CLAIM_GAS, 0.0)) else
          var multiple := PerUnit(total, fee, denom);
          Ok(Settled(Win, Scaled(bet, multiple) - CLAIM_GAS, multiple))
  }

  const RESEARCH_FEE := 0.03

  /** What the research scripts keep of a round: pools are zero for a failed one. */
  datatype RoundData = RoundData(winner: Option<Label>, failed: bool, bullPool: real, bearPool: real)

  /** _load_slice_rounds. */
  function LoadRoundData(round: Round): Result<RoundData, Error> {
    if round.failed then Ok(RoundData(round.position, true, 0.0, 0.0)) else
      var pools := PoolsOf(round.bets);
      if pools.Err? then Err(pools.error)
      else Ok(RoundData(round.position, false, Bnb(pools.value.bull), Bnb(pools.value.bear)))
  }

  /** _settle_against_winner of research/extension_v2_permutation.py: profit, not credit. */
  function SettleAgainstWinner(
    bet: real, side: Label, winner: Option<Label>, failed: bool, bullPool: real, bearPool: real): real
  {
    if failed then -BET_GAS - CLAIM_GAS
    else if winner == None then -BET_GAS - CLAIM_GAS
    else if side != winner.value then -bet - BET_GAS
    else
      var bull := bullPool + if side == Bull then bet else 0.0;
      var bear := bearPool + if side == Bear then bet else 0.0;
      var total := bull + bear;
      var denom := if side == Bull then bull else bear;
      if denom <= 0.0 || total <= 0.0 then -bet - BET_GAS - CLAIM_GAS else
        var multiple := PerUnit(total, RESEARCH_FEE, denom);
        Scaled(bet, multiple) - CLAIM_GAS - bet - BET_GAS
  }

  /** _settle of research/new_cohort_permutation_2026_06_11.py. */
  function SettleNewCohort(bet: real, side: Label, rd: RoundData): real {
    if rd.failed || rd.winner == None then -BET_GAS - CLAIM_GAS
    else if side != rd.winner.value then -bet - BET_GAS
    else
      var bull := rd.bullPool + if side == Bull then bet else 0.0;
      var bear := rd.bearPool + if side == Bear then bet else 0.0;
      var denom := if side == Bull then bull else bear;
      if denom <= 0.0 || bull + bear <= 0.0 then -bet - BET_GAS - CLAIM_GAS else
        var multiple := PerUnit(bull + bear, RESEARCH_FEE, denom);
        Scaled(bet, multiple) - CLAIM_GAS - bet - BET_GAS
  }

  // ---------------------------------------------------------------------- agreement

  /** How the chain decides a round whose oracle was called. */
  function PositionOf(lockPrice: real, closePrice: real): Label {
    if closePrice > lockPrice then Bull else if closePrice < lockPrice then Bear else House
  }

  /** The stored round tells the same story as the chain's record of it; of a failed one only that it failed. */
  predicate Describes(round: Round, lockPrice: real, closePrice: real, bullWei: int, bearWei: int, oracleCalled: bool) {
    && round.failed == !oracleCalled
    && (!round.failed ==>
          && PoolsOf(round.bets) == Ok(Pools(bullWei + bearWei, bullWei, bearWei))
          && round.position == Some(PositionOf(lockPrice, closePrice)))
  }

  /** The chain form and the stored form settle every bet alike, rejected arguments included. */
  lemma ChainAndStoreAgree(
    bet: real, side: Label, fee: real,
    round: Round, lockPrice: real, closePrice: real, bullWei: int, bearWei: int, oracleCalled: bool)
    requires Describes(round, lockPrice, closePrice, bullWei, bearWei, oracleCalled)
    ensures SettleFromRoundData(bet, side, lockPrice, closePrice, bullWei, bearWei, oracleCalled, fee)
            == SettleAgainstClosedRound(bet, side, round, fee)
  {
    hide PerUnit, Scaled, Bnb, FirstError, SideWei;
  }

  /** Credit minus stake minus bet gas. */
  function Profit(s: Settled, bet: real): real {
    s.credit - bet - BET_GAS
  }

  /** What a stake of `x` is paid per BNB when it joins `own` against `opposing`. */
  function Multiple(own: real, opposing: real, fee: real, x: real): real {
    if own + x <= 0.0 || own + x + opposing <= 0.0 then 0.0
    else PerUnit(own + x + opposing, fee, own + x)
  }

  function Payout(own: real, opposing: real, fee: real, x: real): real {
    Scaled(x, Multiple(own, opposing, fee, x))
  }

  function Opposite(side: Label): Label {
    if side == Bull then Bear else Bull
  }

  /** A winning bet is credited its payout with its own stake in the pool, less claim gas. */
  lemma WinPaysPayout(bet: real, side: Label, round: Round, fee: real)
    requires 0.0 <= bet && 0.0 <= fee < 1.0 && (side == Bull || side == Bear)
    requires !round.failed && round.position == Some(side) && FirstError(round.bets) == None
    ensures var own, opposing := Bnb(SideWei(round.bets, side)), Bnb(SideWei(round.bets, Opposite(side)));
            SettleAgainstClosedRound(bet, side, round, fee) ==
            Ok(Settled(Win, Payout(own, opposing, fee, bet) - CLAIM_GAS, Multiple(own, opposing, fee, bet)))
  {
    hide FirstError, SideWei, Bnb, PerUnit, Scaled;
    ScaledZero(bet);
    var own, opposing := Bnb(SideWei(round.bets, side)), Bnb(SideWei(round.bets, Opposite(side)));
    var bull := Bnb(SideWei(round.bets, Bull)) + if side == Bull then bet else 0.0;
    var bear := Bnb(SideWei(round.bets, Bear)) + if side == Bear then bet else 0.0;
    assert (if side == Bull then bull else bear) == own + bet;
    assert bull + bear == own + bet + opposing;
  }

  lemma ScaledZero(x: real)
    ensures Scaled(x, 0.0) == 0.0
  {
  }

  lemma WinnerFormPaysPayout(bet: real, side: Label, bullPool: real, bearPool: real)
    requires side == Bull || side == Bear
    ensures var own, opposing := if side == Bull then bullPool else bearPool, if side == Bull then bearPool else bullPool;
            SettleAgainstWinner(bet, side, Some(side), false, bullPool, bearPool) ==
            Payout(own, opposing, RESEARCH_FEE, bet) - CLAIM_GAS - bet - BET_GAS
  {
    hide PerUnit, Scaled;
    ScaledZero(bet);
    var bull := bullPool + if side == Bull then bet else 0.0;
    var bear := bearPool + if side == Bear then bet else 0.0;
    assert bull + bear == (if side == Bull then bullPool else bearPool) + bet
                          + if side == Bull then bearPool else bullPool;
  }

  lemma NewCohortIsWinnerForm(bet: real, side: Label, rd: RoundData)
    ensures SettleNewCohort(bet, side, rd) ==
            SettleAgainstWinner(bet, side, rd.winner, rd.failed, rd.bullPool, rd.bearPool)
  {
    hide PerUnit, Scaled;
  }

  /**
   * Both research forms give the profit of the stored form whenever that one settles at all: for
   * every accepted bet on a round that failed, whatever its bet list, or has a known winner
   * recorded.  On the others the stored form refuses.
   */
  lemma ResearchFormsAgree(bet: real, side: Label, round: Round)
    ensures var s := SettleAgainstClosedRound(bet, side, round, RESEARCH_FEE);
            var rd := LoadRoundData(round);
            && (rd.Ok? <==> round.failed || FirstError(round.bets) == None)
            && (round.failed ==> rd == Ok(RoundData(round.position, true, 0.0, 0.0)))
            && (s.Ok? <==>
                && 0.0 <= bet && (side == Bull || side == Bear)
                && (round.failed ||
                    (round.position.Some? && round.position != Some(Other) && FirstError(round.bets) == None)))
            && (rd.Ok? ==>
                SettleAgainstWinner(bet, side, rd.value.winner, rd.value.failed, rd.value.bullPool, rd.value.bearPool)
                == SettleNewCohort(bet, side, rd.value))
            && (s.Ok? ==> rd.Ok? && SettleNewCohort(bet, side, rd.value) == Profit(s.value, bet))
  {
    hide FirstError, SideWei, Payout, SettleNewCohort;
    if round.failed || FirstError(round.bets) == None {
      var rd := LoadRoundData(round).value;
      NewCohortIsWinnerForm(bet, side, rd);
      if !round.failed && round.position == Some(side) && 0.0 <= bet && (side == Bull || side == Bear) {
        WinPaysPayout(bet, side, round, RESEARCH_FEE);
        WinnerFormPaysPayout(bet, side, rd.bullPool, rd.bearPool);
      }
    }
  }

  // ----------------------------------------------------------------- who gets what

  /** A bet that the fold accepts. */
  predicate Sound(b: Bet) {
    b.amountWei > 0 && (b.position == Bull || b.position == Bear)
  }

  /** The fold succeeds when every bet is sound, and otherwise reports the first that is not, its amount before its side. */
  lemma {:induction false} FirstErrorIs(bets: seq<Bet>)
    ensures FirstError(bets) == None <==> forall k :: 0 <= k < |bets| ==> Sound(bets[k])
    ensures FirstError(bets).Some? ==>
      exists k :: 0 <= k < |bets| && !Sound(bets[k]) && (forall j :: 0 <= j < k ==> Sound(bets[j]))
                  && FirstError(bets).value == if bets[k].amountWei <= 0 then AmountNotPositive else PositionInvalid
  {
    if bets != [] {
      var n := |bets| - 1;
      FirstErrorIs(bets[..n]);
      if FirstError(bets[..n]).Some? {
        var k :| 0 <= k < n && !Sound(bets[..n][k]) && (forall j :: 0 <= j < k ==> Sound(bets[..n][j]))
                 && FirstError(bets[..n]).value == if bets[..n][k].amountWei <= 0 then AmountNotPositive else PositionInvalid;
        assert !Sound(bets[k]) && forall j :: 0 <= j < k ==> Sound(bets[..n][j]) && bets[..n][j] == bets[j];
      } else {
        assert forall j :: 0 <= j < n ==> Sound(bets[..n][j]) && bets[..n][j] == bets[j];
      }
    }
  }

  function StakedOn(side: Label): Bet -> int {
    (b: Bet) => if b.position == side then b.amountWei else 0
  }

  function Staked(): Bet -> int {
    (b: Bet) => b.amountWei
  }

  /** The pools of a sound list of bets: what was staked on each side, and in all. */
  lemma {:induction false} PoolsAre(bets: seq<Bet>)
    requires PoolsOf(bets).Ok?
    ensures var p := PoolsOf(bets).value;
            && p.bull == Total(bets, StakedOn(Bull)) && p.bear == Total(bets, StakedOn(Bear))
            && p.total == Total(bets, Staked())
  {
    if bets != [] {
      var n := |bets| - 1;
      assert bets == bets[..n] + [bets[n]];
      FirstErrorSnoc(bets[..n], bets[n]);
      PoolsAre(bets[..n]);
    }
  }

  /**
   * On the chain's record a rising price pays Bull and a falling one Bear, an unchanged one nobody;
   * a round whose oracle was not called gives the stake back.  Claiming costs 0.00025.
   */
  lemma ChainPays(
    bet: real, side: Label, lockPrice: real, closePrice: real, bullWei: int, bearWei: int, oracleCalled: bool, fee: real)
    ensures var r := SettleFromRoundData(bet, side, lockPrice, closePrice, bullWei, bearWei, oracleCalled, fee);
            var own, opposing := if side == Bull then bullWei else bearWei, if side == Bull then bearWei else bullWei;
            r == if bet < 0.0 then Err(NegativeBet)
                 else if fee < 0.0 || 1.0 <= fee then Err(FeeOutOfRange)
                 else if side != Bull && side != Bear then Err(SideInvalid)
                 else if !oracleCalled then Ok(Settled(Refund, bet - 0.00025, 0.0))
                 else if (side == Bull && closePrice > lockPrice) || (side == Bear && closePrice < lockPrice)
                 then Ok(Settled(Win, Payout(Bnb(own), Bnb(opposing), fee, bet) - 0.00025,
                                 Multiple(Bnb(own), Bnb(opposing), fee, bet)))
                 else Ok(Settled(Loss, 0.0, 0.0))
  {
    hide PerUnit, Scaled, Bnb;
    ScaledZero(bet);
    var bull := Bnb(bullWei) + if side == Bull then bet else 0.0;
    var bear := Bnb(bearWei) + if side == Bear then bet else 0.0;
    var own, opposing := if side == Bull then bullWei else bearWei, if side == Bull then bearWei else bullWei;
    assert side == Bull || side == Bear ==> bull + bear == Bnb(own) + bet + Bnb(opposing);
  }

  /** Which stored rounds are refused, refunded, lost and won, in the order in which the code decides. */
  lemma StorePays(bet: real, side: Label, round: Round, fee: real)
    ensures var r := SettleAgainstClosedRound(bet, side, round, fee);
            r == if bet < 0.0 then Err(NegativeBet)
                 else if fee < 0.0 || 1.0 <= fee then Err(FeeOutOfRange)
                 else if side != Bull && side != Bear then Err(SideInvalid)
                 else if round.failed then Ok(Settled(Refund, bet - 0.00025, 0.0))
                 else if round.position == None then Err(RoundNotClosed)
                 else if FirstError(round.bets).Some? then Err(FirstError(round.bets).value)
                 else if round.position == Some(Other) then Err(WinnerInvalid)
                 else if round.position != Some(side) then Ok(Settled(Loss, 0.0, 0.0))
                 else Ok(Settled(Win, Payout(Bnb(SideWei(round.bets, side)), Bnb(SideWei(round.bets, Opposite(side))), fee, bet)
                                      - 0.00025,
                                 Multiple(Bnb(SideWei(round.bets, side)), Bnb(SideWei(round.bets, Opposite(side))), fee, bet)))
  {
    hide PerUnit, Scaled, Bnb, FirstError, SideWei, Payout, Multiple;
    if 0.0 <= bet && 0.0 <= fee < 1.0 && (side == Bull || side == Bear) && !round.failed && round.position == Some(side)
       && FirstError(round.bets) == None {
      WinPaysPayout(bet, side, round, fee);
    }
  }

  // ------------------------------------------------------------------- conservation

  /** A bettor's own bet settled against the round with that bet removed. */
  function SettleOwn(round: Round, i: nat, fee: real): Result<Settled, Error>
    requires i < |round.bets|
  {
    var b := round.bets[i];
    SettleAgainstClosedRound(Bnb(b.amountWei), b.position, round.(bets := Without(round.bets, i)), fee)
  }

  /** The amount paid out before claim gas. */
  function Gross(r: Result<Settled, Error>): real {
    if r.Err? || r.value.outcome == Loss then 0.0 else r.value.credit + CLAIM_GAS
  }

  /** Paid out to the first `n` bettors. */
  function PaidOut(round: Round, fee: real, n: nat): real
    requires n <= |round.bets|
  {
    if n == 0 then 0.0 else PaidOut(round, fee, n - 1) + Gross(SettleOwn(round, n - 1, fee))
  }

  lemma {:induction false} SideWithout(bets: seq<Bet>, i: nat, side: Label)
    requires i < |bets|
    ensures SideWei(Without(bets, i), side) == SideWei(bets, side) - if bets[i].position == side then bets[i].amountWei else 0
  {
    hide SideWei, Without;
    var n := |bets| - 1;
    assert bets == bets[..n] + [bets[n]];
    SideSnoc(bets[..n], bets[n], side);
    WithoutSnoc(bets, i);
    if i < n {
      SideWithout(bets[..n], i, side);
      SideSnoc(Without(bets[..n], i), bets[n], side);
    }
  }

  lemma SideSnoc(f: seq<Bet>, b: Bet, side: Label)
    ensures SideWei(f + [b], side) == SideWei(f, side) + if b.position == side then b.amountWei else 0
  {
    assert (f + [b])[..|f|] == f;
  }

  lemma WithoutSnoc(bets: seq<Bet>, i: nat)
    requires i < |bets|
    ensures var n := |bets| - 1;
            Without(bets, i) == if i == n then bets[..n] else Without(bets[..n], i) + [bets[n]]
  {
  }

  predicate ValidBets(bets: seq<Bet>) {
    forall i :: 0 <= i < |bets| ==> ErrorOf(bets[i]) == None
  }

  lemma {:induction false} ValidBetsFold(bets: seq<Bet>)
    requires ValidBets(bets)
    ensures FirstError(bets) == None
    ensures SideWei(bets, Bull) >= 0 && SideWei(bets, Bear) >= 0
    ensures forall i :: 0 <= i < |bets| ==> SideWei(bets, bets[i].position) > 0
  {
    if bets != [] {
      var n := |bets| - 1;
      assert ErrorOf(bets[n]) == None;
      ValidBetsFold(bets[..n]);
      forall i | 0 <= i < |bets| ensures SideWei(bets, bets[i].position) > 0 {
        assert i < n ==> bets[..n][i] == bets[i];
      }
    }
  }

  function TotalBnb(bets: seq<Bet>): real {
    Bnb(SideWei(bets, Bull)) + Bnb(SideWei(bets, Bear))
  }

  /** What one BNB on the winning side is paid. */
  function Rate(bets: seq<Bet>, winner: Label, fee: real): real {
    Multiple(Bnb(SideWei(bets, winner)), TotalBnb(bets) - Bnb(SideWei(bets, winner)), fee, 0.0)
  }

  lemma ValidWithout(bets: seq<Bet>, i: nat)
    requires i < |bets| && ValidBets(bets)
    ensures ValidBets(Without(bets, i))
  {
    var rest := Without(bets, i);
    forall k | 0 <= k < |rest| ensures ErrorOf(rest[k]) == None {
      assert rest[k] == bets[if k < i then k else k + 1];
    }
  }

  /** A bettor removed and added back as the simulated bet sees exactly the full pools. */
  lemma OwnBetGross(round: Round, i: nat, fee: real)
    requires i < |round.bets| && ValidBets(round.bets) && 0.0 <= fee < 1.0
    requires round.failed || (round.position.Some? && round.position != Some(Other))
    ensures var b := round.bets[i];
            SettleOwn(round, i, fee).Ok? &&
            Gross(SettleOwn(round, i, fee)) ==
            if round.failed then Bnb(b.amountWei)
            else if round.position.value == b.position then Scaled(Bnb(b.amountWei), Rate(round.bets, b.position, fee))
            else 0.0
  {
    var b := round.bets[i];
    assert ErrorOf(b) == None;
    hide SideWei, FirstError, ValidBets, Without, Payout, Rate, Scaled, SettleAgainstClosedRound;
    ValidWithout(round.bets, i);
    ValidBetsFold(Without(round.bets, i));
    var rest := round.(bets := Without(round.bets, i));
    if !round.failed && round.position == Some(b.position) {
      WinPaysPayout(Bnb(b.amountWei), b.position, rest, fee);
      PayoutIsRate(round.bets, i, fee);
    } else {
      NoPayout(Bnb(b.amountWei), b.position, rest, fee);
    }
  }

  /** A failed round gives the stake back less claim gas, and a lost bet nothing. */
  lemma NoPayout(bet: real, side: Label, round: Round, fee: real)
    requires 0.0 <= bet && 0.0 <= fee < 1.0 && (side == Bull || side == Bear)
    requires round.failed ||
             (&& FirstError(round.bets) == None
              && round.position.Some? && round.position != Some(Other) && round.position != Some(side))
    ensures SettleAgainstClosedRound(bet, side, round, fee) ==
            Ok(if round.failed then Settled(Refund, bet - CLAIM_GAS, 0.0) else Settled(Loss, 0.0, 0.0))
  {
  }

  lemma PayoutIsRate(bets: seq<Bet>, i: nat, fee: real)
    requires i < |bets| && (bets[i].position == Bull || bets[i].position == Bear)
    ensures var b, rest := bets[i], Without(bets, i);
            Payout(Bnb(SideWei(rest, b.position)), Bnb(SideWei(rest, Opposite(b.position))), fee, Bnb(b.amountWei))
            == Scaled(Bnb(b.amountWei), Rate(bets, b.position, fee))
  {
    hide SideWei, Without, PerUnit, Scaled;
    var b, rest := bets[i], Without(bets, i);
    SideWithout(bets, i, Bull);
    SideWithout(bets, i, Bear);
    var own, stake := Bnb(SideWei(rest, b.position)), Bnb(b.amountWei);
    assert own + stake == Bnb(SideWei(bets, b.position)) + 0.0;
    assert Bnb(SideWei(rest, Opposite(b.position))) == TotalBnb(bets) - Bnb(SideWei(bets, b.position));
  }
}
