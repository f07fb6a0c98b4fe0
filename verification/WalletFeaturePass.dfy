/**
 * The loops of research/p3a_wallet_features.py that compute a round's features and walk the
 * rounds in order, and what they cannot see.
 */
module WalletFeaturePass {
  import opened Basics
  import opened Sums
  import opened WalletFeatures
  import opened WalletFeatureLaws
  import opened WalletFeatureMeaning
  import opened Wagers

  // ----------------------------------------------------------------- one round

  method VisibleBets(bets: seq<BetRecord>, lockAt: int) returns (seen: seq<BetRecord>)
    ensures seen == Seen(bets, lockAt)
  {
    seen := [];
    for i := 0 to |bets|
      invariant seen == Seen(bets[..i], lockAt)
    {
      assert bets[..i + 1][..i] == bets[..i];
      if bets[i].createdAt < lockAt - DATA_HORIZON_OFFSET {
        seen := seen + [bets[i]];
      }
    }
    assert bets[..|bets|] == bets;
  }

  /** The running per-wallet stakes say what the bets so far staked. */
  ghost predicate Tracks(m: map<string, int>, seen: seq<BetRecord>, bull: bool) {
    && (forall w :: w in m <==> w in Wallets(seen))
    && (forall w :: w in m ==> m[w] == Stake(seen, w, bull))
  }

  lemma {:induction false} NoStake(seen: seq<BetRecord>, w: string, bull: bool)
    requires w !in Wallets(seen)
    ensures Stake(seen, w, bull) == 0
  {
    if seen != [] {
      NoStake(seen[..|seen| - 1], w, bull);
    }
  }

  lemma StakeSnoc(seen: seq<BetRecord>, b: BetRecord, w: string, bull: bool)
    ensures Stake(seen + [b], w, bull) ==
            Stake(seen, w, bull) + if b.wallet == w && (b.position == Bull) == bull then b.amountWei else 0
  {
    assert (seen + [b])[..|seen|] == seen;
  }

  lemma WalletsSnoc(seen: seq<BetRecord>, b: BetRecord)
    ensures Wallets(seen + [b]) == if b.wallet in Wallets(seen) then Wallets(seen) else Wallets(seen) + [b.wallet]
  {
    assert (seen + [b])[..|seen|] == seen;
  }

  function Bumped(m: map<string, int>, w: string, amount: int): map<string, int> {
    m[w := (if w in m then m[w] else 0) + amount]
  }

  lemma TracksSnoc(m: map<string, int>, seen: seq<BetRecord>, b: BetRecord, bull: bool)
    requires Tracks(m, seen, bull)
    ensures Tracks(Bumped(m, b.wallet, if (b.position == Bull) == bull then b.amountWei else 0), seen + [b], bull)
  {
    hide Wallets, Stake;
    WalletsSnoc(seen, b);
    forall w: string
      ensures Stake(seen + [b], w, bull) ==
              Stake(seen, w, bull) + if b.wallet == w && (b.position == Bull) == bull then b.amountWei else 0
      ensures w !in Wallets(seen) ==> Stake(seen, w, bull) == 0
    {
      StakeSnoc(seen, b, w, bull);
      if w !in Wallets(seen) {
        NoStake(seen, w, bull);
      }
    }
  }

  lemma NothingTracked(m: map<string, int>, seen: seq<BetRecord>, bull: bool)
    requires m == map[] && |seen| == 0
    ensures Tracks(m, seen, bull) && Wallets(seen) == []
    ensures Total(seen, Side(bull)) == 0
  {
  }

  /** Per-wallet stakes and side totals; a bet on neither side is a missing key. */
  method Aggregate(seen: seq<BetRecord>)
    returns (ok: bool, order: seq<string>, bullOf: map<string, int>, bearOf: map<string, int>, bull: int, bear: int)
    ensures ok <==> forall b :: b in seen ==> OneSided(b)
    ensures ok ==> order == Wallets(seen) && Tracks(bullOf, seen, true) && Tracks(bearOf, seen, false)
    ensures ok ==> bull == Total(seen, Side(true)) && bear == Total(seen, Side(false))
  {
    hide Tracks, Wallets, Total, OneSided;
    ok, order, bullOf, bearOf, bull, bear := true, [], map[], map[], 0, 0;
    NothingTracked(bullOf, seen[..0], true);
    NothingTracked(bearOf, seen[..0], false);
    for i := 0 to |seen|
      invariant ok && forall b :: b in seen[..i] ==> OneSided(b)
      invariant order == Wallets(seen[..i]) && Tracks(bullOf, seen[..i], true) && Tracks(bearOf, seen[..i], false)
      invariant bull == Total(seen[..i], Side(true)) && bear == Total(seen[..i], Side(false))
    {
      var b := seen[i];
      assert seen[..i] + [b] == seen[..i + 1];
      Sided(b);
      if b.position != Bull && b.position != Bear {
        ok := false;
        return;
      }
      WalletsSnoc(seen[..i], b);
      TracksSnoc(bullOf, seen[..i], b, true);
      TracksSnoc(bearOf, seen[..i], b, false);
      TotalSnoc(seen[..i], b, Side(true));
      TotalSnoc(seen[..i], b, Side(false));
      if b.wallet !in order {
        order := order + [b.wallet];
      }
      if b.position == Bull {
        bullOf, bearOf := Bumped(bullOf, b.wallet, b.amountWei), Bumped(bearOf, b.wallet, 0);
        bull := bull + b.amountWei;
      } else {
        bullOf, bearOf := Bumped(bullOf, b.wallet, 0), Bumped(bearOf, b.wallet, b.amountWei);
        bear := bear + b.amountWei;
      }
    }
    assert seen[..|seen|] == seen;
  }

  lemma Sided(b: BetRecord)
    ensures OneSided(b) <==> b.position == Bull || b.position == Bear
  {
  }

  /** The wallets' totals, sorted from the largest down. */
  method SortedSizes(seen: seq<BetRecord>, order: seq<string>, bullOf: map<string, int>, bearOf: map<string, int>)
    returns (sizes: seq<int>)
    requires order == Wallets(seen) && Tracks(bullOf, seen, true) && Tracks(bearOf, seen, false)
    ensures sizes == Sizes(seen)
  {
    hide Wallets, Stake, Descending;
    var values: seq<int> := [];
    for i := 0 to |order|
      invariant |values| == i && forall k :: 0 <= k < i ==> values[k] == WholeOf(seen)(order[k])
    {
      assert order[i] in order;
      values := values + [bullOf[order[i]] + bearOf[order[i]]];
    }
    assert values == Values(order, WholeOf(seen));
    sizes := Descending(values);
  }

  /** How one wallet is judged. */
  lemma Judged(seen: seq<BetRecord>, events: seq<Event>, w: string, h: Option<History>)
    requires h == After(events, w)
    ensures LeansBull(seen)(w) == if Stake(seen, w, true) >= Stake(seen, w, false) then 1 else 0
    ensures CountsFresh(events)(w) == if h == None || h.value.IsFresh() then 1 else 0
    ensures CountsLoser(events)(w) == if h.Some? && h.value.IsRepeatLoser() then 1 else 0
    ensures Backs(seen, events)(w) ==
            if h == None || h.value.IsFresh() then 0.0
            else Bnb(Stake(seen, w, true) - Stake(seen, w, false)) * ((h.value.WinRate() - 0.5) * 2.0)
  {
    hide After, Stake, Bnb, History.WinRate;
  }

  /** Leaning, newcomers, repeat losers and net conviction over the wallets. */
  method Judge(seen: seq<BetRecord>, order: seq<string>, bullOf: map<string, int>, bearOf: map<string, int>,
               store: WalletHistoryStore)
    returns (leaning: int, newcomers: int, losers: int, smart: real)
    requires store.Valid() && order == Wallets(seen) && Tracks(bullOf, seen, true) && Tracks(bearOf, seen, false)
    ensures leaning == Total(order, LeansBull(seen))
    ensures newcomers == Total(order, CountsFresh(store.events)) && losers == Total(order, CountsLoser(store.events))
    ensures smart == Sum(order, Backs(seen, store.events))
  {
    hide Wallets, Stake, Total, Sum, After, LeansBull, CountsFresh, CountsLoser, Backs, Bnb,
         History.WinRate, History.IsFresh, History.IsRepeatLoser;
    leaning, newcomers, losers, smart := 0, 0, 0, 0.0;
    NothingJudged(seen, store.events, order[..0]);
    for i := 0 to |order|
      invariant leaning == Total(order[..i], LeansBull(seen))
      invariant newcomers == Total(order[..i], CountsFresh(store.events))
      invariant losers == Total(order[..i], CountsLoser(store.events))
      invariant smart == Sum(order[..i], Backs(seen, store.events))
    {
      var w := order[i];
      assert order[..i] + [w] == order[..i + 1];
      var h := store.Get(w);
      assert w in order;
      Judged(seen, store.events, w, h);
      TotalSnoc(order[..i], w, LeansBull(seen));
      TotalSnoc(order[..i], w, CountsFresh(store.events));
      TotalSnoc(order[..i], w, CountsLoser(store.events));
      SumSnoc(order[..i], w, Backs(seen, store.events));
      if bullOf[w] >= bearOf[w] {
        leaning := leaning + 1;
      }
      if h == None || h.value.IsFresh() {
        newcomers := newcomers + 1;
        FreshIsNoLoser(h);
        continue;
      }
      if h.value.IsRepeatLoser() {
        losers := losers + 1;
      }
      smart := smart + Bnb(bullOf[w] - bearOf[w]) * ((h.value.WinRate() - 0.5) * 2.0);
    }
    assert order[..|order|] == order;
  }

  lemma FreshIsNoLoser(h: Option<History>)
    requires h == None || h.value.IsFresh()
    ensures h.Some? ==> !h.value.IsRepeatLoser()
  {
  }

  lemma NothingJudged(seen: seq<BetRecord>, events: seq<Event>, order: seq<string>)
    requires |order| == 0
    ensures Total(order, LeansBull(seen)) == 0
    ensures Total(order, CountsFresh(events)) == 0 && Total(order, CountsLoser(events)) == 0
    ensures Sum(order, Backs(seen, events)) == 0.0
  {
  }

  method LateFlow(seen: seq<BetRecord>, lockAt: int) returns (lateBull: int, lateBear: int, recent: int)
    ensures lateBull == Total(seen, Late(true, lockAt - LATE_FLOW_WINDOW))
    ensures lateBear == Total(seen, Late(false, lockAt - LATE_FLOW_WINDOW))
    ensures recent == Total(seen, Recent(lockAt - BET_VELOCITY_WINDOW))
  {
    hide Total;
    var lateFrom, recentFrom := lockAt - LATE_FLOW_WINDOW, lockAt - BET_VELOCITY_WINDOW;
    lateBull, lateBear, recent := 0, 0, 0;
    NothingLate(seen[..0], lateFrom, recentFrom);
    for i := 0 to |seen|
      invariant lateBull == Total(seen[..i], Late(true, lateFrom))
      invariant lateBear == Total(seen[..i], Late(false, lateFrom))
      invariant recent == Total(seen[..i], Recent(recentFrom))
    {
      var b := seen[i];
      assert seen[..i] + [b] == seen[..i + 1];
      TotalSnoc(seen[..i], b, Late(true, lateFrom));
      TotalSnoc(seen[..i], b, Late(false, lateFrom));
      TotalSnoc(seen[..i], b, Recent(recentFrom));
      if lateFrom <= b.createdAt {
        if b.position == Bull {
          lateBull := lateBull + b.amountWei;
        } else {
          lateBear := lateBear + b.amountWei;
        }
      }
      if recentFrom <= b.createdAt {
        recent := recent + 1;
      }
    }
    assert seen[..|seen|] == seen;
  }

  lemma NothingLate(seen: seq<BetRecord>, lateFrom: int, recentFrom: int)
    requires |seen| == 0
    ensures Total(seen, Late(true, lateFrom)) == 0 && Total(seen, Late(false, lateFrom)) == 0
    ensures Total(seen, Recent(recentFrom)) == 0
  {
  }

  method ComputeFeatures(bets: seq<BetRecord>, startAt: int, store: WalletHistoryStore) returns (r: Result<Features, Error>)
    requires store.Valid()
    ensures r == FeaturesOf(Seen(bets, startAt + ROUND_SECONDS), startAt + ROUND_SECONDS, store.events)
  {
    hide Seen, Wallets, Total, Sum, Sizes, SumFirst, Tracks, OneSided, FeaturesFrom, WalletHistoryStore.Valid;
    var lockAt := startAt + ROUND_SECONDS;
    var seen := VisibleBets(bets, lockAt);
    if seen == [] {
      return Ok(NoBets);
    }
    var ok, order, bullOf, bearOf, bull, bear := Aggregate(seen);
    if !ok {
      return Err(PositionInvalid);
    }
    var sizes := SortedSizes(seen, order, bullOf, bearOf);
    var leaning, newcomers, losers, smart := Judge(seen, order, bullOf, bearOf, store);
    var lateBull, lateBear, recent := LateFlow(seen, lockAt);
    if bull + bear == 0 || order == [] {
      return Err(DivisionByZero);
    }
    r := Ok(FeaturesFrom(Aggregates(|order|, bull, bear, TopOf(sizes), SumFirst(sizes, 5), leaning, newcomers, losers, smart,
                                    lateBull, lateBear, recent)));
  }

  // -------------------------------------------------------------- all the rounds

  datatype Round = Round(startAt: int, position: Option<Label>, failed: bool, bets: seq<BetRecord>)

  /** The side that settles: none for a failed, open or drawn round. */
  function Winning(r: Round): Option<Label> {
    if !r.failed && (r.position == Some(Bull) || r.position == Some(Bear)) then r.position else None
  }

  /** 1 and 0 for a round won by Bull and Bear, -1 for any other. */
  function OutcomeCode(r: Round): int {
    if r.failed || r.position == None then -1
    else if r.position.value == Bull then 1
    else if r.position.value == Bear then 0
    else -1
  }

  function AllEvents(rounds: seq<Round>): seq<Event> {
    if rounds == [] then [] else
      var r := rounds[|rounds| - 1];
      AllEvents(rounds[..|rounds| - 1]) + EventsOf(r.bets, Winning(r))
  }

  /** The features of a round, from its own visible bets and the settlements before it. */
  function RoundFeatures(earlier: seq<Round>, r: Round): Result<Features, Error> {
    var lockAt := r.startAt + ROUND_SECONDS;
    FeaturesOf(Seen(r.bets, lockAt), lockAt, AllEvents(earlier))
  }

  function AllFeatures(rounds: seq<Round>): Result<seq<Features>, Error> {
    if rounds == [] then Ok([]) else
      var front := rounds[..|rounds| - 1];
      var before := AllFeatures(front);
      if before.Err? then before else
        match RoundFeatures(front, rounds[|rounds| - 1])
        case Err(e) => Err(e)
        case Ok(f) => Ok(before.value + [f])
  }

  lemma FeaturesSnoc(rounds: seq<Round>, r: Round)
    ensures AllFeatures(rounds + [r]) ==
            if AllFeatures(rounds).Err? then AllFeatures(rounds) else
              match RoundFeatures(rounds, r)
              case Err(e) => Err(e)
              case Ok(f) => Ok(AllFeatures(rounds).value + [f])
  {
    hide RoundFeatures;
    assert (rounds + [r])[..|rounds|] == rounds;
  }

  lemma EventsGrow(rounds: seq<Round>, r: Round)
    ensures AllEvents(rounds + [r]) == AllEvents(rounds) + EventsOf(r.bets, Winning(r))
  {
    hide EventsOf;
    assert (rounds + [r])[..|rounds|] == rounds;
  }

  lemma {:induction false} ErrorStays(rounds: seq<Round>, n: nat)
    requires n <= |rounds| && AllFeatures(rounds[..n]).Err?
    ensures AllFeatures(rounds) == AllFeatures(rounds[..n])
    decreases |rounds|
  {
    hide RoundFeatures;
    if n == |rounds| {
      assert rounds[..n] == rounds;
    } else {
      assert rounds[..|rounds| - 1][..n] == rounds[..n];
      ErrorStays(rounds[..|rounds| - 1], n);
    }
  }

  function OutcomeCodes(rounds: seq<Round>): seq<int> {
    if rounds == [] then [] else OutcomeCodes(rounds[..|rounds| - 1]) + [OutcomeCode(rounds[|rounds| - 1])]
  }

  lemma CodesSnoc(rounds: seq<Round>, r: Round)
    ensures OutcomeCodes(rounds + [r]) == OutcomeCodes(rounds) + [OutcomeCode(r)]
  {
    assert (rounds + [r])[..|rounds|] == rounds;
  }

  datatype Built = Built(features: seq<Features>, outcomes: seq<int>)

  method BuildFeaturesChronological(rounds: seq<Round>) returns (r: Result<Built, Error>)
    ensures r.Ok? <==> AllFeatures(rounds).Ok?
    ensures r.Err? ==> r.error == AllFeatures(rounds).error
    ensures r.Ok? ==> r.value.features == AllFeatures(rounds).value && r.value.outcomes == OutcomeCodes(rounds)
  {
    hide OutcomeCodes, AllFeatures, AllEvents, FeaturesOf, Seen, EventsOf, Winning, OutcomeCode, WalletHistoryStore.Valid;
    var store := new WalletHistoryStore();
    var features: seq<Features>, codes: seq<int> := [], [];
    NoRounds(rounds[..0]);
    for i := 0 to |rounds|
      invariant fresh(store) && store.Valid() && store.events == AllEvents(rounds[..i])
      invariant AllFeatures(rounds[..i]) == Ok(features)
      invariant codes == OutcomeCodes(rounds[..i])
    {
      var round := rounds[i];
      assert rounds[..i] + [round] == rounds[..i + 1];
      FeaturesSnoc(rounds[..i], round);
      EventsGrow(rounds[..i], round);
      CodesSnoc(rounds[..i], round);
      var f := ComputeFeatures(round.bets, round.startAt, store);
      if f.Err? {
        ErrorStays(rounds, i + 1);
        return Err(f.error);
      }
      features := features + [f.value];
      codes := codes + [OutcomeCode(round)];
      store.SettleRound(round.bets, Winning(round));
    }
    assert rounds[..|rounds|] == rounds;
    r := Ok(Built(features, codes));
  }

  lemma NoRounds(rounds: seq<Round>)
    requires |rounds| == 0
    ensures AllFeatures(rounds) == Ok([]) && AllEvents(rounds) == [] && OutcomeCodes(rounds) == []
  {
  }

  /** A round is settled exactly when it has an outcome to learn from, and for the side that won. */
  lemma OutcomeIsWinner(r: Round)
    ensures OutcomeCode(r) == (if !r.failed && r.position == Some(Bull) then 1
                               else if !r.failed && r.position == Some(Bear) then 0 else -1)
    ensures Winning(r) == (if OutcomeCode(r) == 1 then Some(Bull) else if OutcomeCode(r) == 0 then Some(Bear) else None)
  {
  }

  /**
   * Two inputs whose rounds before the `k`-th settle the same bets, in whatever order, and whose
   * `k`-th rounds start together and agree on the bets placed within 298 seconds, two before lock,
   * give that round the same features.  Its outcome, its later bets and the rounds after it have no say.
   */
  lemma NoLookAhead(a: seq<Round>, b: seq<Round>, k: nat)
    requires k < |a| && k < |b| && a[k].startAt == b[k].startAt
    requires multiset(AllEvents(a[..k])) == multiset(AllEvents(b[..k]))
    requires forall x: BetRecord ::
               x.createdAt < a[k].startAt + 298 ==> multiset(a[k].bets)[x] == multiset(b[k].bets)[x]
    ensures RoundFeatures(a[..k], a[k]) == RoundFeatures(b[..k], b[k])
    ensures AllFeatures(a).Ok? && AllFeatures(b).Ok? ==>
      |AllFeatures(a).value| == |a| && |AllFeatures(b).value| == |b| && AllFeatures(a).value[k] == AllFeatures(b).value[k]
  {
    hide FeaturesOf, Seen, AllEvents, AllFeatures;
    var lockAt := a[k].startAt + ROUND_SECONDS;
    SameBetsInTime(a[k].bets, b[k].bets, a[k].startAt);
    FeaturesIgnoreOrder(Seen(a[k].bets, lockAt), Seen(b[k].bets, lockAt), lockAt, AllEvents(a[..k]), AllEvents(b[..k]));
    if AllFeatures(a).Ok? && AllFeatures(b).Ok? {
      FeaturesAt(a, k);
      FeaturesAt(b, k);
    }
  }

  lemma {:induction false} FeaturesAt(rounds: seq<Round>, k: nat)
    requires AllFeatures(rounds).Ok? && k < |rounds|
    ensures |AllFeatures(rounds).value| == |rounds|
    ensures RoundFeatures(rounds[..k], rounds[k]) == Ok(AllFeatures(rounds).value[k])
  {
    hide RoundFeatures;
    var n := |rounds| - 1;
    FeaturesCount(rounds[..n]);
    if k < n {
      FeaturesAt(rounds[..n], k);
      assert rounds[..n][..k] == rounds[..k];
    }
  }

  lemma {:induction false} FeaturesCount(rounds: seq<Round>)
    requires AllFeatures(rounds).Ok?
    ensures |AllFeatures(rounds).value| == |rounds|
  {
    hide RoundFeatures;
    if rounds != [] {
      FeaturesCount(rounds[..|rounds| - 1]);
    }
  }
}
