/**
 * The wallet history store and the per-round features of research/p3a_wallet_features.py.
 */
module WalletFeatures {
  import opened Basics
  import opened Sums
  import opened Wagers

  /** One element of a stored round's list of bets; amounts on chain are unsigned. */
  datatype BetRecord = BetRecord(wallet: string, position: Label, amountWei: nat, createdAt: int)

  const ROUND_SECONDS := 300
  const DATA_HORIZON_OFFSET := 2
  const LATE_FLOW_WINDOW := 30
  const BET_VELOCITY_WINDOW := 60
  const MIN_PRIOR_BETS := 10
  const WHALE_THRESHOLD := 0.1
  const REPEAT_LOSER_RATE := 0.4

  // ------------------------------------------------------------ wallet histories

  datatype History = History(settled: nat, wins: nat, volume: real) {
    function WinRate(): real {
      if settled == 0 then 0.0 else wins as real / settled as real
    }

    predicate IsFresh() {
      settled < MIN_PRIOR_BETS
    }

    predicate IsRepeatLoser() {
      !IsFresh() && WinRate() < REPEAT_LOSER_RATE
    }
  }

  const NO_HISTORY := History(0, 0, 0.0)

  /** One settled bet. */
  datatype Event = Event(wallet: string, won: bool, amountWei: nat)

  function Add(h: History, e: Event): History {
    History(h.settled + 1, h.wins + (if e.won then 1 else 0), h.volume + Bnb(e.amountWei))
  }

  /** A wallet's history after these settlements, one by one. */
  function After(events: seq<Event>, w: string): Option<History> {
    if events == [] then None else
      var e := events[|events| - 1];
      var h := After(events[..|events| - 1], w);
      if e.wallet == w then Some(Add(if h.Some? then h.value else NO_HISTORY, e)) else h
  }

  /** What a round settles: nothing for a refund, else every bet in it. */
  function EventsOf(bets: seq<BetRecord>, winning: Option<Label>): seq<Event> {
    if winning == None || bets == [] then [] else
      var b := bets[|bets| - 1];
      EventsOf(bets[..|bets| - 1], winning) + [Event(b.wallet, b.position == winning.value, b.amountWei)]
  }

  lemma AfterSnoc(events: seq<Event>, e: Event, w: string)
    ensures After(events + [e], w) ==
            if e.wallet == w
            then Some(Add(if After(events, w).Some? then After(events, w).value else NO_HISTORY, e))
            else After(events, w)
  {
    hide Add;
    assert (events + [e])[..|events|] == events;
  }

  class WalletHistoryStore {
    var byWallet: map<string, History>
    ghost var events: seq<Event>

    ghost predicate Valid()
      reads this
    {
      forall w: string :: Get(w) == After(events, w)
    }

    function Get(w: string): Option<History>
      reads this
    {
      if w in byWallet then Some(byWallet[w]) else None
    }

    constructor ()
      ensures Valid() && events == [] && byWallet == map[]
    {
      byWallet, events := map[], [];
    }

    method SettleRound(bets: seq<BetRecord>, winning: Option<Label>)
      requires Valid()
      modifies this
      ensures Valid() && events == old(events) + EventsOf(bets, winning)
    {
      hide After;
      if winning == None {
        return;
      }
      for i := 0 to |bets|
        invariant Valid() && events == old(events) + EventsOf(bets[..i], winning)
      {
        var b := bets[i];
        var h := if b.wallet in byWallet then byWallet[b.wallet] else NO_HISTORY;
        ghost var e := Event(b.wallet, b.position == winning.value, b.amountWei);
        forall w: string {
          AfterSnoc(events, e, w);
        }
        h := h.(settled := h.settled + 1);
        if b.position == winning.value {
          h := h.(wins := h.wins + 1);
        }
        h := h.(volume := h.volume + Bnb(b.amountWei));
        byWallet := byWallet[b.wallet := h];
        EventsSnoc(bets, i, winning);
        events := events + [e];
      }
      assert bets[..|bets|] == bets;
    }
  }

  lemma EventsSnoc(bets: seq<BetRecord>, i: nat, winning: Option<Label>)
    requires i < |bets| && winning.Some?
    ensures EventsOf(bets[..i + 1], winning) ==
            EventsOf(bets[..i], winning) + [Event(bets[i].wallet, bets[i].position == winning.value, bets[i].amountWei)]
  {
    assert bets[..i + 1][..i] == bets[..i];
  }

  // -------------------------------------------------------- aggregates of a round

  /** Bets placed before the data horizon, in order. */
  function Seen(bets: seq<BetRecord>, lockAt: int): seq<BetRecord> {
    if bets == [] then [] else
      var b := bets[|bets| - 1];
      if b.createdAt < lockAt - DATA_HORIZON_OFFSET then Seen(bets[..|bets| - 1], lockAt) + [b]
      else Seen(bets[..|bets| - 1], lockAt)
  }

  /** The wallets among them, in order of first appearance. */
  function Wallets(seen: seq<BetRecord>): seq<string> {
    if seen == [] then [] else
      var ws := Wallets(seen[..|seen| - 1]);
      if seen[|seen| - 1].wallet in ws then ws else ws + [seen[|seen| - 1].wallet]
  }

  function Size(w: string, bull: bool): BetRecord -> int {
    (b: BetRecord) => if b.wallet == w && (b.position == Bull) == bull then b.amountWei else 0
  }

  /** What a wallet staked on one side. */
  function Stake(seen: seq<BetRecord>, w: string, bull: bool): int {
    Total(seen, Size(w, bull))
  }

  function Whole(seen: seq<BetRecord>, w: string): int {
    Stake(seen, w, true) + Stake(seen, w, false)
  }

  function Side(bull: bool): BetRecord -> int {
    (b: BetRecord) => if (b.position == Bull) == bull then b.amountWei else 0
  }

  /** Side stakes placed at or after `from`. */
  function Late(bull: bool, from: int): BetRecord -> int {
    (b: BetRecord) => if from <= b.createdAt && (b.position == Bull) == bull then b.amountWei else 0
  }

  function Recent(from: int): BetRecord -> int {
    (b: BetRecord) => if from <= b.createdAt then 1 else 0
  }

  function LeansBull(seen: seq<BetRecord>): string -> int {
    (w: string) => if Stake(seen, w, true) >= Stake(seen, w, false) then 1 else 0
  }

  function Fresh(h: Option<History>): bool {
    h == None || h.value.IsFresh()
  }

  function CountsFresh(events: seq<Event>): string -> int {
    (w: string) => if Fresh(After(events, w)) then 1 else 0
  }

  function CountsLoser(events: seq<Event>): string -> int {
    (w: string) => var h := After(events, w); if !Fresh(h) && h.value.IsRepeatLoser() then 1 else 0
  }

  /** How strongly an experienced wallet's record backs its net position. */
  function Conviction(net: int, h: Option<History>): real {
    if Fresh(h) then 0.0 else Bnb(net) * ((h.value.WinRate() - 0.5) * 2.0)
  }

  function Backs(seen: seq<BetRecord>, events: seq<Event>): string -> real {
    (w: string) => Conviction(Stake(seen, w, true) - Stake(seen, w, false), After(events, w))
  }

  function WholeOf(seen: seq<BetRecord>): string -> int {
    (w: string) => Whole(seen, w)
  }

  /** What each wallet staked, largest first. */
  function Sizes(seen: seq<BetRecord>): seq<int> {
    Descending(Values(Wallets(seen), WholeOf(seen)))
  }

  // ------------------------------------------------------------------- features

  /** `None` where the code reports not-a-number. */
  datatype Features = NoBets | Features(
    nBettors: int, pool: real, top1Share: real, top5Share: real, bullRatio: real, consensus: real, smartBias: real,
    freshRatio: real, repeatLoserRatio: real, lateFlow: real, whale: bool, velocity: real, lateBias: Option<real>)

  datatype Error = PositionInvalid | DivisionByZero

  function Ratio(x: int, y: int): real
    requires y != 0
  {
    x as real / y as real
  }

  /** The sums that the features are ratios of. */
  datatype Aggregates = Aggregates(n: int, bull: int, bear: int, top: int, topFive: int, leaning: int, newcomers: int, losers: int, smart: real,
                       lateBull: int, lateBear: int, recent: int)

  function TopOf(sizes: seq<int>): int {
    if sizes == [] then 0 else sizes[0]
  }

  function AggregatesOf(seen: seq<BetRecord>, lockAt: int, events: seq<Event>): Aggregates {
    var ws := Wallets(seen);
    Aggregates(|ws|, Total(seen, Side(true)), Total(seen, Side(false)), TopOf(Sizes(seen)), SumFirst(Sizes(seen), 5),
         Total(ws, LeansBull(seen)), Total(ws, CountsFresh(events)), Total(ws, CountsLoser(events)),
         Sum(ws, Backs(seen, events)),
         Total(seen, Late(true, lockAt - LATE_FLOW_WINDOW)), Total(seen, Late(false, lockAt - LATE_FLOW_WINDOW)),
         Total(seen, Recent(lockAt - BET_VELOCITY_WINDOW)))
  }

  function FeaturesFrom(s: Aggregates): Features
    requires s.n != 0 && s.bull + s.bear != 0
  {
    var total := s.bull + s.bear;
    var late := s.lateBull + s.lateBear;
    var majority := if s.leaning > s.n - s.leaning then s.leaning else s.n - s.leaning;
    Features(s.n, Bnb(total), Ratio(s.top, total), Ratio(s.topFive, total), Ratio(s.bull, total), Ratio(majority, s.n),
             s.smart / Bnb(total), Ratio(s.newcomers, s.n),
             if s.n - s.newcomers > 0 then Ratio(s.losers, s.n - s.newcomers) else 0.0,
             Ratio(late, total), Ratio(s.top, total) >= WHALE_THRESHOLD,
             Ratio(s.recent, BET_VELOCITY_WINDOW - DATA_HORIZON_OFFSET),
             if late > 0 then Some(Ratio(s.lateBull, late)) else None)
  }

  predicate OneSided(b: BetRecord) {
    b.position == Bull || b.position == Bear
  }

  /** A bet on no side raises, and so does a round whose visible bets are all for nothing. */
  function FeaturesOf(seen: seq<BetRecord>, lockAt: int, events: seq<Event>): Result<Features, Error> {
    if seen == [] then Ok(NoBets)
    else if exists b :: b in seen && !OneSided(b) then Err(PositionInvalid)
    else
      var s := AggregatesOf(seen, lockAt, events);
      if s.bull + s.bear == 0 || s.n == 0 then Err(DivisionByZero) else Ok(FeaturesFrom(s))
  }
}
