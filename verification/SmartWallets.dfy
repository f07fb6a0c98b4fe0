/**
 * The rolling accuracy of each wallet and the chronological pass of
 * research/phase0_wallet_smart_money_2026_06_11.py.
 */
module SmartWallets {
  import opened Basics
  import Settlement
  import opened Wagers

  const TRAIL_N := 100
  const PRIOR_S := 10

  /** The outcomes a wallet is judged on: the latest hundred of its history. */
  function Trail(h: seq<bool>): (t: seq<bool>)
    ensures |t| == if |h| <= TRAIL_N then |h| else TRAIL_N
  {
    if |h| <= TRAIL_N then h else h[|h| - TRAIL_N..]
  }

  function Wins(s: seq<bool>): (n: nat)
    ensures n <= |s|
  {
    if s == [] then 0 else Wins(s[..|s| - 1]) + if s[|s| - 1] then 1 else 0
  }

  lemma WinsSnoc(s: seq<bool>, won: bool)
    ensures Wins(s + [won]) == Wins(s) + if won then 1 else 0
  {
    assert (s + [won])[..|s|] == s;
  }

  lemma {:induction false} WinsWithoutFirst(s: seq<bool>)
    requires s != []
    ensures Wins(s) == Wins(s[1..]) + if s[0] then 1 else 0
  {
    var n := |s| - 1;
    if n > 0 {
      WinsWithoutFirst(s[..n]);
      assert s[..n][1..] == s[1..][..n - 1];
    }
  }

  /** Accuracy shrunk towards one half by twenty imaginary outcomes. */
  function Accuracy(h: seq<bool>): real {
    (Wins(Trail(h)) + PRIOR_S) as real / (|Trail(h)| + 2 * PRIOR_S) as real
  }

  /** It never reaches zero or one, and moves towards the better record. */
  lemma AccuracyIsProper(h: seq<bool>)
    ensures 0.0 < Accuracy(h) < 1.0
    ensures Accuracy(h) >= 0.5 <==> 2 * Wins(Trail(h)) >= |Trail(h)|
  {
    var n, w := |Trail(h)| + 2 * PRIOR_S, Wins(Trail(h)) + PRIOR_S;
    assert 0.0 < w as real < n as real;
    Quotient(w as real, n as real);
  }

  lemma Quotient(w: real, n: real)
    requires 0.0 < w < n
    ensures 0.0 < w / n < 1.0
    ensures w / n >= 0.5 <==> 2.0 * w >= n
  {
    Ordered(0.0, w, n);
    Ordered(w, n, n);
    Ordered(w, 0.5 * n, n);
    assert 0.5 * n / n == 0.5 && n / n == 1.0 && 0.0 / n == 0.0;
  }

  lemma Ordered(x: real, y: real, d: real)
    requires 0.0 < d
    ensures x < y <==> x / d < y / d
  {
    var p, q := x / d, y / d;
    assert p * d == x && q * d == y;
  }

  /** One wallet: a deque that forgets its oldest outcome once full, and the wins inside it. */
  class WalletState {
    var outcomes: seq<bool>
    var wins: int
    ghost var history: seq<bool>

    ghost predicate Valid()
      reads this
    {
      outcomes == Trail(history) && wins == Wins(outcomes)
    }

    constructor ()
      ensures Valid() && history == []
    {
      outcomes, wins, history := [], 0, [];
    }

    method Acc() returns (acc: real, n: nat)
      requires Valid()
      ensures acc == Accuracy(history) && n == |Trail(history)|
    {
      n := |outcomes|;
      acc := (wins + PRIOR_S) as real / (n + 2 * PRIOR_S) as real;
    }

    method Update(won: bool)
      requires Valid()
      modifies this
      ensures Valid() && history == old(history) + [won]
    {
      TrailSnoc(history, won);
      if |outcomes| == TRAIL_N {
        WinsWithoutFirst(outcomes);
        if outcomes[0] {
          wins := wins - 1;
        }
        outcomes := outcomes[1..];
      }
      WinsSnoc(outcomes, won);
      outcomes := outcomes + [won];
      if won {
        wins := wins + 1;
      }
      history := history + [won];
    }
  }

  lemma TrailSnoc(h: seq<bool>, won: bool)
    ensures Trail(h + [won]) == (if |Trail(h)| == TRAIL_N then Trail(h)[1..] else Trail(h)) + [won]
  {
  }

  /** The wallets seen so far. */
  class WalletBook {
    var states: map<string, WalletState>

    ghost predicate Valid()
      reads this, states.Values
    {
      && (forall w :: w in states ==> states[w].Valid())
      && (forall v, w :: v in states && w in states && v != w ==> states[v] != states[w])
    }

    ghost function History(w: string): seq<bool>
      reads this, states.Values
    {
      if w in states then states[w].history else []
    }

    constructor ()
      ensures Valid() && states == map[]
    {
      states := map[];
    }

    /** A wallet never seen counts as a coin toss with no record. */
    method Lookup(w: string) returns (acc: real, n: nat)
      requires Valid()
      ensures acc == Accuracy(History(w)) && n == |Trail(History(w))|
    {
      if w in states {
        acc, n := states[w].Acc();
      } else {
        acc, n := 0.5, 0;
      }
    }

    method Update(w: string, won: bool)
      requires Valid()
      modifies this, states.Values
      ensures Valid()
      ensures states.Keys == old(states.Keys) + {w}
      ensures forall v :: History(v) == old(History(v)) + if v == w then [won] else []
      ensures fresh(states.Values - old(states.Values))
    {
      hide Trail, Wins;
      if w !in states {
        var s := new WalletState();
        states := states[w := s];
      }
      states[w].Update(won);
    }
  }

  // -------------------------------------------------------------- the features

  /** A closed round with a winner; `lockAt` is when betting ended. */
  datatype Round = Round(epoch: int, lockAt: int, bullWon: bool, bets: seq<Settlement.Bet>)

  datatype Variant = Variant(minN: nat, threshold: real)

  const VARIANTS := [Variant(30, 0.55), Variant(50, 0.56), Variant(20, 0.54)]
  const HORIZONS := [6, 4, 3]

  /** Signed flow of the wallets that count, and which wallets they are. */
  datatype Cell = Cell(net: real, wallets: set<string>)

  function Won(b: Settlement.Bet, bullWon: bool): bool {
    (b.position == Bull) == bullWon
  }

  function OutcomesIn(bets: seq<Settlement.Bet>, bullWon: bool, w: string): seq<bool> {
    if bets == [] then [] else
      var b := bets[|bets| - 1];
      if b.wallet == w then OutcomesIn(bets[..|bets| - 1], bullWon, w) + [Won(b, bullWon)]
      else OutcomesIn(bets[..|bets| - 1], bullWon, w)
  }

  /** Every outcome of a wallet over these rounds, oldest first. */
  function HistoryAfter(rounds: seq<Round>, w: string): seq<bool> {
    if rounds == [] then [] else
      var r := rounds[|rounds| - 1];
      HistoryAfter(rounds[..|rounds| - 1], w) + OutcomesIn(r.bets, r.bullWon, w)
  }

  predicate Eligible(h: seq<bool>, v: Variant) {
    v.minN <= |Trail(h)| && v.threshold <= Accuracy(h)
  }

  predicate SeenAt(b: Settlement.Bet, lockAt: int, horizon: int) {
    horizon <= lockAt - b.createdAt
  }

  function Signed(b: Settlement.Bet): real {
    if b.position == Bull then Bnb(b.amountWei) else -Bnb(b.amountWei)
  }

  function AddBet(cell: Cell, h: seq<bool>, b: Settlement.Bet, lockAt: int, v: Variant, horizon: int): Cell {
    if Eligible(h, v) && SeenAt(b, lockAt, horizon) then Cell(cell.net + Signed(b), cell.wallets + {b.wallet}) else cell
  }

  /** One feature pair of a round, from the rounds before it and its own bets. */
  function CellOf(earlier: seq<Round>, bets: seq<Settlement.Bet>, lockAt: int, v: Variant, horizon: int): Cell {
    if bets == [] then Cell(0.0, {}) else
      var b := bets[|bets| - 1];
      AddBet(CellOf(earlier, bets[..|bets| - 1], lockAt, v, horizon), HistoryAfter(earlier, b.wallet), b, lockAt, v, horizon)
  }

  function Grid(earlier: seq<Round>, bets: seq<Settlement.Bet>, lockAt: int): seq<seq<Cell>> {
    seq(|VARIANTS|, i requires 0 <= i < |VARIANTS| =>
      seq(|HORIZONS|, j requires 0 <= j < |HORIZONS| => CellOf(earlier, bets, lockAt, VARIANTS[i], HORIZONS[j])))
  }

  const FEE := 0.03

  datatype Row = Row(epoch: int, bullWon: bool, payoutBull: real, payoutBear: real, cells: seq<seq<Cell>>)

  /** The row of a round: none unless both pools took money. */
  function RowOf(earlier: seq<Round>, r: Round): Result<Option<Row>, Settlement.Error> {
    var pools := Settlement.PoolsOf(r.bets);
    if pools.Err? then Err(pools.error) else
      var bull, bear := Bnb(pools.value.bull), Bnb(pools.value.bear);
      if bull <= 0.0 || bear <= 0.0 then Ok(None)
      else Ok(Some(Row(r.epoch, r.bullWon, (bull + bear) * (1.0 - FEE) / bull, (bull + bear) * (1.0 - FEE) / bear,
                       Grid(earlier, r.bets, r.lockAt))))
  }

  function RowsOf(rounds: seq<Round>): Result<seq<Row>, Settlement.Error> {
    if rounds == [] then Ok([]) else
      var front := rounds[..|rounds| - 1];
      var before := RowsOf(front);
      if before.Err? then before else
        match RowOf(front, rounds[|rounds| - 1])
        case Err(e) => Err(e)
        case Ok(None) => before
        case Ok(Some(row)) => Ok(before.value + [row])
  }

  // ------------------------------------------------------------- samples and timing

  /** An experienced bettor's accuracy before a bet, and whether the bet won. */
  datatype Sample = Sample(accuracy: real, n: nat, won: bool)

  /** What the pass collects beside its rows; the timings count bets by seconds before lock. */
  datatype Log = Log(samples: seq<Sample>, timingAll: seq<nat>, timingSmart: seq<nat>) {
    predicate Valid() {
      |timingAll| == 4 && |timingSmart| == 4
    }
  }

  const NO_LOG := Log([], [0, 0, 0, 0], [0, 0, 0, 0])

  /** At least 6 seconds before lock, at least 4, at least 3, or later. */
  function Bucket(offset: int): (k: nat)
    ensures k < 4
  {
    if offset >= 6 then 0 else if offset >= 4 then 1 else if offset >= 3 then 2 else 3
  }

  function LogBet(log: Log, accuracy: real, n: nat, b: Settlement.Bet, lockAt: int, bullWon: bool): (r: Log)
    requires log.Valid()
    ensures r.Valid()
  {
    var k := Bucket(lockAt - b.createdAt);
    Log(if VARIANTS[0].minN <= n then log.samples + [Sample(accuracy, n, Won(b, bullWon))] else log.samples,
        log.timingAll[k := log.timingAll[k] + 1],
        if VARIANTS[0].minN <= n && VARIANTS[0].threshold <= accuracy
        then log.timingSmart[k := log.timingSmart[k] + 1] else log.timingSmart)
  }

  /** Each bet is logged with its bettor's record from the rounds before it. */
  function LogBets(log: Log, earlier: seq<Round>, bets: seq<Settlement.Bet>, lockAt: int, bullWon: bool): (r: Log)
    requires log.Valid()
    ensures r.Valid()
  {
    if bets == [] then log else
      var b := bets[|bets| - 1];
      var h := HistoryAfter(earlier, b.wallet);
      LogBet(LogBets(log, earlier, bets[..|bets| - 1], lockAt, bullWon), Accuracy(h), |Trail(h)|, b, lockAt, bullWon)
  }

  function LogOf(rounds: seq<Round>): (r: Log)
    ensures r.Valid()
  {
    if rounds == [] then NO_LOG else
      var front, r := rounds[..|rounds| - 1], rounds[|rounds| - 1];
      LogBets(LogOf(front), front, r.bets, r.lockAt, r.bullWon)
  }

  function BetCount(rounds: seq<Round>): nat {
    if rounds == [] then 0 else BetCount(rounds[..|rounds| - 1]) + |rounds[|rounds| - 1].bets|
  }

  /** No more smart bets than bets in any bucket, and every bet is in one. */
  ghost predicate Counted(log: Log, bets: nat) {
    && log.Valid()
    && log.timingAll[0] + log.timingAll[1] + log.timingAll[2] + log.timingAll[3] == bets
    && (forall k :: 0 <= k < 4 ==> log.timingSmart[k] <= log.timingAll[k])
    && |log.samples| <= bets
    && (forall x :: x in log.samples ==> VARIANTS[0].minN <= x.n <= TRAIL_N && 0.0 < x.accuracy < 1.0)
  }

  lemma LogBetCounts(log: Log, h: seq<bool>, b: Settlement.Bet, lockAt: int, bullWon: bool, bets: nat)
    requires Counted(log, bets)
    ensures Counted(LogBet(log, Accuracy(h), |Trail(h)|, b, lockAt, bullWon), bets + 1)
  {
    hide Accuracy;
    AccuracyIsProper(h);
  }

  lemma {:induction false} LogBetsCount(log: Log, earlier: seq<Round>, bets: seq<Settlement.Bet>, lockAt: int,
                                        bullWon: bool, before: nat)
    requires Counted(log, before)
    ensures Counted(LogBets(log, earlier, bets, lockAt, bullWon), before + |bets|)
  {
    hide Counted, Accuracy, Trail, HistoryAfter, LogBet;
    CountedIsValid(log, before);
    if bets != [] {
      var front, b := bets[..|bets| - 1], bets[|bets| - 1];
      LogBetsCount(log, earlier, front, lockAt, bullWon, before);
      LogBetCounts(LogBets(log, earlier, front, lockAt, bullWon), HistoryAfter(earlier, b.wallet), b, lockAt, bullWon,
                   before + |front|);
    }
  }

  lemma CountedIsValid(log: Log, bets: nat)
    requires Counted(log, bets)
    ensures log.Valid()
  {
  }

  /** The timing histogram accounts for every bet of every round, and every sample is of a proper record. */
  lemma {:induction false} LogCountsBets(rounds: seq<Round>)
    ensures Counted(LogOf(rounds), BetCount(rounds))
  {
    if rounds != [] {
      hide Counted, LogBets;
      var front, r := rounds[..|rounds| - 1], rounds[|rounds| - 1];
      LogCountsBets(front);
      LogBetsCount(LogOf(front), front, r.bets, r.lockAt, r.bullWon, BetCount(front));
    }
  }

  lemma LogSnoc(log: Log, earlier: seq<Round>, bets: seq<Settlement.Bet>, b: Settlement.Bet, lockAt: int, bullWon: bool)
    requires log.Valid()
    ensures LogBets(log, earlier, bets + [b], lockAt, bullWon) ==
            LogBet(LogBets(log, earlier, bets, lockAt, bullWon), Accuracy(HistoryAfter(earlier, b.wallet)),
                   |Trail(HistoryAfter(earlier, b.wallet))|, b, lockAt, bullWon)
  {
    hide LogBet, Accuracy, Trail, HistoryAfter;
    assert (bets + [b])[..|bets|] == bets;
  }

  // -------------------------------------------------------------------- the pass

  ghost predicate Knows(book: WalletBook, rounds: seq<Round>)
    reads book, book.states.Values
  {
    forall w :: book.History(w) == HistoryAfter(rounds, w)
  }

  function AddToGrid(grid: seq<seq<Cell>>, acc: real, n: nat, b: Settlement.Bet, lockAt: int): seq<seq<Cell>>
    requires |grid| == |VARIANTS| && forall row :: row in grid ==> |row| == |HORIZONS|
  {
    seq(|VARIANTS|, i requires 0 <= i < |VARIANTS| =>
      seq(|HORIZONS|, j requires 0 <= j < |HORIZONS| =>
        if VARIANTS[i].minN <= n && VARIANTS[i].threshold <= acc && SeenAt(b, lockAt, HORIZONS[j])
        then Cell(grid[i][j].net + Signed(b), grid[i][j].wallets + {b.wallet}) else grid[i][j]))
  }

  lemma GridShape(earlier: seq<Round>, bets: seq<Settlement.Bet>, lockAt: int)
    ensures |Grid(earlier, bets, lockAt)| == |VARIANTS|
    ensures forall row :: row in Grid(earlier, bets, lockAt) ==> |row| == |HORIZONS|
  {
    hide CellOf;
  }

  lemma GridSnoc(earlier: seq<Round>, bets: seq<Settlement.Bet>, b: Settlement.Bet, lockAt: int, acc: real, n: nat)
    requires acc == Accuracy(HistoryAfter(earlier, b.wallet)) && n == |Trail(HistoryAfter(earlier, b.wallet))|
    requires |Grid(earlier, bets, lockAt)| == |VARIANTS|
    requires forall row :: row in Grid(earlier, bets, lockAt) ==> |row| == |HORIZONS|
    ensures Grid(earlier, bets + [b], lockAt) == AddToGrid(Grid(earlier, bets, lockAt), acc, n, b, lockAt)
  {
    hide Accuracy, Trail, HistoryAfter, Signed, SeenAt;
    assert (bets + [b])[..|bets|] == bets;
    forall i, j | 0 <= i < |VARIANTS| && 0 <= j < |HORIZONS|
      ensures Grid(earlier, bets + [b], lockAt)[i][j] == AddToGrid(Grid(earlier, bets, lockAt), acc, n, b, lockAt)[i][j]
    {
    }
    forall i | 0 <= i < |VARIANTS|
      ensures Grid(earlier, bets + [b], lockAt)[i] == AddToGrid(Grid(earlier, bets, lockAt), acc, n, b, lockAt)[i]
    {
    }
  }

  method MeasureBets(book: WalletBook, r: Round, before: Log, ghost earlier: seq<Round>)
    returns (grid: seq<seq<Cell>>, log: Log)
    requires book.Valid() && Knows(book, earlier) && before.Valid()
    ensures grid == Grid(earlier, r.bets, r.lockAt)
    ensures log == LogBets(before, earlier, r.bets, r.lockAt, r.bullWon)
  {
    hide Accuracy, Trail, HistoryAfter, Grid, AddToGrid, LogBets, LogBet, WalletBook.Valid;
    log := before;
    NothingLogged(before, earlier, r.bets[..0], r.lockAt, r.bullWon);
    grid := seq(|VARIANTS|, i => seq(|HORIZONS|, j => Cell(0.0, {})));
    EmptyGrid(earlier, r.bets[..0], r.lockAt);
    for k := 0 to |r.bets|
      invariant grid == Grid(earlier, r.bets[..k], r.lockAt)
      invariant log == LogBets(before, earlier, r.bets[..k], r.lockAt, r.bullWon)
    {
      var b := r.bets[k];
      var acc, n := book.Lookup(b.wallet);
      GridShape(earlier, r.bets[..k], r.lockAt);
      GridSnoc(earlier, r.bets[..k], b, r.lockAt, acc, n);
      assert r.bets[..k] + [b] == r.bets[..k + 1];
      LogSnoc(before, earlier, r.bets[..k], b, r.lockAt, r.bullWon);
      grid := AddToGrid(grid, acc, n, b, r.lockAt);
      log := LogBet(log, acc, n, b, r.lockAt, r.bullWon);
    }
    assert r.bets[..|r.bets|] == r.bets;
  }

  lemma NothingLogged(log: Log, earlier: seq<Round>, bets: seq<Settlement.Bet>, lockAt: int, bullWon: bool)
    requires log.Valid() && |bets| == 0
    ensures LogBets(log, earlier, bets, lockAt, bullWon) == log
  {
  }

  lemma EmptyGrid(earlier: seq<Round>, bets: seq<Settlement.Bet>, lockAt: int)
    requires |bets| == 0
    ensures Grid(earlier, bets, lockAt) == seq(|VARIANTS|, i => seq(|HORIZONS|, j => Cell(0.0, {})))
  {
    var none := seq(|VARIANTS|, i => seq(|HORIZONS|, j => Cell(0.0, {})));
    forall i | 0 <= i < |VARIANTS| ensures Grid(earlier, bets, lockAt)[i] == none[i] {
      forall j | 0 <= j < |HORIZONS| ensures Grid(earlier, bets, lockAt)[i][j] == none[i][j] {
      }
    }
  }

  lemma OutcomesSnoc(bets: seq<Settlement.Bet>, b: Settlement.Bet, bullWon: bool, w: string)
    ensures OutcomesIn(bets + [b], bullWon, w) ==
            OutcomesIn(bets, bullWon, w) + if w == b.wallet then [Won(b, bullWon)] else []
  {
    assert (bets + [b])[..|bets|] == bets;
  }

  lemma HistorySnoc(rounds: seq<Round>, r: Round, w: string)
    ensures HistoryAfter(rounds + [r], w) == HistoryAfter(rounds, w) + OutcomesIn(r.bets, r.bullWon, w)
  {
    assert (rounds + [r])[..|rounds|] == rounds;
  }

  /** `h` is a wallet's history after these rounds and then these bets. */
  ghost predicate Midway(h: seq<bool>, earlier: seq<Round>, bets: seq<Settlement.Bet>, bullWon: bool, w: string) {
    h == HistoryAfter(earlier, w) + OutcomesIn(bets, bullWon, w)
  }

  lemma MidwayStart(h: seq<bool>, earlier: seq<Round>, bets: seq<Settlement.Bet>, bullWon: bool, w: string)
    requires |bets| == 0 && h == HistoryAfter(earlier, w)
    ensures Midway(h, earlier, bets, bullWon, w)
  {
    hide HistoryAfter;
  }

  lemma MidwayStep(h: seq<bool>, earlier: seq<Round>, bets: seq<Settlement.Bet>, b: Settlement.Bet, bullWon: bool, w: string)
    requires Midway(h, earlier, bets, bullWon, w)
    ensures Midway(h + if w == b.wallet then [Won(b, bullWon)] else [], earlier, bets + [b], bullWon, w)
  {
    hide HistoryAfter;
    OutcomesSnoc(bets, b, bullWon, w);
  }

  method SettleBets(book: WalletBook, r: Round, ghost earlier: seq<Round>)
    requires book.Valid() && Knows(book, earlier)
    modifies book, book.states.Values
    ensures book.Valid() && Knows(book, earlier + [r])
    ensures fresh(book.states.Values - old(book.states.Values))
  {
    hide WalletBook.Valid, WalletBook.History, HistoryAfter, OutcomesIn, Midway, Won;
    forall w: string ensures Midway(book.History(w), earlier, r.bets[..0], r.bullWon, w) {
      MidwayStart(book.History(w), earlier, r.bets[..0], r.bullWon, w);
    }
    for k := 0 to |r.bets|
      invariant book.Valid()
      invariant fresh(book.states.Values - old(book.states.Values))
      invariant forall w :: Midway(book.History(w), earlier, r.bets[..k], r.bullWon, w)
    {
      var b := r.bets[k];
      assert r.bets[..k] + [b] == r.bets[..k + 1];
      forall w: string {
        MidwayStep(book.History(w), earlier, r.bets[..k], b, r.bullWon, w);
      }
      book.Update(b.wallet, Won(b, r.bullWon));
    }
    assert r.bets[..|r.bets|] == r.bets;
    forall w: string ensures book.History(w) == HistoryAfter(earlier + [r], w) {
      MidwayEnd(book.History(w), earlier, r, w);
    }
  }

  lemma MidwayEnd(h: seq<bool>, earlier: seq<Round>, r: Round, w: string)
    requires Midway(h, earlier, r.bets, r.bullWon, w)
    ensures h == HistoryAfter(earlier + [r], w)
  {
    HistorySnoc(earlier, r, w);
  }

  datatype Study = Study(rows: seq<Row>, log: Log)

  /** One row per payable round and the log of all bets, each from the wallets' records before it. */
  method ChronologicalPass(rounds: seq<Round>) returns (study: Result<Study, Settlement.Error>)
    ensures study.Err? ==> RowsOf(rounds) == Err(study.error)
    ensures study.Ok? ==> RowsOf(rounds) == Ok(study.value.rows) && study.value.log == LogOf(rounds)
  {
    hide WalletBook.Valid, WalletBook.History, Knows, RowOf, RowsOf, Grid, LogBets, LogOf, HistoryAfter;
    var book := new WalletBook();
    var out: seq<Row> := [];
    var log := NO_LOG;
    NothingKnown(book, rounds[..0]);
    for k := 0 to |rounds|
      invariant fresh(book) && fresh(book.states.Values)
      invariant book.Valid() && Knows(book, rounds[..k])
      invariant RowsOf(rounds[..k]) == Ok(out)
      invariant log.Valid() && log == LogOf(rounds[..k])
    {
      var r := rounds[k];
      assert rounds[..k] + [r] == rounds[..k + 1];
      RowsSnoc(rounds[..k], r);
      LogGrows(rounds[..k], r);
      var pools := Settlement.ComputePoolAmountsWei(r.bets);
      RowFromPools(rounds[..k], r);
      if pools.Err? {
        ErrorStays(rounds, k + 1);
        return Err(pools.error);
      }
      var bull, bear := Bnb(pools.value.bull), Bnb(pools.value.bear);
      var payable := !(bull <= 0.0 || bear <= 0.0);
      var grid;
      grid, log := MeasureBets(book, r, log, rounds[..k]);
      if payable {
        out := out + [Row(r.epoch, r.bullWon, (bull + bear) * (1.0 - FEE) / bull, (bull + bear) * (1.0 - FEE) / bear, grid)];
      }
      SettleBets(book, r, rounds[..k]);
    }
    assert rounds[..|rounds|] == rounds;
    study := Ok(Study(out, log));
  }

  lemma NothingKnown(book: WalletBook, rounds: seq<Round>)
    requires book.states == map[] && |rounds| == 0
    ensures Knows(book, rounds) && RowsOf(rounds) == Ok([]) && LogOf(rounds) == NO_LOG
  {
  }

  lemma LogGrows(rounds: seq<Round>, r: Round)
    ensures LogOf(rounds + [r]) == LogBets(LogOf(rounds), rounds, r.bets, r.lockAt, r.bullWon)
  {
    hide LogBets;
    assert (rounds + [r])[..|rounds|] == rounds;
  }

  lemma RowsSnoc(rounds: seq<Round>, r: Round)
    ensures RowsOf(rounds + [r]) ==
            if RowsOf(rounds).Err? then RowsOf(rounds) else
              match RowOf(rounds, r)
              case Err(e) => Err(e)
              case Ok(None) => RowsOf(rounds)
              case Ok(Some(row)) => Ok(RowsOf(rounds).value + [row])
  {
    hide RowOf;
    assert (rounds + [r])[..|rounds|] == rounds;
  }

  lemma RowFromPools(earlier: seq<Round>, r: Round)
    ensures var pools := Settlement.PoolsOf(r.bets);
            if pools.Err? then RowOf(earlier, r) == Err(pools.error) else
              var bull, bear := Bnb(pools.value.bull), Bnb(pools.value.bear);
              if bull <= 0.0 || bear <= 0.0 then RowOf(earlier, r) == Ok(None)
              else RowOf(earlier, r) ==
                   Ok(Some(Row(r.epoch, r.bullWon, (bull + bear) * (1.0 - FEE) / bull, (bull + bear) * (1.0 - FEE) / bear,
                               Grid(earlier, r.bets, r.lockAt))))
  {
    hide Grid;
  }

  lemma {:induction false} ErrorStays(rounds: seq<Round>, n: nat)
    requires n <= |rounds| && RowsOf(rounds[..n]).Err?
    ensures RowsOf(rounds) == RowsOf(rounds[..n])
    decreases |rounds|
  {
    hide RowOf;
    if n == |rounds| {
      assert rounds[..n] == rounds;
    } else {
      assert rounds[..|rounds| - 1][..n] == rounds[..n];
      ErrorStays(rounds[..|rounds| - 1], n);
    }
  }

  // -------------------------------------------------------------- no look-ahead

  /** The bets placed at least `horizon` seconds before lock, in order. */
  function Visible(bets: seq<Settlement.Bet>, lockAt: int, horizon: int): seq<Settlement.Bet> {
    if bets == [] then [] else
      var b := bets[|bets| - 1];
      if SeenAt(b, lockAt, horizon) then Visible(bets[..|bets| - 1], lockAt, horizon) + [b]
      else Visible(bets[..|bets| - 1], lockAt, horizon)
  }

  lemma {:induction false} CellReadsVisible(earlier: seq<Round>, bets: seq<Settlement.Bet>, lockAt: int, v: Variant, h: int)
    ensures CellOf(earlier, bets, lockAt, v, h) == CellOf(earlier, Visible(bets, lockAt, h), lockAt, v, h)
  {
    hide Eligible, HistoryAfter, Signed, SeenAt;
    if bets != [] {
      var front, b := bets[..|bets| - 1], bets[|bets| - 1];
      CellReadsVisible(earlier, front, lockAt, v, h);
      var seen := Visible(front, lockAt, h);
      assert (seen + [b])[..|seen|] == seen;
    }
  }

  /** The same rows before position `n`, and at `n` the two rounds' own rows with one feature pair in common. */
  predicate RowsAgree(x: seq<Row>, y: seq<Row>, n: nat, epoch: int, other: int, i: nat, j: nat) {
    && n < |x| && n < |y| && x[..n] == y[..n]
    && x[n].epoch == epoch && y[n].epoch == other
    && i < |x[n].cells| && i < |y[n].cells| && j < |x[n].cells[i]| && j < |y[n].cells[i]|
    && x[n].cells[i][j] == y[n].cells[i][j]
  }

  predicate HasRow(rounds: seq<Round>, k: nat)
    requires k < |rounds|
  {
    RowOf(rounds[..k], rounds[k]).Ok? && RowOf(rounds[..k], rounds[k]).value.Some?
  }

  /** The rows of the earlier rounds come first, and then the round's own. */
  lemma RowAt(rounds: seq<Round>, k: nat)
    requires k < |rounds| && RowsOf(rounds).Ok? && HasRow(rounds, k)
    ensures RowsOf(rounds[..k]).Ok?
    ensures var n, rows := |RowsOf(rounds[..k]).value|, RowsOf(rounds).value;
            && n < |rows| && rows[..n] == RowsOf(rounds[..k]).value
            && rows[n].epoch == rounds[k].epoch && rows[n].cells == Grid(rounds[..k], rounds[k].bets, rounds[k].lockAt)
  {
    hide RowOf, RowsOf, Grid;
    RowsStart(rounds, k);
    RowsStart(rounds, k + 1);
    assert rounds[..k] + [rounds[k]] == rounds[..k + 1];
    RowsSnoc(rounds[..k], rounds[k]);
    RowFromPools(rounds[..k], rounds[k]);
  }

  lemma {:induction false} RowsStart(rounds: seq<Round>, k: nat)
    requires k <= |rounds| && RowsOf(rounds).Ok?
    ensures RowsOf(rounds[..k]).Ok? && RowsOf(rounds[..k]).value <= RowsOf(rounds).value
    decreases |rounds|
  {
    hide RowOf;
    if k == |rounds| {
      assert rounds[..k] == rounds;
    } else {
      RowsStart(rounds[..|rounds| - 1], k);
      assert rounds[..|rounds| - 1][..k] == rounds[..k];
    }
  }

  /**
   * Whether the round has a row at all is another matter: that is decided by every bet in it,
   * however late.
   */
  lemma RowNeedsBothPools(earlier: seq<Round>, r: Round)
    requires Settlement.PoolsOf(r.bets).Ok?
    ensures RowOf(earlier, r).Ok?
    ensures RowOf(earlier, r).value.Some? <==>
            (exists b :: b in r.bets && b.position == Bull) &&
            (exists b :: b in r.bets && b.position == Bear)
  {
    hide Grid;
    SideIsPositive(r.bets, Bull);
    SideIsPositive(r.bets, Bear);
  }

  /** One bet at ten seconds before lock, or that and another at one second before. */
  lemma LateBetDecidesRow(earlier: seq<Round>, early: Settlement.Bet, late: Settlement.Bet, r: Round, q: Round, h: int)
    requires early.position == Bull && late.position == Bear && early.amountWei > 0 && late.amountWei > 0
    requires r == Round(1, 300, true, [early]) && q == Round(1, 300, true, [early] + [late])
    requires early.createdAt == 290 && late.createdAt == 299 && h in HORIZONS
    ensures Visible(r.bets, 300, h) == Visible(q.bets, 300, h) == [early]
    ensures RowOf(earlier, r) == Ok(None) && RowOf(earlier, q).Ok? && RowOf(earlier, q).value.Some?
  {
    hide RowOf, Settlement.SideWei;
    assert r.bets[..0] == [] && q.bets[..1] == r.bets;
    Settlement.FirstErrorSnoc([], early);
    Settlement.FirstErrorSnoc([early], late);
    assert [] + [early] == [early];
    RowNeedsBothPools(earlier, r);
    RowNeedsBothPools(earlier, q);
    assert early in q.bets && late in q.bets;
  }

  lemma {:induction false} SideIsPositive(bets: seq<Settlement.Bet>, side: Label)
    requires Settlement.FirstError(bets) == None
    ensures 0 <= Settlement.SideWei(bets, side)
    ensures 0 < Settlement.SideWei(bets, side) <==> exists b :: b in bets && b.position == side
  {
    if bets != [] {
      var front, b := bets[..|bets| - 1], bets[|bets| - 1];
      SideIsPositive(front, side);
      assert forall x :: x in bets <==> x in front || x == b;
    }
  }
}
