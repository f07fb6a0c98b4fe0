/**
 * The append-only candle file of research/backfill_okx_extended.py, one per symbol, and the two
 * ways of reading a file in which an epoch may have been appended more than once.
 */
module BackfillFile {

  const INTERVAL_SECONDS := 300

  datatype Round = Round(epoch: int, startAt: int)

  datatype Status = OkFull | OkPartial | Missing | Failed

  /** One line of the file.  The candles themselves play no part here. */
  datatype Record = Record(epoch: int, lockAt: int, status: Status)

  /** The rounds as loaded: distinct positive epochs in increasing order. */
  ghost predicate ByEpoch(rs: seq<Round>) {
    && (forall i :: 0 <= i < |rs| ==> 0 < rs[i].epoch)
    && (forall i, j :: 0 <= i < j < |rs| ==> rs[i].epoch < rs[j].epoch)
  }

  function RecordOf(r: Round, status: Status): Record {
    Record(r.epoch, r.startAt + INTERVAL_SECONDS, status)
  }

  predicate IsOf(x: Record, r: Round) {
    x == RecordOf(r, x.status)
  }

  // ------------------------------------------------------------ what was written

  /** How many rounds the file has reached. */
  function Reach(rs: seq<Round>, f: seq<Record>): (n: nat)
    ensures n <= |rs| && n <= |f|
  {
    if f == [] then 0 else
      var n := Reach(rs, f[..|f| - 1]);
      if n < |rs| && IsOf(f[|f| - 1], rs[n]) then n + 1 else n
  }

  /** Every record is for the round just reached, or for that round again. */
  ghost predicate Legal(rs: seq<Round>, f: seq<Record>) {
    f == [] ||
    var g, x := f[..|f| - 1], f[|f| - 1];
    var n := Reach(rs, g);
    Legal(rs, g) && ((n < |rs| && IsOf(x, rs[n])) || (0 < n && IsOf(x, rs[n - 1])))
  }

  lemma ReachNext(rs: seq<Round>, f: seq<Record>, status: Status)
    requires Legal(rs, f) && Reach(rs, f) < |rs|
    ensures var g := f + [RecordOf(rs[Reach(rs, f)], status)];
            Legal(rs, g) && Reach(rs, g) == Reach(rs, f) + 1
  {
    var x := RecordOf(rs[Reach(rs, f)], status);
    assert (f + [x])[..|f|] == f;
  }

  lemma ReachAgain(rs: seq<Round>, f: seq<Record>, status: Status)
    requires ByEpoch(rs) && Legal(rs, f) && 0 < Reach(rs, f)
    ensures var g := f + [RecordOf(rs[Reach(rs, f) - 1], status)];
            Legal(rs, g) && Reach(rs, g) == Reach(rs, f)
  {
    var n := Reach(rs, f);
    var x := RecordOf(rs[n - 1], status);
    assert (f + [x])[..|f|] == f;
    assert n < |rs| ==> rs[n - 1].epoch < rs[n].epoch;
  }

  // ------------------------------------------------------------ first record wins

  predicate Mentions(f: seq<Record>, epoch: int) {
    f != [] && (f[|f| - 1].epoch == epoch || Mentions(f[..|f| - 1], epoch))
  }

  /** What a reader sees that keeps the first record of each epoch. */
  function Kept(f: seq<Record>): seq<Record> {
    if f == [] then [] else
      var g, x := f[..|f| - 1], f[|f| - 1];
      if Mentions(g, x.epoch) then Kept(g) else Kept(g) + [x]
  }

  lemma {:induction false} MentionsReached(rs: seq<Round>, f: seq<Record>, k: nat)
    requires ByEpoch(rs) && Legal(rs, f) && k < |rs|
    ensures Mentions(f, rs[k].epoch) <==> k < Reach(rs, f)
  {
    if f != [] {
      var g, x := f[..|f| - 1], f[|f| - 1];
      var n := Reach(rs, g);
      MentionsReached(rs, g, k);
      assert n < |rs| ==> n != k ==> rs[n].epoch != rs[k].epoch;
      assert 0 < n ==> n - 1 != k ==> rs[n - 1].epoch != rs[k].epoch;
    }
  }

  /** One record for each of `rs[..n]`, in that order. */
  ghost predicate Matches(recs: seq<Record>, rs: seq<Round>, n: nat) {
    |recs| == n <= |rs| && forall k :: 0 <= k < n ==> IsOf(recs[k], rs[k])
  }

  /** The file, read first-record-wins, is exactly the prefix of the rounds it has reached. */
  lemma {:induction false} KeptIsPrefix(rs: seq<Round>, f: seq<Record>)
    requires ByEpoch(rs) && Legal(rs, f)
    ensures Matches(Kept(f), rs, Reach(rs, f))
  {
    if f != [] {
      var g, x := f[..|f| - 1], f[|f| - 1];
      var n := Reach(rs, g);
      KeptIsPrefix(rs, g);
      if n < |rs| {
        MentionsReached(rs, g, n);
      }
      if 0 < n {
        MentionsReached(rs, g, n - 1);
      }
    }
  }

  // ------------------------------------------------------------- last record wins

  /** The last record of each stretch of one epoch. */
  function Closing(f: seq<Record>): (c: seq<Record>)
    ensures f != [] ==> c != [] && c[|c| - 1] == f[|f| - 1]
  {
    if f == [] then [] else
      var g, x := Closing(f[..|f| - 1]), f[|f| - 1];
      if g != [] && g[|g| - 1].epoch == x.epoch then g[..|g| - 1] + [x] else g + [x]
  }

  lemma {:induction false} ClosingIsPrefix(rs: seq<Round>, f: seq<Record>)
    requires ByEpoch(rs) && Legal(rs, f)
    ensures Matches(Closing(f), rs, Reach(rs, f))
  {
    if f != [] {
      var g, x := f[..|f| - 1], f[|f| - 1];
      var n := Reach(rs, g);
      ClosingIsPrefix(rs, g);
      assert 0 < n < |rs| ==> rs[n - 1].epoch < rs[n].epoch;
    }
  }

  /** Another record never touches what was closed before the epoch it is for. */
  lemma ClosingKeepsFront(rs: seq<Round>, f: seq<Record>, x: Record, c: nat)
    requires ByEpoch(rs) && Legal(rs, f) && Legal(rs, f + [x]) && c < |rs| && IsOf(x, rs[c])
    requires c <= Reach(rs, f) <= c + 1 == Reach(rs, f + [x])
    ensures c <= |Closing(f)| && Closing(f + [x]) == Closing(f)[..c] + [x]
  {
    hide Legal;
    assert (f + [x])[..|f|] == f;
    ClosingIsPrefix(rs, f);
    ClosingIsPrefix(rs, f + [x]);
  }

  /** In a file with no repeats the last record is for a new round. */
  lemma LastIsNew(rs: seq<Round>, f: seq<Record>)
    requires Legal(rs, f) && f != [] && |f| == Reach(rs, f)
    ensures var g, x := f[..|f| - 1], f[|f| - 1];
            Legal(rs, g) && |g| == Reach(rs, g) && |g| < |rs| && IsOf(x, rs[|g|])
  {
  }

  lemma ClosingOfNew(rs: seq<Round>, g: seq<Record>, x: Record)
    requires ByEpoch(rs) && Legal(rs, g) && |g| == Reach(rs, g) && |g| < |rs| && IsOf(x, rs[|g|])
    ensures Closing(g + [x]) == Closing(g) + [x]
  {
    hide Legal, Reach;
    ClosingIsPrefix(rs, g);
    assert (g + [x])[..|g|] == g;
    assert g != [] ==> rs[|g| - 1].epoch < rs[|g|].epoch;
  }

  lemma KeptOfNew(rs: seq<Round>, g: seq<Record>, x: Record)
    requires ByEpoch(rs) && Legal(rs, g) && |g| == Reach(rs, g) && |g| < |rs| && IsOf(x, rs[|g|])
    ensures Kept(g + [x]) == Kept(g) + [x]
  {
    hide Legal, Reach, Mentions;
    MentionsReached(rs, g, |g|);
    assert (g + [x])[..|g|] == g;
  }

  /** Without repeats the two readings agree. */
  lemma {:induction false} NoRepeats(rs: seq<Round>, f: seq<Record>)
    requires ByEpoch(rs) && Legal(rs, f) && |f| == Reach(rs, f)
    ensures Kept(f) == f && Closing(f) == f
  {
    hide Legal, Reach, ByEpoch, IsOf;
    if f != [] {
      var g, x := f[..|f| - 1], f[|f| - 1];
      assert f == g + [x];
      LastIsNew(rs, f);
      NoRepeats(rs, g);
      ClosingOfNew(rs, g, x);
      KeptOfNew(rs, g, x);
    }
  }

  // ---------------------------------------------------------------------- tallies

  function CountOf(recs: seq<Record>, status: Status): (n: nat)
    ensures n <= |recs|
  {
    if recs == [] then 0 else
      CountOf(recs[..|recs| - 1], status) + if recs[|recs| - 1].status == status then 1 else 0
  }

  lemma CountSnoc(recs: seq<Record>, x: Record, status: Status)
    ensures CountOf(recs + [x], status) == CountOf(recs, status) + if x.status == status then 1 else 0
  {
    assert (recs + [x])[..|recs|] == recs;
  }

  // ------------------------------------------------- when the two readings agree

  /** Position of the first record of an epoch. */
  function First(f: seq<Record>, epoch: int): (i: nat)
    requires Mentions(f, epoch)
    ensures i < |f| && f[i].epoch == epoch && forall j :: 0 <= j < i ==> f[j].epoch != epoch
  {
    var front := f[..|f| - 1];
    if Mentions(front, epoch) then First(front, epoch) else
      NotMentioned(front, epoch);
      |f| - 1
  }

  /** Position of the last record of an epoch. */
  function Final(f: seq<Record>, epoch: int): (i: nat)
    requires Mentions(f, epoch)
    ensures i < |f| && f[i].epoch == epoch && forall j :: i < j < |f| ==> f[j].epoch != epoch
  {
    if f[|f| - 1].epoch == epoch then |f| - 1 else Final(f[..|f| - 1], epoch)
  }

  lemma {:induction false} NotMentioned(f: seq<Record>, epoch: int)
    requires !Mentions(f, epoch)
    ensures forall j :: 0 <= j < |f| ==> f[j].epoch != epoch
  {
    if f != [] {
      NotMentioned(f[..|f| - 1], epoch);
    }
  }

  lemma {:induction false} KeptIsFirst(rs: seq<Round>, f: seq<Record>, k: nat)
    requires ByEpoch(rs) && Legal(rs, f) && k < Reach(rs, f)
    ensures Mentions(f, rs[k].epoch) && k < |Kept(f)| && Kept(f)[k] == f[First(f, rs[k].epoch)]
  {
    var g, x := f[..|f| - 1], f[|f| - 1];
    MentionsReached(rs, f, k);
    MentionsReached(rs, g, k);
    KeptIsPrefix(rs, g);
    LastIsReached(rs, f);
    if k < Reach(rs, g) {
      KeptIsFirst(rs, g, k);
    } else {
      assert x.epoch == rs[k].epoch;
    }
  }

  /** The last record is for the last round reached. */
  lemma LastIsReached(rs: seq<Round>, f: seq<Record>)
    requires ByEpoch(rs) && Legal(rs, f) && f != []
    ensures var n := Reach(rs, f);
            0 < n && f[|f| - 1].epoch == rs[n - 1].epoch && n - 1 <= Reach(rs, f[..|f| - 1]) <= n
  {
    var n := Reach(rs, f[..|f| - 1]);
    assert 0 < n < |rs| ==> rs[n - 1].epoch < rs[n].epoch;
  }

  lemma {:induction false} ClosingIsFinal(rs: seq<Round>, f: seq<Record>, k: nat)
    requires ByEpoch(rs) && Legal(rs, f) && k < Reach(rs, f)
    ensures Mentions(f, rs[k].epoch) && k < |Closing(f)| && Closing(f)[k] == f[Final(f, rs[k].epoch)]
  {
    hide Legal, Reach;
    var g := f[..|f| - 1];
    FrontIsLegal(rs, f);
    MentionsReached(rs, f, k);
    ClosingIsPrefix(rs, g);
    ClosingIsPrefix(rs, f);
    LastIsReached(rs, f);
    if k + 1 < Reach(rs, f) {
      ClosingIsFinal(rs, g, k);
      assert rs[k].epoch < rs[Reach(rs, f) - 1].epoch;
    }
  }

  lemma FrontIsLegal(rs: seq<Round>, f: seq<Record>)
    requires Legal(rs, f)
    ensures f != [] ==> Legal(rs, f[..|f| - 1])
    ensures 0 < Reach(rs, f) ==> f != []
  {
  }

  /** Each of the first `c` rounds was last reported as it was first reported. */
  ghost predicate AnsweredAlike(rs: seq<Round>, f: seq<Record>, c: nat)
    requires c <= |rs|
  {
    forall k :: 0 <= k < c ==>
      (Mentions(f, rs[k].epoch) && f[First(f, rs[k].epoch)].status == f[Final(f, rs[k].epoch)].status)
  }

  /** First-record-wins and last-record-wins give the same records exactly in that case. */
  lemma SameReadingsExactlyWhen(rs: seq<Round>, f: seq<Record>, c: nat)
    requires ByEpoch(rs) && Legal(rs, f) && c <= Reach(rs, f)
    ensures c <= |Kept(f)| && c <= |Closing(f)|
    ensures Kept(f)[..c] == Closing(f)[..c] <==> AnsweredAlike(rs, f, c)
  {
    hide Legal, Reach, Kept, Closing, First, Final, Mentions;
    KeptIsPrefix(rs, f);
    ClosingIsPrefix(rs, f);
    forall k | 0 <= k < c
      ensures Mentions(f, rs[k].epoch)
      ensures Kept(f)[k] == Closing(f)[k] <==> f[First(f, rs[k].epoch)].status == f[Final(f, rs[k].epoch)].status
    {
      KeptIsFirst(rs, f, k);
      ClosingIsFinal(rs, f, k);
    }
    if AnsweredAlike(rs, f, c) {
      assert forall k :: 0 <= k < c ==> Kept(f)[k] == Closing(f)[k];
    } else {
      var k :| 0 <= k < c && f[First(f, rs[k].epoch)].status != f[Final(f, rs[k].epoch)].status;
      assert Kept(f)[..c][k] != Closing(f)[..c][k];
    }
  }

  /** How many positions have a status in `a` and another one in `b`. */
  function Changed(a: seq<Record>, b: seq<Record>, status: Status): nat
    requires |a| == |b|
  {
    if a == [] then 0 else
      var n := |a| - 1;
      Changed(a[..n], b[..n], status) + if a[n].status == status && b[n].status != status then 1 else 0
  }

  lemma {:induction false} CountsShift(a: seq<Record>, b: seq<Record>, status: Status)
    requires |a| == |b|
    ensures CountOf(a, status) + Changed(b, a, status) == CountOf(b, status) + Changed(a, b, status)
  {
    if a != [] {
      CountsShift(a[..|a| - 1], b[..|a| - 1], status);
    }
  }

  /** For every status, as many positions change from it as change to it. */
  ghost predicate Balanced(a: seq<Record>, b: seq<Record>)
    requires |a| == |b|
  {
    forall status :: Changed(a, b, status) == Changed(b, a, status)
  }

  lemma BalancedIs(a: seq<Record>, b: seq<Record>)
    requires |a| == |b|
    ensures Balanced(a, b) <==>
            && Changed(a, b, OkFull) == Changed(b, a, OkFull) && Changed(a, b, OkPartial) == Changed(b, a, OkPartial)
            && Changed(a, b, Missing) == Changed(b, a, Missing) && Changed(a, b, Failed) == Changed(b, a, Failed)
  {
    hide Changed;
    if && Changed(a, b, OkFull) == Changed(b, a, OkFull) && Changed(a, b, OkPartial) == Changed(b, a, OkPartial)
       && Changed(a, b, Missing) == Changed(b, a, Missing) && Changed(a, b, Failed) == Changed(b, a, Failed)
    {
      forall status: Status ensures Changed(a, b, status) == Changed(b, a, status) {
        match status
        case OkFull =>
        case OkPartial =>
        case Missing =>
        case Failed =>
      }
    }
  }
}
