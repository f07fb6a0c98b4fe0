/**
 * Bankroll samples, the rolling-window peak query and the pruning rule of
 * pancakebot/bankroll_tracker.py, as functions on sequences of samples.
 *
 * The query has two definitions: `RollingPeak` computes it the way the tracker does
 * (collect, then take the maximum) and `IsPeak` says which value it must be.  The
 * theorems of this module say that neither pruning nor deduplication changes the answer.
 */
module BankrollHistory {
  import opened Basics

  datatype Event = Init | Settlement | PeakReseed

  datatype Entry = Entry(startAt: int, bankroll: real, event: Event, openStake: real)

  const DEDUP_TOLERANCE := 0.000000000001

  function Last<T>(s: seq<T>): T
    requires s != []
  {
    s[|s| - 1]
  }

  ghost predicate Ordered(s: seq<Entry>) {
    forall i, j :: 0 <= i < j < |s| ==> s[i].startAt <= s[j].startAt
  }

  // ---------------------------------------------------------------- pruning

  /** Position of the first sample at or after `windowStart`, or the length if there is none. */
  function FirstInWindow(s: seq<Entry>, windowStart: int): (k: nat)
    ensures k <= |s|
  {
    if s == [] || windowStart <= s[0].startAt then 0
    else 1 + FirstInWindow(s[1..], windowStart)
  }

  lemma FirstInWindowShape(s: seq<Entry>, windowStart: int)
    ensures var k := FirstInWindow(s, windowStart);
            && (forall i :: 0 <= i < k ==> s[i].startAt < windowStart)
            && (k < |s| ==> windowStart <= s[k].startAt)
  {
    if s != [] && s[0].startAt < windowStart {
      FirstInWindowShape(s[1..], windowStart);
      assert s == [s[0]] + s[1..];
    }
  }

  /** How many samples `_prune` drops: all but one of those before the window. */
  function Cut(s: seq<Entry>, window: int): (c: nat)
    ensures c <= |s|
  {
    if s == [] then 0 else
      var k := FirstInWindow(s, Last(s).startAt - window);
      if k == 0 then 0 else k - 1
  }

  /** The samples that `_prune` keeps. */
  function Prune(s: seq<Entry>, window: int): seq<Entry> {
    s[Cut(s, window)..]
  }

  lemma CutShape(s: seq<Entry>, window: int)
    requires Ordered(s) && s != [] && 0 <= window
    ensures var c, windowStart := Cut(s, window), Last(s).startAt - window;
            && c < |s|
            && (c > 0 ==> c + 1 < |s| && s[c].startAt < windowStart)
            && (c + 1 < |s| ==> windowStart <= s[c + 1].startAt)
  {
    var windowStart := Last(s).startAt - window;
    var k := FirstInWindow(s, windowStart);
    FirstInWindowShape(s, windowStart);
    assert k < |s|;
    if k == 0 && 1 < |s| {
      assert s[0].startAt <= s[1].startAt;
    }
  }

  /** The shape above determines how much is dropped. */
  lemma CutIs(s: seq<Entry>, window: int, c: nat)
    requires Ordered(s) && 0 <= window && c < |s|
    requires c > 0 ==> c + 1 < |s| && s[c].startAt < Last(s).startAt - window
    requires c + 1 < |s| ==> Last(s).startAt - window <= s[c + 1].startAt
    ensures Cut(s, window) == c
  {
    var d := Cut(s, window);
    CutShape(s, window);
  }

  lemma OrderedAt(s: seq<Entry>, i: int, j: int)
    requires Ordered(s)
    ensures 0 <= i <= j < |s| ==> s[i].startAt <= s[j].startAt
  {
  }

  lemma OrderedPart(s: seq<Entry>, lo: nat, hi: nat)
    requires Ordered(s) && lo <= hi <= |s|
    ensures Ordered(s[lo..hi])
  {
    var t := s[lo..hi];
    forall i, j | 0 <= i < j < |t| ensures t[i].startAt <= t[j].startAt {
      assert s[lo + i].startAt <= s[lo + j].startAt;
    }
  }

  lemma CutNeverDecreases(s: seq<Entry>, e: Entry, window: int)
    requires Ordered(s + [e]) && s != [] && 0 <= window
    ensures Ordered(s) && Cut(s, window) <= Cut(s + [e], window)
  {
    hide Cut;
    var t := s + [e];
    OrderedPart(t, 0, |s|);
    assert t[0..|s|] == s;
    hide Ordered;
    CutShape(s, window);
    CutShape(t, window);
    OrderedAt(t, |s| - 1, |s|);
    var c, d := Cut(s, window), Cut(t, window);
    OrderedAt(t, d + 1, c);
  }

  lemma CutAfterDrop(t: seq<Entry>, c: nat, window: int)
    requires Ordered(t) && 0 <= window && c < |t| && c <= Cut(t, window)
    ensures Cut(t[c..], window) == Cut(t, window) - c
  {
    hide Cut;
    OrderedPart(t, c, |t|);
    assert t[c..|t|] == t[c..];
    hide Ordered;
    CutShape(t, window);
    CutIs(t[c..], window, Cut(t, window) - c);
  }

  lemma OrderedSnoc(s: seq<Entry>, e: Entry)
    requires Ordered(s) && (s != [] ==> Last(s).startAt <= e.startAt)
    ensures Ordered(s + [e])
  {
    forall i | 0 <= i < |s| ensures s[i].startAt <= e.startAt {
      OrderedAt(s, i, |s| - 1);
    }
  }

  /** Pruning after every append leaves the same samples as pruning once at the end. */
  lemma {:induction false} PruneThenAppend(s: seq<Entry>, e: Entry, window: int)
    requires Ordered(s + [e]) && 0 <= window
    ensures Prune(Prune(s, window) + [e], window) == Prune(s + [e], window)
  {
    var t := s + [e];
    if s != [] {
      CutNeverDecreases(s, e, window);
      CutShape(s, window);
      hide Ordered, Cut;
      var c := Cut(s, window);
      CutAfterDrop(t, c, window);
      DropAppend(s, e, c);
      DropDrop(t, c, Cut(t, window) - c);
    } else {
      assert Prune(s, window) == [];
    }
  }

  /** The deque when each sample of `s` is appended and pruned in turn. */
  function PruneEach(s: seq<Entry>, window: int): seq<Entry> {
    if s == [] then [] else Prune(PruneEach(s[..|s| - 1], window) + [Last(s)], window)
  }

  /** Pruning after every append leaves what one prune at the end leaves. */
  lemma {:induction false} PruneEachIsPruneOnce(s: seq<Entry>, window: int)
    requires Ordered(s) && 0 <= window
    ensures PruneEach(s, window) == Prune(s, window)
  {
    if s != [] {
      hide Prune;
      OrderedPart(s, 0, |s| - 1);
      assert s[0..|s| - 1] == s[..|s| - 1];
      PruneEachIsPruneOnce(s[..|s| - 1], window);
      assert s == s[..|s| - 1] + [Last(s)];
      PruneThenAppend(s[..|s| - 1], Last(s), window);
    }
  }

  lemma DropAppend<T>(s: seq<T>, e: T, c: nat)
    requires c <= |s|
    ensures s[c..] + [e] == (s + [e])[c..]
  {
  }

  lemma DropDrop<T>(s: seq<T>, c: nat, d: nat)
    requires c + d <= |s|
    ensures s[c..][d..] == s[c + d..]
  {
  }

  // ------------------------------------------------------------- peak query

  function InWindow(s: seq<Entry>, windowStart: int): seq<real> {
    if s == [] then [] else
      var n := |s| - 1;
      InWindow(s[..n], windowStart) + if s[n].startAt >= windowStart then [s[n].bankroll] else []
  }

  function BeforeWindow(s: seq<Entry>, windowStart: int): seq<real> {
    if s == [] then [] else
      var n := |s| - 1;
      BeforeWindow(s[..n], windowStart) + if s[n].startAt < windowStart then [s[n].bankroll] else []
  }

  function Candidates(s: seq<Entry>, windowStart: int): (r: seq<real>)
    ensures s != [] ==> r != []
  {
    var before := BeforeWindow(s, windowStart);
    InWindow(s, windowStart) + if before == [] then [] else [Last(before)]
  }

  /** `peak_bankroll` in rolling mode: the largest sample in the window or just before it. */
  function RollingPeak(s: seq<Entry>, windowStart: int): real
    requires s != []
  {
    MaxOf(Candidates(s, windowStart))
  }

  /** A sample counts when it is in the window, or is the latest one before it. */
  ghost predicate Counts(s: seq<Entry>, windowStart: int, i: int) {
    && 0 <= i < |s|
    && (windowStart <= s[i].startAt || forall j :: i < j < |s| ==> windowStart <= s[j].startAt)
  }

  ghost predicate IsPeak(s: seq<Entry>, windowStart: int, p: real) {
    && (exists i :: Counts(s, windowStart, i) && s[i].bankroll == p)
    && (forall i :: Counts(s, windowStart, i) ==> s[i].bankroll <= p)
  }

  /** One more sample: it replaces everything when it precedes the window, else it joins in. */
  lemma PeakSnoc(s: seq<Entry>, e: Entry, windowStart: int)
    requires Ordered(s + [e])
    ensures RollingPeak(s + [e], windowStart) ==
            if s == [] || e.startAt < windowStart then e.bankroll
            else MaxReal(RollingPeak(s, windowStart), e.bankroll)
  {
    var t := s + [e];
    assert t[..|s|] == s;
    if e.startAt < windowStart {
      forall i | 0 <= i < |t| ensures t[i].startAt < windowStart {
        assert i == |s| || t[i].startAt <= t[|s|].startAt;
      }
      NoneInWindow(t, windowStart);
    } else {
      var before := BeforeWindow(s, windowStart);
      assert BeforeWindow(t, windowStart) == before;
      assert InWindow(t, windowStart) == InWindow(s, windowStart) + [e.bankroll];
      var a, b := Candidates(s, windowStart), Candidates(t, windowStart);
      forall x ensures x in b <==> x in a || x == e.bankroll {}
      if s != [] {
        assert MaxOf(a) in b && e.bankroll in b && MaxOf(b) in b;
      }
    }
  }

  lemma {:induction false} NoneInWindow(s: seq<Entry>, windowStart: int)
    requires forall i :: 0 <= i < |s| ==> s[i].startAt < windowStart
    ensures InWindow(s, windowStart) == []
  {
    if s != [] {
      NoneInWindow(s[..|s| - 1], windowStart);
    }
  }

  /** The computed peak is the declared one. */
  lemma {:induction false} RollingPeakIsPeak(s: seq<Entry>, windowStart: int)
    requires Ordered(s) && s != []
    ensures IsPeak(s, windowStart, RollingPeak(s, windowStart))
  {
    var n := |s| - 1;
    var f, e := s[..n], s[n];
    assert s == f + [e];
    PeakSnoc(f, e, windowStart);
    assert Counts(s, windowStart, n);
    if e.startAt < windowStart {
      assert forall i :: Counts(s, windowStart, i) ==> i == n;
    } else if n > 0 {
      RollingPeakIsPeak(f, windowStart);
      assert forall i :: 0 <= i < n ==> (Counts(s, windowStart, i) <==> Counts(f, windowStart, i));
    }
  }

  lemma PeakUnique(s: seq<Entry>, windowStart: int, p: real, q: real)
    requires IsPeak(s, windowStart, p) && IsPeak(s, windowStart, q)
    ensures p == q
  {
  }

  /** Pruning loses no answer, for every window that starts no earlier than the pruning window. */
  lemma PruneKeepsPeak(s: seq<Entry>, window: int, windowStart: int)
    requires Ordered(s) && s != [] && 0 <= window
    requires Last(s).startAt - window <= windowStart
    ensures Prune(s, window) != []
    ensures RollingPeak(Prune(s, window), windowStart) == RollingPeak(s, windowStart)
  {
    var c := Cut(s, window);
    CutShape(s, window);
    OrderedPart(s, c, |s|);
    assert s[c..] == s[c..|s|];
    hide Ordered, Cut, RollingPeak, IsPeak;
    RollingPeakIsPeak(s, windowStart);
    RollingPeakIsPeak(s[c..], windowStart);
    var p := RollingPeak(s, windowStart);
    assert IsPeak(s[c..], windowStart, p) by { PrunedIsPeak(s, window, windowStart, p); }
    PeakUnique(s[c..], windowStart, p, RollingPeak(s[c..], windowStart));
  }

  lemma PrunedIsPeak(s: seq<Entry>, window: int, windowStart: int, p: real)
    requires Ordered(s) && s != [] && 0 <= window
    requires Last(s).startAt - window <= windowStart
    requires IsPeak(s, windowStart, p)
    ensures Cut(s, window) <= |s|
    ensures IsPeak(Prune(s, window), windowStart, p)
  {
    hide Ordered, Cut, Counts, IsPeak;
    var c, t := Cut(s, window), Prune(s, window);
    CutShape(s, window);
    var i := PeakWitness(s, windowStart, p);
    CountsBelow(s, c, windowStart, i);
    forall k: nat | k < |t| && Counts(t, windowStart, k) ensures t[k].bankroll <= p {
      CountsAbove(s, c, windowStart, k);
      PeakBound(s, windowStart, p, k + c);
    }
    PeakFrom(t, windowStart, p, i - c);
  }

  lemma PeakWitness(s: seq<Entry>, windowStart: int, p: real) returns (i: nat)
    requires IsPeak(s, windowStart, p)
    ensures i < |s| && Counts(s, windowStart, i) && s[i].bankroll == p
  {
    i :| Counts(s, windowStart, i) && s[i].bankroll == p;
  }

  lemma PeakBound(s: seq<Entry>, windowStart: int, p: real, i: nat)
    requires IsPeak(s, windowStart, p) && i < |s| && Counts(s, windowStart, i)
    ensures s[i].bankroll <= p
  {
  }

  lemma PeakFrom(s: seq<Entry>, windowStart: int, p: real, i: nat)
    requires i < |s| && Counts(s, windowStart, i) && s[i].bankroll == p
    requires forall k: nat :: k < |s| && Counts(s, windowStart, k) ==> s[k].bankroll <= p
    ensures IsPeak(s, windowStart, p)
  {
  }

  lemma CountsBelow(s: seq<Entry>, c: nat, windowStart: int, i: int)
    requires c < |s| && (c > 0 ==> s[c].startAt < windowStart)
    requires Ordered(s) && Counts(s, windowStart, i)
    ensures c <= i && Counts(s[c..], windowStart, i - c)
  {
    var t := s[c..];
    OrderedAt(s, i, c);
    forall j | i - c < j < |t| && s[i].startAt < windowStart ensures windowStart <= t[j].startAt {
      assert t[j] == s[j + c];
    }
  }

  lemma CountsAbove(s: seq<Entry>, c: nat, windowStart: int, i: int)
    requires c < |s| && Counts(s[c..], windowStart, i)
    ensures Counts(s, windowStart, i + c)
  {
    var t := s[c..];
    forall j | i + c < j < |s| && t[i].startAt < windowStart ensures windowStart <= s[j].startAt {
      assert s[j] == t[j - c];
    }
  }

  // ----------------------------------------------------------- deduplication

  /** The samples that survive when a value near the last kept one is not recorded again. */
  function Dedup(full: seq<Entry>, eps: real): (kept: seq<Entry>)
    ensures full != [] ==> kept != [] && kept[0] == full[0]
    ensures |kept| <= |full|
    ensures kept != [] ==> full != [] && Near(Last(kept).bankroll, Last(full).bankroll, eps)
    ensures kept != [] ==> Last(kept) in full
  {
    if full == [] then [] else
      var n := |full| - 1;
      var kept := Dedup(full[..n], eps);
      if kept != [] && Near(Last(kept).bankroll, full[n].bankroll, eps) then kept
      else kept + [full[n]]
  }

  lemma {:induction false} DedupOrdered(full: seq<Entry>, eps: real)
    requires Ordered(full)
    ensures Ordered(Dedup(full, eps))
    ensures full != [] ==> Last(Dedup(full, eps)).startAt <= Last(full).startAt
  {
    if full != [] {
      var n := |full| - 1;
      OrderedPart(full, 0, n);
      assert full[0..n] == full[..n];
      DedupOrdered(full[..n], eps);
      if n > 0 {
        OrderedAt(full, n - 1, n);
        OrderedSnoc(Dedup(full[..n], eps), full[n]);
      }
    }
  }

  /**
   * Deduplication loses no answer either: the peaks over the kept and over the complete
   * samples are equal when only equal values are skipped (`eps == 0.0`), and closer than
   * the tolerance otherwise.
   */
  lemma {:induction false} DedupKeepsPeak(full: seq<Entry>, eps: real, windowStart: int)
    requires Ordered(full) && full != [] && 0.0 <= eps
    ensures Near(RollingPeak(Dedup(full, eps), windowStart), RollingPeak(full, windowStart), eps)
  {
    var n := |full| - 1;
    var f, e := full[..n], full[n];
    assert full == f + [e];
    if n == 0 {
      assert full == [] + [e];
    } else {
      OrderedPart(full, 0, n);
      assert full[0..n] == f;
      DedupKeepsPeak(f, eps, windowStart);
      DedupSnocKeepsPeak(f, e, eps, windowStart);
    }
  }

  lemma DedupSnocKeepsPeak(f: seq<Entry>, e: Entry, eps: real, windowStart: int)
    requires Ordered(f) && Ordered(f + [e]) && f != [] && 0.0 <= eps
    requires Near(RollingPeak(Dedup(f, eps), windowStart), RollingPeak(f, windowStart), eps)
    ensures Near(RollingPeak(Dedup(f + [e], eps), windowStart), RollingPeak(f + [e], windowStart), eps)
  {
    var full := f + [e];
    assert full[..|f|] == f;
    var kept := Dedup(f, eps);
    assert Dedup(full, eps) == if Near(Last(kept).bankroll, e.bankroll, eps) then kept else kept + [e];
    DedupOrdered(f, eps);
    DedupOrdered(full, eps);
    hide Ordered, Dedup, RollingPeak, Abs, MaxReal;
    PeakSnoc(f, e, windowStart);
    var p, q := RollingPeak(f, windowStart), RollingPeak(kept, windowStart);
    if !Near(Last(kept).bankroll, e.bankroll, eps) {
      PeakSnoc(kept, e, windowStart);
      NearMax(q, p, e.bankroll, eps);
    } else if e.startAt < windowStart {
      OrderedAt(full, |f| - 1, |f|);
      PeakWhenAllBefore(kept, windowStart);
    } else {
      PeakAtLeastLast(kept, windowStart);
      NearSkipped(q, p, Last(kept).bankroll, e.bankroll, eps);
    }
  }

  lemma NearMax(q: real, p: real, x: real, eps: real)
    requires Near(q, p, eps)
    ensures Near(MaxReal(q, x), MaxReal(p, x), eps)
  {
  }

  lemma NearSkipped(q: real, p: real, last: real, x: real, eps: real)
    requires Near(q, p, eps) && last <= q && Near(last, x, eps)
    ensures Near(q, MaxReal(p, x), eps)
  {
  }

  // ---------------------------------------------------------- laws of the query

  /** The peak is never below the latest sample, whatever the query time. */
  lemma PeakAtLeastLast(s: seq<Entry>, windowStart: int)
    requires Ordered(s) && s != []
    ensures Last(s).bankroll <= RollingPeak(s, windowStart)
  {
    RollingPeakIsPeak(s, windowStart);
    assert Counts(s, windowStart, |s| - 1);
  }

  /** Once the latest sample has left the window the peak is that sample. */
  lemma PeakWhenAllBefore(s: seq<Entry>, windowStart: int)
    requires Ordered(s) && s != [] && Last(s).startAt < windowStart
    ensures RollingPeak(s, windowStart) == Last(s).bankroll
  {
    var n := |s| - 1;
    assert s == s[..n] + [s[n]];
    PeakSnoc(s[..n], s[n], windowStart);
  }

  /** With no new samples the peak never rises as the window moves on. */
  lemma {:induction false} PeakNeverRises(s: seq<Entry>, earlier: int, later: int)
    requires Ordered(s) && s != [] && earlier <= later
    ensures RollingPeak(s, later) <= RollingPeak(s, earlier)
  {
    RollingPeakIsPeak(s, earlier);
    RollingPeakIsPeak(s, later);
    hide Ordered, IsPeak, RollingPeak;
    var i := PeakWitness(s, later, RollingPeak(s, later));
    assert Counts(s, earlier, i);
    PeakBound(s, earlier, RollingPeak(s, earlier), i);
  }
}
