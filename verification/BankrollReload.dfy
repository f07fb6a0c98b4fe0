/** When does replaying the history file rebuild the live deque? */
module BankrollReload {
  import opened BankrollHistory
  import opened BankrollSpec
  import opened BankrollRuns

  predicate WrittenFrom(log: seq<Logged>, c: nat) {
    forall k :: c <= k < |log| ==> log[k].written
  }

  lemma FirstInWindowIs(s: seq<Entry>, windowStart: int, k: nat)
    requires k <= |s|
    requires forall i :: 0 <= i < k ==> s[i].startAt < windowStart
    requires k < |s| ==> windowStart <= s[k].startAt
    ensures FirstInWindow(s, windowStart) == k
  {
    FirstInWindowShape(s, windowStart);
  }

  /** Samples dropped by the pruning may be replaced by any fewer ones without effect. */
  lemma ReplaceDropped(s: seq<Entry>, head: seq<Entry>, window: int)
    requires s != [] && 0 <= window && Ordered(s) && Ordered(head + s[Cut(s, window)..])
    requires Cut(s, window) == 0 ==> head == []
    ensures Prune(head + s[Cut(s, window)..], window) == Prune(s, window)
  {
    hide Ordered, Cut;
    CutShape(s, window);
    var tail := s[Cut(s, window)..];
    var t := head + tail;
    assert t[|head|] == tail[0];
    assert |tail| > 1 ==> t[|head| + 1] == tail[1];
    CutIs(t, window, |head|);
    assert t[|head|..] == tail;
  }

  /** The file replays to the live deque when every sample in the deque was written. */
  lemma ReplayOfWritten(log: seq<Logged>, window: int)
    requires log != [] && 0 <= window && Ordered(Entries(log))
    requires WrittenFrom(log, Cut(Entries(log), window))
    ensures Written(log) != [] && Prune(Written(log), window) == Prune(Entries(log), window)
  {
    CutShape(Entries(log), window);
    WrittenOrdered(log);
    hide Ordered, Cut;
    var c := Cut(Entries(log), window);
    WrittenTail(log, c);
    var head := Written(log[..c]);
    hide Written, Prune, Entries;
    ReplaceDropped(Entries(log), head, window);
  }

  lemma WrittenTail(log: seq<Logged>, c: nat)
    requires c <= |log| && WrittenFrom(log, c)
    ensures Written(log) == Written(log[..c]) + Entries(log)[c..]
    ensures c == 0 ==> Written(log[..c]) == []
  {
    WrittenSplit(log, c);
    WrittenLength(log[c..]);
    assert Entries(log[c..]) == Entries(log)[c..];
  }

  /** In the written samples the window begins right after the written part of what precedes it. */
  lemma WindowOfWritten(log: seq<Logged>, windowStart: int)
    requires Ordered(Entries(log))
    ensures var b := FirstInWindow(Entries(log), windowStart);
            FirstInWindow(Written(log), windowStart) == |Written(log[..b])|
  {
    var s := Entries(log);
    var b := FirstInWindow(s, windowStart);
    FirstInWindowShape(s, windowStart);
    hide FirstInWindow;
    WrittenSplit(log, b);
    if log != [] {
      forall k | 0 <= k < |log| ensures s[0].startAt <= log[k].entry.startAt <= Last(s).startAt {
        OrderedAt(s, 0, k);
        OrderedAt(s, k, |s| - 1);
      }
      forall k | b <= k < |log| ensures windowStart <= log[k].entry.startAt {
        OrderedAt(s, b, k);
      }
      hide Ordered;
      WrittenBounds(log[..b], s[0].startAt, windowStart);
      WrittenBounds(log[b..], windowStart, Last(s).startAt + 1);
      FirstInWindowIs(Written(log), windowStart, |Written(log[..b])|);
    }
  }

  lemma WindowOfPruned(s: seq<Entry>, window: int)
    requires Ordered(s) && s != [] && 0 <= window
    ensures var ws := Last(s).startAt - window;
            FirstInWindow(Prune(s, window), ws) == FirstInWindow(s, ws) - Cut(s, window)
  {
    CutShape(s, window);
    var ws, c := Last(s).startAt - window, Cut(s, window);
    FirstInWindowShape(s, ws);
    FirstInWindowIs(s[c..], ws, FirstInWindow(s, ws) - c);
  }

  /** Two histories pruned to the same samples agree on the window and on the sample before it. */
  lemma SamePruned(s: seq<Entry>, t: seq<Entry>, window: int)
    requires Ordered(s) && Ordered(t) && s != [] && t != [] && 0 <= window
    requires Prune(t, window) == Prune(s, window)
    ensures var ws := Last(s).startAt - window;
            && |s| - FirstInWindow(s, ws) == |t| - FirstInWindow(t, ws)
            && (FirstInWindow(s, ws) > 0 ==> FirstInWindow(t, ws) > 0)
  {
    hide Ordered, Prune, Cut, FirstInWindow;
    PruneNonempty(s, window);
    PruneNonempty(t, window);
    PruneLength(s, window);
    PruneLength(t, window);
    WindowOfPruned(s, window);
    WindowOfPruned(t, window);
  }

  lemma PruneLength(s: seq<Entry>, window: int)
    requires s != []
    ensures |Prune(s, window)| == |s| - Cut(s, window)
    ensures Prune(s, window) != [] ==> Prune(s, window)[0] == s[Cut(s, window)]
    ensures Cut(s, window) == if FirstInWindow(s, Last(s).startAt - window) == 0 then 0
                              else FirstInWindow(s, Last(s).startAt - window) - 1
  {
  }

  lemma SameBoundary(s: seq<Entry>, t: seq<Entry>, window: int)
    requires Ordered(s) && Ordered(t) && s != [] && t != [] && 0 <= window
    requires Prune(t, window) == Prune(s, window)
    ensures var ws := Last(s).startAt - window;
            FirstInWindow(s, ws) > 0 ==>
              && FirstInWindow(s, ws) == Cut(s, window) + 1
              && 0 < FirstInWindow(t, ws) <= |t|
              && t[FirstInWindow(t, ws) - 1] == s[Cut(s, window)]
  {
    hide Ordered, Prune, Cut, FirstInWindow;
    SamePruned(s, t, window);
    PruneNonempty(s, window);
    PruneNonempty(t, window);
    PruneLength(s, window);
    PruneLength(t, window);
  }

  /** If the replay equals the live deque, the samples inside the window were all written ... */
  lemma ReplayNeedsWindow(log: seq<Logged>, window: int)
    requires log != [] && 0 <= window && Ordered(Entries(log)) && Written(log) != []
    requires Prune(Written(log), window) == Prune(Entries(log), window)
    ensures WrittenFrom(log, FirstInWindow(Entries(log), Last(Entries(log)).startAt - window))
  {
    hide Ordered, Prune, Cut, FirstInWindow, Written, WrittenFrom, Entries;
    var s, t := Entries(log), Written(log);
    WrittenOrdered(log);
    SamePruned(s, t, window);
    var ws := Last(s).startAt - window;
    WindowOfWritten(log, ws);
    AllWrittenByLength(log, FirstInWindow(s, ws));
  }

  lemma AllWrittenByLength(log: seq<Logged>, b: nat)
    requires b <= |log| && |Written(log)| - |Written(log[..b])| == |log| - b
    ensures WrittenFrom(log, b)
  {
    WrittenSplit(log, b);
    WrittenLength(log[b..]);
    forall k | b <= k < |log| ensures log[k].written {
      assert log[k] == log[b..][k - b];
    }
  }

  /** ... and so was the one sample kept from before the window. */
  lemma ReplayNeedsWritten(log: seq<Logged>, window: int)
    requires log != [] && 0 <= window && Ordered(Entries(log)) && Written(log) != []
    requires Gaps(log)
    requires Prune(Written(log), window) == Prune(Entries(log), window)
    ensures WrittenFrom(log, Cut(Entries(log), window))
  {
    hide Ordered, Prune, Cut, FirstInWindow, Gaps, Written, WrittenFrom, Entries;
    var s := Entries(log);
    var ws := Last(s).startAt - window;
    var b, c := FirstInWindow(s, ws), Cut(s, window);
    ReplayNeedsWindow(log, window);
    WrittenOrdered(log);
    PruneLength(s, window);
    if b > 0 {
      SameBoundary(s, Written(log), window);
      WindowOfWritten(log, ws);
      WrittenSplit(log, b);
      LastWritten(log, c);
      WrittenFromEarlier(log, c);
    }
  }

  lemma WrittenFromEarlier(log: seq<Logged>, c: nat)
    requires c < |log| && log[c].written && WrittenFrom(log, c + 1)
    ensures WrittenFrom(log, c)
  {
  }

  /** A lost sample cannot pass for the last written one before it: it is strictly later. */
  lemma LastWritten(log: seq<Logged>, c: nat)
    requires c < |log| && Ordered(Entries(log)) && Gaps(log)
    requires Written(log[..c + 1]) != [] && Last(Written(log[..c + 1])) == log[c].entry
    ensures log[c].written
  {
    if !log[c].written {
      assert log[..c + 1] == log[..c] + [log[c]];
      EntriesSnoc(log[..c], log[c]);
      OrderedPart(Entries(log), 0, c);
      assert Entries(log[..c]) == Entries(log)[0..c];
      hide Ordered;
      WrittenOrdered(log[..c]);
      assert false;
    }
  }
}
