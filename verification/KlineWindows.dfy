/**
 * The shared candle load of research/in_process_runner.py: one slice wide enough for every
 * experiment, then one slice per experiment.
 */
module KlineWindows {
  import opened Basics
  import opened Sums

  /** `openAt` is the opening time in seconds; `close` stands for the rest of the row. */
  datatype Candle = Candle(openAt: int, close: real)

  /** The part of an experiment that decides which candles it reads. */
  datatype Spec = Spec(cutoff: int, lookbacks: seq<int>) {
    predicate Valid() {
      lookbacks != [] && forall x :: x in lookbacks ==> 0 <= x
    }

    function MaxLookback(): int
      requires Valid()
    {
      MaxInt(lookbacks)
    }

    /** Seconds before lock at which the oldest candle it needs opens. */
    function Oldest(): int
      requires Valid()
    {
      cutoff + MaxLookback() + 1
    }
  }

  datatype Extent = Extent(earliest: int, latest: int, count: int)

  datatype Error = EmptySpecList | LatestOffsetTooSmall

  // ------------------------------------------------------------- the load extent

  ghost predicate Covers(e: Extent, specs: seq<Spec>)
    requires forall s :: s in specs ==> s.Valid()
  {
    && (forall s :: s in specs ==> s.Oldest() <= e.earliest && e.latest <= s.cutoff + 1)
    && (exists s :: s in specs && s.Oldest() == e.earliest)
    && (exists s :: s in specs && s.cutoff + 1 == e.latest)
    && e.count == e.earliest - e.latest + 1
  }

  /** The smallest window that covers every experiment. */
  method ComputeLoadExtent(specs: seq<Spec>) returns (r: Result<Extent, Error>)
    requires forall s :: s in specs ==> s.Valid()
    ensures r == Err(EmptySpecList) <==> specs == []
    ensures specs != [] ==> r.Ok? && Covers(r.value, specs)
  {
    if specs == [] {
      return Err(EmptySpecList);
    }
    var earliest, latest := specs[0].Oldest(), specs[0].cutoff + 1;
    ghost var oldest, newest := 0, 0;
    for i := 1 to |specs|
      invariant 0 <= oldest < i && specs[oldest].Oldest() == earliest
      invariant 0 <= newest < i && specs[newest].cutoff + 1 == latest
      invariant forall k :: 0 <= k < i ==> specs[k].Oldest() <= earliest && latest <= specs[k].cutoff + 1
    {
      if specs[i].Oldest() > earliest {
        earliest, oldest := specs[i].Oldest(), i;
      }
      if specs[i].cutoff + 1 < latest {
        latest, newest := specs[i].cutoff + 1, i;
      }
    }
    assert specs[oldest] in specs && specs[newest] in specs;
    r := Ok(Extent(earliest, latest, earliest - latest + 1));
  }

  // ------------------------------------------------------------- Python's slicing

  /** Where a slice bound falls in a list of `n`: negative bounds count from the end, and all are clamped. */
  function Clamp(bound: int, n: nat): (k: nat)
    ensures k <= n
  {
    if bound < 0 then (if bound + n < 0 then 0 else bound + n) else if bound > n then n else bound
  }

  /** `s[start:stop]`, with `None` for a missing stop. */
  function Slice<T>(s: seq<T>, start: int, stop: Option<int>): seq<T> {
    var lo := Clamp(start, |s|);
    var hi := match stop case None => |s| case Some(b) => Clamp(b, |s|);
    if lo <= hi then s[lo..hi] else []
  }

  function UnifiedSlice(kl: seq<Candle>, earliest: int, latest: int): seq<Candle> {
    Slice(kl, -(earliest - 1), if latest == 2 then None else Some(-(latest - 2)))
  }

  function SlicePerEntry(kl: seq<Candle>, cutoff: int, maxLookback: int, earliest: int): seq<Candle> {
    var end := earliest - cutoff;
    Slice(kl, end - (maxLookback + 1), Some(end))
  }

  // ------------------------------------------------------------- the shared load

  /** One line of a candle file. */
  datatype Line = Line(epoch: int, error: bool, klines: Option<seq<Candle>>) {
    predicate Usable() {
      !error && klines.Some?
    }
  }

  /** The first usable line of an epoch. */
  function FirstUsable(lines: seq<Line>, epoch: int): Option<seq<Candle>> {
    if lines == [] then None
    else if lines[0].epoch == epoch && lines[0].Usable() then lines[0].klines
    else FirstUsable(lines[1..], epoch)
  }

  lemma {:induction false} FirstUsableSnoc(lines: seq<Line>, x: Line, epoch: int)
    ensures FirstUsable(lines + [x], epoch) ==
            if FirstUsable(lines, epoch).Some? then FirstUsable(lines, epoch)
            else if x.epoch == epoch && x.Usable() then x.klines else None
  {
    if lines != [] {
      FirstUsableSnoc(lines[1..], x, epoch);
      assert (lines + [x])[1..] == lines[1..] + [x];
    } else {
      assert [x][1..] == [];
    }
  }

  /** The line used is the first of its epoch that has candles and no error. */
  lemma {:induction false} FirstUsableIs(lines: seq<Line>, epoch: int)
    ensures FirstUsable(lines, epoch) == None <==>
            forall i :: 0 <= i < |lines| && lines[i].epoch == epoch ==> lines[i].error || lines[i].klines == None
    ensures FirstUsable(lines, epoch).Some? ==>
            exists i :: 0 <= i < |lines| && lines[i].epoch == epoch && !lines[i].error && lines[i].klines == FirstUsable(lines, epoch)
                        && forall j :: 0 <= j < i && lines[j].epoch == epoch ==> lines[j].error || lines[j].klines == None
  {
    if lines != [] {
      var rest := lines[1..];
      FirstUsableIs(rest, epoch);
      if !(lines[0].epoch == epoch && !lines[0].error && lines[0].klines.Some?) {
        assert forall i :: 0 < i < |lines| ==> lines[i] == rest[i - 1];
        assert FirstUsable(lines, epoch) == FirstUsable(rest, epoch);
        if FirstUsable(rest, epoch).Some? {
          var i :| 0 <= i < |rest| && rest[i].epoch == epoch && !rest[i].error && rest[i].klines == FirstUsable(rest, epoch)
                   && forall j :: 0 <= j < i && rest[j].epoch == epoch ==> rest[j].error || rest[j].klines == None;
          assert lines[i + 1] == rest[i];
        } else {
          assert forall i :: 0 <= i < |rest| ==> rest[i] == lines[i + 1];
        }
      }
    }
  }

  /** Every epoch with a usable line, and for each the slice of its first one. */
  ghost predicate Loaded(result: map<int, seq<Candle>>, lines: seq<Line>, e: int, l: int) {
    && (forall epoch :: epoch in result <==> FirstUsable(lines, epoch).Some?)
    && (forall epoch :: epoch in result ==> result[epoch] == UnifiedSlice(FirstUsable(lines, epoch).value, e, l))
  }

  lemma LoadedSnoc(result: map<int, seq<Candle>>, lines: seq<Line>, x: Line, e: int, l: int)
    requires Loaded(result, lines, e, l)
    ensures Loaded(if x.Usable() && x.epoch !in result
                   then result[x.epoch := UnifiedSlice(x.klines.value, e, l)] else result,
                   lines + [x], e, l)
  {
    hide UnifiedSlice, FirstUsable;
    forall epoch: int {
      FirstUsableSnoc(lines, x, epoch);
    }
  }

  method Ingest(lines: seq<Line>, earliest: int, latest: int,
                before: map<int, seq<Candle>>, ghost seen: seq<Line>)
    returns (result: map<int, seq<Candle>>)
    requires Loaded(before, seen, earliest, latest)
    ensures Loaded(result, seen + lines, earliest, latest)
  {
    hide Loaded, UnifiedSlice;
    result := before;
    assert seen + lines[..0] == seen;
    for i := 0 to |lines|
      invariant Loaded(result, seen + lines[..i], earliest, latest)
    {
      LoadedSnoc(result, seen + lines[..i], lines[i], earliest, latest);
      assert seen + lines[..i] + [lines[i]] == seen + lines[..i + 1];
      if !lines[i].Usable() {
        continue;
      }
      var kl := UnifiedSlice(lines[i].klines.value, earliest, latest);
      if lines[i].epoch !in result {
        result := result[lines[i].epoch := kl];
      }
    }
    assert lines[..|lines|] == lines;
  }

  function Lines(file: Option<seq<Line>>): seq<Line> {
    if file.Some? then file.value else []
  }

  /** The canonical file is read first and wins; a missing file reads as no lines. */
  method LoadKlinesUnified(canonical: Option<seq<Line>>, extended: Option<seq<Line>>, earliest: int, latest: int)
    returns (r: Result<map<int, seq<Candle>>, Error>)
    ensures canonical == None && extended == None ==> r == Ok(map[])
    ensures canonical.Some? || extended.Some? ==> (r == Err(LatestOffsetTooSmall) <==> latest < 2)
    ensures canonical.Some? || extended.Some? ==> 2 <= latest ==>
      r.Ok? && Loaded(r.value, Lines(canonical) + Lines(extended), earliest, latest)
  {
    if canonical == None && extended == None {
      return Ok(map[]);
    }
    if latest < 2 {
      return Err(LatestOffsetTooSmall);
    }
    NothingLoaded(earliest, latest);
    hide Loaded;
    var result := Ingest(Lines(canonical), earliest, latest, map[], []);
    assert [] + Lines(canonical) == Lines(canonical);
    result := Ingest(Lines(extended), earliest, latest, result, Lines(canonical));
    r := Ok(result);
  }

  lemma NothingLoaded(e: int, l: int)
    ensures Loaded(map[], [], e, l)
  {
  }

  // -------------------------------------------------------- load once, slice often

  /** A full record: 300 candles, oldest first, the newest opening one second and one more before lock. */
  ghost predicate FullRecord(kl: seq<Candle>, lockAt: int) {
    |kl| == 300 && forall p :: 0 <= p < 300 ==> kl[p].openAt == lockAt - (301 - p)
  }

  /** Exactly the candles a spec asks for, one a second. */
  ghost predicate IsWindow(kl: seq<Candle>, s: Spec, lockAt: int)
    requires s.Valid()
  {
    |kl| == s.MaxLookback() + 1 && forall p :: 0 <= p < |kl| ==> kl[p].openAt == lockAt - s.Oldest() + p
  }

  /** What the spec gets out of a record loaded for the extent `e`. */
  function ReadFor(kl: seq<Candle>, s: Spec, e: Extent): seq<Candle>
    requires s.Valid()
  {
    SlicePerEntry(UnifiedSlice(kl, e.earliest, e.latest), s.cutoff, s.MaxLookback(), e.earliest)
  }

  /** The extent of a spec on its own. */
  function Alone(s: Spec): Extent
    requires s.Valid()
  {
    Extent(s.Oldest(), s.cutoff + 1, s.MaxLookback() + 1)
  }

  lemma AloneCovers(s: Spec)
    requires s.Valid()
    ensures Covers(Alone(s), [s])
  {
    assert s in [s];
  }

  lemma SliceOfSlice<T>(s: seq<T>, a: int, b: int, c: int, d: int)
    requires 0 <= a <= b <= |s| && 0 <= c <= d <= b - a
    ensures s[a..b][c..d] == s[a + c..a + d]
  {
    forall k | 0 <= k < d - c ensures s[a..b][c..d][k] == s[a + c..a + d][k] {
      assert s[a..b][c..d][k] == s[a..b][c + k] == s[a + c + k];
    }
  }

  lemma UnifiedIsBlock(kl: seq<Candle>, e: int, l: int)
    requires |kl| == 300 && 2 <= l <= e <= 301
    ensures UnifiedSlice(kl, e, l) == kl[301 - e..302 - l]
  {
    assert Clamp(-(e - 1), 300) == 301 - e;
    if l == 2 {
      assert kl[301 - e..] == kl[301 - e..302 - l];
    } else {
      assert Clamp(-(l - 2), 300) == 302 - l;
    }
  }

  /** While the extent fits the record, the two slices pick one block of it. */
  lemma ReadIsBlock(kl: seq<Candle>, cutoff: int, ml: int, e: int, l: int)
    requires |kl| == 300 && 0 <= ml && 2 <= l <= cutoff + 1 && cutoff + ml + 1 <= e <= 301
    ensures SlicePerEntry(UnifiedSlice(kl, e, l), cutoff, ml, e) == kl[300 - cutoff - ml..301 - cutoff]
  {
    var u := UnifiedSlice(kl, e, l);
    UnifiedIsBlock(kl, e, l);
    assert SlicePerEntry(u, cutoff, ml, e) == u[e - cutoff - ml - 1..e - cutoff];
    SliceOfSlice(kl, 301 - e, 302 - l, e - cutoff - ml - 1, e - cutoff);
  }

  /** Beyond that the start is clamped, and every later slice lands too far to the right. */
  lemma ReadIsShifted(kl: seq<Candle>, cutoff: int, ml: int, e: int, l: int)
    requires |kl| == 300 && 0 <= ml && 2 <= l <= cutoff + 1 && cutoff + ml + 1 <= e && 301 < e
    ensures var got := SlicePerEntry(UnifiedSlice(kl, e, l), cutoff, ml, e);
            got == [] || exists p :: 0 <= p < 300 && 300 - cutoff - ml < p && got[0] == kl[p]
  {
    var u := UnifiedSlice(kl, e, l);
    assert u == if l <= 302 then kl[..302 - l] else [];
    var got := SlicePerEntry(u, cutoff, ml, e);
    if got != [] {
      assert got[0] == u[e - cutoff - ml - 1] == kl[e - cutoff - ml - 1];
    }
  }

  /** A shared load gives each spec its own window exactly while the extent fits a full record. */
  lemma SharedLoadIsRight(kl: seq<Candle>, lockAt: int, specs: seq<Spec>, e: Extent, s: Spec)
    requires FullRecord(kl, lockAt)
    requires forall x :: x in specs ==> x.Valid() && 1 <= x.cutoff
    requires s in specs && Covers(e, specs)
    ensures IsWindow(ReadFor(kl, s, e), s, lockAt) <==> e.earliest <= 301
  {
    hide SlicePerEntry, UnifiedSlice, MaxInt, IsWindow, FullRecord;
    LatestIsAtLeastTwo(e, specs);
    assert |kl| == 300 by { RecordLength(kl, lockAt); }
    if e.earliest <= 301 {
      BlockIsWindow(kl, lockAt, s);
      ReadIsBlock(kl, s.cutoff, s.MaxLookback(), e.earliest, e.latest);
    } else {
      ReadIsShifted(kl, s.cutoff, s.MaxLookback(), e.earliest, e.latest);
      ShiftedIsNoWindow(kl, lockAt, s, ReadFor(kl, s, e));
    }
  }

  lemma RecordLength(kl: seq<Candle>, lockAt: int)
    requires FullRecord(kl, lockAt)
    ensures |kl| == 300
  {
  }

  /**
   * So for a spec that fits a record on its own, load-once and load-per-spec agree exactly
   * when the longest reach among all the specs fits too.
   */
  lemma SharedLoadAgrees(kl: seq<Candle>, lockAt: int, specs: seq<Spec>, e: Extent, s: Spec)
    requires FullRecord(kl, lockAt)
    requires forall x :: x in specs ==> x.Valid() && 1 <= x.cutoff
    requires s in specs && Covers(e, specs) && s.Oldest() <= 301
    ensures ReadFor(kl, s, e) == ReadFor(kl, s, Alone(s)) <==> e.earliest <= 301
  {
    hide SlicePerEntry, UnifiedSlice, MaxInt, IsWindow, FullRecord;
    RecordLength(kl, lockAt);
    LatestIsAtLeastTwo(e, specs);
    AloneCovers(s);
    SharedLoadIsRight(kl, lockAt, [s], Alone(s), s);
    SharedLoadIsRight(kl, lockAt, specs, e, s);
    if e.earliest <= 301 {
      ReadIsBlock(kl, s.cutoff, s.MaxLookback(), s.Oldest(), s.cutoff + 1);
      ReadIsBlock(kl, s.cutoff, s.MaxLookback(), e.earliest, e.latest);
    }
  }

  lemma LatestIsAtLeastTwo(e: Extent, specs: seq<Spec>)
    requires forall x :: x in specs ==> x.Valid() && 1 <= x.cutoff
    requires Covers(e, specs)
    ensures 2 <= e.latest
  {
  }

  lemma BlockIsWindow(kl: seq<Candle>, lockAt: int, s: Spec)
    requires FullRecord(kl, lockAt) && s.Valid() && 1 <= s.cutoff && s.Oldest() <= 301
    ensures IsWindow(kl[300 - s.cutoff - s.MaxLookback()..301 - s.cutoff], s, lockAt)
  {
    hide MaxInt;
  }

  lemma ShiftedIsNoWindow(kl: seq<Candle>, lockAt: int, s: Spec, got: seq<Candle>)
    requires FullRecord(kl, lockAt) && s.Valid()
    requires got == [] || exists p :: 0 <= p < 300 && 300 - s.cutoff - s.MaxLookback() < p && got[0] == kl[p]
    ensures !IsWindow(got, s, lockAt)
  {
    hide MaxInt;
  }

  const SHORT := Spec(2, [10])
  const LONG := Spec(2, [299])

  /**
   * A spec that needs the 11 candles from 13 seconds before lock, loaded beside one that reaches a
   * second too far back: it is handed 10 candles from 12 seconds before lock, and no error.
   */
  lemma SecondTooFar(kl: seq<Candle>, lockAt: int)
    requires FullRecord(kl, lockAt)
    ensures SHORT.Valid() && LONG.Valid() && Covers(Extent(302, 3, 300), [SHORT, LONG])
    ensures IsWindow(ReadFor(kl, SHORT, Alone(SHORT)), SHORT, lockAt) && SHORT.Oldest() == 13
    ensures var got := ReadFor(kl, SHORT, Extent(302, 3, 300));
            |got| == 10 && got[0].openAt == lockAt - 12
  {
    MaxOne(10);
    MaxOne(299);
    hide MaxInt, SlicePerEntry, UnifiedSlice, IsWindow;
    assert SHORT in [SHORT, LONG] && LONG in [SHORT, LONG];
    AloneCovers(SHORT);
    SharedLoadIsRight(kl, lockAt, [SHORT], Alone(SHORT), SHORT);
    ShiftedByOne(kl);
  }

  lemma MaxOne(x: int)
    ensures MaxInt([x]) == x
  {
  }

  lemma ShiftedByOne(kl: seq<Candle>)
    requires |kl| == 300
    ensures SlicePerEntry(UnifiedSlice(kl, 302, 3), 2, 10, 302) == kl[289..299]
  {
    assert UnifiedSlice(kl, 302, 3) == kl[..299];
    assert kl[..299][289..299] == kl[289..299];
  }
}
