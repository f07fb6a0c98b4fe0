/**
 * The week buckets of research/backfill_okx_extended.py: rounds grouped by start time, and
 * visited in ascending order of week number.
 */
module BackfillWeeks {
  import opened Basics
  import opened BackfillFile
  import opened Backfill

  /** Python's floor division; the divisor is positive. */
  function WeekOf(r: Round, earliest: int, seconds: int): int
    requires 0 < seconds
  {
    (r.startAt - earliest) / seconds
  }

  /** Two rounds share a week exactly when both start within one stretch of that length counted from the earliest. */
  lemma SameWeekExactlyWhen(x: Round, y: Round, earliest: int, seconds: int)
    requires 0 < seconds
    ensures WeekOf(x, earliest, seconds) == WeekOf(y, earliest, seconds) <==>
            exists m: int :: InStretch(x, earliest, seconds, m) && InStretch(y, earliest, seconds, m)
  {
    hide WeekOf, InStretch;
    WeekIsStretch(x, earliest, seconds, WeekOf(y, earliest, seconds));
    WeekIsStretch(y, earliest, seconds, WeekOf(y, earliest, seconds));
    forall m: int | InStretch(x, earliest, seconds, m) && InStretch(y, earliest, seconds, m)
      ensures WeekOf(x, earliest, seconds) == WeekOf(y, earliest, seconds)
    {
      WeekIsStretch(x, earliest, seconds, m);
      WeekIsStretch(y, earliest, seconds, m);
    }
  }

  predicate InStretch(r: Round, earliest: int, seconds: int, m: int) {
    m * seconds <= r.startAt - earliest < (m + 1) * seconds
  }

  lemma WeekIsStretch(r: Round, earliest: int, seconds: int, m: int)
    requires 0 < seconds
    ensures WeekOf(r, earliest, seconds) == m <==> InStretch(r, earliest, seconds, m)
  {
    var x, q := r.startAt - earliest, WeekOf(r, earliest, seconds);
    assert q * seconds <= x < q * seconds + seconds;
    if q < m {
      assert (q + 1) * seconds <= m * seconds;
    } else if m < q {
      assert (m + 1) * seconds <= q * seconds;
    }
  }

  /** The rounds of one week, in their own order. */
  function InWeek(rs: seq<Round>, earliest: int, seconds: int, week: int): seq<Round>
    requires 0 < seconds
  {
    if rs == [] then [] else
      var x := rs[|rs| - 1];
      if WeekOf(x, earliest, seconds) == week
      then InWeek(rs[..|rs| - 1], earliest, seconds, week) + [x]
      else InWeek(rs[..|rs| - 1], earliest, seconds, week)
  }

  lemma InWeekSnoc(rs: seq<Round>, x: Round, earliest: int, seconds: int, week: int)
    requires 0 < seconds
    ensures InWeek(rs + [x], earliest, seconds, week) ==
            if WeekOf(x, earliest, seconds) == week then InWeek(rs, earliest, seconds, week) + [x]
            else InWeek(rs, earliest, seconds, week)
  {
    hide WeekOf;
    assert (rs + [x])[..|rs|] == rs;
  }

  predicate HasWeek(rs: seq<Round>, earliest: int, seconds: int, week: int)
    requires 0 < seconds
  {
    exists r :: r in rs && WeekOf(r, earliest, seconds) == week
  }

  lemma {:induction false} NoneInWeek(rs: seq<Round>, earliest: int, seconds: int, week: int)
    requires 0 < seconds
    ensures InWeek(rs, earliest, seconds, week) == [] <==> !HasWeek(rs, earliest, seconds, week)
  {
    hide WeekOf;
    if rs != [] {
      var front, x := rs[..|rs| - 1], rs[|rs| - 1];
      NoneInWeek(front, earliest, seconds, week);
      assert x in rs && forall r :: r in rs <==> r in front || r == x;
    }
  }

  /** Exactly the weeks that occur, each with its rounds in order. */
  ghost predicate Bucketed(buckets: map<int, seq<Round>>, rs: seq<Round>, earliest: int, seconds: int)
    requires 0 < seconds
  {
    && (forall week :: week in buckets <==> HasWeek(rs, earliest, seconds, week))
    && (forall week :: week in buckets ==> buckets[week] == InWeek(rs, earliest, seconds, week))
  }

  lemma BucketedSnoc(buckets: map<int, seq<Round>>, rs: seq<Round>, x: Round, earliest: int, seconds: int)
    requires 0 < seconds && Bucketed(buckets, rs, earliest, seconds)
    ensures var week := WeekOf(x, earliest, seconds);
            Bucketed(buckets[week := (if week in buckets then buckets[week] else []) + [x]],
                     rs + [x], earliest, seconds)
  {
    hide WeekOf, InWeek;
    var now := WeekOf(x, earliest, seconds);
    assert x in rs + [x];
    forall week: int
      ensures HasWeek(rs + [x], earliest, seconds, week) <==> HasWeek(rs, earliest, seconds, week) || week == now
      ensures InWeek(rs + [x], earliest, seconds, week) ==
              if now == week then InWeek(rs, earliest, seconds, week) + [x] else InWeek(rs, earliest, seconds, week)
    {
      InWeekSnoc(rs, x, earliest, seconds, week);
      if HasWeek(rs, earliest, seconds, week) {
        var r :| r in rs && WeekOf(r, earliest, seconds) == week;
        assert r in rs + [x];
      }
    }
    NoneInWeek(rs, earliest, seconds, now);
  }

  method BucketByWeek(rs: seq<Round>, daysPerWeek: int) returns (buckets: map<int, seq<Round>>)
    requires rs != [] && 0 < daysPerWeek
    ensures Bucketed(buckets, rs, rs[0].startAt, daysPerWeek * SECONDS_PER_DAY)
  {
    hide Bucketed, WeekOf;
    var seconds := daysPerWeek * SECONDS_PER_DAY;
    var earliest := rs[0].startAt;
    buckets := map[];
    NothingBucketed(buckets, rs[..0], earliest, seconds);
    for i := 0 to |rs|
      invariant Bucketed(buckets, rs[..i], earliest, seconds)
    {
      var week := WeekOf(rs[i], earliest, seconds);
      BucketedSnoc(buckets, rs[..i], rs[i], earliest, seconds);
      assert rs[..i] + [rs[i]] == rs[..i + 1];
      buckets := buckets[week := (if week in buckets then buckets[week] else []) + [rs[i]]];
    }
    assert rs[..|rs|] == rs;
  }

  lemma NothingBucketed(buckets: map<int, seq<Round>>, rs: seq<Round>, earliest: int, seconds: int)
    requires 0 < seconds && |rs| == 0 && buckets == map[]
    ensures Bucketed(buckets, rs, earliest, seconds)
  {
    hide WeekOf;
  }

  // --------------------------------------------------------- no round is dropped

  ghost predicate ByStart(rs: seq<Round>) {
    forall i, j :: 0 <= i < j < |rs| ==> rs[i].startAt <= rs[j].startAt
  }

  ghost predicate Ascending(keys: seq<int>) {
    forall i, j :: 0 <= i < j < |keys| ==> keys[i] < keys[j]
  }

  /** `keys` lists the weeks that occur, as sorting the dictionary's keys does. */
  ghost predicate Lists(keys: seq<int>, rs: seq<Round>, earliest: int, seconds: int)
    requires 0 < seconds
  {
    Ascending(keys) && forall week :: week in keys <==> HasWeek(rs, earliest, seconds, week)
  }

  /** The buckets, in the order they are visited. */
  function Weeks(rs: seq<Round>, earliest: int, seconds: int, keys: seq<int>): seq<seq<Round>>
    requires 0 < seconds
  {
    if keys == [] then [] else
      Weeks(rs, earliest, seconds, keys[..|keys| - 1]) + [InWeek(rs, earliest, seconds, keys[|keys| - 1])]
  }

  lemma FlattenSnoc(weeks: seq<seq<Round>>, bucket: seq<Round>)
    ensures Flatten(weeks + [bucket]) == Flatten(weeks) + bucket
  {
    assert (weeks + [bucket])[..|weeks|] == weeks;
  }

  /** A round of some other week changes none of these buckets. */
  lemma {:induction false} OtherWeeks(rs: seq<Round>, x: Round, earliest: int, seconds: int, keys: seq<int>)
    requires 0 < seconds && WeekOf(x, earliest, seconds) !in keys
    ensures Weeks(rs + [x], earliest, seconds, keys) == Weeks(rs, earliest, seconds, keys)
  {
    hide WeekOf, InWeek;
    if keys != [] {
      OtherWeeks(rs, x, earliest, seconds, keys[..|keys| - 1]);
      InWeekSnoc(rs, x, earliest, seconds, keys[|keys| - 1]);
    }
  }

  lemma WeeksRise(x: Round, y: Round, earliest: int, seconds: int)
    requires 0 < seconds && x.startAt <= y.startAt
    ensures WeekOf(x, earliest, seconds) <= WeekOf(y, earliest, seconds)
  {
    Quotients(x.startAt - earliest, y.startAt - earliest, seconds);
  }

  lemma Quotients(x: int, y: int, d: int)
    requires x <= y && 0 < d
    ensures x / d <= y / d
  {
    assert d * (x / d) <= x && y < d * (y / d + 1);
    Cancel(x / d, y / d + 1, d);
  }

  lemma Cancel(p: int, q: int, d: int)
    requires 0 < d && d * p < d * q
    ensures p < q
  {
  }

  /** The last round's week is the last key. */
  lemma LastKey(rs: seq<Round>, earliest: int, seconds: int, keys: seq<int>)
    requires 0 < seconds && rs != [] && ByStart(rs) && Lists(keys, rs, earliest, seconds)
    ensures keys != [] && keys[|keys| - 1] == WeekOf(rs[|rs| - 1], earliest, seconds)
  {
    hide WeekOf;
    var x := rs[|rs| - 1];
    var week := WeekOf(x, earliest, seconds);
    assert x in rs;
    assert HasWeek(rs, earliest, seconds, week);
    var top := keys[|keys| - 1];
    assert top in keys;
    var r :| r in rs && WeekOf(r, earliest, seconds) == top;
    var k :| 0 <= k < |rs| && rs[k] == r;
    WeeksRise(r, x, earliest, seconds);
    var j :| 0 <= j < |keys| && keys[j] == week;
  }

  /** Without its last round a list needs the same keys, or all but the last. */
  lemma KeysOfFront(rs: seq<Round>, earliest: int, seconds: int, keys: seq<int>)
    requires 0 < seconds && rs != [] && Lists(keys, rs, earliest, seconds)
    requires keys != [] && keys[|keys| - 1] == WeekOf(rs[|rs| - 1], earliest, seconds)
    ensures var front, week := rs[..|rs| - 1], keys[|keys| - 1];
            Lists(if HasWeek(front, earliest, seconds, week) then keys else keys[..|keys| - 1],
                  front, earliest, seconds)
    ensures keys[|keys| - 1] !in keys[..|keys| - 1]
  {
    hide WeekOf;
    var front, x := rs[..|rs| - 1], rs[|rs| - 1];
    var last := keys[|keys| - 1];
    var rest := keys[..|keys| - 1];
    assert forall r :: r in rs <==> r in front || r == x;
    forall week: int
      ensures HasWeek(rs, earliest, seconds, week) <==> HasWeek(front, earliest, seconds, week) || week == last
    {
    }
    assert keys == rest + [last];
  }

  /**
   * Visiting the buckets in ascending order visits every round once, in epoch order: the weeks
   * laid end to end are the rounds.
   */
  lemma {:induction false} BucketsAreTheRounds(rs: seq<Round>, earliest: int, seconds: int, keys: seq<int>)
    requires 0 < seconds && ByStart(rs) && Lists(keys, rs, earliest, seconds)
    ensures Flatten(Weeks(rs, earliest, seconds, keys)) == rs
    decreases |rs|, 1
  {
    hide WeekOf, InWeek, HasWeek, Flatten;
    if rs == [] {
      NoKeys(rs, earliest, seconds, keys);
    } else {
      LastKey(rs, earliest, seconds, keys);
      KeysOfFront(rs, earliest, seconds, keys);
      LastBucket(rs, earliest, seconds, keys);
    }
  }

  lemma NoKeys(rs: seq<Round>, earliest: int, seconds: int, keys: seq<int>)
    requires 0 < seconds && |rs| == 0 && Lists(keys, rs, earliest, seconds)
    ensures Flatten(Weeks(rs, earliest, seconds, keys)) == []
  {
    if keys != [] {
      assert keys[0] in keys;
    }
  }

  lemma {:induction false} LastBucket(rs: seq<Round>, earliest: int, seconds: int, keys: seq<int>)
    requires 0 < seconds && rs != [] && ByStart(rs) && keys != []
    requires keys[|keys| - 1] == WeekOf(rs[|rs| - 1], earliest, seconds)
    requires keys[|keys| - 1] !in keys[..|keys| - 1]
    requires var front, week := rs[..|rs| - 1], keys[|keys| - 1];
             Lists(if HasWeek(front, earliest, seconds, week) then keys else keys[..|keys| - 1],
                   front, earliest, seconds)
    ensures Flatten(Weeks(rs, earliest, seconds, keys)) == rs
    decreases |rs|, 0
  {
    hide WeekOf, InWeek, HasWeek, Flatten, Lists;
    var front, x := rs[..|rs| - 1], rs[|rs| - 1];
    var rest, week := keys[..|keys| - 1], keys[|keys| - 1];
    assert rs == front + [x];
    OtherWeeks(front, x, earliest, seconds, rest);
    InWeekSnoc(front, x, earliest, seconds, week);
    FlattenSnoc(Weeks(front, earliest, seconds, rest), InWeek(front, earliest, seconds, week) + [x]);
    if HasWeek(front, earliest, seconds, week) {
      BucketsAreTheRounds(front, earliest, seconds, keys);
      FlattenSnoc(Weeks(front, earliest, seconds, rest), InWeek(front, earliest, seconds, week));
    } else {
      NoneInWeek(front, earliest, seconds, week);
      BucketsAreTheRounds(front, earliest, seconds, rest);
    }
  }

  /** So a finished backfill, over any crashes, has fetched every loaded round for every symbol. */
  lemma EveryRoundFetched(rs: seq<Round>, daysPerWeek: int, keys: seq<int>, w: World, k: nat)
    requires rs != [] && 0 < daysPerWeek && ByEpoch(rs) && ByStart(rs)
    requires Lists(keys, rs, rs[0].startAt, daysPerWeek * SECONDS_PER_DAY)
    requires var weeks := Weeks(rs, rs[0].startAt, daysPerWeek * SECONDS_PER_DAY, keys);
             Reachable(weeks, w) && w.week == |weeks| && k < |w.symbols|
    ensures Matches(Kept(w.symbols[k].file), rs, |rs|)
    ensures w.symbols[k].saved.Total() == |rs|
  {
    hide Lists, Weeks, Reachable, ByEpoch, ByStart, Matches, Kept, Checkpoint.Total;
    BucketsAreTheRounds(rs, rs[0].startAt, daysPerWeek * SECONDS_PER_DAY, keys);
    FinishedIsComplete(Weeks(rs, rs[0].startAt, daysPerWeek * SECONDS_PER_DAY, keys), w, k);
  }
}
