/** Request durations kept as histograms, and percentiles read off them. Milliseconds. */
module Latency {
  import opened Wrappers

  const BOUNDS: seq<real> := [25.0, 50.0, 100.0, 250.0, 500.0, 1000.0, 2000.0, 5000.0, 10000.0, 30000.0, 60000.0, 300000.0]

  const LAST := 11

  lemma BoundsGrow()
    ensures |BOUNDS| == 12 && forall i, j :: 0 <= i < j < 12 ==> BOUNDS[i] < BOUNDS[j]
  {
  }

  /** The first bucket whose bound is not passed; beyond all bounds, the last. */
  function Bucket(d: real): (i: nat)
    ensures i <= LAST
  {
    FirstFrom(d, 0)
  }

  function FirstFrom(d: real, i: nat): (r: nat)
    requires i <= LAST
    ensures i <= r <= LAST && (r < LAST ==> d <= BOUNDS[r]) && forall k :: i <= k < r ==> d > BOUNDS[k]
    decreases LAST - i
  {
    if i == LAST || d <= BOUNDS[i] then i else FirstFrom(d, i + 1)
  }

  function InBucket(s: seq<real>, i: nat): nat {
    if s == [] then 0 else InBucket(s[..|s| - 1], i) + if Bucket(s[|s| - 1]) == i then 1 else 0
  }

  function UpTo(s: seq<real>, i: int): nat {
    if s == [] then 0 else UpTo(s[..|s| - 1], i) + if Bucket(s[|s| - 1]) <= i then 1 else 0
  }

  function AtMost(s: seq<real>, d: real): nat {
    if s == [] then 0 else AtMost(s[..|s| - 1], d) + if s[|s| - 1] <= d then 1 else 0
  }

  function Below(s: seq<real>, d: real): nat {
    if s == [] then 0 else Below(s[..|s| - 1], d) + if s[|s| - 1] < d then 1 else 0
  }

  function Largest(s: seq<real>): real {
    if s == [] then 0.0
    else
      var before := Largest(s[..|s| - 1]);
      if s[|s| - 1] > before then s[|s| - 1] else before
  }

  // ---------- histograms ----------

  /** The counts and the maximum of a row, as stored. */
  datatype Row = Row(counts: seq<nat>, maximum: real)

  ghost predicate Summarizes(row: Row, s: seq<real>) {
    && |row.counts| == 12 && (forall i :: 0 <= i < 12 ==> row.counts[i] == InBucket(s, i))
    && row.maximum == Largest(s)
  }

  lemma {:induction false} Concat(a: seq<real>, b: seq<real>)
    ensures forall i :: 0 <= i < 12 ==> InBucket(a + b, i) == InBucket(a, i) + InBucket(b, i)
    ensures Largest(a + b) == if Largest(a) > Largest(b) then Largest(a) else Largest(b)
    decreases |b|
  {
    if b == [] {
      assert a + b == a;
      NotNegative(a);
    } else {
      assert (a + b)[..|a + b| - 1] == a + b[..|b| - 1];
      Concat(a, b[..|b| - 1]);
    }
  }

  lemma {:induction false} NotNegative(s: seq<real>)
    ensures Largest(s) >= 0.0
    decreases |s|
  {
    if s != [] { NotNegative(s[..|s| - 1]); }
  }

  lemma Appended(s: seq<real>, d: real)
    ensures forall i :: 0 <= i < 12 ==> InBucket(s + [d], i) == InBucket(s, i) + if i == Bucket(d) then 1 else 0
    ensures Largest(s + [d]) == if d > Largest(s) then d else Largest(s)
  {
    assert (s + [d])[..|s|] == s;
  }

  class Histogram {
    var buckets: array<nat>
    var maximum: real
    ghost var durations: seq<real>

    ghost predicate Valid()
      reads this, buckets
    {
      Summarizes(Row(buckets[..], maximum), durations)
    }

    constructor ()
      ensures Valid() && durations == [] && fresh(buckets)
    {
      buckets := new nat[12](_ => 0);
      maximum := 0.0;
      durations := [];
    }

    method FindBucket(d: real) returns (index: nat)
      ensures index == Bucket(d)
    {
      index := 0;
      while index < LAST && d > BOUNDS[index]
        invariant 0 <= index <= LAST && FirstFrom(d, 0) == FirstFrom(d, index)
      {
        index := index + 1;
      }
    }

    /** One finished request. */
    method Record(d: real)
      requires Valid()
      modifies this, buckets
      ensures Valid() && durations == old(durations) + [d] && buckets == old(buckets)
    {
      hide InBucket, Largest, Bucket;
      var index := FindBucket(d);
      Appended(durations, d);
      buckets[index] := buckets[index] + 1;
      if d > maximum { maximum := d; }
      durations := durations + [d];
    }

    /** Adding another row's counts. */
    method Add(row: Row, ghost others: seq<real>)
      requires Valid() && Summarizes(row, others)
      modifies this, buckets
      ensures Valid() && durations == old(durations) + others && buckets == old(buckets)
    {
      for i := 0 to 12
        invariant buckets == old(buckets) && buckets.Length == 12 && maximum == old(maximum) && durations == old(durations)
        invariant forall k :: 0 <= k < 12 ==> buckets[k] == old(buckets[k]) + if k < i then row.counts[k] else 0
      {
        buckets[i] := buckets[i] + row.counts[i];
      }
      if row.maximum > maximum { maximum := row.maximum; }
      Concat(old(durations), others);
      durations := durations + others;
    }

    /** The bound of the bucket that holds the rank-th smallest of the recorded durations, or
        the maximum if that is smaller; nothing when nothing is recorded. */
    method Percentile(rank: nat) returns (r: Option<real>)
      requires Valid() && (durations != [] ==> 1 <= rank <= |durations|)
      ensures r.None? <==> durations == []
      ensures r.Some? ==> r.value <= Largest(durations)
      ensures r.Some? ==> exists i :: 0 <= i <= LAST && Holds(durations, rank, i, r.value)
      ensures r.Some? ==> forall d :: IsRank(durations, rank, d) ==> RoundedUp(d, Largest(durations), r.value)
    {
      var count := 0;
      UpToNothing(durations);
      for i := 0 to 12
        invariant count == UpTo(durations, i - 1)
      {
        UpToNext(durations, i);
        count := count + buckets[i];
      }
      UpToAll(durations);
      if count == 0 { return None; }
      var running, index := 0, 0;
      while index < 12
        invariant 0 <= index <= 12 && running == UpTo(durations, index - 1) && running < rank
      {
        UpToNext(durations, index);
        running := running + buckets[index];
        if running >= rank {
          forall d | IsRank(durations, rank, d) ensures d <= Cap(index, maximum) && (index > 0 ==> d > BOUNDS[index - 1]) {
            RankInBucket(durations, rank, d, index);
          }
          assert Holds(durations, rank, index, Cap(index, maximum));
          forall d | IsRank(durations, rank, d) ensures RoundedUp(d, maximum, Cap(index, maximum)) {
            PercentileRoundsUp(durations, rank, index, Cap(index, maximum), d);
          }
          return Some(Cap(index, maximum));
        }
        index := index + 1;
      }
      assert false;
    }
  }

  /** Bucket i holds the rank-th smallest duration: r, its bound or the maximum, is no smaller
      than that duration, which passes the bound before. */
  ghost predicate Holds(s: seq<real>, rank: nat, i: nat, r: real)
    requires i <= LAST
  {
    && r == Cap(i, Largest(s))
    && forall d :: IsRank(s, rank, d) ==> d <= r && (i > 0 ==> d > BOUNDS[i - 1])
  }

  function Cap(index: nat, maximum: real): real
    requires index <= LAST
  {
    if index == LAST || maximum < BOUNDS[index] then maximum else BOUNDS[index]
  }

  // ---------- ranks ----------

  /** d is the rank-th smallest of s. */
  predicate IsRank(s: seq<real>, rank: nat, d: real) {
    d in s && Below(s, d) < rank <= AtMost(s, d)
  }

  lemma {:induction false} UpToNext(s: seq<real>, i: nat)
    ensures UpTo(s, i) == UpTo(s, i - 1) + InBucket(s, i)
    decreases |s|
  {
    if s != [] { UpToNext(s[..|s| - 1], i); }
  }

  lemma {:induction false} UpToNothing(s: seq<real>)
    ensures UpTo(s, -1) == 0
    decreases |s|
  {
    if s != [] { UpToNothing(s[..|s| - 1]); }
  }

  lemma {:induction false} UpToAll(s: seq<real>)
    ensures UpTo(s, LAST) == |s|
    decreases |s|
  {
    if s != [] { UpToAll(s[..|s| - 1]); }
  }

  lemma BucketByBound(x: real, i: nat)
    requires i < LAST
    ensures Bucket(x) <= i <==> x <= BOUNDS[i]
  {
    BoundsGrow();
  }

  lemma {:induction false} LowBucketsAreBelow(s: seq<real>, i: nat, d: real)
    requires i < LAST && d > BOUNDS[i]
    ensures UpTo(s, i) <= Below(s, d)
    decreases |s|
  {
    if s != [] {
      BucketByBound(s[|s| - 1], i);
      LowBucketsAreBelow(s[..|s| - 1], i, d);
    }
  }

  lemma {:induction false} SmallAreInLowBuckets(s: seq<real>, i: nat, d: real)
    requires i < LAST && d <= BOUNDS[i]
    ensures AtMost(s, d) <= UpTo(s, i)
    decreases |s|
  {
    if s != [] {
      BucketByBound(s[|s| - 1], i);
      SmallAreInLowBuckets(s[..|s| - 1], i, d);
    }
  }

  lemma {:induction false} NoneAboveLargest(s: seq<real>, d: real)
    requires d in s
    ensures d <= Largest(s)
    decreases |s|
  {
    if d != s[|s| - 1] { NoneAboveLargest(s[..|s| - 1], d); }
  }

  /** The rank-th smallest duration lies in the bucket at which the running count reaches the
      rank: above the bound before it, not above its own. */
  lemma RankInBucket(s: seq<real>, rank: nat, d: real, index: nat)
    requires IsRank(s, rank, d) && index <= LAST && UpTo(s, index - 1) < rank <= UpTo(s, index)
    ensures d <= Cap(index, Largest(s)) && (index > 0 ==> d > BOUNDS[index - 1])
  {
    NoneAboveLargest(s, d);
    if index < LAST && d > BOUNDS[index] { LowBucketsAreBelow(s, index, d); }
    if index > 0 && d <= BOUNDS[index - 1] { SmallAreInLowBuckets(s, index - 1, d); }
  }

  /** r is the smallest bound that d does not pass, or the maximum if that is smaller or d
      passes the last bound but one. */
  ghost predicate RoundedUp(d: real, maximum: real, r: real) {
    if d > 60000.0 then r == maximum else exists i :: 0 <= i < LAST && RoundsTo(d, i, maximum, r)
  }

  predicate RoundsTo(d: real, i: nat, maximum: real, r: real)
    requires i < LAST
  {
    d <= BOUNDS[i] && (i == 0 || d > BOUNDS[i - 1]) && r == if maximum < BOUNDS[i] then maximum else BOUNDS[i]
  }

  /** A percentile is the duration of its rank, rounded up to a bound. */
  lemma PercentileRoundsUp(s: seq<real>, rank: nat, i: nat, r: real, d: real)
    requires i <= LAST && Holds(s, rank, i, r) && IsRank(s, rank, d)
    ensures RoundedUp(d, Largest(s), r)
  {
    hide IsRank, Largest;
    BoundsGrow();
    assert |BOUNDS| == 12 && BOUNDS[10] == 60000.0;
    assert r == Cap(i, Largest(s)) && d <= r && (i > 0 ==> d > BOUNDS[i - 1]);
    if i < LAST {
      assert RoundsTo(d, i, Largest(s), r);
      assert BOUNDS[i] <= BOUNDS[10];
    }
  }

  // ---------- every rank is taken ----------

  lemma {:induction false} CountedBelow(s: seq<real>, d: real, e: real)
    requires e < d && forall i :: 0 <= i < |s| && s[i] < d ==> s[i] <= e
    ensures Below(s, d) == AtMost(s, e)
    decreases |s|
  {
    if s != [] {
      CountedBelow(s[..|s| - 1], d, e);
    }
  }

  lemma {:induction false} MemberCounts(s: seq<real>, d: real)
    requires d in s
    ensures Below(s, d) < AtMost(s, d)
    decreases |s|
  {
    if d in s[..|s| - 1] { MemberCounts(s[..|s| - 1], d); } else { BelowAtMost(s[..|s| - 1], d); }
  }

  lemma {:induction false} BelowAtMost(s: seq<real>, d: real)
    ensures Below(s, d) <= AtMost(s, d) <= |s|
    decreases |s|
  {
    if s != [] { BelowAtMost(s[..|s| - 1], d); }
  }

  lemma {:induction false} Predecessor(s: seq<real>, d: real) returns (e: real)
    requires Below(s, d) > 0
    ensures e in s && e < d && forall i :: 0 <= i < |s| && s[i] < d ==> s[i] <= e
    decreases |s|
  {
    var (before, x) := (s[..|s| - 1], s[|s| - 1]);
    assert s == before + [x];
    if Below(before, d) == 0 {
      NoneBelow(before, d);
      e := x;
    } else {
      e := Predecessor(before, d);
      if x < d && x > e { e := x; }
    }
    forall i | 0 <= i < |s| && s[i] < d ensures s[i] <= e {
      if i < |before| { assert before[i] == s[i]; }
    }
  }

  lemma {:induction false} NoneBelow(s: seq<real>, d: real)
    requires Below(s, d) == 0
    ensures forall i :: 0 <= i < |s| ==> s[i] >= d
    decreases |s|
  {
    if s != [] {
      NoneBelow(s[..|s| - 1], d);
    }
  }

  lemma {:induction false} RankAtOrBelow(s: seq<real>, rank: nat, d: real)
    requires d in s && 1 <= rank <= AtMost(s, d)
    ensures exists e :: IsRank(s, rank, e)
    decreases Below(s, d)
  {
    if Below(s, d) < rank {
      assert IsRank(s, rank, d);
    } else {
      var e := Predecessor(s, d);
      CountedBelow(s, d, e);
      MemberCounts(s, e);
      RankAtOrBelow(s, rank, e);
    }
  }

  /** For every rank from 1 to the number of durations there is a duration of that rank. */
  lemma RankExists(s: seq<real>, rank: nat)
    requires 1 <= rank <= |s|
    ensures exists d :: IsRank(s, rank, d)
  {
    var top := Top(s);
    RankAtOrBelow(s, rank, top);
  }

  lemma {:induction false} Top(s: seq<real>) returns (d: real)
    requires s != []
    ensures d in s && AtMost(s, d) == |s|
    decreases |s|
  {
    var (before, x) := (s[..|s| - 1], s[|s| - 1]);
    assert s == before + [x];
    if before == [] {
      d := x;
    } else {
      d := Top(before);
      if x > d {
        AllAtMost(before, d, x);
        d := x;
      }
    }
  }

  lemma {:induction false} AllAtMost(s: seq<real>, d: real, e: real)
    requires AtMost(s, d) == |s| && d <= e
    ensures AtMost(s, e) == |s|
    decreases |s|
  {
    if s != [] {
      BelowAtMost(s[..|s| - 1], d);
      AllAtMost(s[..|s| - 1], d, e);
    }
  }
}
