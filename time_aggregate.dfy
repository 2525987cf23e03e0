/**
 * The bucket-wide running aggregate of CumulativeTimeBucket as a value:
 * packet count, total and sum of squared processing times, max, min,
 * integer average and standard deviation, all in nanoseconds.
 */
module TimeAggregate {
  import opened JavaLong

  datatype Aggregate = Aggregate(
    pktCnt: int,
    procTimeNs: int,
    sumSquaredNs2: int,
    maxNs: int,
    minNs: int,
    avgNs: int,
    sigmaNs: int)

  /** Every field at zero: a fresh bucket (Java's field defaults) and a reset one. */
  const Zero := Aggregate(0, 0, 0, 0, 0, 0, 0)

  function Square(d: int): int { d * d }

  function Sum(ds: seq<int>): int
  {
    if ds == [] then 0 else ds[0] + Sum(ds[1..])
  }

  function SumSquares(ds: seq<int>): int
  {
    if ds == [] then 0 else Square(ds[0]) + SumSquares(ds[1..])
  }

  /**
   * One sample as updatePerPacketCounters records it: count, total, the
   * truncating average of the new total, the squared sample, and the max
   * and min overwritten only by a strictly larger or smaller sample.
   */
  function Record(a: Aggregate, d: int): Aggregate
    requires a.pktCnt >= 0
  {
    var cnt := a.pktCnt + 1;
    var total := a.procTimeNs + d;
    a.(pktCnt := cnt,
       procTimeNs := total,
       avgNs := TruncDiv(total, cnt),
       sumSquaredNs2 := a.sumSquaredNs2 + Square(d),
       maxNs := if d > a.maxNs then d else a.maxNs,
       minNs := if d < a.minNs then d else a.minNs)
  }

  /** The aggregate after recording the samples `ds` in order, starting from `a`. */
  function Replay(a: Aggregate, ds: seq<int>): Aggregate
    requires a.pktCnt >= 0
    decreases |ds|
  {
    if ds == [] then a else Replay(Record(a, ds[0]), ds[1..])
  }

  /** Count, total and sum of squares are exact running sums; sigma is left alone. */
  lemma {:induction false} ReplayTotals(a: Aggregate, ds: seq<int>)
    requires a.pktCnt >= 0
    ensures Replay(a, ds).pktCnt == a.pktCnt + |ds|
    ensures Replay(a, ds).procTimeNs == a.procTimeNs + Sum(ds)
    ensures Replay(a, ds).sumSquaredNs2 == a.sumSquaredNs2 + SumSquares(ds)
    ensures Replay(a, ds).sigmaNs == a.sigmaNs
    decreases |ds|
  {
    if ds != [] {
      ReplayTotals(Record(a, ds[0]), ds[1..]);
    }
  }

  /** After at least one sample the average is the truncated quotient of total by count. */
  lemma {:induction false} ReplayAverage(a: Aggregate, ds: seq<int>)
    requires a.pktCnt >= 0 && ds != []
    ensures Replay(a, ds).pktCnt >= 1
    ensures Replay(a, ds).avgNs == TruncDiv(Replay(a, ds).procTimeNs, Replay(a, ds).pktCnt)
    decreases |ds|
  {
    if |ds| > 1 {
      ReplayAverage(Record(a, ds[0]), ds[1..]);
    }
  }

  /** From a fresh or reset bucket the average is Java's `Sum(ds) / |ds|`. */
  lemma MeanOfSamples(ds: seq<int>)
    requires ds != []
    ensures Replay(Zero, ds).avgNs == TruncDiv(Sum(ds), |ds|)
  {
    ReplayTotals(Zero, ds);
    ReplayAverage(Zero, ds);
  }

  /** The max never decreases, bounds every sample, and is the old max or one of the samples. */
  lemma {:induction false} ReplayMax(a: Aggregate, ds: seq<int>)
    requires a.pktCnt >= 0
    ensures Replay(a, ds).maxNs >= a.maxNs
    ensures forall i :: 0 <= i < |ds| ==> Replay(a, ds).maxNs >= ds[i]
    ensures Replay(a, ds).maxNs == a.maxNs || Replay(a, ds).maxNs in ds
    decreases |ds|
  {
    if ds != [] {
      var b := Record(a, ds[0]);
      ReplayMax(b, ds[1..]);
      forall i | 0 <= i < |ds| ensures Replay(a, ds).maxNs >= ds[i] {
        if i > 0 { assert ds[i] == ds[1..][i - 1]; }
      }
    }
  }

  /** The min never increases, is below every sample, and is the old min or one of the samples. */
  lemma {:induction false} ReplayMin(a: Aggregate, ds: seq<int>)
    requires a.pktCnt >= 0
    ensures Replay(a, ds).minNs <= a.minNs
    ensures forall i :: 0 <= i < |ds| ==> Replay(a, ds).minNs <= ds[i]
    ensures Replay(a, ds).minNs == a.minNs || Replay(a, ds).minNs in ds
    decreases |ds|
  {
    if ds != [] {
      var b := Record(a, ds[0]);
      ReplayMin(b, ds[1..]);
      forall i | 0 <= i < |ds| ensures Replay(a, ds).minNs <= ds[i] {
        if i > 0 { assert ds[i] == ds[1..][i - 1]; }
      }
    }
  }

  /**
   * The minimum starts at 0 and is only ever lowered, so for non-negative
   * processing times it reports 0 whatever was recorded.
   */
  lemma MinStuckAtZero(ds: seq<int>)
    requires forall i :: 0 <= i < |ds| ==> ds[i] >= 0
    ensures Replay(Zero, ds).minNs == 0
  {
    ReplayMin(Zero, ds);
  }

  /** One packet of 10000 ns into a fresh bucket leaves the reported minimum at 0. */
  lemma MinAfterOneSample()
    ensures Replay(Zero, [10000]).minNs == 0 && Replay(Zero, [10000]).maxNs == 10000
  {
  }

  /**
   * The intended update: the first sample after a reset sets both extrema,
   * as the +/- infinity sentinels of a running min/max would.
   */
  function RecordIntended(a: Aggregate, d: int): Aggregate
    requires a.pktCnt >= 0
  {
    Record(a, d).(
      maxNs := if a.pktCnt == 0 || d > a.maxNs then d else a.maxNs,
      minNs := if a.pktCnt == 0 || d < a.minNs then d else a.minNs)
  }

  function ReplayIntended(a: Aggregate, ds: seq<int>): Aggregate
    requires a.pktCnt >= 0
    decreases |ds|
  {
    if ds == [] then a else ReplayIntended(RecordIntended(a, ds[0]), ds[1..])
  }

  /** The repaired update agrees with the written one on every field except the extrema. */
  lemma {:induction false} IntendedAgreesOffExtrema(a: Aggregate, ds: seq<int>)
    requires a.pktCnt >= 0
    ensures ReplayIntended(a, ds).(maxNs := 0, minNs := 0) == Replay(a, ds).(maxNs := 0, minNs := 0)
    decreases |ds|
  {
    if ds != [] {
      var b, c := RecordIntended(a, ds[0]), Record(a, ds[0]);
      assert b.(maxNs := 0, minNs := 0) == c.(maxNs := 0, minNs := 0);
      IntendedAgreesOffExtrema(b, ds[1..]);
      ReplayTotalsOnly(b, c, ds[1..]);
    }
  }

  /** Replays from aggregates that differ only in their extrema differ only in their extrema. */
  lemma {:induction false} ReplayTotalsOnly(b: Aggregate, c: Aggregate, ds: seq<int>)
    requires b.pktCnt >= 0
    requires b.(maxNs := 0, minNs := 0) == c.(maxNs := 0, minNs := 0)
    ensures Replay(b, ds).(maxNs := 0, minNs := 0) == Replay(c, ds).(maxNs := 0, minNs := 0)
    decreases |ds|
  {
    if ds != [] {
      ReplayTotalsOnly(Record(b, ds[0]), Record(c, ds[0]), ds[1..]);
    }
  }

  /**
   * With the repaired update the extrema bound every sample recorded since
   * the last reset, and each is one of those samples (or the extremum kept
   * from earlier samples).
   */
  lemma {:induction false} IntendedExtrema(a: Aggregate, ds: seq<int>)
    requires a.pktCnt >= 0
    ensures forall i :: 0 <= i < |ds| ==> ReplayIntended(a, ds).minNs <= ds[i] <= ReplayIntended(a, ds).maxNs
    ensures a.pktCnt > 0 ==> ReplayIntended(a, ds).minNs <= a.minNs && ReplayIntended(a, ds).maxNs >= a.maxNs
    ensures ReplayIntended(a, ds).minNs in ds || (a.pktCnt > 0 && ReplayIntended(a, ds).minNs == a.minNs) || (ds == [] && ReplayIntended(a, ds) == a)
    ensures ReplayIntended(a, ds).maxNs in ds || (a.pktCnt > 0 && ReplayIntended(a, ds).maxNs == a.maxNs) || (ds == [] && ReplayIntended(a, ds) == a)
    decreases |ds|
  {
    if ds != [] {
      var b := RecordIntended(a, ds[0]);
      IntendedExtrema(b, ds[1..]);
      forall i | 0 <= i < |ds|
        ensures ReplayIntended(a, ds).minNs <= ds[i] <= ReplayIntended(a, ds).maxNs
      {
        if i > 0 { assert ds[i] == ds[1..][i - 1]; }
      }
    }
  }

  /** From a fresh or reset bucket, the repaired min and max are the least and greatest sample. */
  lemma IntendedMinMaxOfSamples(ds: seq<int>)
    requires ds != []
    ensures ReplayIntended(Zero, ds).minNs in ds && ReplayIntended(Zero, ds).maxNs in ds
    ensures forall i :: 0 <= i < |ds| ==> ReplayIntended(Zero, ds).minNs <= ds[i] <= ReplayIntended(Zero, ds).maxNs
  {
    IntendedExtrema(Zero, ds);
  }
}
