/**
 * The per-second latency classifier kept in CumulativeTimeBucket's static
 * fields: every incoming packet's processing time falls into one of three
 * bands (satisfied, tolerated, untolerated), and the Latency Performance
 * Index LPIndex = (satisfied + 0.5 * tolerated) / all is derived from the
 * band counts. A timer resets the counters once per second.
 */
module LatencyClassification {

  /** The satisfied-latency threshold in nanoseconds; 4x it bounds the tolerated band. */
  const SATISFIED_PROCTIME_NS: int := 25000

  datatype Band = Satisfied | Tolerated | Untolerated

  /** The band a packet's processing time falls in, as the if/else-if chain tests it. */
  function BandOf(procTimeNs: int): Band
  {
    if procTimeNs <= SATISFIED_PROCTIME_NS then Satisfied
    else if procTimeNs <= 4 * SATISFIED_PROCTIME_NS then Tolerated
    else Untolerated
  }

  /** Each band is exactly one closed interval of processing times. */
  lemma BandIntervals(procTimeNs: int)
    ensures BandOf(procTimeNs) == Satisfied <==> procTimeNs <= 25000
    ensures BandOf(procTimeNs) == Tolerated <==> 25000 < procTimeNs <= 100000
    ensures BandOf(procTimeNs) == Untolerated <==> 100000 < procTimeNs
  {
  }

  /** The values on either side of the two thresholds. */
  lemma BandBoundaries()
    ensures BandOf(25000) == Satisfied && BandOf(25001) == Tolerated
    ensures BandOf(100000) == Tolerated && BandOf(100001) == Untolerated
  {
  }

  /** The four per-second counters as one value. */
  datatype Counts = Counts(satisfied: int, tolerated: int, untolerated: int, all: int)

  const NoCounts := Counts(0, 0, 0, 0)

  /** No counter is negative and the three bands add up to the packet count. */
  predicate Balanced(c: Counts)
  {
    0 <= c.satisfied && 0 <= c.tolerated && 0 <= c.untolerated &&
    c.satisfied + c.tolerated + c.untolerated == c.all
  }

  /** The counters after one packet: the total and the packet's band each move by one. */
  function Classify(c: Counts, procTimeNs: int): Counts
  {
    var c' := c.(all := c.all + 1);
    match BandOf(procTimeNs)
    case Satisfied => c'.(satisfied := c.satisfied + 1)
    case Tolerated => c'.(tolerated := c.tolerated + 1)
    case Untolerated => c'.(untolerated := c.untolerated + 1)
  }

  /** The counters after classifying the packets `ds` in order. */
  function ClassifyAll(c: Counts, ds: seq<int>): Counts
    decreases |ds|
  {
    if ds == [] then c else ClassifyAll(Classify(c, ds[0]), ds[1..])
  }

  /** How many of the processing times `ds` fall in band `b`. */
  function CountIn(ds: seq<int>, b: Band): nat
  {
    if ds == [] then 0 else (if BandOf(ds[0]) == b then 1 else 0) + CountIn(ds[1..], b)
  }

  /** Each counter grows by the number of packets in its band; the total by all of them. */
  lemma {:induction false} ClassifyAllCounts(c: Counts, ds: seq<int>)
    ensures ClassifyAll(c, ds) == Counts(
      c.satisfied + CountIn(ds, Satisfied),
      c.tolerated + CountIn(ds, Tolerated),
      c.untolerated + CountIn(ds, Untolerated),
      c.all + |ds|)
    decreases |ds|
  {
    if ds != [] {
      ClassifyAllCounts(Classify(c, ds[0]), ds[1..]);
    }
  }

  /** Every packet lands in exactly one band. */
  lemma {:induction false} BandsPartition(ds: seq<int>)
    ensures CountIn(ds, Satisfied) + CountIn(ds, Tolerated) + CountIn(ds, Untolerated) == |ds|
    decreases |ds|
  {
    if ds != [] {
      BandsPartition(ds[1..]);
    }
  }

  /** Classifying any packets keeps the band counts summing to the total. */
  lemma ClassifyAllBalanced(c: Counts, ds: seq<int>)
    requires Balanced(c)
    ensures Balanced(ClassifyAll(c, ds))
  {
    ClassifyAllCounts(c, ds);
    BandsPartition(ds);
  }

  /** LPIndex over the given counts, in real arithmetic. */
  function LPIndexOf(satisfied: int, tolerated: int, all: int): real
    requires all != 0
  {
    (satisfied as real + 0.5 * tolerated as real) / all as real
  }

  /** A quotient of a non-negative numerator by a larger positive denominator. */
  lemma RatioBounds(num: real, n: real)
    requires 0.0 < n && 0.0 <= num <= n
    ensures 0.0 <= num / n <= 1.0
    ensures num / n == 1.0 <==> num == n
    ensures num / n == 0.0 <==> num == 0.0
    ensures num < n ==> num / n < 1.0
  {
    var q := num / n;
    assert q * n == num;
  }

  /**
   * On a balanced interval LPIndex lies in [0, 1]: it is 1 exactly when every
   * packet was satisfied, and 0 exactly when none was satisfied or tolerated.
   */
  lemma LPIndexBounds(c: Counts)
    requires Balanced(c) && c.all > 0
    ensures 0.0 <= LPIndexOf(c.satisfied, c.tolerated, c.all) <= 1.0
    ensures LPIndexOf(c.satisfied, c.tolerated, c.all) == 1.0 <==> c.satisfied == c.all
    ensures LPIndexOf(c.satisfied, c.tolerated, c.all) == 0.0 <==> c.untolerated == c.all
  {
    var num, n := c.satisfied as real + 0.5 * c.tolerated as real, c.all as real;
    RatioBounds(num, n);
  }

  /**
   * What the LPIndex field holds, kept as the integer counts it was last
   * computed from: 0 (Java's default, and what resetPerSecond stores last),
   * or the quotient (satisfied + 0.5 * tolerated) / all of the counts that
   * computeLPIndex saw. A quotient with `all == 0` is Java's NaN or infinity.
   */
  datatype LPIndex = LPZero | LPQuotient(satisfied: int, tolerated: int, all: int)

  /** A stored index with a real value: zero, or a quotient over a non-zero total. */
  predicate HasValue(x: LPIndex)
  {
    x.LPQuotient? ==> x.all != 0
  }

  /** The real number a stored index stands for. */
  function LPIndexValue(x: LPIndex): real
    requires HasValue(x)
  {
    match x
    case LPZero => 0.0
    case LPQuotient(s, t, n) => LPIndexOf(s, t, n)
  }

  /**
   * Inside updataPerPacketInCounters the index is computed after the total
   * has counted the new packet but before its band has: the divisor is at
   * least 1 and the numerator leaves the new packet out, so the index stays
   * strictly below 1.
   */
  lemma LPIndexMidUpdate(c: Counts)
    requires Balanced(c)
    ensures HasValue(LPQuotient(c.satisfied, c.tolerated, c.all + 1))
    ensures 0.0 <= LPIndexValue(LPQuotient(c.satisfied, c.tolerated, c.all + 1)) < 1.0
  {
    var num, n := c.satisfied as real + 0.5 * c.tolerated as real, (c.all + 1) as real;
    RatioBounds(num, n);
  }

  /** Ten satisfied packets give 1.0; five satisfied and five tolerated give 0.75. */
  lemma LPIndexExamples()
    ensures LPIndexOf(10, 0, 10) == 1.0 && LPIndexOf(5, 5, 10) == 0.75
  {
  }

  /** The classifier's state, which the Java code keeps in static fields. */
  class LatencyClassifier {
    var satisfiedLatencyCnt: int
    var toleratedLatencyCnt: int
    var untoleratedLatencyCnt: int
    var allPktInCntPerSec: int
    var lpIndex: LPIndex

    function Counters(): Counts
      reads this
    {
      Counts(satisfiedLatencyCnt, toleratedLatencyCnt, untoleratedLatencyCnt, allPktInCntPerSec)
    }

    /** The bands sum to the total: `Balanced(Counters())`, stated on the fields. */
    ghost predicate Valid()
      reads this
    {
      0 <= satisfiedLatencyCnt && 0 <= toleratedLatencyCnt && 0 <= untoleratedLatencyCnt &&
      satisfiedLatencyCnt + toleratedLatencyCnt + untoleratedLatencyCnt == allPktInCntPerSec
    }

    /** Java's zero defaults for the static fields. */
    constructor ()
      ensures Valid() && Counters() == NoCounts && lpIndex == LPZero
    {
      satisfiedLatencyCnt, toleratedLatencyCnt, untoleratedLatencyCnt := 0, 0, 0;
      allPktInCntPerSec := 0;
      lpIndex := LPZero;
    }

    /** Stores the index of the current counts; nothing else changes. */
    method ComputeLPIndex()
      modifies this`lpIndex
      ensures lpIndex == LPQuotient(satisfiedLatencyCnt, toleratedLatencyCnt, allPktInCntPerSec)
    {
      lpIndex := LPQuotient(satisfiedLatencyCnt, toleratedLatencyCnt, allPktInCntPerSec);
    }

    /**
     * Counts one incoming packet: the total and exactly one band counter move
     * by one, so the bands still sum to the total; LPIndex is recomputed in
     * between, over a total of at least 1 and the bands before this packet
     * (LPIndexMidUpdate places its value in [0, 1)).
     */
    method UpdataPerPacketInCounters(procTimeNs: int)
      requires Valid()
      modifies this
      ensures Valid()
      ensures Counters() == Classify(old(Counters()), procTimeNs)
      ensures allPktInCntPerSec == old(allPktInCntPerSec) + 1
      ensures satisfiedLatencyCnt == old(satisfiedLatencyCnt) + (if procTimeNs <= 25000 then 1 else 0)
      ensures toleratedLatencyCnt == old(toleratedLatencyCnt) + (if 25000 < procTimeNs <= 100000 then 1 else 0)
      ensures untoleratedLatencyCnt == old(untoleratedLatencyCnt) + (if 100000 < procTimeNs then 1 else 0)
      ensures lpIndex == LPQuotient(old(satisfiedLatencyCnt), old(toleratedLatencyCnt), allPktInCntPerSec)
      ensures lpIndex.all >= 1
    {
      allPktInCntPerSec := allPktInCntPerSec + 1;
      ComputeLPIndex();
      if procTimeNs <= SATISFIED_PROCTIME_NS {
        satisfiedLatencyCnt := satisfiedLatencyCnt + 1;
      } else if procTimeNs <= 4 * SATISFIED_PROCTIME_NS {
        toleratedLatencyCnt := toleratedLatencyCnt + 1;
      } else {
        untoleratedLatencyCnt := untoleratedLatencyCnt + 1;
      }
    }

    /**
     * The once-per-second reset: every counter and LPIndex end at 0 whatever
     * the state before, so the bands sum to the total again and a second
     * reset changes nothing. The index computed first is overwritten.
     */
    method ResetPerSecond()
      modifies this
      ensures Valid()
      ensures Counters() == NoCounts && lpIndex == LPZero
    {
      ComputeLPIndex();
      satisfiedLatencyCnt := 0;
      toleratedLatencyCnt := 0;
      untoleratedLatencyCnt := 0;
      allPktInCntPerSec := 0;
      lpIndex := LPZero;
    }
  }

  /**
   * One packet per band in a fresh second, then two resets: the counts are
   * (1, 1, 1, 3), the index last computed saw one satisfied and one
   * tolerated packet over three, and the second reset leaves the state the
   * first one left.
   */
  method OnePacketPerBandScenario()
  {
    var c := new LatencyClassifier();
    c.UpdataPerPacketInCounters(100);
    c.UpdataPerPacketInCounters(50000);
    c.UpdataPerPacketInCounters(200000);
    assert c.Counters() == Counts(1, 1, 1, 3);
    assert c.lpIndex == LPQuotient(1, 1, 3);
    c.ResetPerSecond();
    var once := (c.Counters(), c.lpIndex);
    c.ResetPerSecond();
    assert (c.Counters(), c.lpIndex) == once;
  }
}
