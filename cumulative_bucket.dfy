/**
 * CumulativeTimeBucket: the per-bucket aggregate over every packet recorded
 * since the bucket was created or last reset, together with one timing
 * record per pipeline component, keyed by the listener's hash code.
 */
module CumulativeBucket {
  import opened JavaLong
  import opened TimeAggregate
  import opened Components

  /** Putting listener `i`'s record adds its hash code to the keys of the first `i` listeners. */
  lemma BuildStepKeys(listeners: seq<Listener>, i: nat, m: map<int, ComponentTime>)
    requires i < |listeners| && m.Keys == KeysOf(listeners[..i])
    ensures m[listeners[i].hashCode := NewComponent(listeners[i])].Keys == KeysOf(listeners[..i + 1])
  {
    assert listeners[..i + 1] == listeners[..i] + [listeners[i]];
    KeysOfSnoc(listeners[..i], listeners[i]);
  }

  /**
   * Putting listener `i`'s record keeps every record that was made for the
   * last of the first `i` listeners with its hash, unless listener `i`
   * shares that hash, and is itself the last of the first `i + 1`.
   */
  lemma BuildStepRecords(listeners: seq<Listener>, i: nat, m: map<int, ComponentTime>)
    requires i < |listeners|
    requires forall j :: 0 <= j < i && LastWithHash(listeners, j, i) ==>
      listeners[j].hashCode in m && m[listeners[j].hashCode] == NewComponent(listeners[j])
    ensures var m' := m[listeners[i].hashCode := NewComponent(listeners[i])];
      forall j :: 0 <= j < i + 1 && LastWithHash(listeners, j, i + 1) ==>
        listeners[j].hashCode in m' && m'[listeners[j].hashCode] == NewComponent(listeners[j])
  {
    var m' := m[listeners[i].hashCode := NewComponent(listeners[i])];
    forall j | 0 <= j < i + 1 && LastWithHash(listeners, j, i + 1)
      ensures listeners[j].hashCode in m' && m'[listeners[j].hashCode] == NewComponent(listeners[j])
    {
      if j < i {
        assert LastWithHash(listeners, j, i);
        assert listeners[i].hashCode != listeners[j].hashCode;
      }
    }
  }

  /**
   * The constructor's loop: each listener's new record is put under its hash
   * code, so every listener's hash becomes a key and the record under it is
   * the one made for the last listener with that hash.
   */
  method BuildCompStats(listeners: seq<Listener>) returns (m: map<int, ComponentTime>)
    ensures m.Keys == KeysOf(listeners)
    ensures forall k :: k in m ==> m[k].compId == k && m[k].samples == []
    ensures forall j :: 0 <= j < |listeners| && LastWithHash(listeners, j, |listeners|) ==>
      m[listeners[j].hashCode] == NewComponent(listeners[j])
  {
    m := map[];
    var i := 0;
    while i < |listeners|
      invariant 0 <= i <= |listeners|
      invariant m.Keys == KeysOf(listeners[..i])
      invariant forall k :: k in m ==> m[k].compId == k && m[k].samples == []
      invariant forall j :: 0 <= j < i && LastWithHash(listeners, j, i) ==>
        listeners[j].hashCode in m && m[listeners[j].hashCode] == NewComponent(listeners[j])
    {
      var oct := NewComponent(listeners[i]);
      BuildStepKeys(listeners, i, m);
      BuildStepRecords(listeners, i, m);
      m := m[oct.compId := oct];
      i := i + 1;
    }
    assert listeners[..i] == listeners;
  }

  class CumulativeTimeBucket {
    var startTimeNs: int
    var compStats: map<int, ComponentTime>
    var totalPktCnt: int
    var totalProcTimeNs: int
    var sumSquaredProcTimeNs2: int
    var maxTotalProcTimeNs: int
    var minTotalProcTimeNs: int
    var avgTotalProcTimeNs: int
    var sigmaTotalProcTimeNs: int

    /** The count is never negative and every component sits under its own key. */
    ghost predicate Valid()
      reads this
    {
      totalPktCnt >= 0 &&
      forall k :: k in compStats ==> compStats[k].compId == k
    }

    /** The bucket-wide aggregate fields, read as one value. */
    function Totals(): Aggregate
      reads this
    {
      Aggregate(totalPktCnt, totalProcTimeNs, sumSquaredProcTimeNs2,
                maxTotalProcTimeNs, minTotalProcTimeNs, avgTotalProcTimeNs,
                sigmaTotalProcTimeNs)
    }

    /** The number of component records: one per key, every record distinct. */
    function GetNumComps(): (n: nat)
      requires Valid()
      reads this
      ensures n == |compStats.Values|
    {
      RecordsCountedOnce(compStats);
      |compStats|
    }

    /**
     * One record per listener, stored under its hash code; a later listener
     * with an already used hash replaces the earlier record, so the record
     * under each key is the one made for the last listener with that hash.
     * The aggregate fields keep Java's default of 0; `nowNs` stands for the
     * clock reading.
     */
    constructor (listeners: seq<Listener>, nowNs: int)
      ensures Valid()
      ensures Totals() == Zero && startTimeNs == nowNs
      ensures compStats.Keys == KeysOf(listeners)
      ensures forall j :: 0 <= j < |listeners| && LastWithHash(listeners, j, |listeners|) ==>
        compStats[listeners[j].hashCode] == NewComponent(listeners[j])
      ensures forall k :: k in compStats ==> compStats[k].samples == []
      ensures GetNumComps() <= |listeners|
      ensures (forall i, j :: 0 <= i < j < |listeners| ==> listeners[i].hashCode != listeners[j].hashCode)
              ==> GetNumComps() == |listeners|
    {
      var m := BuildCompStats(listeners);
      compStats := m;
      KeysAtMostListeners(listeners);
      if forall i, j :: 0 <= i < j < |listeners| ==> listeners[i].hashCode != listeners[j].hashCode {
        KeysOfDistinct(listeners);
      }
      startTimeNs := nowNs;
      totalPktCnt, totalProcTimeNs, sumSquaredProcTimeNs2 := 0, 0, 0;
      maxTotalProcTimeNs, minTotalProcTimeNs := 0, 0;
      avgTotalProcTimeNs, sigmaTotalProcTimeNs := 0, 0;
    }

    method UpdateSquaredProcessingTime(curTimeNs: int)
      modifies this`sumSquaredProcTimeNs2
      ensures sumSquaredProcTimeNs2 == old(sumSquaredProcTimeNs2) + Square(curTimeNs)
    {
      sumSquaredProcTimeNs2 := sumSquaredProcTimeNs2 + curTimeNs * curTimeNs;
    }

    /**
     * Zeros the aggregate (min and max to 0, not to sentinels) and clears
     * every component record; the set of components does not change.
     */
    method Reset(nowNs: int)
      requires Valid()
      modifies this
      ensures Valid()
      ensures Totals() == Zero && startTimeNs == nowNs
      ensures compStats.Keys == old(compStats.Keys)
      ensures forall k :: k in compStats ==> compStats[k] == ResetComponent(old(compStats[k]))
    {
      startTimeNs := nowNs;
      totalPktCnt := 0;
      totalProcTimeNs := 0;
      avgTotalProcTimeNs := 0;
      sumSquaredProcTimeNs2 := 0;
      maxTotalProcTimeNs := 0;
      minTotalProcTimeNs := 0;
      sigmaTotalProcTimeNs := 0;
      ResetAllComponents();
    }

    /** The loop of `reset` over the component records. */
    method ResetAllComponents()
      requires Valid()
      modifies this`compStats
      ensures Valid()
      ensures compStats.Keys == old(compStats.Keys)
      ensures forall k :: k in compStats ==> compStats[k] == ResetComponent(old(compStats[k]))
    {
      ghost var before := compStats;
      var pending := compStats.Keys;
      while pending != {}
        invariant pending <= before.Keys && compStats.Keys == before.Keys
        invariant forall k :: k in before ==>
          compStats[k] == if k in pending then before[k] else ResetComponent(before[k])
        decreases pending
      {
        HasMember(pending);
        var key :| key in pending;
        compStats := compStats[key := ResetComponent(compStats[key])];
        pending := pending - {key};
      }
    }

    /**
     * Records one packet's processing time in the aggregate: the count moves
     * by one, total and sum of squares grow by the sample and its square,
     * the average is recomputed over a count of at least 1, and max and min
     * can only move outward to cover the sample.
     */
    method UpdatePerPacketCounters(procTimeNs: int)
      requires Valid()
      modifies this
      ensures Valid()
      ensures Totals() == Record(old(Totals()), procTimeNs)
      ensures totalPktCnt == old(totalPktCnt) + 1 >= 1
      ensures totalProcTimeNs == old(totalProcTimeNs) + procTimeNs
      ensures sumSquaredProcTimeNs2 == old(sumSquaredProcTimeNs2) + procTimeNs * procTimeNs
      ensures avgTotalProcTimeNs == TruncDiv(totalProcTimeNs, totalPktCnt)
      ensures maxTotalProcTimeNs >= procTimeNs && maxTotalProcTimeNs >= old(maxTotalProcTimeNs)
      ensures minTotalProcTimeNs <= procTimeNs && minTotalProcTimeNs <= old(minTotalProcTimeNs)
      ensures sigmaTotalProcTimeNs == old(sigmaTotalProcTimeNs)
      ensures compStats == old(compStats) && startTimeNs == old(startTimeNs)
    {
      totalPktCnt := totalPktCnt + 1;
      totalProcTimeNs := totalProcTimeNs + procTimeNs;
      avgTotalProcTimeNs := TruncDiv(totalProcTimeNs, totalPktCnt);
      UpdateSquaredProcessingTime(procTimeNs);
      if procTimeNs > maxTotalProcTimeNs {
        maxTotalProcTimeNs := procTimeNs;
      }
      if procTimeNs < minTotalProcTimeNs {
        minTotalProcTimeNs := procTimeNs;
      }
    }

    /**
     * Routes one processing time to the record of listener `l` and to
     * nothing else: the aggregate, the other records and the key set stay
     * as they were. A listener without a record (a null lookup in Java)
     * reports `found == false` and changes nothing.
     */
    method UpdateOneComponent(l: Listener, procTimeNs: int) returns (found: bool)
      requires Valid()
      modifies this`compStats
      ensures Valid()
      ensures found <==> l.hashCode in old(compStats)
      ensures found ==> compStats == old(compStats)[l.hashCode := UpdateComponent(old(compStats)[l.hashCode], procTimeNs)]
      ensures !found ==> compStats == old(compStats)
      ensures compStats.Keys == old(compStats.Keys)
      ensures Totals() == old(Totals())
    {
      found := l.hashCode in compStats;
      if found {
        compStats := compStats[l.hashCode := UpdateComponent(compStats[l.hashCode], procTimeNs)];
      }
    }
  }

  /**
   * Two components with one packet each: each record holds only its own
   * sample and routing leaves the aggregate alone.
   */
  method TwoComponentScenario(parser: Listener, router: Listener)
    requires parser.hashCode == 1 && router.hashCode == 2
  {
    var b := new CumulativeTimeBucket([parser, router], 0);
    assert b.compStats.Keys == {1, 2} by {
      assert KeysOf([parser, router]) == {1, 2};
    }
    var ok := b.UpdateOneComponent(parser, 10000);
    ok := b.UpdateOneComponent(router, 20000);
    assert ok && b.compStats[1].samples == [10000] && b.compStats[2].samples == [20000];
    assert b.Totals() == Zero;
  }

  /** Two listeners with one hash code: one record, made for the later listener. */
  method SharedHashScenario(first: Listener, second: Listener)
    requires first.hashCode == second.hashCode && first.name != second.name
  {
    var b := new CumulativeTimeBucket([first, second], 0);
    assert LastWithHash([first, second], 1, 2);
    assert b.compStats[second.hashCode].compName == second.name;
    assert b.compStats.Keys == {first.hashCode} by {
      assert KeysOf([first, second]) == {first.hashCode};
    }
    assert b.GetNumComps() == 1;
  }

  /** Two packets into a fresh bucket: count 2, total 30000, and a minimum still at 0. */
  method TwoPacketScenario()
  {
    var b := new CumulativeTimeBucket([], 0);
    b.UpdatePerPacketCounters(10000);
    b.UpdatePerPacketCounters(20000);
    assert b.totalPktCnt == 2 && b.totalProcTimeNs == 30000;
    assert b.maxTotalProcTimeNs == 20000 && b.minTotalProcTimeNs == 0;
  }
}
