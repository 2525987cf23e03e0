# Floodlight perfmon: CumulativeTimeBucket

A Dafny model of `CumulativeTimeBucket`, the accounting object of Floodlight's
packet-processing performance monitor. It holds two independent pieces of
state, modelled as two classes:

- **`CumulativeBucket.CumulativeTimeBucket`** — the per-bucket running
  aggregate (packet count, total processing time, sum of squared times, max,
  min, integer average, sigma, start time) and the map `compStats` from a
  listener's hash code to that pipeline component's timing record.
- **`LatencyClassification.LatencyClassifier`** — the per-second latency
  classifier that the Java class keeps in `static` fields: the satisfied,
  tolerated and untolerated band counters, the packet count of the current
  second and the Latency Performance Index
  `LPIndex = (satisfied + 0.5 * tolerated) / all`. Dafny has no mutable
  statics, so this state is an explicitly constructed object.

Pure companions specify the classes: `TimeAggregate` reads the aggregate fields
as one `Aggregate` value and folds a sequence of samples through `Record`, the
update that `updatePerPacketCounters` performs; `LatencyClassification`
defines the band of a latency (`BandOf`), the counters after a packet
(`Classify`, `ClassifyAll`) and `LPIndexOf` in real arithmetic; `Components`
holds listeners and component records; `JavaLong.TruncDiv` is Java's
truncating `long` division, used for the average.

Behaviour of the code worth knowing, all of it kept by the model:

- `updateOneComponent` (lines 203-205) updates only the component record of
  the listener; the bucket aggregate moves only through
  `updatePerPacketCounters` (lines 175-188).
- `reset` (lines 118-130) sets the max and the min to 0, like every other
  aggregate field.
- `computeLPIndex` (lines 171-173) divides by the packet count of the current
  second with no zero check, and `resetPerSecond` (lines 131-138) calls it and
  then stores 0 in `LPIndex`.
- The constructor (lines 102-109) puts each listener's record under its hash
  code, so listeners with equal hash codes share one key and the later
  listener's record replaces the earlier one.
- The per-second classifier is updated by `updataPerPacketInCounters` (lines
  190-201; the name is spelled this way in the code and kept as
  `UpdataPerPacketInCounters`), an instance method of the bucket that only
  touches the static fields; here it is a method of `LatencyClassifier`.

The component record type `OneComponentTime` is not part of this model. A
record is abstracted as `ComponentTime(compId, compName, samples)`: its key
(the listener's hash code), the name of the listener it was made for, and the
processing times recorded since its last reset, from which each of its
statistics is derived. Listeners are `Listener(name, hashCode)` values. Clock
readings (`System.nanoTime()`) are passed in as `nowNs`. The stored LPIndex
is kept as the counts it was computed from (`LPIndex`: `LPZero` or
`LPQuotient(satisfied, tolerated, all)`), and `LPIndexValue` gives its real
value when the total is not zero.

## Model

| member | source | states |
|---|---|---|
| `CumulativeBucket.CumulativeTimeBucket.constructor` | src/main/java/net/floodlightcontroller/perfmon/CumulativeTimeBucket.java:102-109 | key set = the listeners' hash codes; under each key the fresh record (no samples, the listener's name) of the last listener with that hash; aggregate all zero, start time = clock; `GetNumComps() <= |listeners|`, with equality when hash codes are distinct |
| `CumulativeBucket.BuildCompStats` | src/main/java/net/floodlightcontroller/perfmon/CumulativeTimeBucket.java:103-107 | the constructor's loop: every listener's hash becomes a key, each record sits under its own key with no samples, and a later listener with the same hash replaces the earlier record |
| `CumulativeBucket.BuildStepKeys` | src/main/java/net/floodlightcontroller/perfmon/CumulativeTimeBucket.java:105-106 | putting one more listener's record adds exactly its hash code to the keys |
| `CumulativeBucket.BuildStepRecords` | src/main/java/net/floodlightcontroller/perfmon/CumulativeTimeBucket.java:105-106 | putting one more listener's record keeps the record of every earlier listener that is still the last with its hash, and makes the new listener's record the one under its hash |
| `CumulativeBucket.CumulativeTimeBucket.GetNumComps` | src/main/java/net/floodlightcontroller/perfmon/CumulativeTimeBucket.java:94-96 | the number of records in `compStats.values()`, which equals the number of keys because each record sits under its own key |
| `Components.RecordsCountedOnce` | src/main/java/net/floodlightcontroller/perfmon/CumulativeTimeBucket.java:94-96 | records stored each under their own key are pairwise distinct, so the number of values equals the number of keys |
| `Components.KeysOfSnoc` | src/main/java/net/floodlightcontroller/perfmon/CumulativeTimeBucket.java:103-107 | one more listener adds its hash code, and nothing else, to the keys the listeners produce |
| `CumulativeBucket.CumulativeTimeBucket.UpdateSquaredProcessingTime` | src/main/java/net/floodlightcontroller/perfmon/CumulativeTimeBucket.java:111-113 | the sum of squares grows by exactly the square of the sample; nothing else changes |
| `CumulativeBucket.CumulativeTimeBucket.Reset` | src/main/java/net/floodlightcontroller/perfmon/CumulativeTimeBucket.java:118-130 | count, total, average, sum of squares, max, min and sigma become 0, start time = clock, every component record is reset and the key set is unchanged; the classifier is a separate object and is not touched |
| `CumulativeBucket.CumulativeTimeBucket.ResetAllComponents` | src/main/java/net/floodlightcontroller/perfmon/CumulativeTimeBucket.java:127-129 | the loop resets every record and keeps the key set, preserving the invariant that each record sits under its own key |
| `CumulativeBucket.CumulativeTimeBucket.UpdatePerPacketCounters` | src/main/java/net/floodlightcontroller/perfmon/CumulativeTimeBucket.java:175-188 | count + 1 (so >= 1), total + sample, sum of squares + sample squared, average = Java quotient of the new total by the new count, max >= sample and >= old max, min <= sample and <= old min; components, sigma and start time unchanged |
| `CumulativeBucket.CumulativeTimeBucket.UpdateOneComponent` | src/main/java/net/floodlightcontroller/perfmon/CumulativeTimeBucket.java:203-205 | succeeds iff the listener's hash is a key; then only that entry gains the sample; other entries, the key set and the whole aggregate are unchanged; a missing key changes nothing |
| `JavaLong.TruncDiv` | src/main/java/net/floodlightcontroller/perfmon/CumulativeTimeBucket.java:178 | Java `long` division: the remainder is smaller than the divisor in magnitude and has the dividend's sign; equals Dafny's `/` for a non-negative dividend and positive divisor |
| `TimeAggregate.ReplayTotals` | src/main/java/net/floodlightcontroller/perfmon/CumulativeTimeBucket.java:175-179 | after any samples, count = old count + number of samples, total = old total + their sum, sum of squares = old + sum of their squares; sigma untouched |
| `TimeAggregate.ReplayAverage` | src/main/java/net/floodlightcontroller/perfmon/CumulativeTimeBucket.java:176-178 | after at least one sample the count is >= 1 and the average is the truncated quotient of the total by the count |
| `TimeAggregate.MeanOfSamples` | src/main/java/net/floodlightcontroller/perfmon/CumulativeTimeBucket.java:176-178 | from a fresh or reset bucket the average is Java's `sum(samples) / |samples|` |
| `TimeAggregate.ReplayMax` | src/main/java/net/floodlightcontroller/perfmon/CumulativeTimeBucket.java:181-183 | the max never decreases, is >= every sample, and is the old max or one of the samples |
| `TimeAggregate.ReplayMin` | src/main/java/net/floodlightcontroller/perfmon/CumulativeTimeBucket.java:185-187 | the min never increases, is <= every sample, and is the old min or one of the samples |
| `TimeAggregate.MinStuckAtZero` | src/main/java/net/floodlightcontroller/perfmon/CumulativeTimeBucket.java:185-187 | from a fresh or reset bucket, any sequence of non-negative samples leaves the min at 0 |
| `TimeAggregate.MinAfterOneSample` | src/main/java/net/floodlightcontroller/perfmon/CumulativeTimeBucket.java:181-187 | one 10000 ns sample into a fresh bucket gives max 10000 but min 0 |
| `TimeAggregate.IntendedAgreesOffExtrema` | src/main/java/net/floodlightcontroller/perfmon/CumulativeTimeBucket.java:175-188 | the repaired update differs from the written one only in max and min, for every sequence of samples |
| `TimeAggregate.IntendedExtrema` | src/main/java/net/floodlightcontroller/perfmon/CumulativeTimeBucket.java:181-187 | with the repaired update, min <= every sample <= max, the extrema only move outward once set, and each is a sample or the earlier extremum |
| `TimeAggregate.IntendedMinMaxOfSamples` | src/main/java/net/floodlightcontroller/perfmon/CumulativeTimeBucket.java:181-187 | with the repaired update, after a reset the min and max are the least and greatest recorded sample |
| `Components.KeysAtMostListeners` | src/main/java/net/floodlightcontroller/perfmon/CumulativeTimeBucket.java:102-107 | equal hash codes collapse into one key, so there are never more keys than listeners |
| `Components.KeysOfDistinct` | src/main/java/net/floodlightcontroller/perfmon/CumulativeTimeBucket.java:102-107 | listeners with pairwise distinct hash codes give exactly one key each |
| `LatencyClassification.BandIntervals` | src/main/java/net/floodlightcontroller/perfmon/CumulativeTimeBucket.java:193-200 | satisfied iff <= 25000 ns, tolerated iff in (25000, 100000], untolerated iff > 100000, each in both directions |
| `LatencyClassification.BandBoundaries` | src/main/java/net/floodlightcontroller/perfmon/CumulativeTimeBucket.java:193-200 | 25000 is satisfied, 25001 and 100000 tolerated, 100001 untolerated |
| `LatencyClassification.ClassifyAllCounts` | src/main/java/net/floodlightcontroller/perfmon/CumulativeTimeBucket.java:190-201 | after any packets each band counter grows by the number of packets in that band and the total by the number of packets |
| `LatencyClassification.BandsPartition` | src/main/java/net/floodlightcontroller/perfmon/CumulativeTimeBucket.java:193-200 | every packet is counted in exactly one band: the three band counts add up to the number of packets |
| `LatencyClassification.ClassifyAllBalanced` | src/main/java/net/floodlightcontroller/perfmon/CumulativeTimeBucket.java:190-201 | if the bands sum to the total before, they still do after any packets |
| `LatencyClassification.LPIndexBounds` | src/main/java/net/floodlightcontroller/perfmon/CumulativeTimeBucket.java:171-173 | on a balanced, non-empty second LPIndex is in [0, 1], equals 1 iff every packet was satisfied and 0 iff every packet was untolerated |
| `LatencyClassification.LPIndexMidUpdate` | src/main/java/net/floodlightcontroller/perfmon/CumulativeTimeBucket.java:190-192 | the index computed after the total counts the new packet and before its band does has a non-zero divisor, so a real value, and that value is in [0, 1) |
| `LatencyClassification.LPIndexExamples` | src/main/java/net/floodlightcontroller/perfmon/CumulativeTimeBucket.java:171-173 | 10 satisfied of 10 give 1.0; 5 satisfied and 5 tolerated of 10 give 0.75 |
| `LatencyClassification.LatencyClassifier.constructor` | src/main/java/net/floodlightcontroller/perfmon/CumulativeTimeBucket.java:43-47 | all counters start at 0 and the stored index is 0 (`LPZero`); the bands sum to the total |
| `LatencyClassification.LatencyClassifier.ComputeLPIndex` | src/main/java/net/floodlightcontroller/perfmon/CumulativeTimeBucket.java:171-173 | the stored index becomes the quotient of the current satisfied and tolerated counts over the current total, whatever the total (a zero total is Java's NaN or infinity and has no real value); nothing else changes |
| `LatencyClassification.LatencyClassifier.UpdataPerPacketInCounters` | src/main/java/net/floodlightcontroller/perfmon/CumulativeTimeBucket.java:190-201 | total + 1 and exactly the packet's band counter + 1, the others unchanged; the bands still sum to the total; the stored index is the quotient of the old band counts over the new total, which is >= 1, so by `LPIndexMidUpdate` its value lies in [0, 1) |
| `LatencyClassification.LatencyClassifier.ResetPerSecond` | src/main/java/net/floodlightcontroller/perfmon/CumulativeTimeBucket.java:131-138 | whatever the state before, all four counters end at 0 and the stored index at 0 (`LPZero`), so the bands sum to the total again and a second call leaves the same state |

## Findings

| source | as written | input that shows it | evidently intended | confidence | as-written member | corrected member |
|---|---|---|---|---|---|---|
| src/main/java/net/floodlightcontroller/perfmon/CumulativeTimeBucket.java:185-187 | `minTotalProcTimeNs` starts at 0 (field default, and `reset` sets 0) and is only ever lowered | a fresh bucket, then `updatePerPacketCounters(10000)`: min is 0 although the only sample was 10000 | the min of the samples since the last reset (a +infinity start, or the first sample sets it) | medium, not executed | `TimeAggregate.MinStuckAtZero` | `TimeAggregate.IntendedMinMaxOfSamples` |

The class `CumulativeTimeBucket` keeps the update as written, since it models
the code; `TimeAggregate.RecordIntended` is the repaired update (the first
sample after a reset sets both extrema), and `IntendedAgreesOffExtrema` shows
it changes nothing else.

## Left out

- `computeSigma` and `computeAverages` (lines 153-169): floating-point `Math.pow`, `Math.sqrt` and a `(long)` cast, NaN for an empty bucket; sigma is only carried as a field that `reset` zeros and `updatePerPacketCounters` leaves alone.
- `CumulativeBucket.CumulativeTimeBucket.UpdateSquaredProcessingTime`: `Math.pow` and the `+=` of a `double` into a `long` round above 2^53 and saturate at `Long.MAX_VALUE`; the model adds the exact integer square.
- `CumulativeBucket.CumulativeTimeBucket.UpdatePerPacketCounters`: counters and totals are unbounded integers; 64-bit `long` wrap-around is not modelled (it needs about 2^63 ns of accumulated time).
- `LatencyClassification.LatencyClassifier.ComputeLPIndex`: Java's double division by a zero total gives NaN or infinity; the model stores the operands (`LPQuotient(s, t, 0)`) and gives no real value for them.
- `LatencyClassification.LPIndexValue`: the index is an exact `real`, not a `double`: rounding of the quotient is not modelled.
- `OneComponentTime`'s statistics and `computeSigma` are not part of this model (the class is not shown); records are abstracted as their key, listener name and sample history. The records are values in the map, reassigned per entry, so sharing of record objects with `getModules()` callers is not modelled.
- `CumulativeBucket.CumulativeTimeBucket.constructor`: stores each record under the listener's hash code, assuming `OneComponentTime.hashCode()` (line 106) equals the listener's `hashCode()` used for the lookup (line 204); `OneComponentTime` is not part of this model.
- `CumulativeBucket.CumulativeTimeBucket.UpdateOneComponent`: looks up the listener's hash code under the same assumption that a record's `hashCode()` is its listener's.
- `CumulativeBucket.CumulativeTimeBucket.UpdateOneComponent`: a listener without a record throws a `NullPointerException` in Java; the model returns `found == false` and changes nothing.
- `ResetCounterTask` (timer glue, date formatting, console output), `System.nanoTime()` (a `nowNs` parameter instead), the JSON serializer annotation, and the simple getters (used only to state properties).
- Concurrency: the `ConcurrentHashMap` and the unsynchronised static counters are accessed by one caller at a time in this model.
