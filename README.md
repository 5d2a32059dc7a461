# tsdaggregator: aggregation window and metrics clients in Dafny

This project models two parts of tsdaggregator, a time-series aggregation
service, and proves properties of them.

**The server-side aggregation window** is `TSAggregation`, modelled as class
`Aggregation.TSAggregation`. One aggregator collects the sample values of one
metric for one host and service during one period. When it sees an instant
strictly after the end of the open period, it closes that period:

- It computes the aligned start of the period that contains the instant. It
  takes the top of the hour, then steps forward by whole periods.
- It computes every configured statistic over the buffered samples. Unordered
  statistics see the buffer in insertion order. Ordered statistics see it
  sorted, and the sort happens once, only when such statistics exist.
- It hands all records to its listener as one batch.
- It opens the new period with an empty buffer.

Supporting modules:

- `Timeline`: hour flooring, the closed-form aligned start, and the boundary
  loop that computes it.
- `Sorting`: the reference ascending rearrangement, and the in-place sort run
  on the emission's copy of the buffer.
- `Wrappers`: the `Option` and `Outcome` datatypes.

A listener is an identity. Every batch it receives is recorded in the ghost
sequence `delivered`, so the contracts can state exactly what was emitted.

**The Node.js metrics client** is `TsdMetrics`, modelled in module `TsdClient`.
The TypeScript source and its compiled JavaScript form behave the same, so one
model serves both. A metrics object records the following while it is open:

- counters, each a list of samples where the last one is current;
- gauges, whose readings are only appended;
- timers, each with durations and a pending start;
- annotations.

Closing the object stamps it, stops every timer and marks it closed. After
that, each guarded operation emits an "error" event and changes nothing. The
one exception is `incrementCounter`, which ignores its open check and still
updates the counter. Emitted events are the sequence `errors`.

**The earlier client** is modelled in module `TsdClientLegacy`. It differs in
two ways:

- A counter keeps its newest sample first.
- A guarded call on a closed object throws before changing anything. The model
  returns this as a `Fail` outcome.

Its timer class is identical to the current client's and reuses that model.
`TsdClientLegacy.LayoutsAgree` proves that for any sequence of increments and
resets, the two clients record the same samples in opposite orders.

Where the code and the behaviour its documentation describes differ, the model
follows the code:

- **Rotation order.** A rotation emits the closed period (TSAggregation.java
  line 94) before it resets the buffer and period start (lines 95-97). A
  failing emission therefore leaves both unchanged.
- **Missing listener.** With samples buffered and no listener, the emission
  fails at line 153 instead of being skipped.
- **Close.** `close` does not clear the buffer, so a second `close` emits the
  same records again.
- **Period length.** The boundary loop (lines 89-92) only advances by adding
  the period. With a zero or negative period it never reaches the instant, so
  it runs forever unless the instant falls exactly on the hour. The model
  requires a positive period.
- **Timer missing in the current client.** `stopTimer` on a timer that was
  never created emits an error and then throws.

Clock readings are method parameters (`time`, `now`), as are the rendered
timestamp strings.

## Model

| member | source | states |
|---|---|---|
| Timeline.HourFloor | src/main/java/tsdaggregator/TSAggregation.java:87 | the top of the hour of `t` is at or before `t`, less than an hour before it, and on an hour boundary |
| Timeline.AlignedStart | src/main/java/tsdaggregator/TSAggregation.java:87-92 | the new period start contains `t` (`p <= t < p + period`) and lies a whole number of periods after the top of `t`'s hour |
| Timeline.AlignedStartUnique | src/main/java/tsdaggregator/TSAggregation.java:87-92 | any start with those two properties is the closed-form one, so the start is uniquely determined |
| Timeline.PeriodStartFor | src/main/java/tsdaggregator/TSAggregation.java:87-92 | the boundary loop, with its exit when the start equals `t`, terminates for a positive period and yields exactly the aligned start |
| Sorting.SortedOf | src/main/java/tsdaggregator/TSAggregation.java:136 | the reference sorted buffer is ascending and a permutation of the buffer |
| Sorting.AscendingPermutationUnique | src/main/java/tsdaggregator/TSAggregation.java:136 | two ascending permutations of the same values are equal, so ordered statistics see one well-defined input |
| Sorting.SortInPlace | src/main/java/tsdaggregator/TSAggregation.java:136 | sorting the array in place leaves exactly the reference sorted sequence in it |
| Aggregation.Record | src/main/java/tsdaggregator/TSAggregation.java:123-131 | a record carries the statistic, its value, and the metric, host, service, period and period start of the emission |
| Aggregation.TSAggregation.WithDefaultStatistics | src/main/java/tsdaggregator/TSAggregation.java:26-42 | a new aggregator with the seven default statistics files the five percentiles as ordered and count and mean as unordered, with an empty buffer, a period start of 0 and nothing delivered |
| Aggregation.TSAggregation.constructor | src/main/java/tsdaggregator/TSAggregation.java:44-51 | a new aggregator stores its metric, period, listener, host and service, and files each given statistic under its ordered tag |
| Aggregation.TSAggregation.AddStatistics | src/main/java/tsdaggregator/TSAggregation.java:53-57 | after the loop, exactly the ordered statistics of the set were added to the ordered set and the others to the unordered set |
| Aggregation.TSAggregation.AddStatistic | src/main/java/tsdaggregator/TSAggregation.java:59-65 | a statistic goes into exactly one of the two sets, by its tag, and the other set is unchanged |
| Aggregation.TSAggregation.AddSample | src/main/java/tsdaggregator/TSAggregation.java:67-72 | without rotation, the value is appended and the start is kept; after a rotation, the buffer is exactly `[value]` at the aligned start and the old buffer went out as one batch with the old header; a failed emission changes nothing; the count always equals the buffer length; at most one sort runs, and only when the call rotates |
| Aggregation.TSAggregation.CheckRotate | src/main/java/tsdaggregator/TSAggregation.java:74-76 | the tick rotates against the current time less 60000 ms |
| Aggregation.TSAggregation.CheckRotateBy | src/main/java/tsdaggregator/TSAggregation.java:78-80 | the tick rotates against the current time less the given lateness |
| Aggregation.TSAggregation.RotateAggregation | src/main/java/tsdaggregator/TSAggregation.java:82-99 | at or before the end of the open period nothing changes and nothing is emitted or sorted; strictly after it the closed period is emitted with its pre-rotation header, then the buffer empties and the start moves forward to the aligned start; a failed emission leaves the buffer and start as they were; the sort count grows by `SortsFor` of the closed buffer after a rotation and not at all without one |
| Aggregation.TSAggregation.Close | src/main/java/tsdaggregator/TSAggregation.java:101-103 | emits the buffer as it stands and leaves the buffer and start unchanged, so a second close emits the same records; it sorts as `SortsFor` of the buffer says |
| Aggregation.TSAggregation.GetListener | src/main/java/tsdaggregator/TSAggregation.java:105-107 | answers the current listener |
| Aggregation.TSAggregation.SetListener | src/main/java/tsdaggregator/TSAggregation.java:109-111 | replaces the listener and nothing else |
| Aggregation.TSAggregation.EmitAggregations | src/main/java/tsdaggregator/TSAggregation.java:113-154 | an empty buffer emits nothing; otherwise one batch goes to the listener: one record per unordered statistic over the buffer as inserted, then one per ordered statistic over the sorted buffer, all with the current header; the sort runs once, and only when there are ordered statistics; it fails exactly when samples are buffered and there is no listener, and then delivers nothing |
| Aggregation.BuildBatch | src/main/java/tsdaggregator/TSAggregation.java:119-151 | the records of one emission are one per unordered statistic over the array as it stands, then one per ordered statistic over the array sorted; afterwards the array holds the sorted buffer when there are ordered statistics and is untouched otherwise, and the in-place sort was called once or not at all accordingly |
| Aggregation.SortsFor | src/main/java/tsdaggregator/TSAggregation.java:134-136 | an emission sorts at most once, and exactly when samples are buffered and some statistic is ordered |
| Aggregation.RecordAll | src/main/java/tsdaggregator/TSAggregation.java:120-133 | evaluating a statistic set in any order yields one record per statistic with its value over the array, or no records when there is no listener |
| Aggregation.AppendRecord | src/main/java/tsdaggregator/TSAggregation.java:131 | appending the record of a statistic not yet recorded extends the set of statistics covered by exactly that one |
| Aggregation.CoversDistinct | src/main/java/tsdaggregator/TSAggregation.java:120-150 | a batch group names no statistic twice |
| Aggregation.BatchContentDetermined | src/main/java/tsdaggregator/TSAggregation.java:119-153 | two batches for the same header, buffer and statistics hold the same records; only the order within a group depends on set iteration |
| TsdClient.CounterSamples.constructor | clients/nodejs/tsd-metrics-client.ts:15-17 | a new counter holds exactly `[0]` |
| TsdClient.CounterSamples.Reset | clients/nodejs/tsd-metrics-client.ts:22-24 | appends a 0 and points `lastIndex` at it |
| TsdClient.CounterSamples.Increment | clients/nodejs/lib/tsd-metrics-client.js:30-32 | adds the value to the current (last) sample only |
| TsdClient.AddToLast | clients/nodejs/tsd-metrics-client.ts:30-32 | the length and every earlier sample are unchanged, and the last sample grows by the value |
| TsdClient.AddToLastTotal | clients/nodejs/tsd-metrics-client.ts:30-32 | an increment raises the counter's total by exactly the value |
| TsdClient.IncrementDecrementCancel | clients/nodejs/tsd-metrics-client.ts:231-233 | a decrement by `v` undoes an increment by `v` |
| TsdClient.TimerSamples.constructor | clients/nodejs/tsd-metrics-client.ts:43-44 | a new timer has no durations and no pending start |
| TsdClient.TimerSamples.AddDuration | clients/nodejs/tsd-metrics-client.ts:50-52 | appends the duration and keeps the pending start |
| TsdClient.TimerSamples.Start | clients/nodejs/tsd-metrics-client.ts:57-59 | sets the pending start to `now`, keeping the durations |
| TsdClient.TimerSamples.Stop | clients/nodejs/tsd-metrics-client.ts:64-69 | the timer becomes its stopped view |
| TsdClient.Stopped | clients/nodejs/tsd-metrics-client.ts:64-69 | stopping appends `now - start` only when a start is pending, and always clears the start |
| TsdClient.StopAll | clients/nodejs/tsd-metrics-client.ts:330-332 | stopping every timer keeps the timer names and stops each one |
| TsdClient.StopAllIdempotent | clients/nodejs/tsd-metrics-client.ts:330-332 | stopping the timers again adds nothing |
| TsdClient.Lazy.constructor | clients/nodejs/tsd-metrics-client.ts:80-82 | a new lazy value holds its factory and no value |
| TsdClient.Lazy.GetValue | clients/nodejs/tsd-metrics-client.ts:84-89 | the factory is called only when no value is cached, and a cached value is answered without calling it |
| TsdClient.ClosedErrors | clients/nodejs/tsd-metrics-client.ts:195-197 | a guarded operation emits an error exactly when the object is not open |
| TsdClient.TsdMetrics.constructor | clients/nodejs/tsd-metrics-client.ts:199-207 | a new object is open, has no counters, gauges, timers or errors, and holds only the `initTimestamp` annotation |
| TsdClient.TsdMetrics.Assert | clients/nodejs/tsd-metrics-client.ts:168-174 | answers the condition and emits the error only when it is false |
| TsdClient.TsdMetrics.AssertIsOpen | clients/nodejs/tsd-metrics-client.ts:195-197 | answers whether the object is open and emits `NotOpen` when it is not |
| TsdClient.TsdMetrics.IncrementCounter | clients/nodejs/tsd-metrics-client.ts:216-222 | creates the counter as `[0]` if needed and adds the value to its current sample, even when closed (then also emitting an error); other counters are unchanged |
| TsdClient.TsdMetrics.DecrementCounter | clients/nodejs/lib/tsd-metrics-client.js:162-165 | same effect as an increment by the negated value |
| TsdClient.TsdMetrics.ResetCounter | clients/nodejs/tsd-metrics-client.ts:243-251 | when open, a new counter becomes `[0]` and an existing one gains a trailing 0; when closed, counters are unchanged and an error is emitted |
| TsdClient.TsdMetrics.StartTimer | clients/nodejs/tsd-metrics-client.ts:258-265 | when open, creates the timer if needed and sets its pending start to `now`; when closed, only an error |
| TsdClient.TsdMetrics.StopTimer | clients/nodejs/lib/tsd-metrics-client.js:204-209 | when open, stops an existing timer; for a missing timer it emits `TimerMissing` and then throws; when closed, only an error |
| TsdClient.TsdMetrics.SetTimer | clients/nodejs/tsd-metrics-client.ts:286-293 | when open, creates the timer if needed and appends the duration; when closed, only an error |
| TsdClient.TsdMetrics.SetGauge | clients/nodejs/tsd-metrics-client.ts:301-308 | when open, appends the reading to the gauge, creating it on first use; when closed, only an error |
| TsdClient.TsdMetrics.Annotate | clients/nodejs/tsd-metrics-client.ts:316-320 | when open, sets or overwrites the key; when closed, only an error |
| TsdClient.TsdMetrics.Close | clients/nodejs/tsd-metrics-client.ts:327-336 | an open object gets `finalTimestamp`, all timers stopped and becomes closed; a closed one stays as it is apart from one error |
| TsdClient.TsdMetrics.StopEveryTimer | clients/nodejs/tsd-metrics-client.ts:330-332 | the loop over timer names, in any order, leaves exactly every timer stopped |
| TsdClientLegacy.AddToFirst | clients/nodejs/tsd-metrics-client.js:18-20 | the first sample grows by the value and the rest are unchanged |
| TsdClientLegacy.CounterSamples.constructor | clients/nodejs/tsd-metrics-client.js:10-13 | a new counter holds exactly `[0]` |
| TsdClientLegacy.CounterSamples.Reset | clients/nodejs/tsd-metrics-client.js:14-16 | puts a 0 in front; older samples shift back unchanged |
| TsdClientLegacy.CounterSamples.Increment | clients/nodejs/tsd-metrics-client.js:18-20 | adds the value to the first sample only |
| TsdClientLegacy.ReversedAppend | clients/nodejs/tsd-metrics-client.js:14-16 | a reset that prepends is a reset that appends, seen in reverse |
| TsdClientLegacy.ReversedAddToLast | clients/nodejs/tsd-metrics-client.js:18-20 | an increment of the first sample is an increment of the last sample, seen in reverse |
| TsdClientLegacy.LayoutsAgree | clients/nodejs/tsd-metrics-client.js:9-26 | for every sequence of increments and resets, this client's samples are the current client's samples reversed |
| TsdClientLegacy.OpenCheck | clients/nodejs/tsd-metrics-client.js:3-7 | the check passes exactly when the object is open and otherwise fails with `NotOpen` |
| TsdClientLegacy.TsdMetrics.constructor | clients/nodejs/tsd-metrics-client.js:54-65 | a new object is open, empty, and annotated with `initTimestamp` |
| TsdClientLegacy.TsdMetrics.AssertIsOpen | clients/nodejs/tsd-metrics-client.js:98-100 | throws exactly when the object is not open |
| TsdClientLegacy.TsdMetrics.IncrementCounter | clients/nodejs/tsd-metrics-client.js:109-116 | when open, creates the counter as `[0]` if needed and adds to its first sample; when closed, throws with nothing changed |
| TsdClientLegacy.TsdMetrics.DecrementCounter | clients/nodejs/tsd-metrics-client.js:125-128 | same effect as an increment by the negated value |
| TsdClientLegacy.TsdMetrics.ResetCounter | clients/nodejs/tsd-metrics-client.js:138-145 | when open, a new counter becomes `[0]` and an existing one gains a leading 0; when closed, throws with nothing changed |
| TsdClientLegacy.TsdMetrics.StartTimer | clients/nodejs/tsd-metrics-client.js:152-158 | when open, creates the timer if needed and sets its pending start; when closed, throws with nothing changed |
| TsdClientLegacy.TsdMetrics.StopTimer | clients/nodejs/tsd-metrics-client.js:165-169 | succeeds exactly for an open object and an existing timer, which it stops; otherwise it throws `NotOpen` or `TimerMissing` with nothing changed |
| TsdClientLegacy.TsdMetrics.SetTimer | clients/nodejs/tsd-metrics-client.js:178-184 | when open, appends the duration, creating the timer if needed; when closed, throws with nothing changed |
| TsdClientLegacy.TsdMetrics.SetGauge | clients/nodejs/tsd-metrics-client.js:192-198 | when open, appends the reading, creating the gauge if needed; when closed, throws with nothing changed |
| TsdClientLegacy.TsdMetrics.Annotate | clients/nodejs/tsd-metrics-client.js:206-209 | when open, sets or overwrites the key; when closed, throws with nothing changed |
| TsdClientLegacy.TsdMetrics.Close | clients/nodejs/tsd-metrics-client.js:216-224 | when open, records `finalTimestamp`, stops every timer and closes; a second close throws with nothing changed |

## Left out

- Logging is not modelled: log4js configuration, the lazily built logger, the JSON log line a client writes on close, `toJSON`, and the debug messages of `TSAggregation`. These are I/O. `Lazy` is modelled as a class on its own.
- EventEmitter mechanics, including the do-nothing "error" listener, are not modelled. An emitted error is appended to `errors` as an error kind; the message text, including the spelling difference between the TypeScript and compiled versions of the open check's message, is left out.
- Wall-clock reads become parameters, and rendered timestamps become string parameters. The formatting of `Date.now() / 1000` is left out.
- TsdClient.TsdMetrics.Close: takes one `now` for every timer it stops, where the source reads the clock once per timer.
- Joda calendar periods of variable length (months, daylight-saving hours) and local time zones are not modelled. A period is a positive number of milliseconds, and the hour floor is taken in UTC.
- The statistic formulas are the aggregator's `evaluate` parameter; their classes are not part of this model. A statistic is a name with an ordered tag. The default set's tags follow the statistic kinds: percentiles ordered, count and mean unordered.
- Sample and counter values are integers, not floating-point numbers.
- Aggregation.TSAggregation.AddSample: does not model the 32-bit overflow of the sample count.
- Exceptions a listener itself throws are not modelled. The only failure is a missing listener.
- Exceptions a statistic's `calculate` throws are not modelled: `evaluate` is a total function, so every emission computes a value for every statistic.
- Counter, gauge and timer names are assumed not to be inherited properties of a plain JavaScript object (`toString`, `constructor`, `valueOf`, `hasOwnProperty`, `__proto__` and the like). For such a name the source's `== undefined` test sees the inherited property, and the following `increment`, `push`, `start`, `stop` or `addDuration` call throws a TypeError; the model instead treats the name as absent: it creates the entry, or for `stopTimer` reports a missing timer.
- Statistic sets are iterated in an unspecified order, like the source's hash sets. The batch contract therefore fixes each group's records but not their order within the group.
- TsdClient.TsdMetrics: keeps each counter's samples and each timer's state as values in its maps. The source keeps `CounterSamples` and `TimerSamples` objects there and updates them in place. Those classes are modelled and verified on their own, and the maps hold exactly the values their methods produce. Aliasing between the objects is not captured; it is not observable, since the objects are private to one metrics object.
- TsdClientLegacy.TsdMetrics: same value-map representation, for the same reason.
- The constant `version` field is kept as a constant only.
