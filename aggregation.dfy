/**
 * The server-side aggregation window for one metric of one host and service:
 * it buffers the sample values of the open period, closes the period when a
 * later instant is seen, computes every configured statistic over the closed
 * period and hands the resulting records to a listener as one batch.
 *
 * Instants and period lengths are integer milliseconds; sample values are
 * integers. The statistic formulas are a parameter `evaluate` of the aggregator.
 */
module Aggregation {
  import opened Wrappers
  import opened Timeline
  import opened Sorting

  /** A statistic, identified by name and tagged with whether it needs ascending input. */
  datatype Statistic = Statistic(name: string, ordered: bool)

  /** The statistics an aggregator computes when none are given. */
  const DefaultStatistics: set<Statistic> := {
    Statistic("tp100", true), Statistic("tp99", true), Statistic("tp99p9", true),
    Statistic("tp50", true), Statistic("tp0", true),
    Statistic("n", false), Statistic("mean", false)
  }

  /** The identity of an aggregation listener object. */
  datatype Listener = Listener(id: nat)

  /** The fields every record of one emission shares. */
  datatype Header = Header(metric: string, host: string, service: string, period: int, periodStart: int)

  /** One emitted result: a statistic's value over one period. */
  datatype AggregatedData = AggregatedData(
    metric: string, host: string, service: string,
    period: int, periodStart: int,
    statistic: Statistic, value: int)

  /** One call of a listener's `recordAggregation`. */
  datatype Delivery = Delivery(listener: Listener, batch: seq<AggregatedData>)

  /** The failure an emission can raise: calling `recordAggregation` on a missing listener. */
  datatype EmitError = NullListener

  function Record(h: Header, s: Statistic, value: int): (d: AggregatedData)
    ensures d.statistic == s && d.value == value
    ensures d.metric == h.metric && d.host == h.host && d.service == h.service
    ensures d.period == h.period && d.periodStart == h.periodStart
  {
    AggregatedData(h.metric, h.host, h.service, h.period, h.periodStart, s, value)
  }

  /** The statistics the records of `records` name. */
  function StatisticsOf(records: seq<AggregatedData>): (stats: set<Statistic>)
  {
    set d | d in records :: d.statistic
  }

  /**
   * `records` holds exactly one record per statistic of `stats`, each carrying
   * header `h` and the statistic's value over `input`.
   */
  ghost predicate Covers(records: seq<AggregatedData>, stats: set<Statistic>, h: Header,
                         evaluate: (Statistic, seq<int>) -> int, input: seq<int>)
  {
    && |records| == |stats|
    && StatisticsOf(records) == stats
    && forall i :: 0 <= i < |records| ==>
         records[i] == Record(h, records[i].statistic, evaluate(records[i].statistic, input))
  }

  /**
   * `batch` is the emission of a period with header `h` and buffer `samples`:
   * first one record per unordered statistic computed over the buffer as
   * inserted, then one record per ordered statistic computed over the buffer
   * sorted ascending.
   */
  ghost predicate IsBatch(batch: seq<AggregatedData>, h: Header,
                          unordered: set<Statistic>, ordered: set<Statistic>,
                          evaluate: (Statistic, seq<int>) -> int, samples: seq<int>)
  {
    && |batch| == |unordered| + |ordered|
    && Covers(batch[..|unordered|], unordered, h, evaluate, samples)
    && Covers(batch[|unordered|..], ordered, h, evaluate, SortedOf(samples))
  }

  /**
   * What one emission does to the deliveries a listener has seen: nothing for
   * an empty buffer or a missing listener, otherwise exactly one more batch.
   */
  ghost predicate Emitted(before: seq<Delivery>, after: seq<Delivery>, h: Header,
                          listener: Option<Listener>,
                          unordered: set<Statistic>, ordered: set<Statistic>,
                          evaluate: (Statistic, seq<int>) -> int, samples: seq<int>)
  {
    if samples == [] || listener.None? then after == before
    else
      && |after| == |before| + 1
      && after[..|before|] == before
      && after[|before|].listener == listener.value
      && IsBatch(after[|before|].batch, h, unordered, ordered, evaluate, samples)
  }

  /** How many sorts one emission of `samples` runs: one, only when samples are buffered and some statistic is ordered. */
  function SortsFor(samples: seq<int>, ordered: set<Statistic>): (n: nat)
    ensures n <= 1
    ensures n == 1 <==> samples != [] && ordered != {}
  {
    if samples != [] && |ordered| > 0 then 1 else 0
  }

  /** The number of distinct statistics named in `records` never exceeds the number of records. */
  lemma {:induction false} StatisticsOfBound(records: seq<AggregatedData>)
    ensures |StatisticsOf(records)| <= |records|
  {
    if records != [] {
      var rest := records[1..];
      assert StatisticsOf(records) == StatisticsOf(rest) + {records[0].statistic} by {
        assert records == [records[0]] + rest;
      }
      StatisticsOfBound(rest);
    }
  }

  /** A record sequence that covers a statistic set names no statistic twice. */
  lemma {:induction false} CoversDistinct(records: seq<AggregatedData>, stats: set<Statistic>, h: Header,
                                          evaluate: (Statistic, seq<int>) -> int, input: seq<int>)
    requires Covers(records, stats, h, evaluate, input)
    ensures forall i, j :: 0 <= i < j < |records| ==> records[i].statistic != records[j].statistic
  {
    forall i, j | 0 <= i < j < |records|
      ensures records[i].statistic != records[j].statistic
    {
      if records[i].statistic == records[j].statistic {
        var without := records[..j] + records[j + 1..];
        assert StatisticsOf(without) == StatisticsOf(records) by {
          assert records == records[..j] + [records[j]] + records[j + 1..];
          assert records[i] in without;
        }
        StatisticsOfBound(without);
      }
    }
  }

  /**
   * Emissions are determined by their inputs up to the order of records within
   * each group: two batches for the same period, buffer and statistics hold the
   * same records.
   */
  lemma {:induction false} BatchContentDetermined(b1: seq<AggregatedData>, b2: seq<AggregatedData>, h: Header,
                                                  unordered: set<Statistic>, ordered: set<Statistic>,
                                                  evaluate: (Statistic, seq<int>) -> int, samples: seq<int>)
    requires IsBatch(b1, h, unordered, ordered, evaluate, samples)
    requires IsBatch(b2, h, unordered, ordered, evaluate, samples)
    ensures forall d :: d in b1 <==> d in b2
  {
    var u := |unordered|;
    assert b1 == b1[..u] + b1[u..] && b2 == b2[..u] + b2[u..];
    forall d | d in b1 ensures d in b2 {
      if d in b1[..u] {
        CoversSame(b1[..u], b2[..u], unordered, h, evaluate, samples, d);
      } else {
        CoversSame(b1[u..], b2[u..], ordered, h, evaluate, SortedOf(samples), d);
      }
    }
    forall d | d in b2 ensures d in b1 {
      if d in b2[..u] {
        CoversSame(b2[..u], b1[..u], unordered, h, evaluate, samples, d);
      } else {
        CoversSame(b2[u..], b1[u..], ordered, h, evaluate, SortedOf(samples), d);
      }
    }
  }

  lemma CoversSame(r1: seq<AggregatedData>, r2: seq<AggregatedData>, stats: set<Statistic>, h: Header,
                   evaluate: (Statistic, seq<int>) -> int, input: seq<int>, d: AggregatedData)
    requires Covers(r1, stats, h, evaluate, input) && Covers(r2, stats, h, evaluate, input)
    requires d in r1
    ensures d in r2
  {
    var i :| 0 <= i < |r1| && r1[i] == d;
    assert d.statistic in StatisticsOf(r2);
    var j :| 0 <= j < |r2| && r2[j].statistic == d.statistic;
  }

  /** An aggregator for one (metric, host, service) tuple. */
  class TSAggregation {
    const period: int
    const metric: string
    const hostName: string
    const serviceName: string
    /** The statistic formulas: the value a statistic computes over a sample array. */
    const evaluate: (Statistic, seq<int>) -> int

    var numberOfSamples: int
    var samples: seq<int>
    var periodStart: int
    var orderedStatistics: set<Statistic>
    var unorderedStatistics: set<Statistic>
    var listener: Option<Listener>

    /** Every batch handed to a listener so far, in order. */
    ghost var delivered: seq<Delivery>
    /** How many times an emission has sorted its sample array. */
    ghost var sorts: nat

    ghost predicate Valid()
      reads this
    {
      && period > 0
      && numberOfSamples == |samples|
      && (forall s :: s in orderedStatistics ==> s.ordered)
      && (forall s :: s in unorderedStatistics ==> !s.ordered)
    }

    /** The shared fields of the records an emission of the open period carries. */
    function CurrentHeader(): (h: Header)
      reads this
      ensures h.periodStart == periodStart && h.period == period
      ensures h.metric == metric && h.host == hostName && h.service == serviceName
    {
      Header(metric, hostName, serviceName, period, periodStart)
    }

    /** An aggregator with the default statistics. */
    constructor WithDefaultStatistics(metric: string, period: int, listener: Option<Listener>,
                                      hostName: string, serviceName: string,
                                      evaluate: (Statistic, seq<int>) -> int)
      requires period > 0
      ensures Valid()
      ensures this.metric == metric && this.period == period && this.listener == listener
      ensures this.hostName == hostName && this.serviceName == serviceName && this.evaluate == evaluate
      ensures samples == [] && periodStart == 0
      ensures orderedStatistics == set s | s in DefaultStatistics && s.ordered
      ensures unorderedStatistics == set s | s in DefaultStatistics && !s.ordered
      ensures delivered == [] && sorts == 0
    {
      this.metric, this.period, this.evaluate := metric, period, evaluate;
      this.hostName, this.serviceName := hostName, serviceName;
      this.listener := listener;
      numberOfSamples, samples, periodStart := 0, [], 0;
      orderedStatistics, unorderedStatistics := {}, {};
      delivered, sorts := [], 0;
      new;
      AddStatistics(DefaultStatistics);
    }

    /** An aggregator with the statistics `stats`, each filed by its ordered tag. */
    constructor (metric: string, period: int, listener: Option<Listener>,
                 hostName: string, serviceName: string, stats: set<Statistic>,
                 evaluate: (Statistic, seq<int>) -> int)
      requires period > 0
      ensures Valid()
      ensures this.metric == metric && this.period == period && this.listener == listener
      ensures this.hostName == hostName && this.serviceName == serviceName && this.evaluate == evaluate
      ensures samples == [] && periodStart == 0
      ensures orderedStatistics == set s | s in stats && s.ordered
      ensures unorderedStatistics == set s | s in stats && !s.ordered
      ensures delivered == [] && sorts == 0
    {
      this.metric, this.period, this.evaluate := metric, period, evaluate;
      this.hostName, this.serviceName := hostName, serviceName;
      this.listener := listener;
      numberOfSamples, samples, periodStart := 0, [], 0;
      orderedStatistics, unorderedStatistics := {}, {};
      delivered, sorts := [], 0;
      new;
      AddStatistics(stats);
    }

    /** Files every statistic of `stats` under its ordered tag. */
    method AddStatistics(stats: set<Statistic>)
      requires Valid()
      modifies this`orderedStatistics, this`unorderedStatistics
      ensures Valid()
      ensures orderedStatistics == old(orderedStatistics) + set s | s in stats && s.ordered
      ensures unorderedStatistics == old(unorderedStatistics) + set s | s in stats && !s.ordered
    {
      var remaining := stats;
      while remaining != {}
        invariant Valid()
        invariant remaining <= stats
        invariant orderedStatistics == old(orderedStatistics) + set s | s in stats - remaining && s.ordered
        invariant unorderedStatistics == old(unorderedStatistics) + set s | s in stats - remaining && !s.ordered
        decreases remaining
      {
        var s :| s in remaining;
        AddStatistic(s);
        remaining := remaining - {s};
      }
    }

    /** Files `s` into exactly one of the two statistic sets, according to its tag. */
    method AddStatistic(s: Statistic)
      requires Valid()
      modifies this`orderedStatistics, this`unorderedStatistics
      ensures Valid()
      ensures s.ordered ==> orderedStatistics == old(orderedStatistics) + {s}
                            && unorderedStatistics == old(unorderedStatistics)
      ensures !s.ordered ==> unorderedStatistics == old(unorderedStatistics) + {s}
                             && orderedStatistics == old(orderedStatistics)
    {
      if s.ordered {
        orderedStatistics := orderedStatistics + {s};
      } else {
        unorderedStatistics := unorderedStatistics + {s};
      }
    }

    /**
     * Adds a sample taken at `time`: first closes the open period if `time` is
     * past its end, then appends `value` to the buffer. A failing emission
     * throws before anything changes.
     */
    method AddSample(value: int, time: int) returns (r: Outcome<EmitError>)
      requires Valid()
      modifies this`samples, this`numberOfSamples, this`periodStart, this`delivered, this`sorts
      ensures Valid()
      ensures var rotates := time > old(periodStart) + period;
        && (r.Fail? <==> rotates && old(samples) != [] && listener.None?)
        && (r.Pass? && rotates ==> samples == [value] && periodStart == AlignedStart(time, period))
        && (r.Pass? && !rotates ==> samples == old(samples) + [value] && periodStart == old(periodStart))
        && (r.Fail? ==> samples == old(samples) && periodStart == old(periodStart))
        && (rotates ==> Emitted(old(delivered), delivered, old(CurrentHeader()), listener,
                                unorderedStatistics, orderedStatistics, evaluate, old(samples)))
        && (!rotates ==> delivered == old(delivered))
        && sorts == old(sorts) + (if rotates then SortsFor(old(samples), orderedStatistics) else 0)
    {
      r := RotateAggregation(time);
      if r.Fail? {
        return;
      }
      samples := samples + [value];
      numberOfSamples := numberOfSamples + 1;
    }

    /** The periodic tick: rotates against the current time less a minute of lateness. */
    method CheckRotate(now: int) returns (r: Outcome<EmitError>)
      requires Valid()
      modifies this`samples, this`numberOfSamples, this`periodStart, this`delivered, this`sorts
      ensures Valid()
      ensures Rotated(old(samples), old(periodStart), old(delivered), old(sorts), now - 60000, r)
    {
      r := RotateAggregation(now - 60000);
    }

    /** The periodic tick with a caller-supplied lateness of `rotateMillis`. */
    method CheckRotateBy(now: int, rotateMillis: int) returns (r: Outcome<EmitError>)
      requires Valid()
      modifies this`samples, this`numberOfSamples, this`periodStart, this`delivered, this`sorts
      ensures Valid()
      ensures Rotated(old(samples), old(periodStart), old(delivered), old(sorts), now - rotateMillis, r)
    {
      r := RotateAggregation(now - rotateMillis);
    }

    /**
     * The effect of a rotation check at `time` on an aggregator whose buffer,
     * period start and deliveries were `samples0`, `start0` and `delivered0`.
     */
    ghost predicate Rotated(samples0: seq<int>, start0: int, delivered0: seq<Delivery>, sorts0: nat,
                            time: int, r: Outcome<EmitError>)
      reads this
      requires period > 0
    {
      if time <= start0 + period then
        && r.Pass?
        && samples == samples0 && periodStart == start0 && delivered == delivered0 && sorts == sorts0
      else
        && (r.Fail? <==> samples0 != [] && listener.None?)
        && (r.Pass? ==> samples == [] && periodStart == AlignedStart(time, period) && periodStart > start0)
        && (r.Fail? ==> samples == samples0 && periodStart == start0)
        && Emitted(delivered0, delivered, Header(metric, hostName, serviceName, period, start0),
                   listener, unorderedStatistics, orderedStatistics, evaluate, samples0)
        && sorts == sorts0 + SortsFor(samples0, orderedStatistics)
    }

    /**
     * Closes the open period when `time` is strictly after its end: computes the
     * new aligned start, emits the closed period, then opens the new one empty.
     */
    method RotateAggregation(time: int) returns (r: Outcome<EmitError>)
      requires Valid()
      modifies this`samples, this`numberOfSamples, this`periodStart, this`delivered, this`sorts
      ensures Valid()
      ensures Rotated(old(samples), old(periodStart), old(delivered), old(sorts), time, r)
    {
      r := Pass;
      if time > periodStart + period {
        var startPeriod := PeriodStartFor(time, period);
        r := EmitAggregations();
        if r.Fail? {
          return;
        }
        periodStart := startPeriod;
        numberOfSamples := 0;
        samples := [];
      }
    }

    /** Emits whatever is buffered, without starting a new period. */
    method Close() returns (r: Outcome<EmitError>)
      requires Valid()
      modifies this`delivered, this`sorts
      ensures r.Fail? <==> samples != [] && listener.None?
      ensures Emitted(old(delivered), delivered, CurrentHeader(), listener,
                      unorderedStatistics, orderedStatistics, evaluate, samples)
      ensures sorts == old(sorts) + SortsFor(samples, orderedStatistics)
    {
      r := EmitAggregations();
    }

    method GetListener() returns (l: Option<Listener>)
      ensures l == listener
    {
      l := listener;
    }

    method SetListener(l: Option<Listener>)
      modifies this`listener
      ensures listener == l
    {
      listener := l;
    }

    /**
     * Computes every statistic over the buffer and delivers the records as one
     * batch: unordered statistics see the buffer as inserted; the buffer copy is
     * then sorted once, only if there are ordered statistics, and those see it
     * ascending. An empty buffer emits nothing; a non-empty one with no
     * listener fails when the batch is handed over.
     */
    method EmitAggregations() returns (r: Outcome<EmitError>)
      requires Valid()
      modifies this`delivered, this`sorts
      ensures r.Fail? <==> samples != [] && listener.None?
      ensures Emitted(old(delivered), delivered, CurrentHeader(), listener,
                      unorderedStatistics, orderedStatistics, evaluate, samples)
      ensures sorts == old(sorts) + SortsFor(samples, orderedStatistics)
    {
      var dsamples := new int[|samples|];
      forall i | 0 <= i < |samples| {
        dsamples[i] := samples[i];
      }
      assert dsamples[..] == samples;
      if dsamples.Length == 0 {
        return Pass;
      }
      ghost var sortCalls;
      var aggregates;
      aggregates, sortCalls := BuildBatch(dsamples, CurrentHeader(), unorderedStatistics, orderedStatistics,
                                          evaluate, listener.Some?);
      sorts := sorts + sortCalls;
      if listener.None? {
        return Fail(NullListener);
      }
      delivered := delivered + [Delivery(listener.value, aggregates)];
      r := Pass;
    }
  }

  /**
   * The records of one emission of the buffer held in `dsamples`: the unordered
   * statistics over the array as it stands, then, only if there are ordered
   * statistics, the ordered ones over the array after sorting it in place.
   * Records are kept only when a listener is present.
   */
  method BuildBatch(dsamples: array<int>, h: Header, unordered: set<Statistic>, ordered: set<Statistic>,
                    evaluate: (Statistic, seq<int>) -> int, withListener: bool)
    returns (aggregates: seq<AggregatedData>, ghost sortCalls: nat)
    modifies dsamples
    ensures withListener ==> IsBatch(aggregates, h, unordered, ordered, evaluate, old(dsamples[..]))
    ensures dsamples[..] == if |ordered| > 0 then SortedOf(old(dsamples[..])) else old(dsamples[..])
    ensures sortCalls == if |ordered| > 0 then 1 else 0
  {
    aggregates := RecordAll(unordered, dsamples, h, evaluate, withListener);
    ghost var unorderedRecords := aggregates;
    sortCalls := 0;
    if |ordered| > 0 {
      SortInPlace(dsamples);
      sortCalls := sortCalls + 1;
      var orderedRecords := RecordAll(ordered, dsamples, h, evaluate, withListener);
      aggregates := aggregates + orderedRecords;
    }
    if withListener {
      assert aggregates[..|unordered|] == unorderedRecords;
    }
  }

  /**
   * Evaluates every statistic of `stats` over `dsamples`, in an unspecified
   * order, and keeps one record per statistic when a listener is present.
   */
  method RecordAll(stats: set<Statistic>, dsamples: array<int>, h: Header,
                   evaluate: (Statistic, seq<int>) -> int, withListener: bool)
    returns (records: seq<AggregatedData>)
    ensures withListener ==> Covers(records, stats, h, evaluate, dsamples[..])
    ensures !withListener ==> records == []
  {
    records := [];
    var todo := stats;
    while todo != {}
      invariant todo <= stats
      invariant withListener ==> Covers(records, stats - todo, h, evaluate, dsamples[..])
      invariant !withListener ==> records == []
      decreases todo
    {
      var stat :| stat in todo;
      var value := evaluate(stat, dsamples[..]);
      if withListener {
        AppendRecord(records, stats - todo, stat, h, value, evaluate, dsamples[..]);
        records := records + [Record(h, stat, value)];
      }
      todo := todo - {stat};
    }
    assert stats - todo == stats;
  }

  /** Appending the record of a statistic not yet covered extends the coverage by it. */
  lemma AppendRecord(records: seq<AggregatedData>, done: set<Statistic>, stat: Statistic, h: Header,
                     value: int, evaluate: (Statistic, seq<int>) -> int, input: seq<int>)
    requires Covers(records, done, h, evaluate, input)
    requires stat !in done && value == evaluate(stat, input)
    ensures Covers(records + [Record(h, stat, value)], done + {stat}, h, evaluate, input)
  {
  }
}
