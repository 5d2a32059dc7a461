/**
 * The earlier Node.js metrics client. It records the same metrics as the
 * current client, with two differences: a counter keeps its newest sample
 * first, and every guarded operation throws when the object is not open
 * instead of emitting an "error" event, so a refused call changes nothing.
 *
 * A thrown error is a `Fail` outcome. Its timers behave exactly like the
 * current client's and reuse that model.
 */
module TsdClientLegacy {
  import opened Wrappers
  import opened TsdClient

  /** `s` with `value` added to its first element and every other element as it was. */
  function AddToFirst(s: seq<int>, value: int): (r: seq<int>)
    requires s != []
    ensures |r| == |s| && r[0] == s[0] + value && r[1..] == s[1..]
  {
    [s[0] + value] + s[1..]
  }

  /** The samples of one counter, newest first; the first one is the current sample. */
  class CounterSamples {
    var samples: seq<int>

    ghost predicate Valid()
      reads this
    {
      samples != []
    }

    /** A counter with one sample of zero. */
    constructor ()
      ensures Valid()
      ensures samples == [0]
    {
      samples := [];
      new;
      Reset();
    }

    /** Puts a new sample of zero in front, which becomes the current one. */
    method Reset()
      modifies this
      ensures Valid()
      ensures samples == [0] + old(samples)
    {
      samples := [0] + samples;
    }

    /** Adds `value` to the current sample only. */
    method Increment(value: int)
      requires Valid()
      modifies this
      ensures Valid()
      ensures samples == AddToFirst(old(samples), value)
    {
      samples := samples[0 := samples[0] + value];
    }
  }

  /** `s` in the opposite order. */
  function Reversed(s: seq<int>): (r: seq<int>)
    ensures |r| == |s|
    ensures forall i :: 0 <= i < |s| ==> r[i] == s[|s| - 1 - i]
  {
    if s == [] then [] else Reversed(s[1..]) + [s[0]]
  }

  /** Reversal turns a new last sample into a new first sample. */
  lemma ReversedAppend(s: seq<int>, x: int)
    ensures Reversed(s + [x]) == [x] + Reversed(s)
  {
  }

  /**
   * Adding to the current sample commutes with the order the two clients keep:
   * the newest-last layout of the current client, reversed, is this client's.
   */
  lemma ReversedAddToLast(s: seq<int>, value: int)
    requires s != []
    ensures Reversed(AddToLast(s, value)) == AddToFirst(Reversed(s), value)
  {
  }

  /** A counter operation either client performs. */
  datatype CounterOp = Increment(value: int) | Reset

  /** The samples of a counter after `ops`, in the current client's newest-last layout. */
  function NewestLast(ops: seq<CounterOp>): (s: seq<int>)
    ensures s != []
  {
    if ops == [] then [0]
    else
      var s := NewestLast(ops[..|ops| - 1]);
      match ops[|ops| - 1]
      case Increment(v) => AddToLast(s, v)
      case Reset => s + [0]
  }

  /** The samples of a counter after `ops`, in this client's newest-first layout. */
  function NewestFirst(ops: seq<CounterOp>): (s: seq<int>)
    ensures s != []
  {
    if ops == [] then [0]
    else
      var s := NewestFirst(ops[..|ops| - 1]);
      match ops[|ops| - 1]
      case Increment(v) => AddToFirst(s, v)
      case Reset => [0] + s
  }

  /** Both clients record the same samples for the same operations, in opposite orders. */
  lemma {:induction false} LayoutsAgree(ops: seq<CounterOp>)
    ensures NewestFirst(ops) == Reversed(NewestLast(ops))
  {
    if ops != [] {
      var init := ops[..|ops| - 1];
      LayoutsAgree(init);
      match ops[|ops| - 1]
      case Increment(v) => ReversedAddToLast(NewestLast(init), v);
      case Reset => ReversedAppend(NewestLast(init), 0);
    }
  }

  /** The outcome of a guarded operation: refused when the object is not open. */
  function OpenCheck(isOpen: bool): (r: Outcome<ClientError>)
    ensures r.Pass? <==> isOpen
    ensures r.Fail? ==> r.error == NotOpen
  {
    if isOpen then Pass else Fail(NotOpen)
  }

  /** The metrics of one unit of work, published when the object is closed. */
  class TsdMetrics {
    const version: string := "2c"
    var isOpen: bool
    var annotations: map<string, string>
    /** The samples of every counter, newest first; the first one is the current sample. */
    var counters: map<string, seq<int>>
    var gauges: map<string, seq<int>>
    var timers: map<string, TimerView>

    /** Every counter has a current sample. */
    ghost predicate Valid()
      reads this
    {
      forall n :: n in counters ==> counters[n] != []
    }

    /** An open, empty metrics object annotated with its creation time. */
    constructor (initTimestamp: string)
      ensures Valid()
      ensures isOpen
      ensures annotations == map["initTimestamp" := initTimestamp]
      ensures counters == map[] && gauges == map[] && timers == map[]
    {
      isOpen := true;
      annotations, counters, gauges, timers := map[], map[], map[], map[];
      new;
      var _ := Annotate("initTimestamp", initTimestamp);
    }

    /** Throws unless the object is open. */
    method AssertIsOpen() returns (r: Outcome<ClientError>)
      ensures r == OpenCheck(isOpen)
    {
      if !isOpen {
        return Fail(NotOpen);
      }
      return Pass;
    }

    /** Adds `value` to the current sample of counter `name`, creating the counter first. */
    method IncrementCounter(name: string, value: int := 1) returns (r: Outcome<ClientError>)
      requires Valid()
      modifies this`counters
      ensures Valid()
      ensures r == OpenCheck(isOpen)
      ensures counters ==
        if isOpen then old(counters)[name := AddToFirst(CounterOrNew(old(counters), name), value)]
        else old(counters)
    {
      r := AssertIsOpen();
      if r.Fail? {
        return;
      }
      if name !in counters {
        counters := counters[name := [0]];
      }
      counters := counters[name := AddToFirst(counters[name], value)];
    }

    /** Subtracts `value` from counter `name`: an increment by `-value`. */
    method DecrementCounter(name: string, value: int := 1) returns (r: Outcome<ClientError>)
      requires Valid()
      modifies this`counters
      ensures Valid()
      ensures r == OpenCheck(isOpen)
      ensures counters ==
        if isOpen then old(counters)[name := AddToFirst(CounterOrNew(old(counters), name), -value)]
        else old(counters)
    {
      r := IncrementCounter(name, -value);
    }

    /** Puts a new zero sample in front of counter `name`, or creates the counter with one. */
    method ResetCounter(name: string) returns (r: Outcome<ClientError>)
      requires Valid()
      modifies this`counters
      ensures Valid()
      ensures r == OpenCheck(isOpen)
      ensures counters ==
        if !isOpen then old(counters)
        else if name in old(counters) then old(counters)[name := [0] + old(counters)[name]]
        else old(counters)[name := [0]]
    {
      r := AssertIsOpen();
      if r.Fail? {
        return;
      }
      if name !in counters {
        counters := counters[name := [0]];
      } else {
        counters := counters[name := [0] + counters[name]];
      }
    }

    /** Starts a measurement of timer `name` at `now`, creating the timer first. */
    method StartTimer(name: string, now: int) returns (r: Outcome<ClientError>)
      modifies this`timers
      ensures r == OpenCheck(isOpen)
      ensures timers ==
        if !isOpen then old(timers)
        else old(timers)[name := TimerView(TimerOrNew(old(timers), name).durations, Some(now))]
    {
      r := AssertIsOpen();
      if r.Fail? {
        return;
      }
      if name !in timers {
        timers := timers[name := TimerView([], None)];
      }
      timers := timers[name := TimerView(timers[name].durations, Some(now))];
    }

    /** Ends the running measurement of timer `name` at `now`; throws for an unknown timer. */
    method StopTimer(name: string, now: int) returns (r: Outcome<ClientError>)
      modifies this`timers
      ensures r.Pass? <==> isOpen && name in old(timers)
      ensures !isOpen ==> r == Fail(NotOpen)
      ensures isOpen && name !in old(timers) ==> r == Fail(TimerMissing)
      ensures timers == if r.Pass? then old(timers)[name := Stopped(old(timers)[name], now)] else old(timers)
    {
      r := AssertIsOpen();
      if r.Fail? {
        return;
      }
      if name !in timers {
        return Fail(TimerMissing);
      }
      timers := timers[name := Stopped(timers[name], now)];
    }

    /** Records `durationMilliseconds` as a duration of timer `name`, creating the timer first. */
    method SetTimer(name: string, durationMilliseconds: int) returns (r: Outcome<ClientError>)
      modifies this`timers
      ensures r == OpenCheck(isOpen)
      ensures timers ==
        if !isOpen then old(timers)
        else old(timers)[name :=
          var t := TimerOrNew(old(timers), name);
          TimerView(t.durations + [durationMilliseconds], t.startTime)]
    {
      r := AssertIsOpen();
      if r.Fail? {
        return;
      }
      if name !in timers {
        timers := timers[name := TimerView([], None)];
      }
      var t := timers[name];
      timers := timers[name := TimerView(t.durations + [durationMilliseconds], t.startTime)];
    }

    /** Appends a reading to gauge `name`, creating the gauge first. */
    method SetGauge(name: string, value: int) returns (r: Outcome<ClientError>)
      modifies this`gauges
      ensures r == OpenCheck(isOpen)
      ensures gauges ==
        if !isOpen then old(gauges)
        else old(gauges)[name := (if name in old(gauges) then old(gauges)[name] else []) + [value]]
    {
      r := AssertIsOpen();
      if r.Fail? {
        return;
      }
      if name !in gauges {
        gauges := gauges[name := []];
      }
      gauges := gauges[name := gauges[name] + [value]];
    }

    /** Sets annotation `key` to `value`, replacing any earlier value. */
    method Annotate(key: string, value: string) returns (r: Outcome<ClientError>)
      modifies this`annotations
      ensures r == OpenCheck(isOpen)
      ensures annotations == if !isOpen then old(annotations) else old(annotations)[key := value]
    {
      r := AssertIsOpen();
      if r.Fail? {
        return;
      }
      annotations := annotations[key := value];
    }

    /**
     * Closes the object: annotates the final timestamp, stops every timer at
     * `now` and marks the object closed. Closing a closed object throws and
     * changes nothing.
     */
    method Close(finalTimestamp: string, now: int) returns (r: Outcome<ClientError>)
      modifies this`isOpen, this`annotations, this`timers
      ensures r == OpenCheck(old(isOpen))
      ensures !isOpen
      ensures annotations ==
        if old(isOpen) then old(annotations)["finalTimestamp" := finalTimestamp] else old(annotations)
      ensures timers == if old(isOpen) then StopAll(old(timers), now) else old(timers)
    {
      r := AssertIsOpen();
      if r.Fail? {
        return;
      }
      var _ := Annotate("finalTimestamp", finalTimestamp);
      var todo := timers.Keys;
      ghost var before := timers;
      while todo != {}
        invariant todo <= timers.Keys == before.Keys
        invariant forall n :: n in before ==> timers[n] == if n in todo then before[n] else Stopped(before[n], now)
        invariant isOpen && annotations == old(annotations)["finalTimestamp" := finalTimestamp]
        decreases todo
      {
        var n :| n in todo;
        timers := timers[n := Stopped(timers[n], now)];
        todo := todo - {n};
      }
      isOpen := false;
    }
  }
}
