/**
 * The Node.js metrics client: a `TsdMetrics` object collects counters, gauges,
 * timers and annotations for one unit of work while it is open; once closed,
 * the guarded operations only raise an "error" event.
 *
 * The TypeScript class and its compiled JavaScript form behave identically and
 * share this model. Clock readings (`Date.now()`) are method parameters, and the
 * rendered timestamp annotations are string parameters.
 */
module TsdClient {
  import opened Wrappers

  /** The "error" events a metrics object emits. */
  datatype ClientError = NotOpen | TimerMissing

  /** What `stopTimer` throws when it calls `stop` on a timer that does not exist. */
  datatype Thrown = TypeError

  /** The samples of one counter; the last one is the current sample. */
  class CounterSamples {
    var samples: seq<int>
    var lastIndex: int

    ghost predicate Valid()
      reads this
    {
      0 <= lastIndex == |samples| - 1
    }

    /** A counter with one sample of zero. */
    constructor ()
      ensures Valid()
      ensures samples == [0]
    {
      samples := [];
      lastIndex := 0;
      new;
      Reset();
    }

    /** Starts a new sample of zero, which becomes the current one. */
    method Reset()
      modifies this
      ensures Valid()
      ensures samples == old(samples) + [0]
    {
      samples := samples + [0];
      var length := |samples|;
      lastIndex := length - 1;
    }

    /** Adds `value` to the current sample only. */
    method Increment(value: int)
      requires Valid()
      modifies this
      ensures Valid()
      ensures samples == AddToLast(old(samples), value)
    {
      samples := samples[lastIndex := samples[lastIndex] + value];
    }
  }

  /** `s` with `value` added to its last element and every other element as it was. */
  function AddToLast(s: seq<int>, value: int): (r: seq<int>)
    requires s != []
    ensures |r| == |s| && r[..|s| - 1] == s[..|s| - 1] && r[|s| - 1] == s[|s| - 1] + value
  {
    s[|s| - 1 := s[|s| - 1] + value]
  }

  /** The observable state of a timer: its recorded durations and a pending start, if any. */
  datatype TimerView = TimerView(durations: seq<int>, startTime: Option<int>)

  /** The timer after `stop` at `now`: a pending start becomes a duration, and no start is pending. */
  function Stopped(t: TimerView, now: int): (u: TimerView)
    ensures u.startTime.None?
    ensures t.startTime.None? ==> u.durations == t.durations
    ensures t.startTime.Some? ==> u.durations == t.durations + [now - t.startTime.value]
  {
    match t.startTime
    case None => TimerView(t.durations, None)
    case Some(start) => TimerView(t.durations + [now - start], None)
  }

  /** Stopping every timer of `timers` at `now`. */
  function StopAll(timers: map<string, TimerView>, now: int): (m: map<string, TimerView>)
    ensures m.Keys == timers.Keys
    ensures forall n :: n in m ==> m[n] == Stopped(timers[n], now)
  {
    map n | n in timers :: Stopped(timers[n], now)
  }

  /** Stopping is idempotent: a stopped timer has nothing pending, so a later stop adds nothing. */
  lemma StopAllIdempotent(timers: map<string, TimerView>, now: int, later: int)
    ensures StopAll(StopAll(timers, now), later) == StopAll(timers, now)
  {
  }

  /** A decrement by `value` undoes an increment by `value`. */
  lemma IncrementDecrementCancel(s: seq<int>, value: int)
    requires s != []
    ensures AddToLast(AddToLast(s, value), -value) == s
  {
  }

  /** The sum of the samples of a counter. */
  function Total(s: seq<int>): (sum: int)
  {
    if s == [] then 0 else s[0] + Total(s[1..])
  }

  /** An increment by `value` raises a counter's total by `value`. */
  lemma {:induction false} AddToLastTotal(s: seq<int>, value: int)
    requires s != []
    ensures Total(AddToLast(s, value)) == Total(s) + value
  {
    if |s| > 1 {
      var r := AddToLast(s, value);
      assert r[1..] == AddToLast(s[1..], value);
      AddToLastTotal(s[1..], value);
    }
  }

  /** The durations of one timer and the start of its running measurement. */
  class TimerSamples {
    var durations: seq<int>
    var startTime: Option<int>

    function View(): (v: TimerView)
      reads this
    {
      TimerView(durations, startTime)
    }

    constructor ()
      ensures View() == TimerView([], None)
    {
      durations := [];
      startTime := None;
    }

    /** Records an explicit duration. */
    method AddDuration(duration: int)
      modifies this
      ensures View() == TimerView(old(durations) + [duration], old(startTime))
    {
      durations := durations + [duration];
    }

    /** Starts a measurement at `now`, replacing any pending one. */
    method Start(now: int)
      modifies this
      ensures View() == TimerView(old(durations), Some(now))
    {
      startTime := Some(now);
    }

    /** Ends the pending measurement, if any, at `now`. */
    method Stop(now: int)
      modifies this
      ensures View() == Stopped(old(View()), now)
    {
      if startTime.Some? {
        AddDuration(now - startTime.value);
      }
      startTime := None;
    }
  }

  /** A value built by `factory` on first use and cached while it is defined. */
  class Lazy<T> {
    const factory: () -> Option<T>
    var value: Option<T>
    /** How many times `factory` has been called. */
    ghost var factoryCalls: nat

    constructor (factory: () -> Option<T>)
      ensures this.factory == factory && value == None && factoryCalls == 0
    {
      this.factory := factory;
      value := None;
      factoryCalls := 0;
    }

    /** The cached value, calling the factory only when none is cached. */
    method GetValue() returns (v: Option<T>)
      modifies this
      ensures old(value).Some? ==> v == old(value) && factoryCalls == old(factoryCalls)
      ensures old(value).None? ==> v == factory() && factoryCalls == old(factoryCalls) + 1
      ensures value == v
    {
      if value.None? {
        value := factory();
        factoryCalls := factoryCalls + 1;
      }
      v := value;
    }
  }

  /** The "error" events a guarded operation emits: one when the object is closed. */
  function ClosedErrors(isOpen: bool): (e: seq<ClientError>)
    ensures isOpen <==> e == []
  {
    if isOpen then [] else [NotOpen]
  }

  /** The samples of counter `name` in `counters`, or a fresh counter's if there is none. */
  function CounterOrNew(counters: map<string, seq<int>>, name: string): (samples: seq<int>)
  {
    if name in counters then counters[name] else [0]
  }

  /** The durations of timer `name`, or none for a timer that does not exist yet. */
  function TimerOrNew(timers: map<string, TimerView>, name: string): (timer: TimerView)
  {
    if name in timers then timers[name] else TimerView([], None)
  }

  /** The metrics of one unit of work, published when the object is closed. */
  class TsdMetrics {
    const version: string := "2c"
    var isOpen: bool
    var annotations: map<string, string>
    /** The samples of every counter, oldest first; the last one is the current sample. */
    var counters: map<string, seq<int>>
    var gauges: map<string, seq<int>>
    var timers: map<string, TimerView>
    /** The "error" events emitted so far. */
    var errors: seq<ClientError>

    /** Every counter has a current sample. */
    ghost predicate Valid()
      reads this
    {
      forall n :: n in counters ==> counters[n] != []
    }

    /** An open, empty metrics object annotated with its creation time. */
    constructor (initTimestamp: string)
      ensures Valid()
      ensures isOpen && errors == []
      ensures annotations == map["initTimestamp" := initTimestamp]
      ensures counters == map[] && gauges == map[] && timers == map[]
    {
      isOpen := true;
      annotations, counters, gauges, timers := map[], map[], map[], map[];
      errors := [];
      new;
      Annotate("initTimestamp", initTimestamp);
    }

    /** Emits `error` unless `condition` holds; answers `condition`. */
    method Assert(condition: bool, error: ClientError) returns (ok: bool)
      modifies this`errors
      ensures ok == condition
      ensures errors == old(errors) + (if condition then [] else [error])
    {
      if !condition {
        errors := errors + [error];
        return false;
      }
      return true;
    }

    method AssertIsOpen() returns (ok: bool)
      modifies this`errors
      ensures ok == isOpen
      ensures errors == old(errors) + ClosedErrors(isOpen)
    {
      ok := Assert(isOpen, NotOpen);
    }

    /**
     * Adds `value` to the current sample of counter `name`, creating the counter
     * first. The open check only emits an error: a closed object is still updated.
     */
    method IncrementCounter(name: string, value: int := 1)
      requires Valid()
      modifies this`counters, this`errors
      ensures Valid()
      ensures errors == old(errors) + ClosedErrors(isOpen)
      ensures counters == old(counters)[name := AddToLast(CounterOrNew(old(counters), name), value)]
    {
      var _ := AssertIsOpen();
      if name !in counters {
        counters := counters[name := [0]];
      }
      counters := counters[name := AddToLast(counters[name], value)];
    }

    /** Subtracts `value` from counter `name`: an increment by `-value`. */
    method DecrementCounter(name: string, value: int := 1)
      requires Valid()
      modifies this`counters, this`errors
      ensures Valid()
      ensures errors == old(errors) + ClosedErrors(isOpen)
      ensures counters == old(counters)[name := AddToLast(CounterOrNew(old(counters), name), -value)]
    {
      IncrementCounter(name, -value);
    }

    /** Starts a new zero sample of counter `name`, or creates the counter with one. */
    method ResetCounter(name: string)
      requires Valid()
      modifies this`counters, this`errors
      ensures Valid()
      ensures errors == old(errors) + ClosedErrors(isOpen)
      ensures counters ==
        if !isOpen then old(counters)
        else if name in old(counters) then old(counters)[name := old(counters)[name] + [0]]
        else old(counters)[name := [0]]
    {
      var open := AssertIsOpen();
      if open {
        if name !in counters {
          counters := counters[name := [0]];
        } else {
          counters := counters[name := counters[name] + [0]];
        }
      }
    }

    /** Starts a measurement of timer `name` at `now`, creating the timer first. */
    method StartTimer(name: string, now: int)
      modifies this`timers, this`errors
      ensures errors == old(errors) + ClosedErrors(isOpen)
      ensures timers ==
        if !isOpen then old(timers)
        else old(timers)[name := TimerView(TimerOrNew(old(timers), name).durations, Some(now))]
    {
      var open := AssertIsOpen();
      if open {
        if name !in timers {
          timers := timers[name := TimerView([], None)];
        }
        timers := timers[name := TimerView(timers[name].durations, Some(now))];
      }
    }

    /**
     * Ends the running measurement of timer `name` at `now`. For a timer that
     * was never created it emits an error and then throws, because it calls
     * `stop` on an undefined timer.
     */
    method StopTimer(name: string, now: int) returns (r: Outcome<Thrown>)
      modifies this`timers, this`errors
      ensures r.Fail? <==> isOpen && name !in old(timers)
      ensures errors == old(errors) + ClosedErrors(isOpen)
                        + (if isOpen && name !in old(timers) then [TimerMissing] else [])
      ensures timers ==
        if isOpen && name in old(timers) then old(timers)[name := Stopped(old(timers)[name], now)]
        else old(timers)
    {
      r := Pass;
      var open := AssertIsOpen();
      if open {
        var _ := Assert(name in timers, TimerMissing);
        if name !in timers {
          return Fail(TypeError);
        }
        timers := timers[name := Stopped(timers[name], now)];
      }
    }

    /** Records `durationMilliseconds` as a duration of timer `name`, creating the timer first. */
    method SetTimer(name: string, durationMilliseconds: int)
      modifies this`timers, this`errors
      ensures errors == old(errors) + ClosedErrors(isOpen)
      ensures timers ==
        if !isOpen then old(timers)
        else old(timers)[name :=
          var t := TimerOrNew(old(timers), name);
          TimerView(t.durations + [durationMilliseconds], t.startTime)]
    {
      var open := AssertIsOpen();
      if open {
        if name !in timers {
          timers := timers[name := TimerView([], None)];
        }
        var t := timers[name];
        timers := timers[name := TimerView(t.durations + [durationMilliseconds], t.startTime)];
      }
    }

    /** Appends a reading to gauge `name`, creating the gauge first. */
    method SetGauge(name: string, value: int)
      modifies this`gauges, this`errors
      ensures errors == old(errors) + ClosedErrors(isOpen)
      ensures gauges ==
        if !isOpen then old(gauges)
        else old(gauges)[name := (if name in old(gauges) then old(gauges)[name] else []) + [value]]
    {
      var open := AssertIsOpen();
      if open {
        if name !in gauges {
          gauges := gauges[name := []];
        }
        gauges := gauges[name := gauges[name] + [value]];
      }
    }

    /** Sets annotation `key` to `value`, replacing any earlier value. */
    method Annotate(key: string, value: string)
      modifies this`annotations, this`errors
      ensures errors == old(errors) + ClosedErrors(isOpen)
      ensures annotations == if !isOpen then old(annotations) else old(annotations)[key := value]
    {
      var open := AssertIsOpen();
      if open {
        annotations := annotations[key := value];
      }
    }

    /**
     * Closes the object: annotates the final timestamp, stops every timer at
     * `now` and marks the object closed. Closing a closed object only emits an
     * error.
     */
    method Close(finalTimestamp: string, now: int)
      modifies this`isOpen, this`annotations, this`timers, this`errors
      ensures !isOpen
      ensures errors == old(errors) + ClosedErrors(old(isOpen))
      ensures annotations ==
        if old(isOpen) then old(annotations)["finalTimestamp" := finalTimestamp] else old(annotations)
      ensures timers == if old(isOpen) then StopAll(old(timers), now) else old(timers)
    {
      var open := AssertIsOpen();
      if open {
        Annotate("finalTimestamp", finalTimestamp);
        StopEveryTimer(now);
        isOpen := false;
      }
    }

    /** Stops every timer at `now`, one at a time in an unspecified order. */
    method StopEveryTimer(now: int)
      modifies this`timers
      ensures timers == StopAll(old(timers), now)
    {
      ghost var before := timers;
      var todo := timers.Keys;
      while todo != {}
        invariant todo <= timers.Keys == before.Keys
        invariant forall n :: n in before ==> timers[n] == if n in todo then before[n] else Stopped(before[n], now)
        decreases todo
      {
        var n :| n in todo;
        timers := timers[n := Stopped(timers[n], now)];
        todo := todo - {n};
      }
    }
  }
}
