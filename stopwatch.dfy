/** A model of the `htm::Timer` stopwatch (src/htm/os/Timer.hpp).
  *
  * The system clock is replaced by an explicit timestamp `now`, in
  * nanoseconds, passed to every operation that reads the clock. Elapsed time
  * is reported in integer nanoseconds. The first half of the module states
  * the stopwatch as a value (`Snapshot`) and its operations as functions;
  * the second half proves properties of runs of operations; the class
  * `Timer` at the end holds the four fields and updates them in place, each
  * method tied to the function that specifies it.
  */
module Stopwatch {

  // ---------------------------------------------------------------------
  // The stopwatch state as a value
  // ---------------------------------------------------------------------

  /** The four fields of a timer: time accumulated as of the last stop,
    * the timestamp of the last start, the number of starts, and whether
    * the stopwatch is running. */
  datatype Snapshot = Snapshot(prevElapsed: nat, start: nat, nstarts: nat, started: bool)

  /** A clock reading `now` is admissible for `s` when it does not precede
    * the start of the interval that is open in `s` (a monotone clock). */
  predicate ClockOk(s: Snapshot, now: nat)
  {
    s.started ==> s.start <= now
  }

  /** The state of a freshly constructed timer, started at `now` when
    * `startme` holds. */
  function Create(startme: bool, now: nat): Snapshot
  {
    var zero := Snapshot(0, 0, 0, false);
    if startme then StartAt(zero, now) else zero
  }

  /** `start()` at time `now`, on a stopped timer. */
  function StartAt(s: Snapshot, now: nat): Snapshot
    requires !s.started
  {
    s.(start := now, nstarts := s.nstarts + 1, started := true)
  }

  /** `stop()` at time `now`: the open interval is added to the accumulated
    * time; stopping a stopped timer changes nothing. */
  function StopAt(s: Snapshot, now: nat): Snapshot
    requires ClockOk(s, now)
  {
    if s.started then s.(prevElapsed := s.prevElapsed + (now - s.start), started := false)
    else s
  }

  /** `reset()`: the accumulated time becomes zero. */
  function ResetAt(s: Snapshot): Snapshot
  {
    s.(prevElapsed := 0)
  }

  /** `getElapsed()` at time `now`, in nanoseconds: the accumulated time,
    * plus the open interval while the stopwatch runs. */
  function Elapsed(s: Snapshot, now: nat): (r: nat)
    requires ClockOk(s, now)
    ensures s.prevElapsed <= r
    ensures !s.started ==> r == s.prevElapsed
  {
    if s.started then s.prevElapsed + (now - s.start) else s.prevElapsed
  }

  // ---------------------------------------------------------------------
  // Single operations
  // ---------------------------------------------------------------------

  /** Starting and stopping do not jump the reading: at the moment of the
    * call the elapsed time is the same before and after. */
  lemma StartStopContinuous(s: Snapshot, now: nat)
    requires ClockOk(s, now)
    ensures !s.started ==> ClockOk(StartAt(s, now), now) && Elapsed(StartAt(s, now), now) == Elapsed(s, now)
    ensures Elapsed(StopAt(s, now), now) == Elapsed(s, now)
  {
  }

  /** Once the clock has advanced from `t0` to `t1`, the reading of a given
    * state has not decreased. */
  lemma ElapsedMonotoneInTime(s: Snapshot, t0: nat, t1: nat)
    requires ClockOk(s, t0) && t0 <= t1
    ensures ClockOk(s, t1) && Elapsed(s, t0) <= Elapsed(s, t1)
  {
  }

  /** After `start()` at `t1` and `stop()` at `t2`, the accumulated time has
    * grown by exactly `t2 - t1`, and the timer is stopped again. */
  lemma StartStopAccumulates(s: Snapshot, t1: nat, t2: nat)
    requires !s.started && t1 <= t2
    ensures ClockOk(StartAt(s, t1), t2)
    ensures StopAt(StartAt(s, t1), t2).prevElapsed == s.prevElapsed + (t2 - t1)
    ensures !StopAt(StartAt(s, t1), t2).started
  {
  }

  /** A second `stop()` with no `start()` in between changes nothing. */
  lemma StopTwice(s: Snapshot, t1: nat, t2: nat)
    requires ClockOk(s, t1)
    ensures ClockOk(StopAt(s, t1), t2) && StopAt(StopAt(s, t1), t2) == StopAt(s, t1)
  {
  }

  /** After `reset()`, a stopped timer reads zero. */
  lemma ResetReadsZero(s: Snapshot, now: nat)
    requires !s.started
    ensures ClockOk(ResetAt(s), now) && Elapsed(ResetAt(s), now) == 0
  {
  }

  // ---------------------------------------------------------------------
  // Runs: sequences of timestamped calls on one timer
  // ---------------------------------------------------------------------

  /** The calls a client makes on a timer; `Read` is `getElapsed()`. */
  datatype Op = Start | Stop | Reset | Read

  /** A call made at clock reading `now`. */
  datatype Event = Event(op: Op, now: nat)

  /** Event `e` may be applied to `s`: its clock reading suits `s`, and a
    * start is only made on a stopped timer. */
  predicate Enabled(s: Snapshot, e: Event)
  {
    ClockOk(s, e.now) && (e.op == Start ==> !s.started)
  }

  /** The state after event `e`. A read leaves the state as it is. */
  function Step(s: Snapshot, e: Event): Snapshot
    requires Enabled(s, e)
  {
    match e.op
    case Start => StartAt(s, e.now)
    case Stop => StopAt(s, e.now)
    case Reset => ResetAt(s)
    case Read => s
  }

  /** `evs`, applied from `s` with the clock at `t`, reads a clock that
    * never runs backwards and makes every call in a state that allows it. */
  predicate Admissible(s: Snapshot, t: nat, evs: seq<Event>)
    decreases |evs|
  {
    evs == [] ||
    (t <= evs[0].now && Enabled(s, evs[0]) && Admissible(Step(s, evs[0]), evs[0].now, evs[1..]))
  }

  /** The state reached by applying `evs` to `s`. */
  function Run(s: Snapshot, t: nat, evs: seq<Event>): Snapshot
    requires Admissible(s, t, evs)
    decreases |evs|
  {
    if evs == [] then s else Run(Step(s, evs[0]), evs[0].now, evs[1..])
  }

  /** The clock reading at the end of `evs`, started at `t`. */
  function LastTime(t: nat, evs: seq<Event>): nat
  {
    if evs == [] then t else evs[|evs| - 1].now
  }

  /** The values that the `Read` events of `evs` return, in order. */
  function Readings(s: Snapshot, t: nat, evs: seq<Event>): seq<nat>
    requires Admissible(s, t, evs)
    decreases |evs|
  {
    if evs == [] then []
    else
      var rest := Readings(Step(s, evs[0]), evs[0].now, evs[1..]);
      if evs[0].op == Read then [Elapsed(s, evs[0].now)] + rest else rest
  }

  /** The number of `Start` events in `evs`. */
  function CountStarts(evs: seq<Event>): nat
  {
    if evs == [] then 0 else (if evs[0].op == Start then 1 else 0) + CountStarts(evs[1..])
  }

  /** No `Reset` event occurs in `evs`. */
  predicate NoReset(evs: seq<Event>)
  {
    forall i :: 0 <= i < |evs| ==> evs[i].op != Reset
  }

  /** A run without resets has a tail without resets. */
  lemma NoResetTail(evs: seq<Event>)
    requires evs != [] && NoReset(evs)
    ensures NoReset(evs[1..])
  {
    forall i | 0 <= i < |evs[1..]| ensures evs[1..][i].op != Reset {
      assert evs[1..][i] == evs[i + 1];
    }
  }

  predicate Nondecreasing(r: seq<nat>)
  {
    forall i, j :: 0 <= i <= j < |r| ==> r[i] <= r[j]
  }

  /** The start count after a run is the count before it plus the number of
    * `start()` calls in it: each start adds one, and stop, reset and reads
    * leave it alone. */
  lemma {:induction false} RunCountsStarts(s: Snapshot, t: nat, evs: seq<Event>)
    requires Admissible(s, t, evs)
    ensures Run(s, t, evs).nstarts == s.nstarts + CountStarts(evs)
    decreases |evs|
  {
    if evs != [] {
      RunCountsStarts(Step(s, evs[0]), evs[0].now, evs[1..]);
    }
  }

  /** Only a stop that closes an open interval changes the accumulated
    * time, and then it grows by that interval; start, reads and a stop on a
    * stopped timer leave it as it is. */
  lemma OnlyStopAccumulates(s: Snapshot, e: Event)
    requires Enabled(s, e) && e.op != Reset
    ensures e.op == Stop && s.started ==> Step(s, e).prevElapsed == s.prevElapsed + (e.now - s.start)
    ensures !(e.op == Stop && s.started) ==> Step(s, e).prevElapsed == s.prevElapsed
  {
  }

  /** Between resets, the accumulated time never decreases, whatever the
    * run of calls and whether or not the timer is still running at its
    * end. */
  lemma {:induction false} AccumulatedNeverDecreases(s: Snapshot, t: nat, evs: seq<Event>)
    requires Admissible(s, t, evs) && NoReset(evs)
    ensures s.prevElapsed <= Run(s, t, evs).prevElapsed
    decreases |evs|
  {
    if evs != [] {
      assert evs[0].op != Reset;
      OnlyStopAccumulates(s, evs[0]);
      NoResetTail(evs);
      AccumulatedNeverDecreases(Step(s, evs[0]), evs[0].now, evs[1..]);
    }
  }

  /** Between resets, with a monotone clock, time never goes backwards: the
    * values read during a run never decrease, none is below the reading
    * before the run, and the reading after the run is at least as large. */
  lemma {:induction false} ReadingsNeverDecrease(s: Snapshot, t: nat, evs: seq<Event>)
    requires ClockOk(s, t) && Admissible(s, t, evs) && NoReset(evs)
    ensures Nondecreasing(Readings(s, t, evs))
    ensures forall k :: 0 <= k < |Readings(s, t, evs)| ==> Elapsed(s, t) <= Readings(s, t, evs)[k]
    ensures ClockOk(Run(s, t, evs), LastTime(t, evs))
    ensures Elapsed(s, t) <= Elapsed(Run(s, t, evs), LastTime(t, evs))
    decreases |evs|
  {
    if evs != [] {
      var e, s' := evs[0], Step(s, evs[0]);
      assert e.op != Reset;
      ElapsedMonotoneInTime(s, t, e.now);
      StartStopContinuous(s, e.now);
      assert Elapsed(s', e.now) == Elapsed(s, e.now);
      NoResetTail(evs);
      ReadingsNeverDecrease(s', e.now, evs[1..]);
      assert LastTime(t, evs) == LastTime(e.now, evs[1..]);
    }
  }

  /** A start/stop cycle between clock readings `on` and `off`. */
  datatype Interval = Interval(on: nat, off: nat)

  /** The intervals follow one another in time, starting no earlier than `t`. */
  predicate Ordered(t: nat, ivs: seq<Interval>)
    decreases |ivs|
  {
    ivs == [] ||
    (t <= ivs[0].on <= ivs[0].off && Ordered(ivs[0].off, ivs[1..]))
  }

  /** The calls `start()` at `on`, `stop()` at `off`, for each interval. */
  function Cycles(ivs: seq<Interval>): (evs: seq<Event>)
    ensures |evs| == 2 * |ivs|
  {
    if ivs == [] then []
    else [Event(Start, ivs[0].on), Event(Stop, ivs[0].off)] + Cycles(ivs[1..])
  }

  /** The total length of the intervals. */
  function TotalLength(ivs: seq<Interval>): nat
    requires forall i :: 0 <= i < |ivs| ==> ivs[i].on <= ivs[i].off
  {
    if ivs == [] then 0 else ivs[0].off - ivs[0].on + TotalLength(ivs[1..])
  }

  /** Time accumulates across cycles: from a stopped timer, a run of
    * non-overlapping start/stop cycles adds the total length of the cycles
    * to the accumulated time and one start per cycle to the start count,
    * and leaves the timer stopped. */
  lemma {:induction false} CyclesAccumulate(s: Snapshot, t: nat, ivs: seq<Interval>)
    requires !s.started && Ordered(t, ivs)
    ensures forall i :: 0 <= i < |ivs| ==> ivs[i].on <= ivs[i].off
    ensures Admissible(s, t, Cycles(ivs))
    ensures Run(s, t, Cycles(ivs)).prevElapsed == s.prevElapsed + TotalLength(ivs)
    ensures Run(s, t, Cycles(ivs)).nstarts == s.nstarts + |ivs|
    ensures !Run(s, t, Cycles(ivs)).started
    decreases |ivs|
  {
    if ivs != [] {
      var iv := ivs[0];
      var s1 := StartAt(s, iv.on);
      var s2 := StopAt(s1, iv.off);
      CyclesAccumulate(s2, iv.off, ivs[1..]);
      var evs := Cycles(ivs);
      assert evs[0] == Event(Start, iv.on);
      assert evs[1..][0] == Event(Stop, iv.off);
      assert evs[1..][1..] == Cycles(ivs[1..]);
      forall i | 0 <= i < |ivs| ensures ivs[i].on <= ivs[i].off {
        if i > 0 { assert ivs[i] == ivs[1..][i - 1]; }
      }
    }
  }

  // ---------------------------------------------------------------------
  // The timer object
  // ---------------------------------------------------------------------

  /** A stopwatch: it can be started, stopped, read and reset. */
  class Timer {
    var prevElapsed: nat  // total time as of the last stop, in ns
    var start: nat        // clock reading at the last start, in ns
    var nstarts: nat      // number of starts
    var started: bool     // whether the stopwatch is running

    /** The fields as a value, for the functions above. */
    function State(): Snapshot
      reads this
    {
      Snapshot(prevElapsed, start, nstarts, started)
    }

    /** Creates a stopwatch, started at `now` when `startme` holds;
      * by default it is created stopped. */
    constructor (now: nat, startme: bool := false)
      ensures State() == Create(startme, now)
      ensures IsStarted() == startme
      ensures GetStartCount() == (if startme then 1 else 0)
      ensures GetElapsed(now) == 0
    {
      prevElapsed, start, nstarts, started := 0, 0, 0, false;
      new;
      if startme {
        Start(now);
      }
    }

    /** Starts the stopwatch at `now`. */
    method Start(now: nat)
      requires !started
      modifies this
      ensures State() == StartAt(old(State()), now)
      ensures IsStarted() && GetStartCount() == old(GetStartCount()) + 1
      ensures GetElapsed(now) == old(GetElapsed(now))
    {
      start := now;
      nstarts := nstarts + 1;
      started := true;
    }

    /** Stops the stopwatch at `now`; a later start accumulates onto the
      * time measured so far. */
    method Stop(now: nat)
      requires started ==> start <= now
      modifies this
      ensures State() == StopAt(old(State()), now)
      ensures !IsStarted() && GetStartCount() == old(GetStartCount())
      ensures GetElapsed(now) == old(GetElapsed(now))
    {
      if started {
        prevElapsed := prevElapsed + (now - start);
        started := false;
      }
    }

    /** The elapsed time at `now`, in ns: the total if stopped, the total
      * plus the running interval if started, without stopping the clock. */
    function GetElapsed(now: nat): (r: nat)
      reads this
      requires started ==> start <= now
      ensures !started ==> r == prevElapsed
      ensures started ==> r == prevElapsed + (now - start)
    {
      Elapsed(State(), now)
    }

    /** Sets the accumulated time to zero. */
    method Reset()
      modifies this
      ensures State() == ResetAt(old(State()))
      ensures prevElapsed == 0
      ensures !IsStarted() ==> forall now: nat :: GetElapsed(now) == 0
      ensures GetStartCount() == old(GetStartCount()) && IsStarted() == old(IsStarted())
    {
      prevElapsed := 0;
    }

    /** The number of times the stopwatch has been started. */
    function GetStartCount(): (r: nat)
      reads this
      ensures r == State().nstarts
    {
      nstarts
    }

    /** Whether the stopwatch is running. */
    function IsStarted(): (r: bool)
      reads this
      ensures r == State().started
    {
      started
    }
  }

  /** A client of the timer: two start/stop cycles of `d1` and `d2`
    * nanoseconds, with a pause of `gap` between them, read back afterwards.
    * The pause is not counted; the two cycles add up. */
  method TimeTwoCycles(t0: nat, d1: nat, gap: nat, d2: nat) returns (elapsed: nat, starts: nat)
    ensures elapsed == d1 + d2
    ensures starts == 2
  {
    var timer := new Timer(t0);
    timer.Start(t0);
    timer.Stop(t0 + d1);
    timer.Start(t0 + d1 + gap);
    timer.Stop(t0 + d1 + gap + d2);
    elapsed := timer.GetElapsed(t0 + d1 + gap + d2 + gap);
    starts := timer.GetStartCount();
  }
}
