# Stopwatch timer of htm.core

This project models `htm::Timer`, the stopwatch declared in
`src/htm/os/Timer.hpp` of the HTM Community Edition of NuPIC. A timer can be
started, stopped, read and reset. It keeps four fields:

- `prevElapsed_`, the time accumulated as of the last `stop()`, in nanoseconds;
- `start_`, the clock reading at the last `start()`;
- `nstarts_`, the number of `start()` calls;
- `started_`, whether the stopwatch is running.

Everything is in one module, `Stopwatch` (`stopwatch.dfy`):

- `Snapshot` holds the four fields as a value. `StartAt`, `StopAt`, `ResetAt`
  and `Elapsed` say what each call does to it, and `Create` gives the state
  after the constructor.
- `Event` and `Run` describe a sequence of timestamped calls on one timer.
  `Readings` lists the values that the `getElapsed()` calls of a run return.
- `Timer` is a class with the four fields. Its methods update them in place,
  and each method's contract ties the new state to the matching function on
  `Snapshot`. The `const` getters are functions that only read the object,
  so reading never changes the state.

The system clock (`std::chrono::high_resolution_clock`) is replaced by an
explicit clock reading `now`, in nanoseconds, passed to the constructor and
to `Start`, `Stop` and `GetElapsed`. The clock is assumed monotone, which
`std::chrono::high_resolution_clock` does not guarantee (see "Left out"). A call
that reads the clock while the timer runs requires `start <= now`. A run of
calls requires its clock readings never to decrease.

The header holds only declarations and doc comments. The method bodies are
not part of this model, so each contract follows the doc comment and field
comment cited in the table. Two cases the header does not settle are decided
as follows:

- `stop()` on a stopped timer changes nothing.
- `start()` is only called on a stopped timer. See "Left out".

`reset()` sets the accumulated time to zero and leaves the other three fields
alone. In particular it does not change the start count.

## Model

| member | source | states |
|---|---|---|
| `Stopwatch.Timer.constructor` | src/htm/os/Timer.hpp:45-50 | `startme` defaults to false. The new timer runs exactly when `startme` holds. Its start count is 1 if started and 0 otherwise. It reads zero elapsed time at creation. |
| `Stopwatch.Timer.Start` | src/htm/os/Timer.hpp:52-55 | After `start()`, the timer runs and its start count has grown by one. The accumulated time is unchanged, and the reading at the moment of the call is unchanged. |
| `Stopwatch.Timer.Stop` | src/htm/os/Timer.hpp:57-60 | After `stop()`, the timer is stopped. The open interval `now - start` has been added to the accumulated time. The start count is unchanged, and the reading at the moment of the call is unchanged. |
| `Stopwatch.StartStopAccumulates` | src/htm/os/Timer.hpp:57-60 | A start at `t1` followed by a stop at `t2` adds exactly `t2 - t1` to the accumulated time and leaves the timer stopped. |
| `Stopwatch.CyclesAccumulate` | src/htm/os/Timer.hpp:57-60 | From a stopped timer, any sequence of non-overlapping start/stop cycles adds the sum of their lengths to the accumulated time. It adds one start per cycle and leaves the timer stopped. Later cycles add to earlier ones rather than replacing them. |
| `Stopwatch.StopTwice` | src/htm/os/Timer.hpp:57-60 | A second `stop()` with no `start()` in between leaves the state as the first one left it. |
| `Stopwatch.StartStopContinuous` | src/htm/os/Timer.hpp:52-60 | Starting a stopped timer, or stopping any timer, does not change the elapsed reading at the moment of the call. |
| `Stopwatch.Elapsed` | src/htm/os/Timer.hpp:62-67 | The reading is never below the accumulated time. On a stopped timer it equals the accumulated time. |
| `Stopwatch.Timer.GetElapsed` | src/htm/os/Timer.hpp:62-67 | If stopped, the total accumulated time. If started, the total plus the running interval `now - start`, without stopping the clock. It is a function that only reads the timer, so it changes none of the four fields. |
| `Stopwatch.ElapsedMonotoneInTime` | src/htm/os/Timer.hpp:62-67 | For a fixed state, the reading at a later clock value is at least the reading at an earlier one. |
| `Stopwatch.Timer.Reset` | src/htm/os/Timer.hpp:69-72 | After `reset()`, the accumulated time is zero, so a stopped timer reads zero at every clock value. The running flag, the start reading and the start count are unchanged. |
| `Stopwatch.ResetReadsZero` | src/htm/os/Timer.hpp:69-72 | After `reset()`, a stopped timer reads zero at every clock value. |
| `Stopwatch.Timer.GetStartCount` | src/htm/os/Timer.hpp:74-77 | Returns the start count `nstarts_`. `RunCountsStarts` shows it equals the number of `start()` calls. |
| `Stopwatch.RunCountsStarts` | src/htm/os/Timer.hpp:96 | After any run of calls, the start count equals the count before the run plus the number of `start()` calls in it. Stop, reset and reads never change it. |
| `Stopwatch.Timer.IsStarted` | src/htm/os/Timer.hpp:79-82 | Returns whether the stopwatch is running (`started_`). The `Start` and `Stop` contracts make it true after a start and false after a stop. |
| `Stopwatch.OnlyStopAccumulates` | src/htm/os/Timer.hpp:94 | A stop that closes an open interval adds exactly that interval to the accumulated time. Start, reads and a stop on a stopped timer leave the accumulated time unchanged. |
| `Stopwatch.AccumulatedNeverDecreases` | src/htm/os/Timer.hpp:94 | Between resets, the accumulated time never decreases over any run of calls, including a run that ends with the timer running. |
| `Stopwatch.ReadingsNeverDecrease` | src/htm/os/Timer.hpp:57-67 | With a monotone clock and no reset, the values returned by successive `getElapsed()` calls never decrease, across any interleaving of start, stop and reads. Each is at least the reading before the run, and so is the reading after the run. |
| `Stopwatch.TimeTwoCycles` | src/htm/os/Timer.hpp:35-38 | A client that times two cycles of `d1` and `d2` with a pause between them reads back `d1 + d2` and a start count of 2, using only the class contracts. |

## Left out

- Stopwatch.Timer.Start: requires a stopped timer. The header does not say what `start()` does to a running timer's open interval. Restarting the interval would make readings decrease, so that case is not modelled. The model therefore also says nothing about the start count or the running flag after `start()` on a running timer, although the field comment on `nstarts_` counts every call.
- Stopwatch.Timer.GetElapsed: returns integer nanoseconds rather than `Real64` seconds. The division by `TO_SECONDS` is floating-point arithmetic and is not modelled.
- Stopwatch.Timer.Stop: the header does not say what `stop()` does on a stopped timer. The model makes it a no-op.
- Stopwatch.Timer.Reset: the header says "Reset the stopwatch, setting accumulated time to zero". That could also mean a return to the constructed state (stopped, start count zero). The model does not take that reading: it clears only the accumulated time and leaves the other fields unchanged, so a timer reset while running still counts its open interval from the last start.
- The fields are unbounded naturals. The 64-bit wrap-around of `UInt64` (after about 584 years of nanoseconds, or 2^64 starts) is not modelled.
- The system clock (`my_clock`, `start_time_`) is I/O. It is replaced by the `now` argument.
- A clock that steps backwards is not modelled. `high_resolution_clock` need not be steady; if it steps back, `now - start` is negative and wraps the `UInt64` fields. `ClockOk` (`start <= now` while running) rules that case out.
- `getSpeed()` and the process-wide `SPEED` cache are not modelled. They run a floating-point benchmark against the real clock, and no implementation is declared in the header.
- `toString()` is not modelled, because its format is not specified.
- The Python binding (`bindings/py/cpp_src/bindings/algorithms/py_CategoryEncoder.cpp`) only registers a class with pybind11. It has no logic to model.
