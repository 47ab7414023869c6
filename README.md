# Frozen-lake performance tracker

A Dafny model of `FrozenLakePerformanceTracker`, the performance tracker for
the frozen-lake grid world. The driver experiments/main.cpp calls the maze and
graph trackers through the same `reset`/`track`/`print` interface
(experiments/main.cpp:131-164).
At the end of each episode, `track` looks at where the agent stopped:

- If the agent is within `tolerance` Manhattan steps of the exit, the episode
  counts toward the "global" tally (`perf[1]`).
- Otherwise it counts toward the "other" tally (`perf[0]`).
- The agent's score feeds a running count of falls into holes. When the agent
  stands on the exit, the exit reward of 10 is taken off the score first; the
  result is truncated to an integer and subtracted from the count.

`track` throws when the environment is not a frozen lake. It checks this
before writing any field. `reset` zeroes both tallies but not the hole count.

Layout:

- `wrappers.dfy`: `Result` and `Outcome`, which stand in for the thrown exception.
- `frozen_lake_env.dfy` (module `FrozenLakeEnv`): what the tracker reads from
  the environment, passed in as plain values. That is the environment kind,
  grid positions and the score. The module also holds the Manhattan distance
  and C++'s `(int)` cast, which truncates toward zero.
- `frozen_lake_performance_tracker.dfy` (module `FrozenLakeTracker`):
  - the tracker's state as a value (`TrackerState`);
  - the functions `InitialState`, `ResetState`, `TrackState` and `Replay`,
    which give its behaviour;
  - lemmas about those functions;
  - the class `FrozenLakePerformanceTracker`. It has the source's three
    fields, with `perf` as an `array<nat>` of length 2. Each of its methods
    is proved to act as the matching function on `State()`.

The environment's accessors `agentPosition()`, `exitPosition()` and
`agentScore()`, and its `type()`, are parameters of `Track`.

## Model

| member | source | states |
|---|---|---|
| FrozenLakeEnv.ManhattanDistance | srcs/trackers/FrozenLakePerformanceTracker.cpp:37 | the distance between agent and exit is 0 exactly when they are on the same cell, and is at least the gap along each axis |
| FrozenLakeEnv.TruncateToInt | srcs/trackers/FrozenLakePerformanceTracker.cpp:40 | the `(int)` cast gives the integer part: for x ≥ 0 it is n ≤ x < n+1, for x < 0 it is n−1 < x ≤ n (toward zero, not the floor) |
| FrozenLakeEnv.TruncateToIntUnique | srcs/trackers/FrozenLakePerformanceTracker.cpp:40 | those two inequalities determine the cast's result uniquely |
| FrozenLakeEnv.TruncateToIntOdd | srcs/trackers/FrozenLakePerformanceTracker.cpp:40 | truncating −x gives minus the truncation of x |
| FrozenLakeEnv.TruncateToIntOfInteger | srcs/trackers/FrozenLakePerformanceTracker.cpp:40 | an integer-valued score converts back to that integer |
| FrozenLakeTracker.InitialState | srcs/trackers/FrozenLakePerformanceTracker.cpp:19-23 | a new tracker has two tallies summing to 0, a hole count of 0 and the given tolerance |
| FrozenLakeTracker.ResetState | srcs/trackers/FrozenLakePerformanceTracker.cpp:25-28 | reset keeps the number of tallies and sets every one to 0 (total 0); tolerance and hole count are unchanged |
| FrozenLakeTracker.TrackState | srcs/trackers/FrozenLakePerformanceTracker.cpp:30-45 | track fails, with the invalid-environment error, iff the kind is not frozen lake; on success the tolerance is kept and the total grows by 1; the global tally grows by 1 iff distance ≤ tolerance, and the other tally grows otherwise; the hole count drops by trunc(score − (10 if distance is 0)) |
| FrozenLakeTracker.TrackChangesOneSlot | srcs/trackers/FrozenLakePerformanceTracker.cpp:41-44 | a successful track changes exactly one of the two tallies, and by +1 |
| FrozenLakeTracker.OnExitCountsAsGlobal | srcs/trackers/FrozenLakePerformanceTracker.cpp:37-42 | with tolerance ≥ 0, an agent on the exit is always counted global, the other tally is unchanged, and the exit reward is taken off the score |
| FrozenLakeTracker.NegativeToleranceNeverGlobal | srcs/trackers/FrozenLakePerformanceTracker.cpp:41-44 | with a negative tolerance, every successful track goes to the other tally |
| FrozenLakeTracker.HoleCountTruncates | srcs/trackers/FrozenLakePerformanceTracker.cpp:39-40 | a score of −2.5 away from the exit adds 2 (not 3) to the hole count, because the cast truncates toward zero |
| FrozenLakeTracker.ResetIdempotent | srcs/trackers/FrozenLakePerformanceTracker.cpp:25-28 | resetting twice equals resetting once |
| FrozenLakeTracker.ResetOfInitial | srcs/trackers/FrozenLakePerformanceTracker.cpp:19-28 | resetting a freshly constructed tracker changes nothing |
| FrozenLakeTracker.ResetKeepsTrackedHoles | srcs/trackers/FrozenLakePerformanceTracker.cpp:25-45 | reset after a successful track equals reset of the earlier state with only the hole count moved by that track, so reset does not clear the hole count |
| FrozenLakeTracker.Replay | experiments/main.cpp:143-159 | stands for calling `track` once per episode, as the driver loop does; a successful run keeps the tolerance and the two-tally shape |
| FrozenLakeTracker.ReplayTallies | srcs/trackers/FrozenLakePerformanceTracker.cpp:30-45 | tracking a run of episodes succeeds iff every one is on a frozen lake; then tolerance is kept, the global tally grows by the number within tolerance, the other tally grows by the rest, the total grows by the run length, and the hole count drops by the sum of the truncated adjusted scores |
| FrozenLakeTracker.ReplayFromInitial | srcs/trackers/FrozenLakePerformanceTracker.cpp:19-45 | from a new tracker, a run of frozen-lake episodes leaves perf = [episodes not within tolerance, episodes within tolerance] and a hole count of minus the summed truncated scores |
| FrozenLakeTracker.FrozenLakePerformanceTracker.State | srcs/trackers/FrozenLakePerformanceTracker.h:47-49 | the three fields, read as a value, always hold exactly two tallies |
| FrozenLakeTracker.FrozenLakePerformanceTracker.constructor | srcs/trackers/FrozenLakePerformanceTracker.cpp:19-23 | stores the tolerance (default 1), allocates perf = [0, 0] and zeroes the hole count |
| FrozenLakeTracker.FrozenLakePerformanceTracker.Create | srcs/trackers/FrozenLakePerformanceTracker.cpp:15-17 | returns a fresh tracker in the initial state |
| FrozenLakeTracker.FrozenLakePerformanceTracker.Reset | srcs/trackers/FrozenLakePerformanceTracker.cpp:25-28 | zeroes the array in place with a loop; the new state is ResetState of the old one, so tolerance and hole count are untouched |
| FrozenLakeTracker.FrozenLakePerformanceTracker.Track | srcs/trackers/FrozenLakePerformanceTracker.cpp:30-45 | fails iff the environment is not a frozen lake, and then leaves every field as it was; otherwise the new state is TrackState of the old one; it may write only the hole count and the array, so the tolerance is never changed |

## Left out

- `print` (srcs/trackers/FrozenLakePerformanceTracker.cpp:47-54) is stream output of floating-point ratios. It is not modelled.
- Floating point: the score is an exact `real` and `perf` holds `nat`s. Rounding of `score - 10` in double arithmetic is not modelled. The tallies, stored as doubles in the source, are exact only up to 2^53, and that bound is not modelled either.
- FrozenLakeTracker.TrackState: does not model the 32-bit range of `int`. The hole count is unbounded, and a cast of a score outside the `int` range (undefined behaviour in C++) is treated as exact truncation.
- The environment: `type()`, `agentPosition()`, `exitPosition()`, `agentScore()` and `dynamic_pointer_cast` are calls into the environment library. They become the parameters of `Track`.
- `FrozenLakeEnv::manhattan_distance` is a library call; `ManhattanDistance` takes it to be |dx| + |dy| on integer cells, and its `double` result is exact there.
- The environment kinds: `EnvType.h` is not part of this model. `EnvType` lists the frozen lake (srcs/trackers/FrozenLakePerformanceTracker.cpp:31) and the graph kind (experiments/main.cpp:70). `Other` stands for every other kind, the maze environment included (it is reached through the `else` branch at experiments/main.cpp:111-114). Only "is it the frozen lake" matters to the tracker.
- The error: the thrown `std::runtime_error` becomes `Fail(InvalidEnvironmentType)`. Its message names neither the expected nor the actual kind, so the model carries neither.
- `Create` returns the object directly, not a `unique_ptr`.
- `Replay` returns no state when an episode fails. The object itself keeps what the earlier, successful episodes wrote; the method-level contracts of `Track` do capture that.
- The maze and graph trackers (srcs/trackers/MazePerformanceTracker.h, srcs/trackers/GraphPerformanceTracker.h) are not modelled. The `PerformanceTracker` interface has no behaviour. `TimeTracker` is wall-clock timing.
- The experiment drivers under experiments/ and the planning and inference library they call are not part of this model.
