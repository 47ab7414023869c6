/**
 * The frozen-lake performance tracker. After each episode it looks at where
 * the agent stopped: within `tolerance` grid steps of the exit counts as
 * reaching the global minimum, anything else as "other"; the agent's score,
 * less the exit reward, feeds a running count of falls into holes.
 *
 * The first half of the module states the tracker's behaviour on values
 * (TrackerState and the functions over it); the class at the end is the
 * object the program mutates, and each of its methods is proved to act as
 * the corresponding function.
 */
module FrozenLakeTracker {
  import opened Wrappers
  import opened FrozenLakeEnv

  /** Tolerance used when none is given. */
  const DefaultToleranceLevel: int := 1

  /** Reward subtracted from the score of an agent standing on the exit. */
  const ExitReward: real := 10.0

  /** Index of the tally of episodes that ended elsewhere. */
  const OtherSlot: nat := 0

  /** Index of the tally of episodes that ended near the exit. */
  const GlobalSlot: nat := 1

  /** The only way tracking fails: the environment is not a frozen lake. */
  datatype TrackError = InvalidEnvironmentType

  /** What `track` reads off the environment at the end of an episode. */
  datatype Observation = Observation(env: EnvType, agent: Position, exit: Position, score: real)

  /** The tracker's three fields, as a value. */
  datatype TrackerState = TrackerState(tolerance: int, perf: seq<nat>, nbFellInHoles: int)
  {
    /** `perf` always holds exactly the two tallies. */
    predicate WellFormed()
    {
      |perf| == 2
    }
  }

  /** The sum of all tallies, the denominator the tracker reports rates over. */
  function Total(p: seq<nat>): nat
  {
    if p == [] then 0 else p[0] + Total(p[1..])
  }

  /** Did the episode end within `tolerance` steps of the exit? */
  predicate ReachedGlobal(o: Observation, tolerance: int)
  {
    ManhattanDistance(o.agent, o.exit) <= tolerance
  }

  /** The score with the exit reward taken off when the agent is on the exit. */
  function AdjustedScore(o: Observation): real
  {
    o.score - (if ManhattanDistance(o.agent, o.exit) == 0 then ExitReward else 0.0)
  }

  /** A freshly constructed tracker. */
  function InitialState(toleranceLevel: int): (s: TrackerState)
    ensures s.WellFormed() && s.tolerance == toleranceLevel
    ensures Total(s.perf) == 0 && s.nbFellInHoles == 0
  {
    TrackerState(toleranceLevel, [0, 0], 0)
  }

  /** `reset`: every tally back to zero; tolerance and hole count kept. */
  function ResetState(s: TrackerState): (r: TrackerState)
    ensures |r.perf| == |s.perf|
    ensures forall i :: 0 <= i < |r.perf| ==> r.perf[i] == 0
    ensures Total(r.perf) == 0
    ensures r.tolerance == s.tolerance && r.nbFellInHoles == s.nbFellInHoles
  {
    var r := TrackerState(s.tolerance, seq(|s.perf|, _ => 0), s.nbFellInHoles);
    ZeroTotal(r.perf);
    r
  }

  /**
   * `track`: reject a non-frozen-lake environment before touching anything;
   * otherwise subtract the truncated adjusted score from the hole count and
   * add one to the global tally if the agent ended within tolerance of the
   * exit, to the other tally if not.
   */
  function TrackState(s: TrackerState, o: Observation): (r: Result<TrackerState, TrackError>)
    requires s.WellFormed()
    ensures r.Failure? <==> o.env != FrozenLake
    ensures r.Failure? ==> r.error == InvalidEnvironmentType
    ensures r.Success? ==> r.value.WellFormed() && r.value.tolerance == s.tolerance
    ensures r.Success? ==> Total(r.value.perf) == Total(s.perf) + 1
    ensures r.Success? ==>
      r.value.perf[GlobalSlot] == s.perf[GlobalSlot] + (if ReachedGlobal(o, s.tolerance) then 1 else 0) &&
      r.value.perf[OtherSlot] == s.perf[OtherSlot] + (if ReachedGlobal(o, s.tolerance) then 0 else 1)
    ensures r.Success? ==> r.value.nbFellInHoles == s.nbFellInHoles - TruncateToInt(AdjustedScore(o))
  {
    if o.env != FrozenLake then
      Failure(InvalidEnvironmentType)
    else
      var slot := if ReachedGlobal(o, s.tolerance) then GlobalSlot else OtherSlot;
      var perf := s.perf[slot := s.perf[slot] + 1];
      TotalUpdate(s.perf, slot, s.perf[slot] + 1);
      Success(TrackerState(s.tolerance, perf, s.nbFellInHoles - TruncateToInt(AdjustedScore(o))))
  }

  /**
   * Tracking the end of several episodes in turn, one `track` per episode,
   * stopping at the first error.
   */
  function Replay(s: TrackerState, obs: seq<Observation>): (r: Result<TrackerState, TrackError>)
    requires s.WellFormed()
    ensures r.Success? ==> r.value.WellFormed() && r.value.tolerance == s.tolerance
    decreases |obs|
  {
    if obs == [] then Success(s)
    else
      match TrackState(s, obs[0])
      case Failure(e) => Failure(e)
      case Success(t) => Replay(t, obs[1..])
  }

  /** How many of the episodes ended within `tolerance` of the exit. */
  function CountGlobal(obs: seq<Observation>, tolerance: int): nat
  {
    if obs == [] then 0
    else (if ReachedGlobal(obs[0], tolerance) then 1 else 0) + CountGlobal(obs[1..], tolerance)
  }

  /** The sum of the truncated adjusted scores of the episodes. */
  function TruncatedScores(obs: seq<Observation>): int
  {
    if obs == [] then 0 else TruncateToInt(AdjustedScore(obs[0])) + TruncatedScores(obs[1..])
  }

  predicate AllFrozenLake(obs: seq<Observation>)
  {
    forall i :: 0 <= i < |obs| ==> obs[i].env == FrozenLake
  }

  // Lemmas about the tallies

  lemma {:induction false} ZeroTotal(p: seq<nat>)
    requires forall i :: 0 <= i < |p| ==> p[i] == 0
    ensures Total(p) == 0
  {
    if p != [] {
      ZeroTotal(p[1..]);
    }
  }

  /** Replacing one tally by `v` changes the total by the difference. */
  lemma {:induction false} TotalUpdate(p: seq<nat>, i: nat, v: nat)
    requires i < |p|
    ensures Total(p[i := v]) == Total(p) - p[i] + v
  {
    if i > 0 {
      TotalUpdate(p[1..], i - 1, v);
      assert p[i := v][1..] == p[1..][i - 1 := v];
    } else {
      assert p[i := v][1..] == p[1..];
    }
  }

  // Lemmas about single operations

  /** Exactly one tally moves on a successful `track`, and it moves by one. */
  lemma TrackChangesOneSlot(s: TrackerState, o: Observation)
    requires s.WellFormed() && o.env == FrozenLake
    ensures TrackState(s, o).Success?
    ensures var t := TrackState(s, o).value;
      exists slot :: 0 <= slot < 2 && t.perf == s.perf[slot := s.perf[slot] + 1]
  {
  }

  /**
   * With a non-negative tolerance an agent standing on the exit always
   * counts as having reached the global minimum, and the exit reward is
   * taken off its score.
   */
  lemma OnExitCountsAsGlobal(s: TrackerState, o: Observation)
    requires s.WellFormed() && s.tolerance >= 0
    requires o.env == FrozenLake && o.agent == o.exit
    ensures TrackState(s, o).Success?
    ensures TrackState(s, o).value.perf[GlobalSlot] == s.perf[GlobalSlot] + 1
    ensures TrackState(s, o).value.perf[OtherSlot] == s.perf[OtherSlot]
    ensures TrackState(s, o).value.nbFellInHoles == s.nbFellInHoles - TruncateToInt(o.score - ExitReward)
  {
  }

  /** With a negative tolerance no episode ever counts as global. */
  lemma NegativeToleranceNeverGlobal(s: TrackerState, o: Observation)
    requires s.WellFormed() && s.tolerance < 0 && o.env == FrozenLake
    ensures TrackState(s, o).value.perf[GlobalSlot] == s.perf[GlobalSlot]
    ensures TrackState(s, o).value.perf[OtherSlot] == s.perf[OtherSlot] + 1
  {
  }

  /**
   * The hole count follows the C++ cast, which truncates toward zero: a
   * score of -2.5 away from the exit adds 2 falls, where the floor would
   * add 3.
   */
  lemma HoleCountTruncates(s: TrackerState)
    requires s.WellFormed()
    ensures var o := Observation(FrozenLake, Position(0, 0), Position(3, 3), -2.5);
      TrackState(s, o).value.nbFellInHoles == s.nbFellInHoles + 2
  {
  }

  /** Resetting twice is resetting once. */
  lemma ResetIdempotent(s: TrackerState)
    ensures ResetState(ResetState(s)) == ResetState(s)
  {
  }

  /** Resetting a fresh tracker changes nothing. */
  lemma ResetOfInitial(toleranceLevel: int)
    ensures ResetState(InitialState(toleranceLevel)) == InitialState(toleranceLevel)
  {
  }

  /**
   * `reset` does not undo what `track` did to the hole count: after a
   * successful track and a reset, only the hole count remembers it.
   */
  lemma ResetKeepsTrackedHoles(s: TrackerState, o: Observation)
    requires s.WellFormed() && o.env == FrozenLake
    ensures ResetState(TrackState(s, o).value) ==
      ResetState(s).(nbFellInHoles := s.nbFellInHoles - TruncateToInt(AdjustedScore(o)))
  {
  }

  // Lemmas about a run of episodes

  /**
   * Replaying episodes succeeds exactly when each was on a frozen lake,
   * and then the global tally grows by the number that ended within
   * tolerance, the other tally by the rest, the hole count falls by the
   * sum of the truncated adjusted scores, and the tolerance stays put.
   */
  lemma {:induction false} ReplayTallies(s: TrackerState, obs: seq<Observation>)
    requires s.WellFormed()
    ensures Replay(s, obs).Success? <==> AllFrozenLake(obs)
    ensures Replay(s, obs).Failure? ==> Replay(s, obs).error == InvalidEnvironmentType
    ensures Replay(s, obs).Success? ==>
      var t := Replay(s, obs).value;
      t.WellFormed() && t.tolerance == s.tolerance &&
      t.perf[GlobalSlot] == s.perf[GlobalSlot] + CountGlobal(obs, s.tolerance) &&
      t.perf[OtherSlot] == s.perf[OtherSlot] + (|obs| - CountGlobal(obs, s.tolerance)) &&
      Total(t.perf) == Total(s.perf) + |obs| &&
      t.nbFellInHoles == s.nbFellInHoles - TruncatedScores(obs)
    decreases |obs|
  {
    if obs != [] {
      CountGlobalBound(obs, s.tolerance);
      var r := TrackState(s, obs[0]);
      if r.Success? {
        ReplayTallies(r.value, obs[1..]);
        assert AllFrozenLake(obs) <==> AllFrozenLake(obs[1..]) by {
          if AllFrozenLake(obs[1..]) {
            forall i | 0 <= i < |obs| ensures obs[i].env == FrozenLake {
              if i > 0 { assert obs[i] == obs[1..][i - 1]; }
            }
          }
        }
      } else {
        assert !AllFrozenLake(obs) by { assert obs[0].env != FrozenLake; }
      }
    }
  }

  lemma {:induction false} CountGlobalBound(obs: seq<Observation>, tolerance: int)
    ensures CountGlobal(obs, tolerance) <= |obs|
  {
    if obs != [] {
      CountGlobalBound(obs[1..], tolerance);
    }
  }

  /**
   * From a fresh tracker, every episode is tallied exactly once: the two
   * tallies add up to the number of episodes.
   */
  lemma ReplayFromInitial(toleranceLevel: int, obs: seq<Observation>)
    requires AllFrozenLake(obs)
    ensures Replay(InitialState(toleranceLevel), obs).Success?
    ensures var t := Replay(InitialState(toleranceLevel), obs).value;
      t.perf == [|obs| - CountGlobal(obs, toleranceLevel), CountGlobal(obs, toleranceLevel)] &&
      t.nbFellInHoles == -TruncatedScores(obs) && t.tolerance == toleranceLevel
  {
    ReplayTallies(InitialState(toleranceLevel), obs);
  }

  // The object the program mutates

  class FrozenLakePerformanceTracker {
    var tolerance: int
    var perf: array<nat>
    var nbFellInHoles: int

    ghost predicate Valid()
      reads this
    {
      perf.Length == 2
    }

    /** The tracker's fields as a value. */
    function State(): (s: TrackerState)
      reads this, perf
      requires Valid()
      ensures s.WellFormed()
    {
      TrackerState(tolerance, perf[..], nbFellInHoles)
    }

    /** Both tallies and the hole count start at zero. */
    constructor (toleranceLevel: int := DefaultToleranceLevel)
      ensures Valid() && fresh(perf)
      ensures State() == InitialState(toleranceLevel)
      ensures tolerance == toleranceLevel && perf[..] == [0, 0] && nbFellInHoles == 0
    {
      tolerance := toleranceLevel;
      perf := new nat[2](_ => 0);
      nbFellInHoles := 0;
      new;
      assert perf[..] == [0, 0];
    }

    /** The factory: a fresh tracker. */
    static method Create(toleranceLevel: int := DefaultToleranceLevel) returns (t: FrozenLakePerformanceTracker)
      ensures fresh(t) && fresh(t.perf) && t.Valid()
      ensures t.State() == InitialState(toleranceLevel)
    {
      t := new FrozenLakePerformanceTracker(toleranceLevel);
    }

    /** Zero every tally in place; tolerance and hole count are left alone. */
    method Reset()
      requires Valid()
      modifies perf
      ensures Valid()
      ensures State() == ResetState(old(State()))
      ensures forall i :: 0 <= i < perf.Length ==> perf[i] == 0
    {
      for i := 0 to perf.Length
        invariant forall k :: 0 <= k < i ==> perf[k] == 0
      {
        perf[i] := 0;
      }
      assert perf[..] == seq(perf.Length, _ => 0);
    }

    /**
     * Record the end of an episode. A non-frozen-lake environment is
     * refused before any field is written.
     */
    method Track(env: EnvType, agentPos: Position, exitPos: Position, score: real) returns (outcome: Outcome<TrackError>)
      requires Valid()
      modifies this`nbFellInHoles, perf
      ensures Valid()
      ensures outcome.Fail? <==> env != FrozenLake
      ensures outcome.Fail? ==> outcome.error == InvalidEnvironmentType && State() == old(State())
      ensures outcome.Pass? ==>
        State() == TrackState(old(State()), Observation(env, agentPos, exitPos, score)).value
    {
      if env != FrozenLake {
        return Fail(InvalidEnvironmentType);
      }
      var md := ManhattanDistance(agentPos, exitPos);
      var adjusted := score - (if md == 0 then ExitReward else 0.0);
      nbFellInHoles := nbFellInHoles - TruncateToInt(adjusted);
      if md <= tolerance {
        perf[GlobalSlot] := perf[GlobalSlot] + 1;
      } else {
        perf[OtherSlot] := perf[OtherSlot] + 1;
      }
      return Pass;
    }
  }
}
