/**
 * The goal resolver (pkg/goal/goal.go, and its older copy DefaultGoalState in
 * goal.go): drain the group that holds the nodes now and put the requested
 * number of nodes, at the requested version, on the other colour.
 */
module Goal {
  import opened Wrappers
  import opened Colors
  import opened Semver
  import opened Model

  /** BuildEndState: the goal state after a colour flip, or an error when the current state is not clean. */
  function BuildEndState(current: ClusterState, nodeCount: int, version: Version): (r: (ClusterState, Option<Error>))
    ensures !IsCleanState(current) ==>
      r.0 == NewClusterState() && r.1.Some? && Is(r.1.value, Sentinel(DetermineGroupFailure))
    ensures IsCleanState(current) ==> r.1 == None
    ensures IsCleanState(current) ==>
      var g := Group(current).0;
      && r.0.Keys == current.Keys + {Blue, Green}
      && GroupOf(r.0, Other(g)) == GroupState(nodeCount, version)
      && (g != Other(g) ==> GroupOf(r.0, g) == GroupState(0, GroupOf(current, g).version))
      && (forall c :: c != g && c != Other(g) ==> GroupOf(r.0, c) == GroupOf(current, c))
  {
    var (currentGroup, err) := Group(current);
    if err.Some? then
      (NewClusterState(), Some(WrapSentinel(DetermineGroupFailure, err.value)))
    else
      var goal := Clone(current);
      var drained := goal[currentGroup := GroupState(0, GroupOf(current, currentGroup).version)];
      (drained[Other(currentGroup) := GroupState(nodeCount, version)], None)
  }

  /**
   * On a clean state with the two valid colours, the goal has the two valid
   * colours, is clean again, has nodeCount nodes on the colour that had none
   * (Green when the state was empty), and keeps the drained colour's version.
   */
  lemma {:induction false} GoalIsCleanFlip(current: ClusterState, nodeCount: int, version: Version)
    requires ValidKeys(current) && IsCleanState(current)
    ensures var (goal, err) := BuildEndState(current, nodeCount, version);
      var g := Group(current).0;
      && err == None
      && g in ValidColors
      && ValidKeys(goal)
      && IsCleanState(goal)
      && Count(goal, g) == 0
      && GroupOf(goal, g).version == GroupOf(current, g).version
      && GroupOf(goal, Other(g)) == GroupState(nodeCount, version)
      && (IsEmpty(current) ==> GroupOf(goal, Green) == GroupState(nodeCount, version))
      && (!IsEmpty(current) ==> Count(current, g) != 0 && Count(current, Other(g)) == 0)
  {
    var g := Group(current).0;
    CleanIffOneColourEmpty(current);
    assert Count(current, Unknown) == 0;
    assert g in ValidColors;
    var goal := BuildEndState(current, nodeCount, version).0;
    assert ValidKeys(goal);
    CleanIffOneColourEmpty(goal);
    assert Count(goal, Other(Other(g))) == 0;
  }

  /** A state holding b blue nodes at version vb and g green nodes at version vg. */
  function State(b: int, vb: Version, g: int, vg: Version): ClusterState
  {
    map[Blue := GroupState(b, vb), Green := GroupState(g, vg)]
  }

  lemma {:induction false} StateOf(cs: ClusterState, b: int, vb: Version, g: int, vg: Version)
    requires ValidKeys(cs) && GroupOf(cs, Blue) == GroupState(b, vb) && GroupOf(cs, Green) == GroupState(g, vg)
    ensures cs == State(b, vb, g, vg)
  {
  }

  /** empty_cluster: an empty state moves its 3 new nodes onto Green. */
  lemma {:induction false} EmptyGoalExample(current: ClusterState)
    requires current == NewClusterState()
    ensures BuildEndState(current, 3, Release(0, 1, 1))
         == (State(0, ZeroVersion, 3, Release(0, 1, 1)), None)
  {
    GoalIsCleanFlip(current, 3, Release(0, 1, 1));
    StateOf(BuildEndState(current, 3, Release(0, 1, 1)).0, 0, ZeroVersion, 3, Release(0, 1, 1));
  }

  /** increaseCluster: 2 green nodes at 0.0.1 become 3 blue nodes at 0.1.1; Green keeps its version. */
  lemma {:induction false} IncreaseGoalExample(current: ClusterState)
    requires current == State(0, ZeroVersion, 2, Release(0, 0, 1))
    ensures BuildEndState(current, 3, Release(0, 1, 1))
         == (State(3, Release(0, 1, 1), 0, Release(0, 0, 1)), None)
  {
    assert Count(current, Green) == 2 && Count(current, Blue) == 0;
    GoalIsCleanFlip(current, 3, Release(0, 1, 1));
    StateOf(BuildEndState(current, 3, Release(0, 1, 1)).0, 3, Release(0, 1, 1), 0, Release(0, 0, 1));
  }

  /** sameCluster: the colour flips even when the count and the version stay the same. */
  lemma {:induction false} SameClusterGoalExample(current: ClusterState)
    requires current == State(0, ZeroVersion, 3, Release(0, 1, 1))
    ensures BuildEndState(current, 3, Release(0, 1, 1))
         == (State(3, Release(0, 1, 1), 0, Release(0, 1, 1)), None)
    ensures BuildEndState(current, 3, Release(0, 1, 1)).0 != current
  {
    assert Count(current, Green) == 3 && Count(current, Blue) == 0;
    GoalIsCleanFlip(current, 3, Release(0, 1, 1));
    StateOf(BuildEndState(current, 3, Release(0, 1, 1)).0, 3, Release(0, 1, 1), 0, Release(0, 1, 1));
    assert BuildEndState(current, 3, Release(0, 1, 1)).0[Green].count == 0;
  }

  /** invalidStart: nodes on both colours give the fresh state and an error that is ErrDetermineGroupFailure. */
  lemma {:induction false} InvalidStartGoalExample(current: ClusterState)
    requires current == State(3, Release(0, 1, 1), 1, ZeroVersion)
    ensures var (goal, err) := BuildEndState(current, 3, Release(0, 1, 1));
      goal == NewClusterState() && err.Some? && Is(err.value, Sentinel(DetermineGroupFailure))
  {
    assert Count(current, Blue) == 3 && Count(current, Green) == 1;
  }
}
