/**
 * The planner on the example clusters of pkg/step/steps_test.go, and the
 * effect of an out-of-range batch size left in place by the option closures.
 * Every example state holds both colours at the zero version; expected plans
 * are written as their (blue, green) counts.
 */
module StepExamples {
  import opened Colors
  import opened Semver
  import opened Model
  import opened Steps
  import opened StepProofs

  /** A cluster state with b blue and g green nodes at the zero version. */
  function CS(b: int, g: int): ClusterState
  {
    map[Blue := GroupState(b, ZeroVersion), Green := GroupState(g, ZeroVersion)]
  }

  lemma {:induction false} NewClusterStateIsEmptyCS()
    ensures NewClusterState() == CS(0, 0)
  {
  }

  lemma {:induction false} CSFacts(b: int, g: int)
    ensures ValidKeys(CS(b, g)) && Count(CS(b, g), Blue) == b && Count(CS(b, g), Green) == g
  {
  }

  /** The colour the plan builds on for an example target: Green only when the target is all green. */
  lemma {:induction false} BuildColorOfCS(b: int, g: int)
    ensures BuildColor(CS(b, g)) == if b == 0 && g != 0 then Green else Blue
  {
    CSFacts(b, g);
  }

  /** CreateSteps between example states, through the planner on counts. */
  lemma {:induction false} PlanOfCS(cur: ClusterState, tgt: ClusterState, b: int, g: int, tb: int, tg: int,
                                    opts: seq<StepOption>, cfg: Settings, expected: seq<(int, int)>)
    requires cur == CS(b, g) && tgt == CS(tb, tg) && Configure(opts) == cfg
    requires b >= 0 && g >= 0 && tb >= 0 && tg >= 0 && SettingsInRange(cfg.batchSize, cfg.skipFirstN)
    requires b != 0 || g != 0 || tb != 0 || tg != 0
    requires [(b, g)] + CountTrace(b, g, tb, tg, cfg.batchSize, cfg.skipFirstN,
                                   if tb == 0 && tg != 0 then Green else Blue, true) == expected
    ensures Plan(cur, tgt, Configure(opts)) == StepsOf(expected)
  {
    CSFacts(b, g);
    CSFacts(tb, tg);
    BuildColorOfCS(tb, tg);
    PlanOnCounts(cur, tgt, cfg);
  }

  /** empty_cluster: from no nodes to 3 blue nodes, one node per step. */
  lemma {:induction false} EmptyClusterExample(cur: ClusterState, tgt: ClusterState)
    requires cur == NewClusterState() && tgt == CS(3, 0)
    ensures Plan(cur, tgt, Configure([])) == StepsOf([(0, 0), (1, 0), (2, 0), (3, 0)])
  {
    NewClusterStateIsEmptyCS();
    EmptyClusterTrace();
    PlanOfCS(cur, tgt, 0, 0, 3, 0, [], Settings(1, 0), [(0, 0), (1, 0), (2, 0), (3, 0)]);
  }

  lemma {:induction false} EmptyClusterTrace()
    ensures [(0, 0)] + CountTrace(0, 0, 3, 0, 1, 0, Blue, true) == [(0, 0), (1, 0), (2, 0), (3, 0)]
  {
  }

  /** clear_cluster: from 3 green nodes to none. */
  lemma {:induction false} ClearClusterExample(cur: ClusterState, tgt: ClusterState)
    requires cur == CS(0, 3) && tgt == NewClusterState()
    ensures Plan(cur, tgt, Configure([])) == StepsOf([(0, 3), (0, 2), (0, 1), (0, 0)])
  {
    NewClusterStateIsEmptyCS();
    ClearClusterTrace();
    PlanOfCS(cur, tgt, 0, 3, 0, 0, [], Settings(1, 0), [(0, 3), (0, 2), (0, 1), (0, 0)]);
  }

  lemma {:induction false} ClearClusterTrace()
    ensures [(0, 3)] + CountTrace(0, 3, 0, 0, 1, 0, Blue, true) == [(0, 3), (0, 2), (0, 1), (0, 0)]
  {
  }

  /** batch_by_3: 3 green nodes to 6 blue nodes in batches of 3. */
  lemma {:induction false} BatchBy3Example(cur: ClusterState, tgt: ClusterState)
    requires cur == CS(0, 3) && tgt == CS(6, 0)
    ensures Plan(cur, tgt, Configure([WithBatchSize(3)])) == StepsOf([(0, 3), (3, 3), (3, 0), (6, 0)])
  {
    BatchBy3Trace();
    PlanOfCS(cur, tgt, 0, 3, 6, 0, [WithBatchSize(3)], Settings(3, 0), [(0, 3), (3, 3), (3, 0), (6, 0)]);
  }

  lemma {:induction false} BatchBy3Trace()
    ensures [(0, 3)] + CountTrace(0, 3, 6, 0, 3, 0, Blue, true) == [(0, 3), (3, 3), (3, 0), (6, 0)]
  {
  }

  /** batch_by_3_off_ending: 3 green nodes to 7 blue nodes; the last batch is short. */
  lemma {:induction false} BatchBy3OffEndingExample(cur: ClusterState, tgt: ClusterState)
    requires cur == CS(0, 3) && tgt == CS(7, 0)
    ensures Plan(cur, tgt, Configure([WithBatchSize(3)])) == StepsOf([(0, 3), (3, 3), (3, 0), (6, 0), (7, 0)])
  {
    BatchBy3OffEndingTrace();
    PlanOfCS(cur, tgt, 0, 3, 7, 0, [WithBatchSize(3)], Settings(3, 0), [(0, 3), (3, 3), (3, 0), (6, 0), (7, 0)]);
  }

  lemma {:induction false} BatchBy3OffEndingTrace()
    ensures [(0, 3)] + CountTrace(0, 3, 7, 0, 3, 0, Blue, true) == [(0, 3), (3, 3), (3, 0), (6, 0), (7, 0)]
  {
  }

  /** switch_group_same_count_skip_1: 4 blue nodes to 4 green nodes, never leaving a group at 1. */
  lemma {:induction false} SwitchGroupSkip1Example(cur: ClusterState, tgt: ClusterState)
    requires cur == CS(4, 0) && tgt == CS(0, 4)
    ensures Plan(cur, tgt, Configure([WithSkipFirstN(1)]))
         == StepsOf([(4, 0), (4, 2), (3, 2), (3, 3), (2, 3), (2, 4), (0, 4)])
  {
    SwitchGroupSkip1Trace();
    PlanOfCS(cur, tgt, 4, 0, 0, 4, [WithSkipFirstN(1)], Settings(1, 1),
             [(4, 0), (4, 2), (3, 2), (3, 3), (2, 3), (2, 4), (0, 4)]);
  }

  lemma {:induction false} SwitchGroupSkip1Trace()
    ensures [(4, 0)] + CountTrace(4, 0, 0, 4, 1, 1, Green, true)
         == [(4, 0), (4, 2), (3, 2), (3, 3), (2, 3), (2, 4), (0, 4)]
  {
  }

  /** smaller_target_cluster: 5 green nodes to 3 blue nodes, alternating add and remove. */
  lemma {:induction false} SmallerTargetExample(cur: ClusterState, tgt: ClusterState)
    requires cur == CS(0, 5) && tgt == CS(3, 0)
    ensures Plan(cur, tgt, Configure([]))
         == StepsOf([(0, 5), (1, 5), (1, 4), (2, 4), (2, 3), (3, 3), (3, 2), (3, 1), (3, 0)])
  {
    SmallerTargetTrace();
    PlanOfCS(cur, tgt, 0, 5, 3, 0, [], Settings(1, 0),
             [(0, 5), (1, 5), (1, 4), (2, 4), (2, 3), (3, 3), (3, 2), (3, 1), (3, 0)]);
  }

  lemma {:induction false} SmallerTargetTrace()
    ensures [(0, 5)] + CountTrace(0, 5, 3, 0, 1, 0, Blue, true)
         == [(0, 5), (1, 5), (1, 4), (2, 4), (2, 3), (3, 3), (3, 2), (3, 1), (3, 0)]
  {
  }

  /** empty_skip_3: 4 blue nodes to none with a skip of 2: once at 3, the rest go in one step. */
  lemma {:induction false} EmptySkip2Example(cur: ClusterState, tgt: ClusterState)
    requires cur == CS(4, 0) && tgt == NewClusterState()
    ensures Plan(cur, tgt, Configure([WithSkipFirstN(2)])) == StepsOf([(4, 0), (3, 0), (0, 0)])
  {
    NewClusterStateIsEmptyCS();
    EmptySkip2Trace();
    PlanOfCS(cur, tgt, 4, 0, 0, 0, [WithSkipFirstN(2)], Settings(1, 2), [(4, 0), (3, 0), (0, 0)]);
  }

  lemma {:induction false} EmptySkip2Trace()
    ensures [(4, 0)] + CountTrace(4, 0, 0, 0, 1, 2, Blue, true) == [(4, 0), (3, 0), (0, 0)]
  {
  }

  /**
   * From inside the skip band the plan can build past the target and remove
   * the surplus afterwards: no nodes to 1 blue node in batches of 3.
   */
  lemma {:induction false} OvershootExample(cur: ClusterState, tgt: ClusterState)
    requires cur == CS(0, 0) && tgt == CS(1, 0)
    ensures Plan(cur, tgt, Configure([WithBatchSize(3)])) == StepsOf([(0, 0), (3, 0), (1, 0)])
  {
    OvershootTrace();
    PlanOfCS(cur, tgt, 0, 0, 1, 0, [WithBatchSize(3)], Settings(3, 0), [(0, 0), (3, 0), (1, 0)]);
  }

  lemma {:induction false} OvershootTrace()
    ensures [(0, 0)] + CountTrace(0, 0, 1, 0, 3, 0, Blue, true) == [(0, 0), (3, 0), (1, 0)]
  {
  }

  /**
   * With the batch size the option closures leave at 0, generateSteps'
   * next state is the current state for both phases, so the recursion
   * alternates between the same two calls and never reaches its base case.
   */
  lemma {:induction false} ZeroBatchStalls()
    ensures forall c, t, s :: 0 <= s < c < t ==> AddAndSkip(c, t, 0, s) == 0
    ensures forall c, t, s :: 0 <= t < c && s < c ==> MinusAndSkip(c, t, 0, s) == 0
    ensures NextState(CS(1, 0), CS(3, 0), 0, 0, Blue, true) == CS(1, 0)
    ensures NextState(CS(1, 0), CS(3, 0), 0, 0, Green, false) == CS(1, 0)
  {
    CSFacts(1, 0);
    CSFacts(3, 0);
    NextStateCounts(CS(1, 0), CS(3, 0), 0, 0, Blue, true);
    NextStateCounts(CS(1, 0), CS(3, 0), 0, 0, Green, false);
  }
}
