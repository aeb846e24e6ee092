/**
 * What the executor promises: taint errors never reach the caller, the
 * known-host set only grows by valid hosts, a dry run only describes, a
 * failing step reports the steps still to do, and a plan from CreateSteps
 * always passes transition's checks.
 */
module ExecutorProofs {
  import opened Wrappers
  import opened Colors
  import opened Semver
  import opened Model
  import opened Steps
  import opened StepProofs
  import opened Executor
  import Goal

  /** The RunnableError handleRun builds from some failing apply. */
  ghost predicate FromRunnable(o: Oracle, goal: ClusterState, step: Step, e: Error)
  {
    exists h :: o.apply(h).1.Some?
      && e == RunnableFailure(o.apply(h).0, Wrapped("", o.apply(h).1.value, ": with runnable " + o.describe(goal, step)))
  }

  /** An error GetCluster returned. */
  ghost predicate FromObservation(o: Oracle, e: Error)
  {
    exists h :: o.cluster(h) == Failure(e)
  }

  /**
   * The host checks: a taint error comes with a re-run; a re-run is asked
   * for exactly when some host is invalid; every invalid host is tainted;
   * the valid ones become known; with no invalid host nothing is called.
   */
  lemma {:induction false} CheckHostsSummary(o: Oracle, valid: string -> bool, c: Checked, hosts: seq<string>)
    requires c.errs != [] ==> c.rerun
    ensures var r := CheckHosts(o, valid, c, hosts);
      && (r.errs != [] ==> r.rerun)
      && (r.rerun <==> c.rerun || exists h :: h in hosts && !valid(h))
      && r.world.known == c.world.known + (set h | h in hosts && valid(h))
      && (forall h :: h in hosts && !valid(h) ==> TaintCall(h) in r.world.calls)
      && ((forall h :: h in hosts ==> valid(h)) ==> r.world.calls == c.world.calls)
      && c.world.calls <= r.world.calls
    decreases |hosts|
  {
    if hosts != [] {
      var c' := CheckHost(o, valid, c, hosts[0]);
      CheckHostsSummary(o, valid, c', hosts[1..]);
      var r := CheckHosts(o, valid, c', hosts[1..]);
      assert forall h :: h in hosts <==> h == hosts[0] || h in hosts[1..];
      assert (set h | h in hosts && valid(h))
          == (if valid(hosts[0]) then {hosts[0]} else {}) + (set h | h in hosts[1..] && valid(h));
      if !valid(hosts[0]) {
        assert c'.world.calls[|c'.world.calls| - 1] == TaintCall(hosts[0]);
        assert TaintCall(hosts[0]) in r.world.calls;
      }
    }
  }

  /**
   * handleRun reports only a RunnableError or an error GetCluster returned:
   * taint errors are collected only when a host was invalid, and an invalid
   * host always triggers a re-run first.
   */
  lemma {:induction false} HandleRunErrors(o: Oracle, valid: string -> bool, w: World, goal: ClusterState, step: Step,
                                          group: Color, fuel: nat)
    ensures var r := HandleRunSpec(o, valid, w, goal, step, group, fuel);
      r.0.Finished? && r.0.err.Some? ==>
        FromRunnable(o, goal, step, r.0.err.value) || FromObservation(o, r.0.err.value)
    decreases fuel, 1
  {
    var applied := w.calls + [ApplyCall(goal, step)];
    if o.apply(applied).1.Some? {
      assert FromRunnable(o, goal, step, HandleRunSpec(o, valid, w, goal, step, group, fuel).0.err.value);
    } else {
      var observed := applied + [GetClusterCall];
      match o.cluster(observed)
      case Failure(e) =>
        assert FromObservation(o, e);
      case Success(cl) =>
        SettleErrors(o, valid, w.(calls := observed), cl, goal, step, group, fuel);
    }
  }

  lemma {:induction false} SettleErrors(o: Oracle, valid: string -> bool, w: World, cl: Cluster, goal: ClusterState,
                                       step: Step, group: Color, fuel: nat)
    ensures var r := SettleSpec(o, valid, w, cl, goal, step, group, fuel);
      r.0.Finished? && r.0.err.Some? ==>
        FromRunnable(o, goal, step, r.0.err.value) || FromObservation(o, r.0.err.value)
    decreases fuel, 0
  {
    var hosts := NewHosts(HostsOf(cl, group), w.known);
    CheckHostsFrom(o, valid, w, hosts);
    var c := CheckHosts(o, valid, Checked(w, false, []), hosts);
    if c.rerun && fuel > 0 {
      HandleRunErrors(o, valid, c.world, goal, step, group, fuel - 1);
    }
  }

  /**
   * handleRun only adds valid hosts to the known set and only appends
   * calls; when it succeeds, every host of the applied group in the last
   * observed cluster is known.
   */
  lemma {:induction false} HandleRunKnown(o: Oracle, valid: string -> bool, w: World, goal: ClusterState, step: Step,
                                         group: Color, fuel: nat)
    ensures var r := HandleRunSpec(o, valid, w, goal, step, group, fuel);
      && w.known <= r.1.known
      && (forall h :: h in r.1.known && h !in w.known ==> valid(h))
      && w.calls <= r.1.calls
      && (r.0 == Finished(None) ==>
            o.cluster(r.1.calls).Success? && forall h :: h in HostsOf(o.cluster(r.1.calls).value, group) ==> h in r.1.known)
    decreases fuel, 1
  {
    var applied := w.calls + [ApplyCall(goal, step)];
    if o.apply(applied).1.None? {
      var observed := applied + [GetClusterCall];
      if o.cluster(observed).Success? {
        SettleKnown(o, valid, w.(calls := observed), o.cluster(observed).value, goal, step, group, fuel);
      }
    }
  }

  lemma {:induction false} SettleKnown(o: Oracle, valid: string -> bool, w: World, cl: Cluster, goal: ClusterState,
                                      step: Step, group: Color, fuel: nat)
    requires o.cluster(w.calls) == Success(cl)
    ensures var r := SettleSpec(o, valid, w, cl, goal, step, group, fuel);
      && w.known <= r.1.known
      && (forall h :: h in r.1.known && h !in w.known ==> valid(h))
      && w.calls <= r.1.calls
      && (r.0 == Finished(None) ==>
            o.cluster(r.1.calls).Success? && forall h :: h in HostsOf(o.cluster(r.1.calls).value, group) ==> h in r.1.known)
    decreases fuel, 0
  {
    var hosts := NewHosts(HostsOf(cl, group), w.known);
    CheckHostsFrom(o, valid, w, hosts);
    var c := CheckHosts(o, valid, Checked(w, false, []), hosts);
    if c.rerun {
      if fuel > 0 {
        HandleRunKnown(o, valid, c.world, goal, step, group, fuel - 1);
      }
    } else {
      assert forall h :: h in HostsOf(cl, group) ==> h in w.known || h in hosts;
    }
  }

  /** The host checks of one observation, as handleRun starts them. */
  lemma {:induction false} CheckHostsFrom(o: Oracle, valid: string -> bool, w: World, hosts: seq<string>)
    ensures var c := CheckHosts(o, valid, Checked(w, false, []), hosts);
      && w.known <= c.world.known
      && (forall h :: h in c.world.known && h !in w.known ==> valid(h))
      && w.calls <= c.world.calls
      && (!c.rerun ==> c.errs == [] && c.world.calls == w.calls && forall h :: h in hosts ==> h in c.world.known)
  {
    CheckHostsSummary(o, valid, Checked(w, false, []), hosts);
  }

  /** The lines a dry run writes: each step's runnable description, in order. */
  function Described(o: Oracle, goal: ClusterState, steps: seq<Step>): (r: seq<string>)
    ensures |r| == |steps|
  {
    if steps == [] then [] else [o.describe(goal, steps[0])] + Described(o, goal, steps[1..])
  }

  /** One line per step, in order. */
  function Lines(msg: Step -> string, steps: seq<Step>): (r: seq<string>)
    ensures |r| == |steps|
  {
    if steps == [] then [] else [msg(steps[0])] + Lines(msg, steps[1..])
  }

  /** A dry run makes no controller call, succeeds, and describes every step in order. */
  lemma {:induction false} DryRunSteps(env: Env, w: World, lines: seq<string>, cluster: Cluster, group: Color,
                                      goal: ClusterState, rest: seq<Step>)
    requires env.dryRun
    ensures StepsRun(env, w, lines, cluster, group, goal, rest)
         == Report(Finished(None), w, lines + Described(env.oracle, goal, rest))
    decreases |rest|
  {
    if rest != [] {
      var d := env.oracle.describe(goal, rest[0]);
      DryRunSteps(env, w, lines + [d], cluster, group, goal, rest[1..]);
    }
  }

  /**
   * A StepError from a run over rest: the failing step and every later one,
   * the original cluster, colour and goal.
   */
  ghost predicate FailedAt(e: Error, cluster: Cluster, group: Color, goal: ClusterState, rest: seq<Step>)
  {
    && e.StepFailure?
    && 1 <= |e.todo| <= |rest|
    && e.todo == rest[|rest| - |e.todo|..]
    && e.originalCluster == cluster && e.startingGroup == group && e.goal == goal
  }

  /**
   * A run over rest that succeeded wrote a completion line per step; one
   * that failed is a StepError as above, after a completion line per
   * earlier step.
   */
  ghost predicate RanInOrder(r: Report, lines: seq<string>, msg: Step -> string, cluster: Cluster, group: Color,
                             goal: ClusterState, rest: seq<Step>)
  {
    && (r.outcome == Finished(None) ==> r.lines == lines + Lines(msg, rest))
    && (r.outcome.Finished? && r.outcome.err.Some? ==>
          && FailedAt(r.outcome.err.value, cluster, group, goal, rest)
          && r.lines == lines + Lines(msg, rest[..|rest| - |r.outcome.err.value.todo|]))
  }

  lemma {:induction false} LinesCons(msg: Step -> string, rest: seq<Step>, k: nat)
    requires k < |rest|
    ensures Lines(msg, rest[..k + 1]) == [msg(rest[0])] + Lines(msg, rest[1..][..k])
  {
    assert rest[..k + 1][1..] == rest[1..][..k];
  }

  /** The run over rest, from the run over its tail after the first step completed. */
  lemma {:induction false} AfterCompletedStep(r: Report, lines: seq<string>, msg: Step -> string, cluster: Cluster,
                                             group: Color, goal: ClusterState, rest: seq<Step>)
    requires rest != []
    requires RanInOrder(r, lines + [msg(rest[0])], msg, cluster, group, goal, rest[1..])
    ensures RanInOrder(r, lines, msg, cluster, group, goal, rest)
  {
    if r.outcome == Finished(None) {
      LinesDone(msg, r.lines, lines, rest);
    } else if r.outcome.Finished? && r.outcome.err.Some? {
      LinesBeforeFailure(msg, r.outcome.err.value, r.lines, lines, cluster, group, goal, rest);
    }
  }

  lemma {:induction false} LinesDone(msg: Step -> string, out: seq<string>, lines: seq<string>, rest: seq<Step>)
    requires rest != [] && out == lines + [msg(rest[0])] + Lines(msg, rest[1..])
    ensures out == lines + Lines(msg, rest)
  {
    var m := msg(rest[0]);
    assert lines + [m] + Lines(msg, rest[1..]) == lines + ([m] + Lines(msg, rest[1..]));
  }

  lemma {:induction false} LinesBeforeFailure(msg: Step -> string, e: Error, out: seq<string>, lines: seq<string>,
                                             cluster: Cluster, group: Color, goal: ClusterState, rest: seq<Step>)
    requires rest != [] && FailedAt(e, cluster, group, goal, rest[1..])
    requires out == lines + [msg(rest[0])] + Lines(msg, rest[1..][..|rest[1..]| - |e.todo|])
    ensures FailedAt(e, cluster, group, goal, rest)
    ensures out == lines + Lines(msg, rest[..|rest| - |e.todo|])
  {
    var m := msg(rest[0]);
    var k := |rest[1..]| - |e.todo|;
    assert rest[1..][k..] == rest[k + 1..];
    LinesCons(msg, rest, k);
    assert lines + [m] + Lines(msg, rest[1..][..k]) == lines + ([m] + Lines(msg, rest[1..][..k]));
  }

  /** The run over rest when its first step fails. */
  lemma {:induction false} FirstStepFails(e: Error, cluster: Cluster, group: Color, goal: ClusterState, rest: seq<Step>)
    requires rest != []
    ensures FailedAt(StepFailure(e, rest, cluster, group, goal), cluster, group, goal, rest)
    ensures rest[..|rest| - |rest|] == []
  {
    assert rest[0..] == rest;
  }

  /** Applying steps for real, over the remaining steps of transition's loop. */
  lemma {:induction false} RunStepsShape(env: Env, w: World, lines: seq<string>, cluster: Cluster, group: Color,
                                        goal: ClusterState, rest: seq<Step>)
    requires !env.dryRun
    ensures var r := StepsRun(env, w, lines, cluster, group, goal, rest);
      w.calls <= r.world.calls && RanInOrder(r, lines, CompletedMessage, cluster, group, goal, rest)
    decreases |rest|
  {
    if rest != [] {
      var hr := HandleRunSpec(env.oracle, env.valid, w, goal, rest[0], Other(group), env.retries);
      assert w.calls <= hr.1.calls by {
        HandleRunKnown(env.oracle, env.valid, w, goal, rest[0], Other(group), env.retries);
      }
      if hr.0 == Finished(None) {
        var m := CompletedMessage(rest[0]);
        RunStepsShape(env, hr.1, lines + [m], cluster, group, goal, rest[1..]);
        var r := StepsRun(env, hr.1, lines + [m], cluster, group, goal, rest[1..]);
        AfterCompletedStep(r, lines, CompletedMessage, cluster, group, goal, rest);
        assert StepsRun(env, w, lines, cluster, group, goal, rest) == r;
      } else if hr.0.Finished? {
        FirstStepFails(hr.0.err.value, cluster, group, goal, rest);
      }
    }
  }

  /** transition's outcomes once its checks pass, and that it only appends controller calls. */
  lemma {:induction false} ApplyStepsOutcomes(env: Env, calls: seq<Call>, lines: seq<string>, cluster: Cluster,
                                             group: Color, steps: seq<Step>, goal: ClusterState)
    ensures var r := ApplyStepsSpec(env, calls, lines, cluster, group, steps, goal);
      && calls <= r.world.calls
      && (Precheck(cluster, steps, goal) == None && env.dryRun ==>
            r.outcome == Finished(None) && r.world.calls == calls && r.lines == lines + Described(env.oracle, goal, steps))
      && (Precheck(cluster, steps, goal) == None && !env.dryRun ==>
            RanInOrder(r, lines, CompletedMessage, cluster, group, goal, steps))
  {
    if Precheck(cluster, steps, goal) == None {
      var w := World(calls, Seed(cluster, group));
      if env.dryRun {
        DryRunSteps(env, w, lines, cluster, group, goal, steps);
      } else {
        RunStepsShape(env, w, lines, cluster, group, goal, steps);
      }
    }
  }

  /** Once the checks pass, transition fails only with a StepError carrying a tail of the steps. */
  lemma {:induction false} ApplyStepsFails(env: Env, calls: seq<Call>, lines: seq<string>, cluster: Cluster,
                                          group: Color, steps: seq<Step>, goal: ClusterState)
    requires Precheck(cluster, steps, goal) == None
    ensures var r := ApplyStepsSpec(env, calls, lines, cluster, group, steps, goal);
      r.outcome.Finished? && r.outcome.err.Some? ==> FailedAt(r.outcome.err.value, cluster, group, goal, steps)
  {
    var w := World(calls, Seed(cluster, group));
    if env.dryRun {
      DryRunSteps(env, w, lines, cluster, group, goal, steps);
    } else {
      RunStepsShape(env, w, lines, cluster, group, goal, steps);
    }
  }

  /**
   * The checks as written agree with the corrected ones except on an empty
   * cluster with no steps, where they index steps[-1].
   */
  lemma {:induction false} PrecheckAgrees(cluster: Cluster, steps: seq<Step>, goal: ClusterState)
    ensures PrecheckAsWritten(cluster, steps, goal) == IndexPanic <==> IsEmpty(AsClusterState(cluster)) && steps == []
    ensures PrecheckAsWritten(cluster, steps, goal) != IndexPanic ==>
      PrecheckAsWritten(cluster, steps, goal)
        == (if Precheck(cluster, steps, goal) == None then Pass else Reject(Precheck(cluster, steps, goal).value))
  {
  }

  /** Resume with an empty step list on an empty cluster: the checks as written panic. */
  lemma {:induction false} EmptyPlanPanics(goal: ClusterState)
    ensures PrecheckAsWritten(NewCluster(), [], goal) == IndexPanic
    ensures Precheck(NewCluster(), [], goal) == Some(Plain(LastStepText))
  {
    assert IsEmpty(AsClusterState(NewCluster()));
  }

  /** A step list equals the counts of a state it was built from. */
  lemma {:induction false} EqualsOwnStep(cs: ClusterState)
    requires ValidKeys(cs)
    ensures EqualStep(cs, AsStep(cs))
  {
  }

  /** The plan Rollout builds from a clean two-coloured observation. */
  function RolloutPlan(cl: Cluster, nodeCount: int, version: Version, opts: seq<StepOption>): seq<Step>
    requires cl.Keys <= {Blue, Green} && nodeCount >= 0
    requires IsCleanState(AsClusterState(cl))
  {
    var current := AsClusterState(cl);
    assert ValidKeys(current);
    Goal.GoalIsCleanFlip(current, nodeCount, version);
    Plan(current, Goal.BuildEndState(current, nodeCount, version).0, Configure(opts))
  }

  /**
   * The plan Rollout builds from a clean two-coloured observation always
   * passes transition's checks: it starts at the observed counts, ends at
   * the goal's, and has two steps or more when the cluster has nodes.
   */
  lemma {:induction false} RolloutPassesPrecheck(cl: Cluster, nodeCount: int, version: Version, opts: seq<StepOption>)
    requires cl.Keys <= {Blue, Green} && nodeCount >= 0
    requires IsCleanState(AsClusterState(cl))
    ensures Precheck(cl, RolloutPlan(cl, nodeCount, version, opts),
                     Goal.BuildEndState(AsClusterState(cl), nodeCount, version).0) == None
  {
    RolloutPlanShape(cl, nodeCount, version, opts);
    PrecheckPasses(cl, RolloutPlan(cl, nodeCount, version, opts), Goal.BuildEndState(AsClusterState(cl), nodeCount, version).0);
  }

  /** A step list that runs from the cluster's counts to the goal's, in two steps or more when the cluster has nodes. */
  predicate RunsFromTo(cl: Cluster, p: seq<Step>, goal: ClusterState)
  {
    && cl.Keys <= {Blue, Green} && ValidKeys(goal)
    && |p| >= 1 && p[0] == AsStep(AsClusterState(cl)) && p[|p| - 1] == AsStep(goal)
    && (!IsEmpty(AsClusterState(cl)) ==> |p| >= 2)
  }

  /** The plan Rollout builds runs from the observed counts to the goal's. */
  lemma {:induction false} RolloutPlanShape(cl: Cluster, nodeCount: int, version: Version, opts: seq<StepOption>)
    requires cl.Keys <= {Blue, Green} && nodeCount >= 0
    requires IsCleanState(AsClusterState(cl))
    ensures RunsFromTo(cl, RolloutPlan(cl, nodeCount, version, opts), Goal.BuildEndState(AsClusterState(cl), nodeCount, version).0)
  {
    var current := AsClusterState(cl);
    assert ValidKeys(current);
    Goal.GoalIsCleanFlip(current, nodeCount, version);
    var goal := Goal.BuildEndState(current, nodeCount, version).0;
    if !IsEmpty(current) {
      var g := Group(current).0;
      assert StepCount(AsStep(current), g) != StepCount(AsStep(goal), g);
    }
    PlanRunsFromTo(cl, goal, Configure(opts));
  }

  /** A plan toward a goal whose counts differ from a non-empty cluster's has two steps or more. */
  lemma {:induction false} PlanRunsFromTo(cl: Cluster, goal: ClusterState, cfg: Settings)
    requires cl.Keys <= {Blue, Green}
    requires PlanDomain(AsClusterState(cl), goal) && SettingsInRange(cfg.batchSize, cfg.skipFirstN)
    requires !IsEmpty(AsClusterState(cl)) ==> AsStep(AsClusterState(cl)) != AsStep(goal)
    ensures RunsFromTo(cl, Plan(AsClusterState(cl), goal, cfg), goal)
  {
    PlanEndpoints(AsClusterState(cl), goal, cfg);
  }

  /** A step list passes the checks when it runs from the cluster's counts to the goal's. */
  lemma {:induction false} PrecheckPasses(cl: Cluster, p: seq<Step>, goal: ClusterState)
    requires RunsFromTo(cl, p, goal)
    ensures Precheck(cl, p, goal) == None
  {
    EqualsOwnStep(AsClusterState(cl));
    EqualsOwnStep(goal);
  }

  /**
   * On a clean observation, Rollout runs transition on RolloutPlan toward
   * BuildEndState's goal from the observed colour. With
   * RolloutPassesPrecheck and ApplyStepsFails, Rollout on a clean
   * observation therefore fails only inside a step.
   */
  lemma {:induction false} RolloutApplies(env: Env, calls: seq<Call>, lines: seq<string>, nodeCount: int,
                                         version: Version, opts: seq<StepOption>)
    requires TwoColoured(env.oracle) && nodeCount >= 0
    requires env.oracle.cluster(calls + [GetClusterCall]).Success?
    requires IsCleanState(AsClusterState(env.oracle.cluster(calls + [GetClusterCall]).value))
    ensures var cl := env.oracle.cluster(calls + [GetClusterCall]).value;
      var current := AsClusterState(cl);
      RolloutSpec(env, calls, lines, nodeCount, version, opts)
        == ApplyStepsSpec(env, calls + [GetClusterCall], lines, cl, Group(current).0,
                          RolloutPlan(cl, nodeCount, version, opts), Goal.BuildEndState(current, nodeCount, version).0)
  {
    var current := AsClusterState(env.oracle.cluster(calls + [GetClusterCall]).value);
    assert ValidKeys(current);
    Goal.GoalIsCleanFlip(current, nodeCount, version);
  }
}
