/**
 * The transition executor: Carousel.transition, handleRun and checkHost
 * (pkg/carousel/apply.go), NewCarousel, Rollout and Resume
 * (pkg/carousel/carousel.go), and their older copies tTransition.ApplySteps,
 * handleRun, Transition and Resume (transition.go).
 *
 * The controller is an object whose answers come from an oracle: every
 * answer is a function of the calls made so far, the current call last, so
 * one model covers every controller behaviour. The host checks that the
 * source runs in goroutines run here one after another, in list order, and
 * the unbounded re-run of a step is bounded by a retry budget.
 */
module Executor {
  import opened Wrappers
  import opened Colors
  import opened Semver
  import opened Model
  import opened Steps
  import opened StepProofs
  import Goal
  import Text

  /** A call to the controller, in the order the executor makes them. */
  datatype Call =
    | ApplyCall(goal: ClusterState, step: Step)
    | GetClusterCall
    | TaintCall(host: string)

  /**
   * The controller's answers. apply: the apply runnable's output and error;
   * cluster: GetCluster; taint: TaintHost; describe: the runnable's String().
   */
  datatype Oracle = Oracle(
    apply: seq<Call> -> (seq<bv8>, Option<Error>),
    cluster: seq<Call> -> Result<Cluster, Error>,
    taint: seq<Call> -> Option<Error>,
    describe: (ClusterState, Step) -> string)

  /** The controller, recording every call made to it. */
  class Controller {
    const oracle: Oracle
    var calls: seq<Call>

    constructor(oracle: Oracle)
      ensures this.oracle == oracle && calls == []
    {
      this.oracle := oracle;
      calls := [];
    }

    /** Output() of CreateApply(goal, step). */
    method RunApply(goal: ClusterState, step: Step) returns (out: seq<bv8>, err: Option<Error>)
      modifies this
      ensures calls == old(calls) + [ApplyCall(goal, step)]
      ensures (out, err) == oracle.apply(calls)
    {
      calls := calls + [ApplyCall(goal, step)];
      out, err := oracle.apply(calls).0, oracle.apply(calls).1;
    }

    method GetCluster() returns (r: Result<Cluster, Error>)
      modifies this
      ensures calls == old(calls) + [GetClusterCall]
      ensures r == oracle.cluster(calls)
    {
      calls := calls + [GetClusterCall];
      r := oracle.cluster(calls);
    }

    method TaintHost(host: string) returns (err: Option<Error>)
      modifies this
      ensures calls == old(calls) + [TaintCall(host)]
      ensures err == oracle.taint(calls)
    {
      calls := calls + [TaintCall(host)];
      err := oracle.taint(calls);
    }
  }

  /** The UI (or, in transition.go, the info log): the lines written so far. */
  class UI {
    var lines: seq<string>

    constructor()
      ensures lines == []
    {
      lines := [];
    }

    method Info(s: string)
      modifies this
      ensures lines == old(lines) + [s]
    {
      lines := lines + [s];
    }
  }

  /** The map[string]bool of hosts already known to be valid. */
  class KnownHosts {
    var members: set<string>

    constructor()
      ensures members == {}
    {
      members := {};
    }

    method Add(host: string)
      modifies this
      ensures members == old(members) + {host}
    {
      members := members + {host};
    }
  }

  datatype Outcome = Finished(err: Option<Error>) | Exhausted

  /** What the executor's objects hold: the controller's calls and the known hosts. */
  datatype World = World(calls: seq<Call>, known: set<string>)

  /** A run's outcome, the final world and the UI lines. */
  datatype Report = Report(outcome: Outcome, world: World, lines: seq<string>)

  /** Host validator, controller answers, dry-run flag and the re-run budget of one step. */
  datatype Env = Env(oracle: Oracle, valid: string -> bool, dryRun: bool, retries: nat)

  /** "completed step: blue with %d nodes and green with %d nodes". */
  function CompletedMessage(step: Step): string
  {
    "completed step: blue with " + Text.IntToString(StepCount(step, Blue))
    + " nodes and green with " + Text.IntToString(StepCount(step, Green)) + " nodes"
  }

  /** The hosts of a group that are not known yet, in order. */
  function NewHosts(hosts: seq<string>, known: set<string>): (r: seq<string>)
    ensures forall h :: h in r <==> h in hosts && h !in known
  {
    if hosts == [] then []
    else
      var last := hosts[|hosts| - 1];
      assert hosts == hosts[..|hosts| - 1] + [last];
      NewHosts(hosts[..|hosts| - 1], known) + (if last in known then [] else [last])
  }

  /** The state of the host checks: the world, whether a re-run was asked for, the taint errors. */
  datatype Checked = Checked(world: World, rerun: bool, errs: seq<Error>)

  /** checkHost: taint an invalid host and ask for a re-run; remember a valid one. */
  function CheckHost(o: Oracle, valid: string -> bool, c: Checked, host: string): Checked
  {
    if !valid(host) then
      var calls := c.world.calls + [TaintCall(host)];
      var err := o.taint(calls);
      Checked(c.world.(calls := calls), true, c.errs + (if err.Some? then [err.value] else []))
    else
      Checked(c.world.(known := c.world.known + {host}), c.rerun, c.errs)
  }

  function CheckHosts(o: Oracle, valid: string -> bool, c: Checked, hosts: seq<string>): Checked
    decreases |hosts|
  {
    if hosts == [] then c else CheckHosts(o, valid, CheckHost(o, valid, c, hosts[0]), hosts[1..])
  }

  /**
   * handleRun: apply; on failure a RunnableError; otherwise re-observe the
   * cluster and settle the hosts of the applied group.
   */
  function HandleRunSpec(o: Oracle, valid: string -> bool, w: World, goal: ClusterState, step: Step, group: Color,
                         fuel: nat): (Outcome, World)
    decreases fuel, 1
  {
    var applied := w.calls + [ApplyCall(goal, step)];
    var (out, err) := o.apply(applied);
    if err.Some? then
      (Finished(Some(RunnableFailure(out, Wrapped("", err.value, ": with runnable " + o.describe(goal, step))))),
       w.(calls := applied))
    else
      var observed := applied + [GetClusterCall];
      match o.cluster(observed)
      case Failure(e) => (Finished(Some(e)), w.(calls := observed))
      case Success(cl) => SettleSpec(o, valid, w.(calls := observed), cl, goal, step, group, fuel)
  }

  /**
   * The rest of handleRun once the cluster is observed: check the unknown
   * hosts of the applied group, re-run while a host was invalid, and report
   * the taint errors otherwise.
   */
  function SettleSpec(o: Oracle, valid: string -> bool, w: World, cl: Cluster, goal: ClusterState, step: Step,
                      group: Color, fuel: nat): (Outcome, World)
    decreases fuel, 0
  {
    var c := CheckHosts(o, valid, Checked(w, false, []), NewHosts(HostsOf(cl, group), w.known));
    if c.rerun then
      if fuel == 0 then (Exhausted, c.world)
      else HandleRunSpec(o, valid, c.world, goal, step, group, fuel - 1)
    else if c.errs == [] then (Finished(None), c.world)
    else (Finished(Some(Multi(c.errs))), c.world)
  }

  /** SettleSpec one level down: the host checks, then the re-run, the exhausted budget or the errors. */
  lemma {:induction false} SettleUnfold(o: Oracle, valid: string -> bool, w: World, cl: Cluster, goal: ClusterState,
                                       step: Step, group: Color, fuel: nat)
    ensures var c := CheckHosts(o, valid, Checked(w, false, []), NewHosts(HostsOf(cl, group), w.known));
      SettleSpec(o, valid, w, cl, goal, step, group, fuel)
        == if !c.rerun then (if c.errs == [] then Finished(None) else Finished(Some(Multi(c.errs))), c.world)
           else if fuel == 0 then (Exhausted, c.world)
           else HandleRunSpec(o, valid, c.world, goal, step, group, fuel - 1)
  {
  }

  /** The remaining steps of transition's loop, rest = steps[index:]. */
  function StepsRun(env: Env, w: World, lines: seq<string>, cluster: Cluster, group: Color, goal: ClusterState,
                    rest: seq<Step>): Report
    decreases |rest|
  {
    if rest == [] then Report(Finished(None), w, lines)
    else if env.dryRun then
      StepsRun(env, w, lines + [env.oracle.describe(goal, rest[0])], cluster, group, goal, rest[1..])
    else
      var (outcome, w') := HandleRunSpec(env.oracle, env.valid, w, goal, rest[0], Other(group), env.retries);
      match outcome
      case Exhausted => Report(Exhausted, w', lines)
      case Finished(Some(e)) => Report(Finished(Some(StepFailure(e, rest, cluster, group, goal))), w', lines)
      case Finished(None) =>
        StepsRun(env, w', lines + [CompletedMessage(rest[0])], cluster, group, goal, rest[1..])
  }

  /** The texts of transition's step-list checks. */
  const TooFewStepsText: string := "len of steps must be greater than 2"
  const FirstStepText: string := "current cluster doesn't match first step"
  const LastStepText: string := "end cluster doesn't match last step"

  /**
   * transition's checks before any step runs, with an empty step list
   * rejected as not matching the goal instead of indexing steps[-1].
   */
  function Precheck(cluster: Cluster, steps: seq<Step>, goal: ClusterState): (r: Option<Error>)
    ensures var current := AsClusterState(cluster);
      r == None <==>
        && |steps| >= 1 && EqualStep(goal, steps[|steps| - 1])
        && (!IsEmpty(current) ==> |steps| >= 2 && EqualStep(current, steps[0]))
    ensures var current := AsClusterState(cluster);
      && (!IsEmpty(current) && |steps| < 2 ==> r == Some(Plain(TooFewStepsText)))
      && (!IsEmpty(current) && |steps| >= 2 && !EqualStep(current, steps[0]) ==>
            r == Some(Plain(FirstStepText)))
      && (IsEmpty(current) && |steps| == 0 ==> r == Some(Plain(LastStepText)))
      && ((&& |steps| >= 1
           && (IsEmpty(current) || (|steps| >= 2 && EqualStep(current, steps[0])))
           && !EqualStep(goal, steps[|steps| - 1]))
          ==> r == Some(Plain(LastStepText)))
  {
    var current := AsClusterState(cluster);
    if !IsEmpty(current) && |steps| < 2 then Some(Plain(TooFewStepsText))
    else if !IsEmpty(current) && !EqualStep(current, steps[0]) then Some(Plain(FirstStepText))
    else if |steps| == 0 || !EqualStep(goal, steps[|steps| - 1]) then Some(Plain(LastStepText))
    else None
  }

  datatype Checks = Pass | Reject(err: Error) | IndexPanic

  /** The checks as written: with an empty cluster, an empty step list reaches steps[len(steps)-1]. */
  function PrecheckAsWritten(cluster: Cluster, steps: seq<Step>, goal: ClusterState): Checks
  {
    var current := AsClusterState(cluster);
    if !IsEmpty(current) && |steps| < 2 then Reject(Plain(TooFewStepsText))
    else if !IsEmpty(current) && !EqualStep(current, steps[0]) then Reject(Plain(FirstStepText))
    else if |steps| == 0 then IndexPanic
    else if !EqualStep(goal, steps[|steps| - 1]) then Reject(Plain(LastStepText))
    else Pass
  }

  /** The known-host set transition starts from: the hosts of the colour not being built. */
  function Seed(cluster: Cluster, group: Color): set<string>
  {
    set h | h in HostsOf(cluster, Other(group))
  }

  /** transition / ApplySteps from the calls made so far. */
  function ApplyStepsSpec(env: Env, calls: seq<Call>, lines: seq<string>, cluster: Cluster, group: Color,
                          steps: seq<Step>, goal: ClusterState): (r: Report)
    ensures Precheck(cluster, steps, goal).Some? ==>
      r == Report(Finished(Precheck(cluster, steps, goal)), World(calls, {}), lines)
  {
    var pre := Precheck(cluster, steps, goal);
    if pre.Some? then Report(Finished(pre), World(calls, {}), lines)
    else StepsRun(env, World(calls, Seed(cluster, group)), lines, cluster, group, goal, steps)
  }

  /** The goal resolver returns, for this observed state, a goal the planner accepts. */
  predicate GoalFits(getGoal: (ClusterState, int, Version) -> (ClusterState, Option<Error>),
                     current: ClusterState, nodeCount: int, version: Version)
  {
    getGoal(current, nodeCount, version).1 == None ==> PlanDomain(current, getGoal(current, nodeCount, version).0)
  }

  ghost predicate Plannable(o: Oracle, getGoal: (ClusterState, int, Version) -> (ClusterState, Option<Error>),
                      nodeCount: int, version: Version)
  {
    forall h :: o.cluster(h).Success? ==> GoalFits(getGoal, AsClusterState(o.cluster(h).value), nodeCount, version)
  }

  /**
   * Transition (transition.go) and Rollout (with BuildEndState as the goal):
   * observe, resolve the goal, plan with CreateSteps, apply.
   */
  function TransitionSpec(env: Env, calls: seq<Call>, lines: seq<string>,
                          getGoal: (ClusterState, int, Version) -> (ClusterState, Option<Error>),
                          nodeCount: int, version: Version, stepOptions: seq<StepOption>): (r: Report)
    requires Plannable(env.oracle, getGoal, nodeCount, version)
    ensures var observed := calls + [GetClusterCall];
      env.oracle.cluster(observed).Failure? ==>
        r == Report(Finished(Some(WrapSentinel(GetClusterFailure, env.oracle.cluster(observed).error))),
                    World(observed, {}), lines)
    ensures var observed := calls + [GetClusterCall];
      env.oracle.cluster(observed).Success? ==>
        var gr := getGoal(AsClusterState(env.oracle.cluster(observed).value), nodeCount, version);
        gr.1.Some? ==> r == Report(Finished(Some(WrapSentinel(GoalStateFailure, gr.1.value))), World(observed, {}), lines)
  {
    var observed := calls + [GetClusterCall];
    match env.oracle.cluster(observed)
    case Failure(e) => Report(Finished(Some(WrapSentinel(GetClusterFailure, e))), World(observed, {}), lines)
    case Success(cl) =>
      var current := AsClusterState(cl);
      var (goal, err) := getGoal(current, nodeCount, version);
      if err.Some? then Report(Finished(Some(WrapSentinel(GoalStateFailure, err.value))), World(observed, {}), lines)
      else
        assert GoalFits(getGoal, current, nodeCount, version);
        ApplyStepsSpec(env, observed, lines, cl, Group(current).0, Plan(current, goal, Configure(stepOptions)), goal)
  }

  /** Rollout (pkg/carousel/carousel.go): Transition with BuildEndState resolving the goal. */
  function RolloutSpec(env: Env, calls: seq<Call>, lines: seq<string>, nodeCount: int, version: Version,
                       stepOptions: seq<StepOption>): Report
    requires TwoColoured(env.oracle) && nodeCount >= 0
  {
    BuildEndStateFits(env.oracle, nodeCount, version);
    TransitionSpec(env, calls, lines, Goal.BuildEndState, nodeCount, version, stepOptions)
  }

  /** Resume: observe, then apply the given steps from the given colour. */
  function ResumeSpec(env: Env, calls: seq<Call>, lines: seq<string>, startingColor: Color,
                      steps: seq<Step>, goal: ClusterState): (r: Report)
    ensures var observed := calls + [GetClusterCall];
      env.oracle.cluster(observed).Failure? ==>
        r == Report(Finished(Some(WrapSentinel(GetClusterFailure, env.oracle.cluster(observed).error))),
                    World(observed, {}), lines)
    ensures var observed := calls + [GetClusterCall];
      env.oracle.cluster(observed).Success? ==>
        r == ApplyStepsSpec(env, observed, lines, env.oracle.cluster(observed).value, startingColor, steps, goal)
  {
    var observed := calls + [GetClusterCall];
    match env.oracle.cluster(observed)
    case Failure(e) => Report(Finished(Some(WrapSentinel(GetClusterFailure, e))), World(observed, {}), lines)
    case Success(cl) => ApplyStepsSpec(env, observed, lines, cl, startingColor, steps, goal)
  }

  /** hostsToCheck: the hosts of the observed group that are not known yet. */
  method UnknownHosts(hosts: seq<string>, known: KnownHosts) returns (toCheck: seq<string>)
    ensures toCheck == NewHosts(hosts, known.members)
  {
    toCheck := [];
    for i := 0 to |hosts|
      invariant toCheck == NewHosts(hosts[..i], known.members)
    {
      assert hosts[..i + 1][..i] == hosts[..i];
      if hosts[i] !in known.members {
        toCheck := toCheck + [hosts[i]];
      }
    }
    assert hosts[..|hosts|] == hosts;
  }

  /** checkHost on every host in turn; whether a re-run was asked for and the taint errors collected. */
  method CheckAll(ctl: Controller, valid: string -> bool, known: KnownHosts, hosts: seq<string>)
    returns (rerun: bool, errs: seq<Error>)
    modifies ctl, known
    ensures Checked(World(ctl.calls, known.members), rerun, errs)
         == CheckHosts(ctl.oracle, valid, Checked(World(old(ctl.calls), old(known.members)), false, []), hosts)
  {
    ghost var start := Checked(World(ctl.calls, known.members), false, []);
    rerun := false;
    errs := [];
    for i := 0 to |hosts|
      invariant CheckHosts(ctl.oracle, valid, Checked(World(ctl.calls, known.members), rerun, errs), hosts[i..])
             == CheckHosts(ctl.oracle, valid, start, hosts)
    {
      ghost var before := Checked(World(ctl.calls, known.members), rerun, errs);
      assert hosts[i..][1..] == hosts[i + 1..];
      var host := hosts[i];
      if !valid(host) {
        var terr := ctl.TaintHost(host);
        if terr.Some? {
          errs := errs + [terr.value];
        }
        rerun := true;
      } else {
        known.Add(host);
      }
      assert Checked(World(ctl.calls, known.members), rerun, errs) == CheckHost(ctl.oracle, valid, before, host);
    }
  }

  /** handleRun, with the host checks run one after another. */
  method HandleRun(ctl: Controller, valid: string -> bool, known: KnownHosts, goal: ClusterState, step: Step,
                   group: Color, fuel: nat) returns (outcome: Outcome)
    modifies ctl, known
    ensures (outcome, World(ctl.calls, known.members))
         == HandleRunSpec(ctl.oracle, valid, World(old(ctl.calls), old(known.members)), goal, step, group, fuel)
    decreases fuel, 1
  {
    var out, err := ctl.RunApply(goal, step);
    if err.Some? {
      return Finished(Some(RunnableFailure(out, Wrapped("", err.value, ": with runnable " + ctl.oracle.describe(goal, step)))));
    }
    var observed := ctl.GetCluster();
    if observed.Failure? {
      return Finished(Some(observed.error));
    }
    outcome := Settle(ctl, valid, known, observed.value, goal, step, group, fuel);
  }

  /** The host checks and the re-run decision of handleRun. */
  method Settle(ctl: Controller, valid: string -> bool, known: KnownHosts, cl: Cluster, goal: ClusterState, step: Step,
                group: Color, fuel: nat) returns (outcome: Outcome)
    modifies ctl, known
    ensures (outcome, World(ctl.calls, known.members))
         == SettleSpec(ctl.oracle, valid, World(old(ctl.calls), old(known.members)), cl, goal, step, group, fuel)
    decreases fuel, 0
  {
    SettleUnfold(ctl.oracle, valid, World(ctl.calls, known.members), cl, goal, step, group, fuel);
    var toCheck := UnknownHosts(HostsOf(cl, group), known);
    var rerun, errs := CheckAll(ctl, valid, known, toCheck);
    if rerun {
      if fuel == 0 {
        return Exhausted;
      }
      outcome := HandleRun(ctl, valid, known, goal, step, group, fuel - 1);
      return;
    }
    if errs == [] {
      return Finished(None);
    }
    return Finished(Some(Multi(errs)));
  }

  /** currentHosts: seeded with the given hosts. */
  method SeedKnown(hosts: seq<string>) returns (known: KnownHosts)
    ensures fresh(known) && known.members == set h | h in hosts
  {
    known := new KnownHosts();
    for i := 0 to |hosts|
      invariant known.members == set h | h in hosts[..i]
    {
      assert hosts[..i + 1] == hosts[..i] + [hosts[i]];
      known.Add(hosts[i]);
    }
    assert hosts[..|hosts|] == hosts;
  }

  /** transition's loop over the steps. */
  method RunSteps(ctl: Controller, ui: UI, known: KnownHosts, dryRun: bool, valid: string -> bool, retries: nat,
                  cluster: Cluster, group: Color, steps: seq<Step>, goal: ClusterState) returns (outcome: Outcome)
    modifies ctl, ui, known
    ensures var r := StepsRun(Env(ctl.oracle, valid, dryRun, retries), World(old(ctl.calls), old(known.members)),
                              old(ui.lines), cluster, group, goal, steps);
      outcome == r.outcome && World(ctl.calls, known.members) == r.world && ui.lines == r.lines
  {
    ghost var env := Env(ctl.oracle, valid, dryRun, retries);
    ghost var start := World(ctl.calls, known.members);
    for i := 0 to |steps|
      invariant StepsRun(env, World(ctl.calls, known.members), ui.lines, cluster, group, goal, steps[i..])
             == StepsRun(env, start, old(ui.lines), cluster, group, goal, steps)
    {
      assert steps[i..][1..] == steps[i + 1..];
      var step := steps[i];
      if dryRun {
        ui.Info(ctl.oracle.describe(goal, step));
        continue;
      }
      var r := HandleRun(ctl, valid, known, goal, step, Other(group), retries);
      if r.Exhausted? {
        return Exhausted;
      }
      if r.err.Some? {
        return Finished(Some(StepFailure(r.err.value, steps[i..], cluster, group, goal)));
      }
      ui.Info(CompletedMessage(step));
    }
    outcome := Finished(None);
  }

  /** transition (apply.go) / ApplySteps (transition.go). */
  method ApplySteps(ctl: Controller, ui: UI, dryRun: bool, valid: string -> bool, retries: nat,
                    cluster: Cluster, group: Color, steps: seq<Step>, goal: ClusterState) returns (outcome: Outcome)
    modifies ctl, ui
    ensures var r := ApplyStepsSpec(Env(ctl.oracle, valid, dryRun, retries), old(ctl.calls), old(ui.lines),
                                    cluster, group, steps, goal);
      outcome == r.outcome && ctl.calls == r.world.calls && ui.lines == r.lines
  {
    var pre := Precheck(cluster, steps, goal);
    if pre.Some? {
      return Finished(pre);
    }
    var known := SeedKnown(HostsOf(cluster, Other(group)));
    outcome := RunSteps(ctl, ui, known, dryRun, valid, retries, cluster, group, steps, goal);
  }

  /** Transition (transition.go): observe, resolve the goal, plan, apply. */
  method Transition(ctl: Controller, ui: UI, dryRun: bool, valid: string -> bool, retries: nat,
                    getGoal: (ClusterState, int, Version) -> (ClusterState, Option<Error>),
                    nodeCount: int, version: Version, stepOptions: seq<StepOption>) returns (outcome: Outcome)
    requires Plannable(ctl.oracle, getGoal, nodeCount, version)
    modifies ctl, ui
    ensures var r := TransitionSpec(Env(ctl.oracle, valid, dryRun, retries), old(ctl.calls), old(ui.lines),
                                    getGoal, nodeCount, version, stepOptions);
      outcome == r.outcome && ctl.calls == r.world.calls && ui.lines == r.lines
  {
    var observed := ctl.GetCluster();
    if observed.Failure? {
      return Finished(Some(WrapSentinel(GetClusterFailure, observed.error)));
    }
    var current := AsClusterState(observed.value);
    var (goal, err) := getGoal(current, nodeCount, version);
    if err.Some? {
      return Finished(Some(WrapSentinel(GoalStateFailure, err.value)));
    }
    assert GoalFits(getGoal, current, nodeCount, version);
    var (currentGroup, _) := Group(current);
    var steps := CreateSteps(current, goal, stepOptions);
    outcome := ApplySteps(ctl, ui, dryRun, valid, retries, observed.value, currentGroup, steps, goal);
  }

  /** Resume (transition.go): observe, then apply the given steps. */
  method ResumeTransition(ctl: Controller, ui: UI, dryRun: bool, valid: string -> bool, retries: nat,
                startingColor: Color, steps: seq<Step>, goal: ClusterState) returns (outcome: Outcome)
    modifies ctl, ui
    ensures var r := ResumeSpec(Env(ctl.oracle, valid, dryRun, retries), old(ctl.calls), old(ui.lines),
                                startingColor, steps, goal);
      outcome == r.outcome && ctl.calls == r.world.calls && ui.lines == r.lines
  {
    var observed := ctl.GetCluster();
    if observed.Failure? {
      return Finished(Some(WrapSentinel(GetClusterFailure, observed.error)));
    }
    outcome := ApplySteps(ctl, ui, dryRun, valid, retries, observed.value, startingColor, steps, goal);
  }

  /** The observed clusters hold only the two valid colours. */
  ghost predicate TwoColoured(o: Oracle)
  {
    forall h :: o.cluster(h).Success? ==> o.cluster(h).value.Keys <= {Blue, Green}
  }

  datatype Config = Config(dryRun: bool, validate: Option<string -> bool>)

  /** The Carousel value: nil-able UI and controller, and the configuration. */
  datatype Carousel = Carousel(ui: UI?, controller: Controller?, config: Config)
  {
    /** What NewCarousel guarantees when it returns no error. */
    predicate Usable()
    {
      controller != null && ui != null && config.validate.Some?
    }

    /** Rollout: transition to nodeCount nodes at version on the other colour. */
    method Rollout(retries: nat, nodeCount: int, version: Version, stepOptions: seq<StepOption>)
      returns (outcome: Outcome)
      requires controller != null ==> ui != null && config.validate.Some?
      requires controller != null ==> TwoColoured(controller.oracle)
      requires nodeCount >= 0
      modifies controller, ui
      ensures controller == null ==> outcome == Finished(Some(Plain("controller can't be empty")))
      ensures controller != null ==>
        var r := RolloutSpec(Env(controller.oracle, config.validate.value, config.dryRun, retries),
                             old(controller.calls), old(ui.lines), nodeCount, version, stepOptions);
        outcome == r.outcome && controller.calls == r.world.calls && ui.lines == r.lines
    {
      if controller == null {
        return Finished(Some(Plain("controller can't be empty")));
      }
      BuildEndStateFits(controller.oracle, nodeCount, version);
      outcome := Transition(controller, ui, config.dryRun, config.validate.value, retries,
                            Goal.BuildEndState, nodeCount, version, stepOptions);
    }

    /** Resume: continue a transition from startingColor with the given steps. */
    method Resume(retries: nat, startingColor: Color, steps: seq<Step>, goal: ClusterState) returns (outcome: Outcome)
      requires controller != null ==> ui != null && config.validate.Some?
      modifies controller, ui
      ensures controller == null ==> outcome == Finished(Some(Plain("controller can't be empty")))
      ensures controller != null ==>
        var r := ResumeSpec(Env(controller.oracle, config.validate.value, config.dryRun, retries),
                            old(controller.calls), old(ui.lines), startingColor, steps, goal);
        outcome == r.outcome && controller.calls == r.world.calls && ui.lines == r.lines
    {
      if controller == null {
        return Finished(Some(Plain("controller can't be empty")));
      }
      outcome := ResumeTransition(controller, ui, config.dryRun, config.validate.value, retries, startingColor, steps, goal);
    }
  }

  /** NewCarousel: reject a nil controller; default the UI and an accept-all validator. */
  method NewCarousel(ui: UI?, controller: Controller?, config: Config) returns (c: Carousel, err: Option<Error>)
    ensures controller == null ==>
      err == Some(Plain("controller can't be empty")) && c == Carousel(null, null, Config(false, None))
    ensures controller != null ==> err == None && c.Usable()
    ensures controller != null ==> c.controller == controller && c.config.dryRun == config.dryRun
    ensures controller != null && ui != null ==> c.ui == ui
    ensures controller != null && ui == null ==> fresh(c.ui) && c.ui.lines == []
    ensures controller != null && config.validate.Some? ==> c.config.validate == config.validate
    ensures controller != null && config.validate.None? ==> forall h :: c.config.validate.value(h)
  {
    var u := ui;
    if u == null {
      u := new UI();
    }
    if controller == null {
      return Carousel(null, null, Config(false, None)), Some(Plain("controller can't be empty"));
    }
    var validate := config.validate;
    if validate.None? {
      validate := Some((host: string) => true);
    }
    c := Carousel(u, controller, Config(config.dryRun, validate));
    err := None;
  }

  /** BuildEndState gives the planner a goal it accepts on every two-coloured observation. */
  lemma {:induction false} BuildEndStateFits(o: Oracle, nodeCount: int, version: Version)
    requires TwoColoured(o) && nodeCount >= 0
    ensures Plannable(o, Goal.BuildEndState, nodeCount, version)
  {
    forall h | o.cluster(h).Success?
      ensures GoalFits(Goal.BuildEndState, AsClusterState(o.cluster(h).value), nodeCount, version)
    {
      GoalFitsObserved(o.cluster(h).value, nodeCount, version);
    }
  }

  lemma {:induction false} GoalFitsObserved(cl: Cluster, nodeCount: int, version: Version)
    requires cl.Keys <= {Blue, Green} && nodeCount >= 0
    ensures GoalFits(Goal.BuildEndState, AsClusterState(cl), nodeCount, version)
  {
    var current := AsClusterState(cl);
    assert ValidKeys(current);
    if IsCleanState(current) {
      Goal.GoalIsCleanFlip(current, nodeCount, version);
      var goal := Goal.BuildEndState(current, nodeCount, version).0;
      var g := Group(current).0;
      assert Count(goal, Blue) >= 0 && Count(goal, Green) >= 0 by {
        assert Count(goal, g) == 0 && Count(goal, Other(g)) == nodeCount;
        assert g == Blue || g == Green;
      }
    }
  }
}
