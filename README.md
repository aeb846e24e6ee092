# Carousel blue/green rollout, modelled in Dafny

Carousel moves a two-colour (Blue/Green) server cluster to a new node count
and software version without downtime. The goal resolver drains the group
that holds the nodes now and fills the other colour. The step planner
computes the blue/green node counts to pass through. The transition
executor applies each step through a controller (terraform). It checks the
hosts that appear, taints the bad ones and re-applies the step. On failure
it returns a `StepError` that names the steps still to do.

This project models that core and proves what it promises:

- `Colors`, `Model`: colours, cluster states and steps as maps keyed by colour (`pkg/model/model.go`, `color.go`), and the error types of `pkg/model/error.go` with `errors.Is`.
- `Goal`: `BuildEndState` (`pkg/goal/goal.go`; `DefaultGoalState` in `goal.go` is the same code).
- `Steps`, `StepProofs`, `StepExamples`: the step options, `CreateSteps`, `generateSteps`, `addAndSkip`, `minusAndSkip` (`pkg/step/steps.go`; `steps.go` is the same code). The proofs cover termination, both endpoints, one colour moved per step toward its target, non-negative counts, the skip band, the unreachable panic and the golden traces of the tests.
- `Executor`, `ExecutorProofs`: `transition`, `handleRun`, `checkHost`, `NewCarousel`, `Rollout` and `Resume` (`pkg/carousel/apply.go`, `pkg/carousel/carousel.go`), and the older `ApplySteps`, `handleRun`, `Transition` and `Resume` of `transition.go`. The controller is a class whose answers are functions of the calls made so far, so one proof covers every controller.
- `Runner`: the runner options, the default binary, the runner description, `AddEnvironment` and `ExitError` (`pkg/runner/runner.go`).
- `ApplyBuilder`: `CreateApply`, the `terraform apply` argument vector and its runner (`pkg/controller/terraform/transition.go`, `iac/terraform-controller/transition.go`, and the builder inside `BuildTransitioner` in `transition.go`).
- `Shell`, `Graph`: the terraform binary as an object that records its invocations, and `GetResourcesForHost` (the three `graph.go` copies).
- `Taint`: `checkRecoverable`, `TaintResources`, `TaintHost` (`taint.go`).
- `Setup`: the workspace selection of `SelectWorkspace` (`pkg/controller/terraform/setup.go`, `setup.go`).
- `Validator`: the example host validator `CheckHost` (`example/main.go`).
- `Meta`: the in-place `-no-color` filter of `Meta.process` (`cmd/meta.go`).
- `Text`, `Semver`, `Wrappers`: the pieces of Go's `strings`/`strconv`, of the semantic version type and of option/result types that the model needs.

Each method that changes state is proved against a specification function:
its `ensures` ties the new state and the result to that function. The
lemmas then prove the source's promises about the function.

Design points where the code, not its description, decides:

- In `handleRun`, a taint error is collected only for an invalid host, and an invalid host always forces a re-run. So the `Errors` return (`pkg/carousel/apply.go:111-114`, `transition.go:94-97`) is never reached: taint failures never end a step. `ExecutorProofs.HandleRunErrors` states this.
- A failing step's `StepError` carries the cluster passed to `transition`, which is the one observed before the first step, not the last one observed.
- `SelectWorkspace` formats the select/create sentinel with `%v` and wraps the terraform error with `%w`. `errors.Is` therefore finds the terraform error and not the sentinel (`Setup.WrapCauseHidesSentinel`).

## Model

| member | source | states |
|---|---|---|
| Colors.Other | color.go:21-29 | Blue and Green are each other's complement (both directions), and exactly the non-valid colours map to Unknown |
| Colors.OtherIsInvolution | color.go:21-27 | on a valid colour, Other gives the other valid colour and applying it twice gives the colour back |
| Colors.ValidColorsAreBlueThenGreen | color.go:15-18 | ValidColors is exactly [Blue, Green] in that order; Unknown is the only colour not in it |
| Colors.Title | pkg/controller/terraform/transition.go:30 | the title-cased name has the name's length, its first character is the upper-case form of the name's first letter, and the rest is the name unchanged |
| Semver.VersionString | pkg/controller/terraform/transition.go:33 | a version prints as at least "x.y.z"; a plain release prints as major.minor.patch |
| Semver.ReleaseStrings | pkg/controller/terraform/transition.go:33 | the zero version prints as "0.0.0", and 0.1.1 and 0.10.0 print with their numbers in decimal |
| Model.NewCluster | pkg/model/model.go:29-38 | exactly Blue and Green, each with no hosts at the zero version |
| Model.NewClusterState | pkg/model/model.go:65-71 | exactly Blue and Green, each with count 0 at the zero version |
| Model.IsEmpty | pkg/model/model.go:74-81 | true exactly when every colour's count is 0 |
| Model.IsCleanState | pkg/model/model.go:84-93 | true exactly when no two different colours both have nodes |
| Model.CleanIffOneColourEmpty | pkg/model/model.go:84-93 | on a two-colour state: clean iff Blue or Green has no nodes; empty iff both have none |
| Model.Group | pkg/model/model.go:97-107 | non-clean gives (Unknown, errNotCleanClusterState); clean gives no error and the colour holding nodes, or ValidColors[0] when empty |
| Model.EqualNodeCount | pkg/model/model.go:110-120 | on two-colour states, equal iff every colour's count matches (versions ignored); equal implies the same number of keys |
| Model.EqualStep | pkg/model/model.go:121-131 | on two-colour maps, equal iff every colour's count matches the step's; equal implies the same number of keys |
| Model.Clone | pkg/model/model.go:133-139 | keeps every entry and adds any missing valid colour at zero |
| Model.AddNodes | pkg/model/model.go:142-149 | only group's count changes, by exactly count, with its version kept; every other colour is unchanged |
| Model.AsClusterState | pkg/model/model.go:152-161 | each colour's count is its number of hosts, versions pass through, and Blue and Green are always present |
| Model.WrapSentinel | pkg/goal/goal.go:18 | an error made with "%w: %v" from a sentinel is found by errors.Is as that sentinel |
| Model.Messages | pkg/model/error.go:21-28 | one text per error, each the error's own Error() |
| Model.MultiMessage | pkg/model/error.go:18-32 | Errors.Error is "multiple errors: [" + the messages joined by ", " + "]" |
| Model.MultiErrorString | pkg/model/error.go:18-32 | the builder loop produces exactly Errors.Error's text |
| Model.FourErrorsMessage | pkg/model/error_test.go:9-15 | a four-error list renders its messages in order, comma separated, in brackets |
| Model.NestedErrorsMessage | pkg/model/error_test.go:9-15 | the test's nested error list renders recursively into the expected string |
| Model.Unwrap | pkg/model/error.go:50-65 | only wrapping errors unwrap, to a strictly smaller error; StepError and RunnableError unwrap to their cause |
| Model.UnwrapAsReturned | pkg/model/error.go:50 | through a pointer-receiver Unwrap, a StepError or RunnableError returned by value does not unwrap |
| Model.StepErrorHidesCause | pkg/carousel/apply.go:48-54 | as returned, errors.Is does not find a StepError's sentinel cause; with Unwrap reachable it does |
| Model.IsThroughUnwrap | pkg/model/error.go:47-52 | errors.Is finds anything the unwrapped error leads to |
| Model.Record | pkg/model/error.go:39-45 | the serialised record holds todo, original cluster, starting group and goal, and no cause |
| Model.RecordIgnoresCause | pkg/model/error.go:39-49 | step errors differing only in their cause serialise identically; Error() is the cause's text |
| Goal.BuildEndState | pkg/goal/goal.go:15-30 | non-clean: fresh state and an error that is ErrDetermineGroupFailure; clean: other colour gets nodeCount at version, current drained to 0 keeping its version, other keys untouched |
| Goal.GoalIsCleanFlip | pkg/goal/goal.go:16-28 | on a clean two-colour state the goal is two-coloured and clean, the old group drained with its version, nodes on the other colour, Green when empty |
| Goal.EmptyGoalExample | pkg/goal/goal_test.go:21-33 | an empty state gets its 3 nodes on Green |
| Goal.IncreaseGoalExample | pkg/goal/goal_test.go:53-74 | 2 green nodes at 0.0.1 become 3 blue nodes at 0.1.1, Green keeping 0.0.1 |
| Goal.SameClusterGoalExample | pkg/goal/goal_test.go:95-115 | the colour flips even with the same count and version |
| Goal.InvalidStartGoalExample | pkg/goal/goal_test.go:116-131 | nodes on both colours give NewClusterState() and ErrDetermineGroupFailure |
| Steps.ApplyOption | pkg/step/steps.go:18-40 | an option changes only its own setting, to the given value when it is in range, and never below 1 / 0 |
| Steps.Configure | pkg/step/steps.go:58-64 | the configured settings are always in range; without a batch (skip) option the default 1 (0) stays |
| Steps.Options.constructor | pkg/step/steps.go:58-61 | the options start at batch size 1 and skip 0 |
| Steps.Options.ApplyAsWritten | pkg/step/steps.go:21-40 | as written, the option stores its argument unchanged, whatever the guard decided |
| Steps.Options.Apply | pkg/step/steps.go:21-40 | with the guard taking effect, the stored settings are ApplyOption's |
| Steps.AsStep | pkg/step/steps.go:131-137 | the step has the state's keys and each colour's count |
| Steps.AddAndSkip | pkg/step/steps.go:110-118 | below target: a positive delta landing on target or above the skip band, at most a batch once above it, and lowering the potential |
| Steps.MinusAndSkip | pkg/step/steps.go:120-126 | above target: a positive delta no larger than the count, landing on target or removing a batch while staying above the skip band |
| Steps.ChooseMove | pkg/step/steps.go:81-104 | picks a valid colour not at its target and the addAndSkip / minusAndSkip delta toward it; the panic branch is unreachable |
| Steps.MoveLowersPotential | pkg/step/steps.go:85-101 | a chosen move keeps counts non-negative, is a one-colour move toward the target and lowers the potential |
| Steps.ChosenMoveFacts | pkg/step/steps.go:85-101 | a move chosen by generateSteps' rules keeps both colours and every version, and within the planner's domain is one move toward the target that lowers the potential |
| Steps.NextState | pkg/step/steps.go:79-105 | the next state keeps both colours and versions, is one planner move, and lowers the termination measure |
| Steps.BuildColor | pkg/step/steps.go:66-69 | a valid colour, the target's group when that is not Unknown |
| Steps.CreateSteps | pkg/step/steps.go:53-71 | the steps are the plan for the options applied in order (the loop's invariant is Configure of the options so far) |
| StepProofs.StepOfPlannedState | pkg/step/steps.go:131-137 | the step of a two-colour state with non-negative counts names both colours with non-negative counts |
| StepProofs.SameCountsSameStep | pkg/step/steps.go:131-137 | states with equal counts give equal steps, whatever their versions |
| StepProofs.GenerateUnfold | pkg/step/steps.go:74-108 | one recursion step: the next state is in range, one move, lower potential, and prepended to the rest |
| StepProofs.GeneratedEmptyIffDone | pkg/step/steps.go:76-78 | generateSteps returns no step exactly when the counts already match |
| StepProofs.GeneratedLength | pkg/step/steps.go:74-108 | generateSteps returns no more steps than the potential of its starting state, so the recursion is bounded |
| StepProofs.GeneratedEndsAtTarget | steps.go:67-71 | whenever generateSteps returns steps, the last one holds the target's counts |
| StepProofs.GeneratedMoves | pkg/step/steps.go:85-107 | each generated step is one planner move from the previous, starting from the current state |
| StepProofs.GeneratedWellFormed | steps.go:113-119 | every generated step names both colours with non-negative counts |
| StepProofs.PlanEndpoints | pkg/step/steps.go:53-78 | the plan starts at the current counts, ends at the target's, and is bounded by the potential |
| StepProofs.PlanStart | pkg/step/steps.go:53-71 | CreateSteps' result is never empty and its first step holds the current counts (for an empty cluster and target, the target's, which are the same) |
| StepProofs.PlanEnd | pkg/step/steps.go:53-71 | CreateSteps' last step holds the target's counts, and the list is at most one longer than the potential |
| StepProofs.PlanMoves | pkg/step/steps.go:70-107 | consecutive plan steps differ in exactly one colour, in the direction of its target |
| StepProofs.PlanCountsNonNegative | pkg/step/steps.go:120-126 | no plan step has a negative count |
| StepProofs.ChainAvoidsSkipBand | pkg/step/steps.go:110-126 | along a chain of moves each count is its start, its target, or above skipFirstN |
| StepProofs.PlanAvoidsSkipBand | pkg/step/steps.go:30-32 | no plan step leaves a group with 1..skipFirstN nodes unless it started or ends there |
| StepProofs.GenerateStepsOnCounts | steps.go:67-101 | generateSteps equals the planner run on the counts alone: versions play no part |
| StepProofs.PlanOnCounts | pkg/step/steps.go:53-108 | a plan between states that are not both empty is the current counts followed by the planner run on the four counts and the settings alone |
| StepProofs.CountTraceEndsAt | pkg/step/steps.go:74-108 | the planner run on counts, when it produces steps, ends at the target counts |
| StepProofs.MovedInRange | pkg/step/steps.go:85-101 | a move chosen by generateSteps' rules leaves both counts non-negative and lowers the potential |
| StepProofs.CountTraceUnfold | pkg/step/steps.go:81-107 | one step of the count-level planner, with non-negative next counts |
| StepProofs.NextStateCounts | pkg/step/steps.go:85-101 | the next state's counts are the current ones plus the chosen delta on the chosen colour |
| StepExamples.EmptyClusterExample | pkg/step/steps_test.go:19-35 | 0 nodes to 3 blue: (0,0), (1,0), (2,0), (3,0) |
| StepExamples.ClearClusterExample | pkg/step/steps_test.go:36-52 | 3 green to none: (0,3), (0,2), (0,1), (0,0) |
| StepExamples.BatchBy3Example | pkg/step/steps_test.go:53-78 | 3 green to 6 blue in batches of 3: (0,3), (3,3), (3,0), (6,0) |
| StepExamples.BatchBy3OffEndingExample | pkg/step/steps_test.go:79-105 | 3 green to 7 blue in batches of 3 ends with a short batch |
| StepExamples.SwitchGroupSkip1Example | pkg/step/steps_test.go:106-134 | 4 blue to 4 green with skip 1: the 7-step path of the test |
| StepExamples.SmallerTargetExample | pkg/step/steps_test.go:135-162 | 5 green to 3 blue alternates add and remove, then drains Green |
| StepExamples.EmptySkip2Example | pkg/step/steps_test.go:163-181 | 4 blue to none with skip 2: (4,0), (3,0), (0,0) |
| StepExamples.OvershootExample | pkg/step/steps.go:115-116 | from inside the skip band a batch may build past the target: 0 to 1 blue in batches of 3 goes through 3 |
| StepExamples.ZeroBatchStalls | pkg/step/steps.go:21-28 | with batch size 0 both deltas are 0 and the next state equals the current one |
| Executor.NewHosts | pkg/carousel/apply.go:84-88 | a host is to be checked exactly when the group lists it and it is not known |
| Executor.Precheck | pkg/carousel/apply.go:15-29 | no error iff there is a last step equal to the goal and, for a non-empty cluster, two or more steps with the first equal to the cluster; each error text in its case: too few steps, a first step that is not the cluster, and a missing or mismatched last step |
| Executor.ApplyStepsSpec | pkg/carousel/apply.go:14-29 | a failed check is returned before any controller call |
| Executor.TransitionSpec | transition.go:100-119 | a cluster-read failure is wrapped with errGetClusterFailure and a goal failure with errGoalStateFailure, with no step applied |
| Executor.ResumeSpec | transition.go:121-130 | a read failure is wrapped with errGetClusterFailure; otherwise the given colour, steps and goal go to ApplySteps with the observed cluster |
| Executor.UnknownHosts | pkg/carousel/apply.go:81-88 | the loop collects exactly NewHosts of the group |
| Executor.CheckAll | pkg/carousel/apply.go:117-132 | the host checks, one after another, leave the controller calls, known hosts, re-run flag and errors of CheckHosts |
| Executor.HandleRun | pkg/carousel/apply.go:62-115 | handleRun's outcome, calls and known hosts are HandleRunSpec's |
| Executor.Settle | transition.go:51-97 | the checks and re-run decision after observing the cluster are SettleSpec's |
| Executor.SeedKnown | pkg/carousel/apply.go:33-36 | the known set starts as exactly the hosts of the given group |
| Executor.RunSteps | pkg/carousel/apply.go:38-58 | the loop's outcome, calls, known hosts and UI lines are StepsRun's |
| Executor.ApplySteps | transition.go:134-178 | outcome, calls and lines are ApplyStepsSpec's |
| Executor.Transition | transition.go:100-119 | outcome, calls and lines are TransitionSpec's |
| Executor.ResumeTransition | transition.go:121-130 | outcome, calls and lines are ResumeSpec's |
| Executor.Carousel.Rollout | pkg/carousel/carousel.go:74-94 | a nil controller fails before any call; otherwise RolloutSpec, with BuildEndState as the goal |
| Executor.Carousel.Resume | pkg/carousel/carousel.go:96-106 | a nil controller fails before any call; otherwise ResumeSpec |
| Executor.NewCarousel | pkg/carousel/carousel.go:53-72 | a nil controller is an error; otherwise a usable value keeping the controller and UI, a fresh UI when nil, and an accept-all validator when none |
| Executor.BuildEndStateFits | pkg/carousel/carousel.go:84-91 | on two-coloured observations BuildEndState's goal is always one the planner accepts |
| Executor.GoalFitsObserved | pkg/carousel/carousel.go:84-91 | for one two-coloured observation, BuildEndState's goal is one the planner accepts |
| ExecutorProofs.CheckHostsSummary | pkg/carousel/apply.go:117-132 | re-run iff some host is invalid; a taint error implies a re-run; every invalid host is tainted, exactly the valid ones become known, all-valid makes no call |
| ExecutorProofs.CheckHostsFrom | pkg/carousel/apply.go:94-99 | the known set only grows by valid hosts, and without a re-run there are no errors, no calls and every checked host is known |
| ExecutorProofs.HandleRunErrors | pkg/carousel/apply.go:62-115 | handleRun fails only with a RunnableError from apply or a GetCluster error: taint errors never surface |
| ExecutorProofs.SettleErrors | transition.go:83-97 | the same after the cluster is observed |
| ExecutorProofs.HandleRunKnown | pkg/carousel/apply.go:81-103 | only valid hosts become known, calls are only appended, and on success every host of the applied group is known |
| ExecutorProofs.SettleKnown | transition.go:51-86 | the same after the cluster is observed |
| ExecutorProofs.DryRunSteps | pkg/carousel/apply.go:40-44 | a dry run makes no apply, cluster read or taint call (the runnable is still built for its description), succeeds, and writes every step's description in order |
| ExecutorProofs.RunStepsShape | pkg/carousel/apply.go:39-57 | a completion line per finished step; a failure is a StepError with the remaining steps, cluster, colour and goal |
| ExecutorProofs.ApplyStepsOutcomes | transition.go:151-177 | once the checks pass: dry run describes and succeeds; otherwise steps run in order as above; calls are only appended |
| ExecutorProofs.ApplyStepsFails | pkg/carousel/apply.go:45-55 | after the checks, every error is a StepError whose TODO is steps[index:] |
| ExecutorProofs.PrecheckAgrees | pkg/carousel/apply.go:15-29 | the checks as written index steps[-1] exactly for an empty cluster with no steps, and agree with Precheck otherwise |
| ExecutorProofs.EmptyPlanPanics | pkg/carousel/apply.go:27 | an empty cluster with an empty step list reaches steps[len(steps)-1] |
| ExecutorProofs.EqualsOwnStep | pkg/step/steps.go:131-137 | a two-colour state equals the step built from it |
| ExecutorProofs.PrecheckPasses | transition.go:135-149 | a step list from the cluster's counts to the goal's, with two steps or more for a non-empty cluster, passes |
| ExecutorProofs.RolloutPassesPrecheck | pkg/carousel/carousel.go:84-93 | the plan Rollout builds from a clean observation always passes transition's checks |
| ExecutorProofs.RolloutPlanShape | pkg/carousel/carousel.go:84-93 | the plan Rollout builds starts at the observed counts, ends at BuildEndState's, and has two steps or more when the cluster has nodes |
| ExecutorProofs.PlanRunsFromTo | pkg/step/steps.go:53-71 | a plan toward a goal whose counts differ from a non-empty cluster's runs from the cluster's counts to the goal's in two steps or more |
| ExecutorProofs.RolloutApplies | pkg/carousel/carousel.go:79-93 | on a clean observation Rollout runs transition on CreateSteps' plan to BuildEndState's goal from the observed group |
| Runner.Options.WithInteractive | pkg/runner/runner.go:110-113 | sets Interactive and leaves the other fields |
| Runner.Options.WithShowOutput | pkg/runner/runner.go:115-118 | sets ShowOutput and leaves the other fields |
| Runner.Options.WithSuppressErrOutput | pkg/runner/runner.go:119-122 | sets SuppressErrOutput and leaves the other fields |
| Runner.ResolvedBinary | pkg/runner/runner.go:127-130 | an empty binary becomes "terraform"; any other is kept |
| Runner.DescriptionWords | pkg/runner/runner.go:147 | when no word holds a space, the description splits back into the binary and the arguments |
| Runner.CmdRunner.constructor | pkg/runner/runner.go:126-151 | the runner keeps the resolved binary, directory, options and arguments, is described by them, and starts with the inherited environment |
| Runner.EnvEntriesAt | pkg/runner/runner.go:157-159 | the i-th appended entry is prefix + key + "=" + value of the i-th pair |
| Runner.MaskedIgnoresValues | pkg/runner/runner.go:158 | the description prefix depends only on the keys, never on the values |
| Runner.MaskedFirstPairLast | pkg/runner/runner.go:157-158 | each pair goes in front, so the first pair ends up last |
| Runner.AddEnvironment | pkg/runner/runner.go:155-164 | a command runner gets one entry per pair appended in order and the masked entries in front of its description; any other runnable is untouched |
| Runner.ExitErrorTextAndCause | pkg/runner/runner.go:171-177 | ExitError's text is the captured error output, and it unwraps to (and is) the captured error |
| ApplyBuilder.ColourBlockBlueThenGreen | pkg/controller/terraform/transition.go:28-35 | the colour block is Blue's variables, then Green's |
| ApplyBuilder.ExtraVarsAt | pkg/controller/terraform/transition.go:37-39 | the i-th configured argument is "-var", "key=value" at 2i |
| ApplyBuilder.ApplyArgsLayout | iac/terraform-controller/transition.go:24-39 | "apply", "--auto-approve", Blue's count and version variables, Green's, then the arguments in order: 10 + 2 per argument words |
| ApplyBuilder.ApplyArgsReadsCountsAndVersions | pkg/controller/terraform/transition.go:30-33 | the vector depends only on the step's counts and the target's versions |
| ApplyBuilder.CountVarRoundTrip | pkg/controller/terraform/transition.go:30 | the text after "version<Colour>Count=" is the decimal numeral of the step's count |
| ApplyBuilder.AppendColourVars | pkg/controller/terraform/transition.go:28-35 | the first append loop adds exactly the colour block |
| ApplyBuilder.AppendExtraVars | pkg/controller/terraform/transition.go:37-39 | the second append loop adds exactly the configured arguments |
| ApplyBuilder.BuildApplyArgs | transition.go:190-206 | the built vector is the apply vector |
| ApplyBuilder.CreateApply | pkg/controller/terraform/transition.go:23-50 | a fresh runner of the apply vector, ShowOutput = AttachStdOut, SuppressErrOutput = !AttachStdErr, private args as TF_VAR_ entries then the environment, both masked in the description |
| Graph.FirstIndex | pkg/controller/terraform/graph.go:38-43 | the position of the first occurrence |
| Graph.LocateFindsFirstHolder | pkg/controller/terraform/graph.go:36-48 | the search stops at the first group in visiting order listing the host, at its first position; (Unknown, 0) when no group does |
| Graph.LocateOrderIrrelevant | iac/terraform-controller/graph.go:36-45 | when at most one group lists the host, every visiting order finds the same colour and position |
| Graph.FindHost | pkg/controller/terraform/graph.go:33-45 | the labelled loop ends with Locate's colour and position |
| Graph.MatchingKeepsMarked | pkg/controller/terraform/graph.go:61-66 | a line is kept exactly when it is listed and contains the marker |
| Graph.FilterResources | graph.go:59-64 | the filter loop keeps exactly the matching lines, in order |
| Graph.GetResourcesForHost | pkg/controller/terraform/graph.go:25-69 | the runs and result are LookupSpec's |
| Graph.LookupStages | iac/terraform-controller/graph.go:25-69 | empty name refused before any run; read and list failures carry their sentinels; success is exactly the listed lines containing "[i]" for the trimmed host's position in a valid group |
| Taint.CheckRecoverable | taint.go:35-54 | none stays none; dropped iff the text mentions "cannot be tainted"; otherwise errNoSuchResource on "no such resource instance", else the error itself |
| Taint.UntaintableExitTolerated | taint.go:40-49 | a process exit whose stderr says, in any case, "cannot be tainted" is dropped |
| Taint.MissingExitIsNoSuchResource | taint.go:40-52 | a process exit whose stderr mentions "no such resource instance" (and not the former) becomes errNoSuchResource |
| Taint.TaintFromRuns | taint.go:19-29 | from resource i on, the runs are a prefix of the taints ending at the failing one if any |
| Taint.TaintFromTolerated | taint.go:19-31 | from resource i on, every run before the last was tolerated, and all were when no error comes back |
| Taint.TaintOutcome | taint.go:18-32 | taints run in order; no error iff every run was tolerated (then all ran); else the wrapped error of the run it stopped at, still found by errors.Is |
| Taint.TaintResources | taint.go:18-32 | the runs and result are TaintSpec's |
| Taint.TaintHost | taint.go:56-64 | the runs and result are TaintHostSpec's |
| Taint.LookupFailureTaintsNothing | taint.go:57-61 | a failed lookup gives errTaintHostFailure and runs no taint |
| Setup.SelectWorkspace | pkg/controller/terraform/setup.go:28-69 | the runs and result are SelectSpec's |
| Setup.SelectRuns | pkg/controller/terraform/setup.go:28-69 | case by case: init alone when init fails or no workspace is named; init and show when show fails or already names the workspace; otherwise init, show, list, and after a successful listing exactly one of select (the listing contains the name) or new (it does not) |
| Setup.SelectErrors | pkg/controller/terraform/setup.go:28-69 | an error exactly when the last run failed; failed init, show and list are found by errors.Is as their own sentinels; a failed select or create after a successful listing is the terraform error wrapped under the matching sentinel text, and errors.Is finds that terraform error |
| Setup.SwitchErrors | pkg/controller/terraform/setup.go:53-68 | after a successful listing: an error exactly when select or new fails, carrying that run's terraform error under the sentinel text chosen by whether the listing contains the name |
| Setup.WrapCauseHidesSentinel | pkg/controller/terraform/setup.go:56-67 | a select/create failure is its sentinel for errors.Is only if the terraform error already was |
| Validator.Body | example/main.go:10 | the name, or the name without its one trailing dot |
| Validator.PrefixIsFirstLabel | example/main.go:11 | on a matching name with a dot, the text before the first dot is the non-empty first label |
| Validator.CheckHostAcceptsEvenFirstLabels | example/main.go:15-39 | accepted iff the name matches, holds a dot, and its first label ends in 0, 2, 4, 6 or 8 |
| Validator.JoinedLabelsMatch | example/main.go:10 | labels joined with dots match the pattern and split back into the labels |
| Validator.CheckHostOfLabels | example/main.go:15-39 | for well-formed labels: accepted iff two or more labels and the first ends in an even digit |
| Validator.AcceptsExample2 | example/main_test.go:13 | "example2.testing.com" is accepted |
| Validator.RefusesNoDigit | example/main_test.go:14 | "example.testing.com" is refused |
| Validator.RefusesOddDigit | example/main_test.go:15 | "127.0.0.1" is refused |
| Validator.RefusesNoDot | example/main_test.go:16 | "localhost" is refused |
| Validator.AcceptsExample32 | example/main_test.go:17 | "example32.com" is accepted |
| Meta.Meta.Process | cmd/meta.go:30-66 | in place: the kept prefix is the arguments without "-no-color" in order, the rest untouched, colour iff no "-no-color", the UI wrapped only when coloured |
| Meta.KeptArguments | cmd/meta.go:40-48 | an argument is kept iff it is not "-no-color" |
| Meta.KeptCount | cmd/meta.go:39-49 | the returned length is the number of arguments other than "-no-color" |
| Meta.NothingToDrop | cmd/meta.go:40-48 | without "-no-color" every argument is kept |
| Meta.WithoutNoColorIdempotent | cmd/meta.go:31-32 | filtering twice keeps what filtering once kept |
| Meta.ProcessUiTwice | cmd/meta.go:33-63 | a second process restores the first interface before wrapping, so wrappers never nest |

## Left out

- Steps.CreateSteps: requires both states to hold exactly Blue and Green with non-negative counts. The source accepts any map, and a negative count from the command line (`cmd/rollout.go:46`) is not refused there.
- Steps.CreateSteps: uses the corrected option closures (batch size at least 1, skip at least 0). As written, `WithSkipFirstN(-1)` keeps -1 (`pkg/step/steps.go:35-38`), so from 0 nodes towards 1 with batch size 3 `addAndSkip` adds 1 where the model adds 3; and `WithBatchSize(n)` with n <= 0 keeps n (`pkg/step/steps.go:24-26`), so `generateSteps` recurses without end (`StepExamples.ZeroBatchStalls`).
- Executor.ApplySteps: checks the steps with `Executor.Precheck`, which refuses an empty cluster with an empty step list. As written (`pkg/carousel/apply.go:27`, `transition.go:147`) that input reads `steps[-1]` and panics (`Executor.PrecheckAsWritten`, `ExecutorProofs.EmptyPlanPanics`); the two agree on every other input (`ExecutorProofs.PrecheckAgrees`).
- Executor.Transition: requires the goal resolver to return a plannable goal for every observation (`Plannable`). `BuildEndState` meets it for two-coloured observations (`Executor.BuildEndStateFits`).
- Executor.Carousel.Rollout: requires a non-negative node count and observed clusters with no colour but Blue and Green.
- Executor.HandleRun: the unbounded re-run of a step is bounded by a retry budget. Running out is a separate `Exhausted` outcome that the source does not have.
- Executor.CheckAll: the goroutines, WaitGroup and channels of `handleRun` run here as a loop over the hosts in list order. The data race on the shared `rerun` flag and `currentHosts` map of `transition.go` is not modelled. Nor is the goroutine of `transition.go:63-64` capturing the loop variable `host` and assigning the shared `err`: under Go before 1.22 it can validate or taint a later host than the one it was started for, and error results can be lost.
- Executor.Controller: the controller, validator and runnable descriptions are oracles. No particular controller is modelled.
- Logging and the UI's `Warn` are left out. `Info` lines are recorded, and the debug log lines are dropped.
- Process start, pipes, signal forwarding and `cmdRunner.Output` (`pkg/runner/runner.go:41-97`) are I/O. So are `os.Environ`, `os.Getwd`/`os.Stat` working-directory resolution and `ExitError.GetCode`. The environment is a parameter and the directory is kept as given.
- runner/runner.go, the older runner used by `iac/terraform-controller/transition.go:41` and the root copies, is not part of this model. The runners built there for taint, state list and workspace commands are recorded only by their argument vectors.
- State parsing (`state.go`, `pkg/controller/terraform/state.go`) is not part of this model: a "state pull" run answers a parsed cluster (`Shell.Binary.state`).
- JSON encoding of `StepError` and clusters is left out. `Model.Record` gives the serialised field set.
- Semantic-version parsing is left out, and so is the ordering of versions. Versions are values with equality and a printer.
- Text.ToLower: folds ASCII letters only. Go's `strings.ToLower` also maps other Unicode letters (for example the Kelvin sign to "k"), which could make more texts match "cannot be tainted".
- Validator.MatchesHostname: the host-name pattern is stated as dot-separated labels (ASCII letters, digits, hyphens) rather than as a regular expression. The regular-expression compile errors of `GetResourcesForHost` cannot happen for its fixed pattern and are not modelled.
- Go visits map keys in an unspecified order. `Graph.FindHost` takes the visiting order as a parameter, and `Graph.LocateOrderIrrelevant` shows it does not matter when a host is in at most one group.
- Meta.Meta.Process: the interfaces are abstract values (`Ui`). Their colours and concurrency wrapper are not modelled, and `Meta.LoadConfig` and the other CLI commands are left out.
- `Errors.Errors()` returns its list unchanged; in the model that is the list field of `Multi`.
- The text of errors from collaborators (terraform, the cluster getter) is an opaque `Plain` message.
- Model.Is: collaborator errors (`Plain`) compare by their text. Go's `errors.New` values compare by identity, so two distinct errors with the same message are related by `Is` only in the model. No contract here relies on two such errors being told apart.

## Findings

| source | as written | input that shows it | evidently intended | confidence | as-written member | corrected member |
|---|---|---|---|---|---|---|
| pkg/step/steps.go:21-40 | the guard sets 1 (0) and the next line overwrites it with the argument | `WithBatchSize(0)`, the default batch size of the command line (`cmd/config.go:14`): batch size 0 gives deltas of 0, so generateSteps never progresses | sizes below 1 become 1 and negative skips become 0, as the comments say | high, not executed | Steps.Options.ApplyAsWritten, StepExamples.ZeroBatchStalls | Steps.Options.Apply, Steps.Configure |
| pkg/model/error.go:50,63 | `Unwrap` has a pointer receiver, while `StepError` and `RunnableError` are returned by value (`pkg/carousel/apply.go:48,69`) | `errors.Is(StepError{Cause: errX}, errX)` is false | errors.Is / errors.As reach the cause | high, not executed | Model.UnwrapAsReturned, Model.StepErrorHidesCause | Model.Unwrap, Model.IsThroughUnwrap |
| pkg/carousel/apply.go:27 | with an empty cluster the step-count check is skipped, and the last step is read as `steps[len(steps)-1]` | `Resume` on an empty cluster with an empty step list: index -1, a run-time panic (also `transition.go:147`) | an empty step list is refused with an error | high, not executed | Executor.PrecheckAsWritten, ExecutorProofs.EmptyPlanPanics | Executor.Precheck, ExecutorProofs.PrecheckAgrees |
