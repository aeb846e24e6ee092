/**
 * What the planner's output promises: it starts at the current counts, ends
 * at the target counts, changes one colour per step in the direction of its
 * target, never produces a negative count, and never lands inside the skip
 * band unless at the start or the target.
 */
module StepProofs {
  import opened Colors
  import opened Model
  import opened Steps

  /** Every consecutive pair of steps is one planner move. */
  predicate Chain(p: seq<Step>, tgt: ClusterState, skipFirstN: int)
  {
    forall i :: 0 <= i < |p| - 1 ==> Move(p[i], p[i + 1], tgt, skipFirstN)
  }

  /** A step that names both colours with non-negative counts. */
  predicate WellFormedStep(st: Step)
  {
    ValidKeys(st) && StepCount(st, Blue) >= 0 && StepCount(st, Green) >= 0
  }

  lemma {:induction false} StepOfPlannedState(cs: ClusterState)
    requires ValidKeys(cs) && Count(cs, Blue) >= 0 && Count(cs, Green) >= 0
    ensures WellFormedStep(AsStep(cs))
  {
  }

  lemma {:induction false} ChainCons(a: Step, q: seq<Step>, tgt: ClusterState, skipFirstN: int)
    requires |q| >= 1 && Move(a, q[0], tgt, skipFirstN) && Chain(q, tgt, skipFirstN)
    ensures Chain([a] + q, tgt, skipFirstN)
  {
    var p := [a] + q;
    forall i | 0 <= i < |p| - 1
      ensures Move(p[i], p[i + 1], tgt, skipFirstN)
    {
      if i > 0 {
        assert p[i] == q[i - 1] && p[i + 1] == q[i];
      }
    }
  }

  /** States with the same counts for both colours have the same step. */
  lemma {:induction false} SameCountsSameStep(a: ClusterState, b: ClusterState)
    requires ValidKeys(a) && ValidKeys(b) && EqualNodeCount(a, b)
    ensures AsStep(a) == AsStep(b)
  {
    assert forall c :: c in AsStep(a) ==> AsStep(a)[c] == StepCount(AsStep(a), c);
    assert forall c :: c in AsStep(b) ==> AsStep(b)[c] == StepCount(AsStep(b), c);
  }

  /** One unfolding of generateSteps, with what the chosen move guarantees. */
  lemma {:induction false} GenerateUnfold(cur: ClusterState, tgt: ClusterState, batchSize: int, skipFirstN: int,
                                          group: Color, addNodes: bool)
    requires PlanDomain(cur, tgt) && SettingsInRange(batchSize, skipFirstN) && group in ValidColors
    requires !EqualNodeCount(cur, tgt)
    ensures var next := NextState(cur, tgt, batchSize, skipFirstN, group, addNodes);
      && PlanDomain(next, tgt)
      && Move(AsStep(cur), AsStep(next), tgt, skipFirstN)
      && Potential(next, tgt, batchSize, skipFirstN) < Potential(cur, tgt, batchSize, skipFirstN)
      && GenerateSteps(cur, tgt, batchSize, skipFirstN, group, addNodes, [])
         == [AsStep(next)] + GenerateSteps(next, tgt, batchSize, skipFirstN, Other(group), !addNodes, [])
  {
  }

  /** generateSteps returns no steps exactly when cur already has the target's counts. */
  lemma {:induction false} GeneratedEmptyIffDone(cur: ClusterState, tgt: ClusterState, batchSize: int, skipFirstN: int,
                                                 group: Color, addNodes: bool)
    requires PlanDomain(cur, tgt) && SettingsInRange(batchSize, skipFirstN) && group in ValidColors
    ensures GenerateSteps(cur, tgt, batchSize, skipFirstN, group, addNodes, []) == [] <==> EqualNodeCount(cur, tgt)
  {
    if !EqualNodeCount(cur, tgt) {
      GenerateUnfold(cur, tgt, batchSize, skipFirstN, group, addNodes);
    }
  }

  /** One unfolding of generateSteps, with only what termination needs. */
  lemma {:induction false} GenerateCons(cur: ClusterState, tgt: ClusterState, batchSize: int, skipFirstN: int,
                                        group: Color, addNodes: bool)
    requires PlanDomain(cur, tgt) && SettingsInRange(batchSize, skipFirstN) && group in ValidColors
    requires !EqualNodeCount(cur, tgt)
    ensures var next := NextState(cur, tgt, batchSize, skipFirstN, group, addNodes);
      && PlanDomain(next, tgt)
      && Potential(next, tgt, batchSize, skipFirstN) < Potential(cur, tgt, batchSize, skipFirstN)
      && GenerateSteps(cur, tgt, batchSize, skipFirstN, group, addNodes, [])
         == [AsStep(next)] + GenerateSteps(next, tgt, batchSize, skipFirstN, Other(group), !addNodes, [])
  {
  }

  /** There are no more generated steps than the potential. */
  lemma {:induction false} GeneratedLength(cur: ClusterState, tgt: ClusterState, batchSize: int, skipFirstN: int,
                                           group: Color, addNodes: bool)
    requires PlanDomain(cur, tgt) && SettingsInRange(batchSize, skipFirstN) && group in ValidColors
    ensures |GenerateSteps(cur, tgt, batchSize, skipFirstN, group, addNodes, [])| <= Potential(cur, tgt, batchSize, skipFirstN)
    decreases Potential(cur, tgt, batchSize, skipFirstN)
  {
    if !EqualNodeCount(cur, tgt) {
      GenerateCons(cur, tgt, batchSize, skipFirstN, group, addNodes);
      var next := NextState(cur, tgt, batchSize, skipFirstN, group, addNodes);
      GeneratedLength(next, tgt, batchSize, skipFirstN, Other(group), !addNodes);
    }
  }

  /** The last generated step is the target's. */
  lemma {:induction false} GeneratedEndsAtTarget(cur: ClusterState, tgt: ClusterState, batchSize: int, skipFirstN: int,
                                                 group: Color, addNodes: bool)
    requires PlanDomain(cur, tgt) && SettingsInRange(batchSize, skipFirstN) && group in ValidColors
    ensures var gen := GenerateSteps(cur, tgt, batchSize, skipFirstN, group, addNodes, []);
      gen != [] ==> gen[|gen| - 1] == AsStep(tgt)
  {
    var tb, tg := Count(tgt, Blue), Count(tgt, Green);
    GenerateStepsOnCounts(cur, tgt, batchSize, skipFirstN, group, addNodes);
    CountTraceEndsAt(Count(cur, Blue), Count(cur, Green), tb, tg, batchSize, skipFirstN, group, addNodes);
    SameStep(tgt, (tb, tg));
  }

  /** The count trace, when not empty, ends at the target counts. */
  lemma {:induction false} CountTraceEndsAt(cb: int, cg: int, tb: int, tg: int, batchSize: int, skipFirstN: int,
                                            group: Color, addNodes: bool)
    requires cb >= 0 && cg >= 0 && tb >= 0 && tg >= 0 && SettingsInRange(batchSize, skipFirstN)
    requires group in ValidColors
    ensures var tr := CountTrace(cb, cg, tb, tg, batchSize, skipFirstN, group, addNodes);
      tr != [] ==> tr[|tr| - 1] == (tb, tg)
    decreases ColourPotential(cb, tb, batchSize, skipFirstN) + ColourPotential(cg, tg, batchSize, skipFirstN)
  {
    if cb != tb || cg != tg {
      var m := ChooseMove(cb, cg, tb, tg, batchSize, skipFirstN, group, addNodes);
      var n := Moved(cb, cg, m);
      CountTraceUnfold(cb, cg, tb, tg, batchSize, skipFirstN, group, addNodes);
      MovedInRange(cb, cg, tb, tg, batchSize, skipFirstN, m);
      CountTraceEndsAt(n.0, n.1, tb, tg, batchSize, skipFirstN, Other(group), !addNodes);
      ConsEndsAt(n, CountTrace(n.0, n.1, tb, tg, batchSize, skipFirstN, Other(group), !addNodes), (tb, tg));
    }
  }

  /** Each generated step is a planner move from the one before, starting from cur. */
  lemma {:induction false} GeneratedMoves(cur: ClusterState, tgt: ClusterState, batchSize: int, skipFirstN: int,
                                          group: Color, addNodes: bool)
    requires PlanDomain(cur, tgt) && SettingsInRange(batchSize, skipFirstN) && group in ValidColors
    ensures Chain([AsStep(cur)] + GenerateSteps(cur, tgt, batchSize, skipFirstN, group, addNodes, []), tgt, skipFirstN)
    decreases Potential(cur, tgt, batchSize, skipFirstN)
  {
    if !EqualNodeCount(cur, tgt) {
      GenerateUnfold(cur, tgt, batchSize, skipFirstN, group, addNodes);
      var next := NextState(cur, tgt, batchSize, skipFirstN, group, addNodes);
      GeneratedMoves(next, tgt, batchSize, skipFirstN, Other(group), !addNodes);
      var rest := GenerateSteps(next, tgt, batchSize, skipFirstN, Other(group), !addNodes, []);
      ChainCons(AsStep(cur), [AsStep(next)] + rest, tgt, skipFirstN);
    }
  }

  /** Every generated step names both colours with non-negative counts. */
  lemma {:induction false} GeneratedWellFormed(cur: ClusterState, tgt: ClusterState, batchSize: int, skipFirstN: int,
                                               group: Color, addNodes: bool)
    requires PlanDomain(cur, tgt) && SettingsInRange(batchSize, skipFirstN) && group in ValidColors
    ensures forall st :: st in GenerateSteps(cur, tgt, batchSize, skipFirstN, group, addNodes, []) ==> WellFormedStep(st)
    decreases Potential(cur, tgt, batchSize, skipFirstN)
  {
    if !EqualNodeCount(cur, tgt) {
      GenerateUnfold(cur, tgt, batchSize, skipFirstN, group, addNodes);
      var next := NextState(cur, tgt, batchSize, skipFirstN, group, addNodes);
      GeneratedWellFormed(next, tgt, batchSize, skipFirstN, Other(group), !addNodes);
      StepOfPlannedState(next);
    }
  }

  /**
   * CreateSteps' result: starts at the current counts, ends at the target
   * counts, each step one planner move, all counts non-negative, and at most
   * one step more than the potential.
   */
  lemma {:induction false} PlanEndpoints(cur: ClusterState, tgt: ClusterState, cfg: Settings)
    requires PlanDomain(cur, tgt) && SettingsInRange(cfg.batchSize, cfg.skipFirstN)
    ensures var p := Plan(cur, tgt, cfg);
      && |p| >= 1
      && p[0] == AsStep(cur)
      && p[|p| - 1] == AsStep(tgt)
      && |p| <= Potential(cur, tgt, cfg.batchSize, cfg.skipFirstN) + 1
  {
    PlanStart(cur, tgt, cfg);
    PlanEnd(cur, tgt, cfg);
  }

  lemma {:induction false} PlanStart(cur: ClusterState, tgt: ClusterState, cfg: Settings)
    requires PlanDomain(cur, tgt) && SettingsInRange(cfg.batchSize, cfg.skipFirstN)
    ensures var p := Plan(cur, tgt, cfg);
      |p| >= 1 && p[0] == AsStep(cur)
  {
    if IsEmpty(cur) && IsEmpty(tgt) {
      PlanOfEmpty(cur, tgt, cfg);
    } else {
      PlanOfNonEmpty(cur, tgt, cfg);
      ConsHead(AsStep(cur), GenerateSteps(cur, tgt, cfg.batchSize, cfg.skipFirstN, BuildColor(tgt), true, []));
    }
  }

  lemma {:induction false} ConsHead(a: Step, gen: seq<Step>)
    ensures |[a] + gen| >= 1 && ([a] + gen)[0] == a
  {
  }

  lemma {:induction false} PlanEnd(cur: ClusterState, tgt: ClusterState, cfg: Settings)
    requires PlanDomain(cur, tgt) && SettingsInRange(cfg.batchSize, cfg.skipFirstN)
    ensures var p := Plan(cur, tgt, cfg);
      && |p| >= 1
      && p[|p| - 1] == AsStep(tgt)
      && |p| <= Potential(cur, tgt, cfg.batchSize, cfg.skipFirstN) + 1
  {
    if IsEmpty(cur) && IsEmpty(tgt) {
      PlanOfEmpty(cur, tgt, cfg);
    } else {
      NonEmptyPlanLast(cur, tgt, cfg);
      NonEmptyPlanLength(cur, tgt, cfg);
    }
  }

  lemma {:induction false} NonEmptyPlanLast(cur: ClusterState, tgt: ClusterState, cfg: Settings)
    requires PlanDomain(cur, tgt) && SettingsInRange(cfg.batchSize, cfg.skipFirstN)
    requires !(IsEmpty(cur) && IsEmpty(tgt))
    ensures var p := Plan(cur, tgt, cfg);
      |p| >= 1 && p[|p| - 1] == AsStep(tgt)
  {
    var cb, cg, tb, tg := Count(cur, Blue), Count(cur, Green), Count(tgt, Blue), Count(tgt, Green);
    PlanOnCounts(cur, tgt, cfg);
    StepsOfTraceEndsAt(cb, cg, tb, tg, cfg.batchSize, cfg.skipFirstN, BuildColor(tgt));
    SameStep(tgt, (tb, tg));
  }

  /** The steps of a counts plan end at the target counts. */
  lemma {:induction false} StepsOfTraceEndsAt(cb: int, cg: int, tb: int, tg: int, batchSize: int, skipFirstN: int,
                                              group: Color)
    requires cb >= 0 && cg >= 0 && tb >= 0 && tg >= 0 && SettingsInRange(batchSize, skipFirstN)
    requires group in ValidColors
    ensures var p := StepsOf([(cb, cg)] + CountTrace(cb, cg, tb, tg, batchSize, skipFirstN, group, true));
      |p| >= 1 && p[|p| - 1] == StepOf((tb, tg))
  {
    var trace := CountTrace(cb, cg, tb, tg, batchSize, skipFirstN, group, true);
    CountTraceEndsAt(cb, cg, tb, tg, batchSize, skipFirstN, group, true);
    if cb != tb || cg != tg {
      CountTraceUnfold(cb, cg, tb, tg, batchSize, skipFirstN, group, true);
    }
    ConsEndsAt((cb, cg), trace, (tb, tg));
    LastOfSteps([(cb, cg)] + trace, (tb, tg));
  }

  lemma {:induction false} LastOfSteps(ps: seq<(int, int)>, t: (int, int))
    requires |ps| >= 1 && ps[|ps| - 1] == t
    ensures |StepsOf(ps)| >= 1 && StepsOf(ps)[|ps| - 1] == StepOf(t)
  {
  }

  lemma {:induction false} NonEmptyPlanLength(cur: ClusterState, tgt: ClusterState, cfg: Settings)
    requires PlanDomain(cur, tgt) && SettingsInRange(cfg.batchSize, cfg.skipFirstN)
    requires !(IsEmpty(cur) && IsEmpty(tgt))
    ensures |Plan(cur, tgt, cfg)| <= Potential(cur, tgt, cfg.batchSize, cfg.skipFirstN) + 1
  {
    PlanOfNonEmpty(cur, tgt, cfg);
    GeneratedLength(cur, tgt, cfg.batchSize, cfg.skipFirstN, BuildColor(tgt), true);
  }

  lemma {:induction false} ConsEndsAt<T>(a: T, gen: seq<T>, t: T)
    requires gen == [] ==> a == t
    requires gen != [] ==> gen[|gen| - 1] == t
    ensures |[a] + gen| == |gen| + 1 && ([a] + gen)[|gen|] == t
  {
  }

  lemma {:induction false} PlanOfEmpty(cur: ClusterState, tgt: ClusterState, cfg: Settings)
    requires PlanDomain(cur, tgt) && SettingsInRange(cfg.batchSize, cfg.skipFirstN)
    requires IsEmpty(cur) && IsEmpty(tgt)
    ensures Plan(cur, tgt, cfg) == [AsStep(cur)] && AsStep(cur) == AsStep(tgt)
  {
    assert EqualNodeCount(cur, tgt) by {
      assert forall c :: Count(cur, c) == 0 == Count(tgt, c);
    }
    SameCountsSameStep(cur, tgt);
  }

  lemma {:induction false} PlanOfNonEmpty(cur: ClusterState, tgt: ClusterState, cfg: Settings)
    requires PlanDomain(cur, tgt) && SettingsInRange(cfg.batchSize, cfg.skipFirstN)
    requires !(IsEmpty(cur) && IsEmpty(tgt))
    ensures Plan(cur, tgt, cfg) == [AsStep(cur)] + GenerateSteps(cur, tgt, cfg.batchSize, cfg.skipFirstN, BuildColor(tgt), true, [])
  {
  }

  /** Every step of CreateSteps' result is a planner move from the one before. */
  lemma {:induction false} PlanMoves(cur: ClusterState, tgt: ClusterState, cfg: Settings)
    requires PlanDomain(cur, tgt) && SettingsInRange(cfg.batchSize, cfg.skipFirstN)
    ensures Chain(Plan(cur, tgt, cfg), tgt, cfg.skipFirstN)
  {
    if !(IsEmpty(cur) && IsEmpty(tgt)) {
      GeneratedMoves(cur, tgt, cfg.batchSize, cfg.skipFirstN, BuildColor(tgt), true);
    }
  }

  /** Every step of CreateSteps' result names both colours with non-negative counts. */
  lemma {:induction false} PlanCountsNonNegative(cur: ClusterState, tgt: ClusterState, cfg: Settings)
    requires PlanDomain(cur, tgt) && SettingsInRange(cfg.batchSize, cfg.skipFirstN)
    ensures forall st :: st in Plan(cur, tgt, cfg) ==> WellFormedStep(st)
  {
    if IsEmpty(cur) && IsEmpty(tgt) {
      StepOfPlannedState(tgt);
    } else {
      StepOfPlannedState(cur);
      GeneratedWellFormed(cur, tgt, cfg.batchSize, cfg.skipFirstN, BuildColor(tgt), true);
    }
  }

  /** Along a chain, every count is its starting value, its target, or above the skip band. */
  lemma {:induction false} ChainAvoidsSkipBand(p: seq<Step>, tgt: ClusterState, skipFirstN: int, i: nat, c: Color)
    requires Chain(p, tgt, skipFirstN) && i < |p|
    ensures StepCount(p[i], c) == StepCount(p[0], c) || StepCount(p[i], c) == Count(tgt, c)
         || StepCount(p[i], c) > skipFirstN
  {
    if i > 0 {
      ChainAvoidsSkipBand(p, tgt, skipFirstN, i - 1, c);
      assert Move(p[i - 1], p[i], tgt, skipFirstN);
    }
  }

  /** The plan never leaves a group with between 1 and skipFirstN nodes unless it started or ends there. */
  lemma {:induction false} PlanAvoidsSkipBand(cur: ClusterState, tgt: ClusterState, cfg: Settings)
    requires PlanDomain(cur, tgt) && SettingsInRange(cfg.batchSize, cfg.skipFirstN)
    ensures var p := Plan(cur, tgt, cfg);
      forall i, c :: 0 <= i < |p| ==>
        StepCount(p[i], c) == Count(cur, c) || StepCount(p[i], c) == Count(tgt, c) || StepCount(p[i], c) > cfg.skipFirstN
  {
    var p := Plan(cur, tgt, cfg);
    PlanEndpoints(cur, tgt, cfg);
    PlanMoves(cur, tgt, cfg);
    forall i, c | 0 <= i < |p|
      ensures StepCount(p[i], c) == Count(cur, c) || StepCount(p[i], c) == Count(tgt, c)
           || StepCount(p[i], c) > cfg.skipFirstN
    {
      ChainAvoidsSkipBand(p, tgt, cfg.skipFirstN, i, c);
    }
  }

  /**
   * generateSteps on the counts alone: the (blue, green) pairs of the steps
   * after (cb, cg) on the way to (tb, tg).
   */
  function CountTrace(cb: int, cg: int, tb: int, tg: int, batchSize: int, skipFirstN: int,
                      group: Color, addNodes: bool): seq<(int, int)>
    requires cb >= 0 && cg >= 0 && tb >= 0 && tg >= 0 && SettingsInRange(batchSize, skipFirstN)
    requires group in ValidColors
    decreases ColourPotential(cb, tb, batchSize, skipFirstN) + ColourPotential(cg, tg, batchSize, skipFirstN)
  {
    if cb == tb && cg == tg then []
    else
      var m := ChooseMove(cb, cg, tb, tg, batchSize, skipFirstN, group, addNodes);
      MovedInRange(cb, cg, tb, tg, batchSize, skipFirstN, m);
      var n := Moved(cb, cg, m);
      [n] + CountTrace(n.0, n.1, tb, tg, batchSize, skipFirstN, Other(group), !addNodes)
  }

  /** The (blue, green) counts after moving colour m.0 by m.1. */
  function Moved(cb: int, cg: int, m: (Color, int)): (int, int)
  {
    if m.0 == Blue then (cb + m.1, cg) else (cb, cg + m.1)
  }

  /** The step holding a (blue, green) pair of counts. */
  function StepOf(p: (int, int)): (st: Step)
    ensures ValidKeys(st) && StepCount(st, Blue) == p.0 && StepCount(st, Green) == p.1
  {
    map[Blue := p.0, Green := p.1]
  }

  function StepsOf(ps: seq<(int, int)>): (r: seq<Step>)
    ensures |r| == |ps| && forall i :: 0 <= i < |ps| ==> r[i] == StepOf(ps[i])
  {
    if ps == [] then [] else [StepOf(ps[0])] + StepsOf(ps[1..])
  }

  lemma {:induction false} StepsOfCons(p: (int, int), ps: seq<(int, int)>)
    ensures StepsOf([p] + ps) == [StepOf(p)] + StepsOf(ps)
  {
    assert ([p] + ps)[1..] == ps;
  }

  /** generateSteps depends only on the counts: versions play no part in the plan. */
  lemma {:induction false} GenerateStepsOnCounts(cur: ClusterState, tgt: ClusterState, batchSize: int, skipFirstN: int,
                                                 group: Color, addNodes: bool)
    requires PlanDomain(cur, tgt) && SettingsInRange(batchSize, skipFirstN) && group in ValidColors
    ensures GenerateSteps(cur, tgt, batchSize, skipFirstN, group, addNodes, [])
         == StepsOf(CountTrace(Count(cur, Blue), Count(cur, Green), Count(tgt, Blue), Count(tgt, Green),
                               batchSize, skipFirstN, group, addNodes))
    decreases Potential(cur, tgt, batchSize, skipFirstN)
  {
    var cb, cg, tb, tg := Count(cur, Blue), Count(cur, Green), Count(tgt, Blue), Count(tgt, Green);
    if !EqualNodeCount(cur, tgt) {
      GenerateUnfold(cur, tgt, batchSize, skipFirstN, group, addNodes);
      var next := NextState(cur, tgt, batchSize, skipFirstN, group, addNodes);
      NextStateCounts(cur, tgt, batchSize, skipFirstN, group, addNodes);
      var nb, ng := Count(next, Blue), Count(next, Green);
      CountTraceUnfold(cb, cg, tb, tg, batchSize, skipFirstN, group, addNodes);
      GenerateStepsOnCounts(next, tgt, batchSize, skipFirstN, Other(group), !addNodes);
      SameStep(next, (nb, ng));
    }
  }

  /** A non-trivial plan is the current counts followed by the count trace: only the four counts and the settings matter. */
  lemma {:induction false} PlanOnCounts(cur: ClusterState, tgt: ClusterState, cfg: Settings)
    requires PlanDomain(cur, tgt) && SettingsInRange(cfg.batchSize, cfg.skipFirstN)
    requires !(IsEmpty(cur) && IsEmpty(tgt))
    ensures var cb, cg := Count(cur, Blue), Count(cur, Green);
      Plan(cur, tgt, cfg)
        == StepsOf([(cb, cg)] + CountTrace(cb, cg, Count(tgt, Blue), Count(tgt, Green),
                                           cfg.batchSize, cfg.skipFirstN, BuildColor(tgt), true))
  {
    var cb, cg := Count(cur, Blue), Count(cur, Green);
    var trace := CountTrace(cb, cg, Count(tgt, Blue), Count(tgt, Green), cfg.batchSize, cfg.skipFirstN, BuildColor(tgt), true);
    PlanOfNonEmpty(cur, tgt, cfg);
    GenerateStepsOnCounts(cur, tgt, cfg.batchSize, cfg.skipFirstN, BuildColor(tgt), true);
    SameStep(cur, (cb, cg));
    StepsOfCons((cb, cg), trace);
  }

  lemma {:induction false} CountTraceUnfold(cb: int, cg: int, tb: int, tg: int, batchSize: int, skipFirstN: int,
                                            group: Color, addNodes: bool)
    requires cb >= 0 && cg >= 0 && tb >= 0 && tg >= 0 && SettingsInRange(batchSize, skipFirstN)
    requires group in ValidColors && (cb != tb || cg != tg)
    ensures var n := Moved(cb, cg, ChooseMove(cb, cg, tb, tg, batchSize, skipFirstN, group, addNodes));
      && n.0 >= 0 && n.1 >= 0
      && CountTrace(cb, cg, tb, tg, batchSize, skipFirstN, group, addNodes)
         == [n] + CountTrace(n.0, n.1, tb, tg, batchSize, skipFirstN, Other(group), !addNodes)
  {
    var m := ChooseMove(cb, cg, tb, tg, batchSize, skipFirstN, group, addNodes);
    MovedInRange(cb, cg, tb, tg, batchSize, skipFirstN, m);
  }

  /** A move chosen by generateSteps' rules never takes a count below zero, and lowers the potential. */
  lemma {:induction false} MovedInRange(cb: int, cg: int, tb: int, tg: int, batchSize: int, skipFirstN: int,
                                            m: (Color, int))
    requires cb >= 0 && cg >= 0 && tb >= 0 && tg >= 0 && SettingsInRange(batchSize, skipFirstN)
    requires m.0 in ValidColors && Pick(m.0, cb, cg) != Pick(m.0, tb, tg)
    requires Pick(m.0, cb, cg) < Pick(m.0, tb, tg) ==>
      m.1 == AddAndSkip(Pick(m.0, cb, cg), Pick(m.0, tb, tg), batchSize, skipFirstN)
    requires Pick(m.0, cb, cg) > Pick(m.0, tb, tg) ==>
      m.1 == -MinusAndSkip(Pick(m.0, cb, cg), Pick(m.0, tb, tg), batchSize, skipFirstN)
    ensures Moved(cb, cg, m).0 >= 0 && Moved(cb, cg, m).1 >= 0
    ensures ColourPotential(Moved(cb, cg, m).0, tb, batchSize, skipFirstN)
            + ColourPotential(Moved(cb, cg, m).1, tg, batchSize, skipFirstN)
          < ColourPotential(cb, tb, batchSize, skipFirstN) + ColourPotential(cg, tg, batchSize, skipFirstN)
  {
    var c, t := Pick(m.0, cb, cg), Pick(m.0, tb, tg);
    if c < t {
      assert c + m.1 >= 0;
      assert ColourPotential(c + m.1, t, batchSize, skipFirstN) < ColourPotential(c, t, batchSize, skipFirstN);
    } else {
      assert c + m.1 >= 0;
      assert ColourPotential(c + m.1, t, batchSize, skipFirstN) < ColourPotential(c, t, batchSize, skipFirstN);
    }
  }

  /** The counts of generateSteps' next state, from the chosen move. */
  lemma {:induction false} NextStateCounts(cur: ClusterState, tgt: ClusterState, batchSize: int, skipFirstN: int,
                                           group: Color, addNodes: bool)
    requires ValidKeys(cur) && ValidKeys(tgt) && group in ValidColors && !EqualNodeCount(cur, tgt)
    ensures var cb, cg := Count(cur, Blue), Count(cur, Green);
      var m := ChooseMove(cb, cg, Count(tgt, Blue), Count(tgt, Green), batchSize, skipFirstN, group, addNodes);
      var next := NextState(cur, tgt, batchSize, skipFirstN, group, addNodes);
      && Count(next, Blue) == Moved(cb, cg, m).0
      && Count(next, Green) == Moved(cb, cg, m).1
  {
  }

  lemma {:induction false} SameStep(cs: ClusterState, p: (int, int))
    requires ValidKeys(cs) && Count(cs, Blue) == p.0 && Count(cs, Green) == p.1
    ensures AsStep(cs) == StepOf(p)
  {
    assert forall c :: c in AsStep(cs) ==> AsStep(cs)[c] == StepCount(AsStep(cs), c);
  }
}
