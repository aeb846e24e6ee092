/**
 * The step planner (pkg/step/steps.go; steps.go at the repository root is
 * the same code): the sequence of blue/green node counts that takes the
 * current cluster to the goal, one colour group per step.
 */
module Steps {
  import opened Colors
  import opened Model

  /** A step option; Go represents each as a closure over *options. */
  datatype StepOption = WithBatchSize(size: int) | WithSkipFirstN(n: int)

  /** The planner's settings. */
  datatype Settings = Settings(batchSize: int, skipFirstN: int)

  const DefaultSettings: Settings := Settings(1, 0)

  /** One option applied as documented: sizes below 1 become 1, negative skips become 0. */
  function ApplyOption(s: Settings, opt: StepOption): (r: Settings)
    ensures opt.WithBatchSize? ==> r.skipFirstN == s.skipFirstN && r.batchSize >= 1
    ensures opt.WithBatchSize? && opt.size >= 1 ==> r.batchSize == opt.size
    ensures opt.WithSkipFirstN? ==> r.batchSize == s.batchSize && r.skipFirstN >= 0
    ensures opt.WithSkipFirstN? && opt.n >= 0 ==> r.skipFirstN == opt.n
  {
    match opt
    case WithBatchSize(size) => s.(batchSize := if size <= 0 then 1 else size)
    case WithSkipFirstN(n) => s.(skipFirstN := if n < 0 then 0 else n)
  }

  /** The settings after applying the options in order to the defaults. */
  function Configure(opts: seq<StepOption>): (cfg: Settings)
    ensures cfg.batchSize >= 1 && cfg.skipFirstN >= 0
    ensures (forall i :: 0 <= i < |opts| ==> !opts[i].WithBatchSize?) ==> cfg.batchSize == 1
    ensures (forall i :: 0 <= i < |opts| ==> !opts[i].WithSkipFirstN?) ==> cfg.skipFirstN == 0
  {
    if |opts| == 0 then DefaultSettings
    else ApplyOption(Configure(opts[..|opts| - 1]), opts[|opts| - 1])
  }

  /** The mutable options record the closures update. */
  class Options {
    var batchSize: int
    var skipFirstN: int

    constructor ()
      ensures batchSize == DefaultSettings.batchSize && skipFirstN == DefaultSettings.skipFirstN
    {
      batchSize := 1;
      skipFirstN := 0;
    }

    function Current(): Settings
      reads this
    {
      Settings(batchSize, skipFirstN)
    }

    /** The option closures as written: the guard's value is overwritten on the next line. */
    method ApplyAsWritten(opt: StepOption)
      modifies this
      ensures opt.WithBatchSize? ==> batchSize == opt.size && skipFirstN == old(skipFirstN)
      ensures opt.WithSkipFirstN? ==> skipFirstN == opt.n && batchSize == old(batchSize)
    {
      match opt
      case WithBatchSize(size) =>
        if size <= 0 {
          batchSize := 1;
        }
        batchSize := size;
      case WithSkipFirstN(n) =>
        if n < 0 {
          skipFirstN := 0;
        }
        skipFirstN := n;
    }

    /** The option closures with the guard taking effect. */
    method Apply(opt: StepOption)
      modifies this
      ensures Current() == ApplyOption(old(Current()), opt)
    {
      match opt
      case WithBatchSize(size) =>
        if size <= 0 {
          batchSize := 1;
        } else {
          batchSize := size;
        }
      case WithSkipFirstN(n) =>
        if n < 0 {
          skipFirstN := 0;
        } else {
          skipFirstN := n;
        }
    }
  }

  /** The node counts of a cluster state, per colour. */
  function AsStep(cs: ClusterState): (step: Step)
    ensures step.Keys == cs.Keys
    ensures forall c :: StepCount(step, c) == Count(cs, c)
  {
    map c | c in cs :: cs[c].count
  }

  /** Both states hold the valid colours with non-negative counts. */
  predicate PlanDomain(cur: ClusterState, tgt: ClusterState)
  {
    ValidKeys(cur) && ValidKeys(tgt)
    && Count(cur, Blue) >= 0 && Count(cur, Green) >= 0
    && Count(tgt, Blue) >= 0 && Count(tgt, Green) >= 0
  }

  predicate SettingsInRange(batchSize: int, skipFirstN: int)
  {
    batchSize >= 1 && skipFirstN >= 0
  }

  /**
   * How far one colour is from its target, in a measure every move lowers:
   * at the target 0; above it the count; above the skip band the distance;
   * inside the skip band a bound on any jump out of it.
   */
  function ColourPotential(c: int, t: int, batchSize: int, skipFirstN: int): nat
    requires c >= 0 && t >= 0 && SettingsInRange(batchSize, skipFirstN)
  {
    if c == t then 0
    else if c > t then c
    else if c > skipFirstN then t - c
    else c + skipFirstN + batchSize + t + 1
  }

  function Potential(cur: ClusterState, tgt: ClusterState, batchSize: int, skipFirstN: int): nat
    requires PlanDomain(cur, tgt) && SettingsInRange(batchSize, skipFirstN)
  {
    ColourPotential(Count(cur, Blue), Count(tgt, Blue), batchSize, skipFirstN)
    + ColourPotential(Count(cur, Green), Count(tgt, Green), batchSize, skipFirstN)
  }

  /**
   * Nodes to add to a group below its target: land on the target once above
   * the skip band and within a batch of it; from low in the band jump by
   * skipFirstN + 1; otherwise one batch.
   */
  function AddAndSkip(current: int, target: int, batchSize: int, skipFirstN: int): (delta: int)
    ensures 0 <= current < target && SettingsInRange(batchSize, skipFirstN) ==>
      && delta >= 1
      && (current + delta == target || current + delta > skipFirstN)
      && (current > skipFirstN ==> current + delta <= target && delta <= batchSize)
      && ColourPotential(current + delta, target, batchSize, skipFirstN)
         < ColourPotential(current, target, batchSize, skipFirstN)
  {
    if current > skipFirstN && current + batchSize >= target then target - current
    else if current + batchSize <= skipFirstN then skipFirstN + 1
    else batchSize
  }

  /**
   * Nodes to remove from a group above its target: one batch, unless that
   * would enter the skip band, in which case everything down to the target.
   */
  function MinusAndSkip(current: int, target: int, batchSize: int, skipFirstN: int): (delta: int)
    ensures 0 <= target < current && SettingsInRange(batchSize, skipFirstN) ==>
      && 1 <= delta <= current
      && (current - delta == target || (delta == batchSize && current - delta > skipFirstN))
      && ColourPotential(current - delta, target, batchSize, skipFirstN)
         < ColourPotential(current, target, batchSize, skipFirstN)
  {
    if current - batchSize <= skipFirstN then current - target else batchSize
  }

  /** A count moved from current by one planner move relative to its target. */
  predicate Toward(current: int, next: int, target: int)
  {
    && (current < target ==> next > current)
    && (current > target ==> next < current)
    && (current == target ==> next == current)
  }

  /**
   * One planner move between two steps: exactly one colour changes, in the
   * direction of its target, to the target or above the skip band.
   */
  predicate Move(a: Step, b: Step, tgt: ClusterState, skipFirstN: int)
  {
    && ((StepCount(a, Blue) != StepCount(b, Blue)) != (StepCount(a, Green) != StepCount(b, Green)))
    && (StepCount(a, Blue) != StepCount(b, Blue) ==> Toward(StepCount(a, Blue), StepCount(b, Blue), Count(tgt, Blue)))
    && (StepCount(a, Green) != StepCount(b, Green) ==> Toward(StepCount(a, Green), StepCount(b, Green), Count(tgt, Green)))
    && (forall c :: StepCount(b, c) == StepCount(a, c) || StepCount(b, c) == Count(tgt, c) || StepCount(b, c) > skipFirstN)
  }

  /** The count of colour c, given the blue and the green count. */
  function Pick(c: Color, blue: int, green: int): int
  {
    if c == Blue then blue else green
  }

  /**
   * generateSteps' choice of the group to change and by how much, from the
   * current counts (cb, cg) and the target counts (tb, tg): its own group in
   * the current phase, else the other group, else its own group in the
   * opposite direction.
   */
  function ChooseMove(cb: int, cg: int, tb: int, tg: int, batchSize: int, skipFirstN: int, group: Color, addNodes: bool)
    : (m: (Color, int))
    requires group in ValidColors && (cb != tb || cg != tg)
    ensures m.0 in ValidColors && Pick(m.0, cb, cg) != Pick(m.0, tb, tg)
    ensures Pick(m.0, cb, cg) < Pick(m.0, tb, tg) ==>
      m.1 == AddAndSkip(Pick(m.0, cb, cg), Pick(m.0, tb, tg), batchSize, skipFirstN)
    ensures Pick(m.0, cb, cg) > Pick(m.0, tb, tg) ==>
      m.1 == -MinusAndSkip(Pick(m.0, cb, cg), Pick(m.0, tb, tg), batchSize, skipFirstN)
  {
    var other := Other(group);
    var current, target := Pick(group, cb, cg), Pick(group, tb, tg);
    var otherCurrent, otherTarget := Pick(other, cb, cg), Pick(other, tb, tg);
    if current < target && addNodes then
      (group, AddAndSkip(current, target, batchSize, skipFirstN))
    else if current > target && !addNodes then
      (group, -MinusAndSkip(current, target, batchSize, skipFirstN))
    else if otherCurrent < otherTarget then
      (other, AddAndSkip(otherCurrent, otherTarget, batchSize, skipFirstN))
    else if otherCurrent > otherTarget then
      (other, -MinusAndSkip(otherCurrent, otherTarget, batchSize, skipFirstN))
    else if current < target then
      (group, AddAndSkip(current, target, batchSize, skipFirstN))
    else if current > target then
      (group, -MinusAndSkip(current, target, batchSize, skipFirstN))
    else
      // panic("next state not created"): both colours already match the target
      assert false; (group, 0)
  }

  /** A chosen move keeps the counts in range, is a planner move, and lowers the potential. */
  lemma {:induction false} MoveLowersPotential(cur: ClusterState, tgt: ClusterState, batchSize: int, skipFirstN: int,
                                               x: Color, delta: int)
    requires PlanDomain(cur, tgt) && SettingsInRange(batchSize, skipFirstN) && x in ValidColors
    requires Count(cur, x) != Count(tgt, x)
    requires Count(cur, x) < Count(tgt, x) ==> delta == AddAndSkip(Count(cur, x), Count(tgt, x), batchSize, skipFirstN)
    requires Count(cur, x) > Count(tgt, x) ==> delta == -MinusAndSkip(Count(cur, x), Count(tgt, x), batchSize, skipFirstN)
    ensures PlanDomain(AddNodes(cur, x, delta), tgt)
    ensures Move(AsStep(cur), AsStep(AddNodes(cur, x, delta)), tgt, skipFirstN)
    ensures Potential(AddNodes(cur, x, delta), tgt, batchSize, skipFirstN) < Potential(cur, tgt, batchSize, skipFirstN)
  {
    var next := AddNodes(cur, x, delta);
    var y := Other(x);
    assert Count(next, y) == Count(cur, y);
    assert Count(next, x) == Count(cur, x) + delta;
    assert forall c :: c != x ==> Count(next, c) == Count(cur, c);
  }

  /** generateSteps' next state. */
  function NextState(cur: ClusterState, tgt: ClusterState, batchSize: int, skipFirstN: int, group: Color, addNodes: bool)
    : (next: ClusterState)
    requires ValidKeys(cur) && ValidKeys(tgt) && group in ValidColors && !EqualNodeCount(cur, tgt)
    ensures ValidKeys(next)
    ensures forall c :: GroupOf(next, c).version == GroupOf(cur, c).version
    ensures PlanDomain(cur, tgt) && SettingsInRange(batchSize, skipFirstN) ==>
      && PlanDomain(next, tgt)
      && Move(AsStep(cur), AsStep(next), tgt, skipFirstN)
      && Potential(next, tgt, batchSize, skipFirstN) < Potential(cur, tgt, batchSize, skipFirstN)
  {
    var (x, delta) := ChooseMove(Count(cur, Blue), Count(cur, Green), Count(tgt, Blue), Count(tgt, Green),
                                 batchSize, skipFirstN, group, addNodes);
    ChosenMoveFacts(cur, tgt, batchSize, skipFirstN, x, delta);
    AddNodes(cur, x, delta)
  }

  /** What NextState promises, for any move chosen by ChooseMove's rules. */
  lemma {:induction false} ChosenMoveFacts(cur: ClusterState, tgt: ClusterState, batchSize: int, skipFirstN: int,
                                           x: Color, delta: int)
    requires ValidKeys(cur) && ValidKeys(tgt) && x in ValidColors && Count(cur, x) != Count(tgt, x)
    requires Count(cur, x) < Count(tgt, x) ==> delta == AddAndSkip(Count(cur, x), Count(tgt, x), batchSize, skipFirstN)
    requires Count(cur, x) > Count(tgt, x) ==> delta == -MinusAndSkip(Count(cur, x), Count(tgt, x), batchSize, skipFirstN)
    ensures var next := AddNodes(cur, x, delta);
      && ValidKeys(next)
      && (forall c :: GroupOf(next, c).version == GroupOf(cur, c).version)
      && (PlanDomain(cur, tgt) && SettingsInRange(batchSize, skipFirstN) ==>
            && PlanDomain(next, tgt)
            && Move(AsStep(cur), AsStep(next), tgt, skipFirstN)
            && Potential(next, tgt, batchSize, skipFirstN) < Potential(cur, tgt, batchSize, skipFirstN))
  {
    if PlanDomain(cur, tgt) && SettingsInRange(batchSize, skipFirstN) {
      MoveLowersPotential(cur, tgt, batchSize, skipFirstN, x, delta);
    }
  }

  /** generateSteps: the steps after cur, alternating the group and the add/remove phase. */
  function GenerateSteps(cur: ClusterState, tgt: ClusterState, batchSize: int, skipFirstN: int,
                         group: Color, addNodes: bool, steps: seq<Step>): seq<Step>
    requires PlanDomain(cur, tgt) && SettingsInRange(batchSize, skipFirstN) && group in ValidColors
    decreases Potential(cur, tgt, batchSize, skipFirstN)
  {
    if EqualNodeCount(cur, tgt) then steps
    else
      var next := NextState(cur, tgt, batchSize, skipFirstN, group, addNodes);
      [AsStep(next)] + GenerateSteps(next, tgt, batchSize, skipFirstN, Other(group), !addNodes, steps)
  }

  /** The colour the plan starts building on: the target's group, Blue when that is Unknown. */
  function BuildColor(tgt: ClusterState): (c: Color)
    ensures c in ValidColors
    ensures Group(tgt).0 != Unknown ==> c == Group(tgt).0
  {
    var (g, _) := Group(tgt);
    if g == Unknown then ValidColors[0] else g
  }

  /** The plan CreateSteps returns for already-configured settings. */
  function Plan(cur: ClusterState, tgt: ClusterState, cfg: Settings): seq<Step>
    requires PlanDomain(cur, tgt) && SettingsInRange(cfg.batchSize, cfg.skipFirstN)
  {
    if IsEmpty(cur) && IsEmpty(tgt) then [AsStep(tgt)]
    else [AsStep(cur)] + GenerateSteps(cur, tgt, cfg.batchSize, cfg.skipFirstN, BuildColor(tgt), true, [])
  }

  /** CreateSteps: the steps from the current state to the target under the given options. */
  method CreateSteps(cur: ClusterState, tgt: ClusterState, stepOptions: seq<StepOption>) returns (steps: seq<Step>)
    requires PlanDomain(cur, tgt)
    ensures steps == Plan(cur, tgt, Configure(stepOptions))
  {
    if IsEmpty(cur) && IsEmpty(tgt) {
      return [AsStep(tgt)];
    }
    var options := new Options();
    for i := 0 to |stepOptions|
      invariant options.Current() == Configure(stepOptions[..i])
    {
      assert stepOptions[..i + 1][..i] == stepOptions[..i];
      options.Apply(stepOptions[i]);
    }
    assert stepOptions[..|stepOptions|] == stepOptions;
    var (buildColor, _) := Group(tgt);
    if buildColor == Unknown {
      buildColor := ValidColors[0];
    }
    steps := [AsStep(cur)] + GenerateSteps(cur, tgt, options.batchSize, options.skipFirstN, buildColor, true, []);
  }
}
