/**
 * CreateApply of the terraform controller (pkg/controller/terraform/transition.go,
 * its copies iac/terraform-controller/transition.go and the builder inside
 * BuildTransitioner in transition.go): the "terraform apply" argument vector
 * for one step, and the runner that carries it.
 */
module ApplyBuilder {
  import opened Colors
  import opened Semver
  import opened Model
  import opened Runner
  import Text

  /** model.BinaryConfig. */
  datatype BinaryConfig = BinaryConfig(binary: string, args: seq<ValuePair>, privateArgs: seq<ValuePair>,
                                       environment: seq<ValuePair>, workingDirectory: string)

  /** TerraformTransitionConfig. */
  datatype TransitionConfig = TransitionConfig(args: seq<ValuePair>, attachStdOut: bool, attachStdErr: bool)

  const ApplyHead: seq<string> := ["apply", "--auto-approve"]

  /** The name part of a colour's count variable, up to and including "=". */
  function CountName(c: Color): string
    requires c in ValidColors
  {
    "version" + Title(c) + "Count="
  }

  /** "version<Colour>Count=<the step's count>". */
  function CountVar(c: Color, step: Step): string
    requires c in ValidColors
  {
    CountName(c) + Text.IntToString(StepCount(step, c))
  }

  /** "version<Colour>=<the target's version>". */
  function VersionVar(c: Color, target: ClusterState): string
    requires c in ValidColors
  {
    "version" + Title(c) + "=" + VersionString(GroupOf(target, c).version)
  }

  /** The variables one colour contributes. */
  function ColourVars(c: Color, target: ClusterState, step: Step): seq<string>
    requires c in ValidColors
  {
    ["-var", CountVar(c, step), "-var", VersionVar(c, target)]
  }

  /** The variables of the first n colours of ValidColors, in that order. */
  function ColourBlock(n: nat, target: ClusterState, step: Step): seq<string>
    requires n <= |ValidColors|
  {
    if n == 0 then [] else ColourBlock(n - 1, target, step) + ColourVars(ValidColors[n - 1], target, step)
  }

  /** One "-var", "key=value" pair per configured argument, in order. */
  function ExtraVars(args: seq<ValuePair>): (vars: seq<string>)
    ensures |vars| == 2 * |args|
  {
    if |args| == 0 then []
    else ExtraVars(args[..|args| - 1]) + ["-var", args[|args| - 1].key + "=" + args[|args| - 1].value]
  }

  /** The argument vector CreateApply hands the runner. */
  function ApplyArgs(target: ClusterState, step: Step, args: seq<ValuePair>): seq<string>
  {
    ApplyHead + ColourBlock(|ValidColors|, target, step) + ExtraVars(args)
  }

  /** The colour block holds Blue's variables, then Green's. */
  lemma {:induction false} ColourBlockBlueThenGreen(target: ClusterState, step: Step)
    ensures ColourBlock(|ValidColors|, target, step) == ColourVars(Blue, target, step) + ColourVars(Green, target, step)
  {
    assert ColourBlock(1, target, step) == ColourVars(Blue, target, step);
  }

  /** The configured argument at position i sits at 10 + 2i, after its "-var". */
  lemma {:induction false} ExtraVarsAt(args: seq<ValuePair>, i: int)
    requires 0 <= i < |args|
    ensures ExtraVars(args)[2 * i] == "-var"
    ensures ExtraVars(args)[2 * i + 1] == args[i].key + "=" + args[i].value
    decreases |args|
  {
    if i < |args| - 1 {
      ExtraVarsAt(args[..|args| - 1], i);
    }
  }

  /**
   * The layout of the vector: "apply", "--auto-approve", then Blue's count and
   * version variables, then Green's, then one "-var", "key=value" pair per
   * configured argument in order; 10 + 2|args| words in all.
   */
  lemma {:induction false} ApplyArgsLayout(target: ClusterState, step: Step, args: seq<ValuePair>)
    ensures var v := ApplyArgs(target, step, args);
      && |v| == 10 + 2 * |args|
      && v[..2] == ["apply", "--auto-approve"]
      && v[2..6] == ["-var", CountVar(Blue, step), "-var", VersionVar(Blue, target)]
      && v[6..10] == ["-var", CountVar(Green, step), "-var", VersionVar(Green, target)]
      && (forall i :: 0 <= i < |args| ==> v[10 + 2 * i] == "-var" && v[11 + 2 * i] == args[i].key + "=" + args[i].value)
  {
    ColourBlockBlueThenGreen(target, step);
    var head := ApplyHead + ColourVars(Blue, target, step) + ColourVars(Green, target, step);
    assert ApplyArgs(target, step, args) == head + ExtraVars(args);
    Slices(ApplyHead, ColourVars(Blue, target, step), ColourVars(Green, target, step), ExtraVars(args));
    ExtraVarsAfter(head, args);
  }

  /** Where the four parts of a vector of two, four, four and more words sit. */
  lemma {:induction false} Slices(h: seq<string>, b: seq<string>, g: seq<string>, e: seq<string>)
    requires |h| == 2 && |b| == 4 && |g| == 4
    ensures var v := h + b + g + e;
      |v| == 10 + |e| && v[..2] == h && v[2..6] == b && v[6..10] == g
  {
  }

  /** The configured arguments after a ten-word head. */
  lemma {:induction false} ExtraVarsAfter(head: seq<string>, args: seq<ValuePair>)
    requires |head| == 10
    ensures var v := head + ExtraVars(args);
      forall i :: 0 <= i < |args| ==> v[10 + 2 * i] == "-var" && v[11 + 2 * i] == args[i].key + "=" + args[i].value
  {
    var v := head + ExtraVars(args);
    forall i | 0 <= i < |args|
      ensures v[10 + 2 * i] == "-var" && v[11 + 2 * i] == args[i].key + "=" + args[i].value
    {
      ExtraVarsAt(args, i);
    }
  }

  /** Counts come from the step and versions from the target: nothing else of either is read. */
  lemma {:induction false} ApplyArgsReadsCountsAndVersions(t1: ClusterState, s1: Step, t2: ClusterState, s2: Step,
                                                           args: seq<ValuePair>)
    requires forall c :: c in ValidColors ==> StepCount(s1, c) == StepCount(s2, c)
    requires forall c :: c in ValidColors ==> GroupOf(t1, c).version == GroupOf(t2, c).version
    ensures ApplyArgs(t1, s1, args) == ApplyArgs(t2, s2, args)
  {
    ColourBlockBlueThenGreen(t1, s1);
    ColourBlockBlueThenGreen(t2, s2);
    assert ColourVars(Blue, t1, s1) == ColourVars(Blue, t2, s2);
    assert ColourVars(Green, t1, s1) == ColourVars(Green, t2, s2);
  }

  /** A non-negative count reads back from its variable: the text after the name is its decimal numeral. */
  lemma {:induction false} CountVarRoundTrip(c: Color, step: Step)
    requires c in ValidColors && StepCount(step, c) >= 0
    ensures var a := CountVar(c, step);
      && |CountName(c)| <= |a| && a[..|CountName(c)|] == CountName(c)
      && Text.AllDigits(a[|CountName(c)|..])
      && Text.DecimalValue(a[|CountName(c)|..]) == StepCount(step, c)
  {
    var a := CountVar(c, step);
    assert a[|CountName(c)|..] == Text.NatToString(StepCount(step, c));
    Text.NatToStringRoundTrip(StepCount(step, c));
  }

  /** The first append loop of CreateApply: both colours' variables, in ValidColors order. */
  method AppendColourVars(head: seq<string>, target: ClusterState, step: Step) returns (cmdArgs: seq<string>)
    ensures cmdArgs == head + ColourBlock(|ValidColors|, target, step)
  {
    cmdArgs := head;
    var k := 0;
    while k < |ValidColors|
      invariant 0 <= k <= |ValidColors|
      invariant cmdArgs == head + ColourBlock(k, target, step)
    {
      var color := ValidColors[k];
      var countVar := CountVar(color, step);
      var versionVar := VersionVar(color, target);
      ghost var before := cmdArgs;
      cmdArgs := cmdArgs + ["-var", countVar];
      cmdArgs := cmdArgs + ["-var", versionVar];
      AppendVarPairs(head, ColourBlock(k, target, step), countVar, versionVar);
      ColourBlockGrows(k, target, step);
      k := k + 1;
    }
  }

  lemma {:induction false} ColourBlockGrows(k: nat, target: ClusterState, step: Step)
    requires k < |ValidColors|
    ensures ColourBlock(k + 1, target, step)
            == ColourBlock(k, target, step) + ["-var", CountVar(ValidColors[k], step), "-var", VersionVar(ValidColors[k], target)]
  {
  }

  lemma {:induction false} AppendVarPairs(head: seq<string>, block: seq<string>, a: string, b: string)
    ensures head + block + ["-var", a] + ["-var", b] == head + (block + ["-var", a, "-var", b])
  {
  }

  /** The second append loop of CreateApply: the configured arguments. */
  method AppendExtraVars(head: seq<string>, args: seq<ValuePair>) returns (cmdArgs: seq<string>)
    ensures cmdArgs == head + ExtraVars(args)
  {
    cmdArgs := head;
    var i := 0;
    while i < |args|
      invariant 0 <= i <= |args|
      invariant cmdArgs == head + ExtraVars(args[..i])
    {
      assert args[..i + 1][..i] == args[..i];
      cmdArgs := cmdArgs + ["-var", args[i].key + "=" + args[i].value];
      i := i + 1;
    }
    assert args[..i] == args;
  }

  /** The argument vector of CreateApply, built as the source builds it. */
  method BuildApplyArgs(target: ClusterState, step: Step, args: seq<ValuePair>) returns (cmdArgs: seq<string>)
    ensures cmdArgs == ApplyArgs(target, step, args)
  {
    cmdArgs := AppendColourVars(["apply", "--auto-approve"], target, step);
    cmdArgs := AppendExtraVars(cmdArgs, args);
  }

  /**
   * CreateApply: a runner for the apply vector that shows standard output
   * when AttachStdOut is set and suppresses standard error unless
   * AttachStdErr is set, with the private arguments as TF_VAR_ variables and
   * the environment as given; environ stands for os.Environ().
   */
  method CreateApply(cfg: BinaryConfig, tc: TransitionConfig, target: ClusterState, step: Step,
                     environ: seq<string>) returns (r: Runnable)
    ensures r.Command? && fresh(r.runner)
    ensures r.runner.args == ApplyArgs(target, step, tc.args)
    ensures r.runner.binary == ResolvedBinary(cfg.binary) && r.runner.dir == cfg.workingDirectory
    ensures r.runner.options == Options(false, tc.attachStdOut, !tc.attachStdErr)
    ensures r.runner.env == environ + EnvEntries("TF_VAR_", cfg.privateArgs) + EnvEntries("", cfg.environment)
    ensures r.runner.commandString
         == Masked("", cfg.environment) + Masked("TF_VAR_", cfg.privateArgs)
            + Description(cfg.binary, ApplyArgs(target, step, tc.args))
  {
    var cmdArgs := BuildApplyArgs(target, step, tc.args);
    var runConfig := Options(false, tc.attachStdOut, !tc.attachStdErr);
    var cRun := new CmdRunner(cfg.workingDirectory, cfg.binary, runConfig, cmdArgs, environ);
    r := Command(cRun);
    r := AddEnvironment(r, "TF_VAR_", cfg.privateArgs);
    r := AddEnvironment(r, "", cfg.environment);
  }
}
