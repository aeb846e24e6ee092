/**
 * The command runner of pkg/runner/runner.go without the process it starts:
 * the option setters, the runner's description, and the environment it
 * hands to the process. os.Environ() at construction is a parameter.
 */
module Runner {
  import opened Wrappers
  import opened Model
  import Text

  /** model.ValuePair: a case-sensitive name and its value. */
  datatype ValuePair = ValuePair(key: string, value: string)

  /** runner.Options; each With setter returns a copy with one field replaced. */
  datatype Options = Options(interactive: bool, showOutput: bool, suppressErrOutput: bool)
  {
    function WithInteractive(on: bool): (o: Options)
      ensures o.interactive == on
      ensures o.showOutput == showOutput && o.suppressErrOutput == suppressErrOutput
    {
      this.(interactive := on)
    }

    function WithShowOutput(on: bool): (o: Options)
      ensures o.showOutput == on
      ensures o.interactive == interactive && o.suppressErrOutput == suppressErrOutput
    {
      this.(showOutput := on)
    }

    function WithSuppressErrOutput(on: bool): (o: Options)
      ensures o.suppressErrOutput == on
      ensures o.interactive == interactive && o.showOutput == showOutput
    {
      this.(suppressErrOutput := on)
    }
  }

  /** The binary NewCMDRunner runs: terraform when none is configured. */
  function ResolvedBinary(binary: string): (b: string)
    ensures binary == "" ==> b == "terraform"
    ensures binary != "" ==> b == binary
  {
    if binary == "" then "terraform" else binary
  }

  /** The description NewCMDRunner gives a runner: the binary and its arguments, space separated. */
  function Description(binary: string, args: seq<string>): string
  {
    Text.Join([ResolvedBinary(binary)] + args, " ")
  }

  /** When no word holds a space, the description splits back into the binary and the arguments. */
  lemma {:induction false} DescriptionWords(binary: string, args: seq<string>)
    requires ' ' !in binary
    requires forall k :: 0 <= k < |args| ==> ' ' !in args[k]
    ensures Text.Split(Description(binary, args), ' ') == [ResolvedBinary(binary)] + args
  {
    var words := [ResolvedBinary(binary)] + args;
    assert forall k :: 0 <= k < |words| ==> ' ' !in words[k] by {
      forall k | 0 <= k < |words|
        ensures ' ' !in words[k]
      {
        if k > 0 {
          assert words[k] == args[k - 1];
        }
      }
    }
    Text.JoinSplitRoundTrip(words, ' ');
  }

  class CmdRunner {
    const binary: string
    const dir: string
    const args: seq<string>
    const options: Options
    /** What String reports. */
    var commandString: string
    /** The environment the process starts with. */
    var env: seq<string>

    /** NewCMDRunner; environ stands for os.Environ() at this point. */
    constructor (dir: string, binary: string, options: Options, args: seq<string>, environ: seq<string>)
      ensures this.binary == ResolvedBinary(binary) && this.dir == dir
      ensures this.args == args && this.options == options
      ensures commandString == Description(binary, args)
      ensures env == environ
    {
      this.binary := ResolvedBinary(binary);
      this.dir := dir;
      this.args := args;
      this.options := options;
      commandString := Text.Join([ResolvedBinary(binary)] + args, " ");
      env := environ;
    }
  }

  /** A Runnable: one built by NewCMDRunner, or any other implementation, known by its description. */
  datatype Runnable = Command(runner: CmdRunner) | Foreign(description: string)

  /** The environment entry for a pair. */
  function EnvEntry(prefix: string, p: ValuePair): string
  {
    prefix + p.key + "=" + p.value
  }

  /** The environment entries for pairs, in order. */
  function EnvEntries(prefix: string, pairs: seq<ValuePair>): (entries: seq<string>)
    ensures |entries| == |pairs|
  {
    if |pairs| == 0 then [] else EnvEntries(prefix, pairs[..|pairs| - 1]) + [EnvEntry(prefix, pairs[|pairs| - 1])]
  }

  /** The entry for the i-th pair is the i-th entry. */
  lemma {:induction false} EnvEntriesAt(prefix: string, pairs: seq<ValuePair>, i: int)
    requires 0 <= i < |pairs|
    ensures EnvEntries(prefix, pairs)[i] == prefix + pairs[i].key + "=" + pairs[i].value
    decreases |pairs|
  {
    if i < |pairs| - 1 {
      EnvEntriesAt(prefix, pairs[..|pairs| - 1], i);
    }
  }

  /** The description entry for a pair: its name with the value masked. */
  function MaskedEntry(prefix: string, p: ValuePair): string
  {
    prefix + p.key + "=xxxx"
  }

  /** What AddEnvironment puts in front of the description: each pair goes first in turn, so the last pair leads. */
  function Masked(prefix: string, pairs: seq<ValuePair>): string
  {
    if |pairs| == 0 then "" else MaskedEntry(prefix, pairs[|pairs| - 1]) + Masked(prefix, pairs[..|pairs| - 1])
  }

  /** The masked description depends on the names only, never on the values. */
  lemma {:induction false} MaskedIgnoresValues(prefix: string, a: seq<ValuePair>, b: seq<ValuePair>)
    requires |a| == |b|
    requires forall i :: 0 <= i < |a| ==> a[i].key == b[i].key
    ensures Masked(prefix, a) == Masked(prefix, b)
    decreases |a|
  {
    if |a| > 0 {
      MaskedIgnoresValues(prefix, a[..|a| - 1], b[..|b| - 1]);
    }
  }

  /** The first pair ends up last in the masked description. */
  lemma {:induction false} MaskedFirstPairLast(prefix: string, pairs: seq<ValuePair>)
    requires |pairs| >= 1
    ensures Masked(prefix, pairs) == Masked(prefix, pairs[1..]) + MaskedEntry(prefix, pairs[0])
    decreases |pairs|
  {
    if |pairs| > 1 {
      MaskedFirstPairLast(prefix, pairs[..|pairs| - 1]);
      assert pairs[..|pairs| - 1][1..] == pairs[1..][..|pairs| - 2];
    }
  }

  /**
   * AddEnvironment: on a runner built by NewCMDRunner, append one entry per
   * pair to the environment and put the pair's masked entry in front of the
   * description; any other runnable is returned untouched.
   */
  method AddEnvironment(runnable: Runnable, prefix: string, environment: seq<ValuePair>) returns (r: Runnable)
    modifies if runnable.Command? then {runnable.runner} else {}
    ensures r == runnable
    ensures runnable.Command? ==>
      && runnable.runner.env == old(runnable.runner.env) + EnvEntries(prefix, environment)
      && runnable.runner.commandString == Masked(prefix, environment) + old(runnable.runner.commandString)
  {
    if runnable.Command? {
      var cRun := runnable.runner;
      var i := 0;
      while i < |environment|
        invariant 0 <= i <= |environment|
        invariant cRun.env == old(cRun.env) + EnvEntries(prefix, environment[..i])
        invariant cRun.commandString == Masked(prefix, environment[..i]) + old(cRun.commandString)
      {
        var pair := environment[i];
        assert environment[..i + 1][..i] == environment[..i];
        cRun.commandString := prefix + pair.key + "=xxxx" + cRun.commandString;
        cRun.env := cRun.env + [prefix + pair.key + "=" + pair.value];
        i := i + 1;
      }
      assert environment[..i] == environment;
    }
    r := runnable;
  }

  /** ExitError: its text is the captured standard error, and it wraps the captured error. */
  lemma {:induction false} ExitErrorTextAndCause(captured: Error, errOutput: string)
    ensures Message(ExitFailure(captured, errOutput)) == errOutput
    ensures Unwrap(ExitFailure(captured, errOutput)) == Some(captured)
    ensures Is(ExitFailure(captured, errOutput), captured)
  {
    assert Is(captured, captured);
  }
}
