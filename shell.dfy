/**
 * The terraform binary as the controllers see it through Runnable.Output.
 * Starting a process is outside the model: every invocation is recorded by
 * its argument vector, and what it answers is a function of the invocations
 * made so far, the current one last.
 */
module Shell {
  import opened Wrappers
  import opened Model

  /** The arguments of one invocation, after the binary. */
  type Command = seq<string>

  const StatePullCommand: Command := ["state", "pull"]
  const StateListCommand: Command := ["state", "list"]

  class Binary {
    /** The standard output of a successful run, or the error Output returns. */
    const output: seq<Command> -> Result<string, Error>
    /** The cluster a "state pull" run parses to (the state file parser is not part of this model). */
    const state: seq<Command> -> Result<Cluster, Error>
    /** Runnable.String of the runner built for a command. */
    const describe: Command -> string
    /** Every invocation so far, in order. */
    var ran: seq<Command>

    constructor (output: seq<Command> -> Result<string, Error>, state: seq<Command> -> Result<Cluster, Error>,
                 describe: Command -> string)
      ensures this.output == output && this.state == state && this.describe == describe
      ensures ran == []
    {
      this.output := output;
      this.state := state;
      this.describe := describe;
      ran := [];
    }

    /** Runnable.Output of the runner built for args. */
    method Run(args: Command) returns (r: Result<string, Error>)
      modifies this
      ensures ran == old(ran) + [args]
      ensures r == output(ran)
    {
      ran := ran + [args];
      r := output(ran);
    }

    /** ClusterGetter.GetCluster: one "state pull" run and its parse. */
    method GetCluster() returns (r: Result<Cluster, Error>)
      modifies this
      ensures ran == old(ran) + [StatePullCommand]
      ensures r == state(ran)
    {
      ran := ran + [StatePullCommand];
      r := state(ran);
    }
  }
}
