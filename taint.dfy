/**
 * Tainting a host's resources (taint.go): look the resources up, taint them
 * one by one, tolerate the failures terraform reports for resources that
 * cannot be tainted, and stop at the first other failure.
 */
module Taint {
  import opened Wrappers
  import opened Colors
  import opened Model
  import opened Shell
  import opened Graph
  import Text

  const UntaintableText: string := "cannot be tainted"
  const NoSuchInstanceText: string := "no such resource instance"

  /** The text checkRecoverable inspects: a process exit's standard error, an ExitError's captured output, otherwise Error(). */
  function InspectedText(e: Error): string
  {
    match e
    case ProcessExit(_, stderr) => stderr
    case ExitFailure(_, errOutput) => errOutput
    case _ => Message(e)
  }

  /** The inspected text, lower-cased, says the resource cannot be tainted. */
  predicate Untaintable(e: Error)
  {
    Text.Contains(Text.ToLower(InspectedText(e)), UntaintableText)
  }

  /** The inspected text, lower-cased, says there is no such resource instance. */
  predicate Missing(e: Error)
  {
    Text.Contains(Text.ToLower(InspectedText(e)), NoSuchInstanceText)
  }

  /**
   * checkRecoverable: no error stays none; an error whose inspected text
   * mentions an untaintable resource is dropped; one that mentions a missing
   * resource instance becomes errNoSuchResource; any other is returned as is.
   * The untaintable check comes first.
   */
  function CheckRecoverable(err: Option<Error>): (r: Option<Error>)
    ensures err.None? ==> r.None?
    ensures err.Some? ==> (r.None? <==> Untaintable(err.value))
    ensures r.Some? && Missing(err.value) ==> r == Some(Sentinel(NoSuchResource))
    ensures r.Some? && !Missing(err.value) ==> r == err
  {
    if err.None? then None
    else if Untaintable(err.value) then None
    else if Missing(err.value) then Some(Sentinel(NoSuchResource))
    else err
  }

  /** The lower-cased text of before + mention + after holds the lower-cased mention at |before|. */
  lemma {:induction false} LowerKeepsMention(before: string, mention: string, after: string)
    ensures Text.OccursAt(Text.ToLower(before + mention + after), Text.ToLower(mention), |before|)
  {
    var s := before + mention + after;
    var low := Text.ToLower(s);
    forall k | 0 <= k < |mention|
      ensures low[|before|..|before| + |mention|][k] == Text.ToLower(mention)[k]
    {
      assert s[|before| + k] == mention[k];
    }
  }

  /** A process exit whose standard error says, in any case, that a resource cannot be tainted is tolerated. */
  lemma {:induction false} UntaintableExitTolerated(status: string, before: string, mention: string, after: string)
    requires Text.ToLower(mention) == UntaintableText
    ensures CheckRecoverable(Some(ProcessExit(status, before + mention + after))) == None
  {
    LowerKeepsMention(before, mention, after);
  }

  /**
   * A process exit whose standard error says, in any case, that there is no
   * such resource instance, and not that it cannot be tainted, becomes
   * errNoSuchResource.
   */
  lemma {:induction false} MissingExitIsNoSuchResource(status: string, before: string, mention: string, after: string)
    requires Text.ToLower(mention) == NoSuchInstanceText
    requires !Untaintable(ProcessExit(status, before + mention + after))
    ensures CheckRecoverable(Some(ProcessExit(status, before + mention + after))) == Some(Sentinel(NoSuchResource))
  {
    LowerKeepsMention(before, mention, after);
  }

  /** The taint run for one resource. */
  function TaintCommand(key: string): Command
  {
    ["taint", key]
  }

  /** The taint runs for resources, in order. */
  function Taints(resources: seq<string>): (cs: seq<Command>)
    ensures |cs| == |resources|
  {
    if |resources| == 0 then [] else Taints(resources[..|resources| - 1]) + [TaintCommand(resources[|resources| - 1])]
  }

  /** The run that ends ran was tolerated: it succeeded, or failed recoverably. */
  predicate Tolerated(b: Binary, ran: seq<Command>)
  {
    b.output(ran).Success? || Untaintable(b.output(ran).error)
  }

  /** The run of the j-th resource, after those before it, was tolerated. */
  predicate ToleratedAt(b: Binary, ran: seq<Command>, resources: seq<string>, j: int)
    requires 0 <= j < |resources|
  {
    Tolerated(b, ran + Taints(resources[..j + 1]))
  }

  /** The error TaintResources returns for an unrecoverable failure: the runner's error, wrapped with its description. */
  function TaintFailure(b: Binary, ran: seq<Command>, key: string): Error
    requires b.output(ran).Failure?
  {
    Wrapped("", b.output(ran).error, ": tainting failed with runner: " + b.describe(TaintCommand(key)))
  }

  /** TaintResources from the i-th resource on, the runs of the first i having been tolerated. */
  function TaintFrom(b: Binary, ran: seq<Command>, resources: seq<string>, i: nat): (seq<Command>, Option<Error>)
    requires i <= |resources|
    decreases |resources| - i
  {
    if i == |resources| then (ran + Taints(resources[..i]), None)
    else
      var after := ran + Taints(resources[..i + 1]);
      if !Tolerated(b, after) then (after, Some(TaintFailure(b, after, resources[i])))
      else TaintFrom(b, ran, resources, i + 1)
  }

  /** TaintResources as a function of the binary's answers: the runs after ran, and the error. */
  function TaintSpec(b: Binary, ran: seq<Command>, resources: seq<string>): (seq<Command>, Option<Error>)
  {
    TaintFrom(b, ran, resources, 0)
  }

  /** From the i-th resource on, the runs are a prefix of the taints, ending at the failing run if there is one. */
  lemma {:induction false} TaintFromRuns(b: Binary, ran: seq<Command>, resources: seq<string>, i: nat)
    requires i <= |resources|
    ensures var (after, err) := TaintFrom(b, ran, resources, i);
      var n := |after| - |ran|;
      && i <= n <= |resources|
      && after == ran + Taints(resources[..n])
      && (err.None? ==> n == |resources|)
      && (err.Some? ==> n > i && !ToleratedAt(b, ran, resources, n - 1) && err.value == TaintFailure(b, after, resources[n - 1]))
    decreases |resources| - i
  {
    if i < |resources| && ToleratedAt(b, ran, resources, i) {
      TaintFromRuns(b, ran, resources, i + 1);
    }
  }

  /** From the i-th resource on, every run before the last was tolerated, and all were when no error comes back. */
  lemma {:induction false} TaintFromTolerated(b: Binary, ran: seq<Command>, resources: seq<string>, i: nat)
    requires i <= |resources|
    ensures var (after, err) := TaintFrom(b, ran, resources, i);
      && (forall j :: i <= j < |resources| && j < |after| - |ran| - 1 ==> ToleratedAt(b, ran, resources, j))
      && (err.None? ==> forall j :: i <= j < |resources| ==> ToleratedAt(b, ran, resources, j))
    decreases |resources| - i
  {
    if i < |resources| && ToleratedAt(b, ran, resources, i) {
      TaintFromTolerated(b, ran, resources, i + 1);
      var (after, err) := TaintFrom(b, ran, resources, i + 1);
      assert TaintFrom(b, ran, resources, i) == (after, err);
      forall j | i <= j < |resources| && (j < |after| - |ran| - 1 || err.None?)
        ensures ToleratedAt(b, ran, resources, j)
      {
      }
    } else if i < |resources| {
      assert |TaintFrom(b, ran, resources, i).0| - |ran| - 1 == i;
    }
  }

  /**
   * TaintResources runs taint for a prefix of the resources, in order, and
   * every run but a failing last one was tolerated; it returns no error
   * exactly when every run was tolerated, and then it ran them all; otherwise
   * it returns the wrapped error of the run it stopped at, which errors.Is
   * still finds.
   */
  lemma {:induction false} TaintOutcome(b: Binary, ran: seq<Command>, resources: seq<string>)
    ensures var (after, err) := TaintSpec(b, ran, resources);
      var n := |after| - |ran|;
      && 0 <= n <= |resources|
      && after == ran + Taints(resources[..n])
      && (forall j :: 0 <= j < n - 1 ==> ToleratedAt(b, ran, resources, j))
      && (err.None? <==> forall j :: 0 <= j < |resources| ==> ToleratedAt(b, ran, resources, j))
      && (err.None? ==> n == |resources|)
      && (err.Some? ==>
            && n >= 1 && !Tolerated(b, after)
            && err.value == TaintFailure(b, after, resources[n - 1])
            && Is(err.value, b.output(after).error))
  {
    TaintFromRuns(b, ran, resources, 0);
    TaintFromTolerated(b, ran, resources, 0);
    var (after, err) := TaintSpec(b, ran, resources);
    if err.Some? {
      assert Is(b.output(after).error, b.output(after).error);
    }
  }

  /** TaintResources: the loop with its early return. */
  method TaintResources(b: Binary, resources: seq<string>) returns (err: Option<Error>)
    modifies b
    ensures (b.ran, err) == TaintSpec(b, old(b.ran), resources)
  {
    err := None;
    var i := 0;
    while i < |resources|
      invariant 0 <= i <= |resources|
      invariant b.ran == old(b.ran) + Taints(resources[..i])
      invariant TaintSpec(b, old(b.ran), resources) == TaintFrom(b, old(b.ran), resources, i)
    {
      var key := resources[i];
      var out := b.Run(TaintCommand(key));
      assert resources[..i + 1][..i] == resources[..i];
      assert b.ran == old(b.ran) + Taints(resources[..i + 1]);
      if out.Failure? {
        var validError := CheckRecoverable(Some(out.error));
        if validError.Some? {
          assert !Untaintable(out.error);
          assert TaintFrom(b, old(b.ran), resources, i) == (b.ran, Some(TaintFailure(b, b.ran, key)));
          return Some(Wrapped("", out.error, ": tainting failed with runner: " + b.describe(TaintCommand(key))));
        }
      }
      i := i + 1;
    }
  }

  /** TaintHost as a function of the binary's answers. */
  function TaintHostSpec(b: Binary, ran: seq<Command>, order: seq<Color>, hostname: string): (seq<Command>, Option<Error>)
  {
    var (looked, r) := LookupSpec(b, ran, order, hostname);
    if r.err.Some? then
      (looked, Some(Wrapped("", Sentinel(TaintHostFailure), ": " + Message(r.err.value) + " for host " + hostname)))
    else TaintSpec(b, looked, r.resources)
  }

  /** TaintHost: look the host's resources up, then taint them. */
  method TaintHost(b: Binary, order: seq<Color>, hostname: string) returns (err: Option<Error>)
    modifies b
    ensures (b.ran, err) == TaintHostSpec(b, old(b.ran), order, hostname)
  {
    var r := GetResourcesForHost(b, order, hostname);
    if r.err.Some? {
      return Some(Wrapped("", Sentinel(TaintHostFailure), ": " + Message(r.err.value) + " for host " + hostname));
    }
    err := TaintResources(b, r.resources);
  }

  /** A failed lookup is reported as errTaintHostFailure and taints nothing. */
  lemma {:induction false} LookupFailureTaintsNothing(b: Binary, ran: seq<Command>, order: seq<Color>, hostname: string)
    requires LookupSpec(b, ran, order, hostname).1.err.Some?
    ensures var (after, err) := TaintHostSpec(b, ran, order, hostname);
      && err.Some? && Is(err.value, Sentinel(TaintHostFailure))
      && (after == ran || after == ran + [StatePullCommand] || after == ran + [StatePullCommand, StateListCommand])
  {
    var (looked, r) := LookupSpec(b, ran, order, hostname);
    assert Is(Sentinel(TaintHostFailure), Sentinel(TaintHostFailure));
    if hostname != "" && b.state(ran + [StatePullCommand]).Success? {
      assert ran + [StatePullCommand] + [StateListCommand] == ran + [StatePullCommand, StateListCommand];
    }
  }
}
