/**
 * The cluster data model and the error values shared by every package
 * (pkg/model/model.go and pkg/model/error.go).
 *
 * Go maps become Dafny maps. Indexing a Go map with a missing key yields the
 * zero value, which GroupOf, Count, StepCount and HostsOf reproduce.
 */
module Model {
  import opened Wrappers
  import opened Colors
  import opened Semver
  import Text

  datatype ClusterGroup = ClusterGroup(hosts: seq<string>, version: Version)

  datatype GroupState = GroupState(count: int, version: Version)

  /** Hosts and version per colour group. */
  type Cluster = map<Color, ClusterGroup>

  /** Node count and version per colour group. */
  type ClusterState = map<Color, GroupState>

  /** The node counts one terraform apply should reach. */
  type Step = map<Color, int>

  const EmptyGroup: ClusterGroup := ClusterGroup([], ZeroVersion)
  const ZeroGroupState: GroupState := GroupState(0, ZeroVersion)

  /** The map holds exactly the valid colours, as every constructor here builds it. */
  predicate ValidKeys<V>(m: map<Color, V>)
  {
    m.Keys == {Blue, Green}
  }

  function GroupOf(cs: ClusterState, c: Color): GroupState
  {
    if c in cs then cs[c] else ZeroGroupState
  }

  function Count(cs: ClusterState, c: Color): int
  {
    GroupOf(cs, c).count
  }

  function StepCount(s: Step, c: Color): int
  {
    if c in s then s[c] else 0
  }

  function HostsOf(cl: Cluster, c: Color): seq<string>
  {
    if c in cl then cl[c].hosts else []
  }

  /** A Cluster with every valid colour present, holding no hosts at the zero version. */
  function NewCluster(): (cl: Cluster)
    ensures ValidKeys(cl)
    ensures forall c :: HostsOf(cl, c) == [] && (c in cl ==> cl[c].version == ZeroVersion)
  {
    map c | c in ValidColors :: EmptyGroup
  }

  /** A ClusterState with every valid colour present, with no nodes at the zero version. */
  function NewClusterState(): (cs: ClusterState)
    ensures ValidKeys(cs)
    ensures forall c :: GroupOf(cs, c) == ZeroGroupState
  {
    map c | c in ValidColors :: ZeroGroupState
  }

  /** True when no colour group has nodes. */
  function IsEmpty(cs: ClusterState): (empty: bool)
    ensures empty <==> forall c :: Count(cs, c) == 0
  {
    forall c :: c in cs ==> Count(cs, c) == 0
  }

  /** The colours whose groups have nodes. */
  function NonEmptyGroups(cs: ClusterState): set<Color>
  {
    set c | c in cs && cs[c].count != 0
  }

  lemma {:induction false} AtMostOneElement(s: set<Color>)
    ensures |s| <= 1 <==> forall a, b :: a in s && b in s ==> a == b
  {
    if |s| > 1 {
      var a :| a in s;
      assert |s - {a}| >= 1;
      var b :| b in s - {a};
      assert a in s && b in s && a != b;
    } else if |s| == 1 {
      var a :| a in s;
      assert s == {a} by {
        assert |s - {a}| == 0;
      }
    }
  }

  /** At most one colour group has nodes; a cluster with no nodes is clean. */
  function IsCleanState(cs: ClusterState): (clean: bool)
    ensures clean <==> forall a, b :: Count(cs, a) != 0 && Count(cs, b) != 0 ==> a == b
  {
    AtMostOneElement(NonEmptyGroups(cs));
    assert forall a :: a in NonEmptyGroups(cs) <==> Count(cs, a) != 0;
    |NonEmptyGroups(cs)| <= 1
  }

  /**
   * The colour that holds the nodes of a clean state (Blue when there are none);
   * Unknown and errNotCleanClusterState when the state is not clean.
   */
  function Group(cs: ClusterState): (r: (Color, Option<Error>))
    ensures !IsCleanState(cs) ==> r == (Unknown, Some(Sentinel(NotCleanClusterState)))
    ensures IsCleanState(cs) ==> r.1 == None
    ensures IsCleanState(cs) && !IsEmpty(cs) ==> Count(cs, r.0) != 0
    ensures IsCleanState(cs) && IsEmpty(cs) ==> r.0 == ValidColors[0]
  {
    if !IsCleanState(cs) then (Unknown, Some(Sentinel(NotCleanClusterState)))
    else if Count(cs, Blue) != 0 then (Blue, None)
    else if Count(cs, Green) != 0 then (Green, None)
    else if Count(cs, Unknown) != 0 then (Unknown, None)
    else (ValidColors[0], None)
  }

  /** Same number of colour entries, and every colour of cs has the same count in other. */
  function EqualNodeCount(cs: ClusterState, other: ClusterState): (equal: bool)
    ensures ValidKeys(cs) && ValidKeys(other) ==> (equal <==> forall c :: Count(cs, c) == Count(other, c))
    ensures equal ==> |cs| == |other|
  {
    |cs| == |other| && forall c :: c in cs ==> Count(cs, c) == Count(other, c)
  }

  /** Same number of colour entries, and every colour of cs has the step's count. */
  function EqualStep(cs: ClusterState, step: Step): (equal: bool)
    ensures ValidKeys(cs) && ValidKeys(step) ==> (equal <==> forall c :: Count(cs, c) == StepCount(step, c))
    ensures equal ==> |cs| == |step|
  {
    |cs| == |step| && forall c :: c in cs ==> Count(cs, c) == StepCount(step, c)
  }

  /** A copy that also carries every valid colour. */
  function Clone(cs: ClusterState): (r: ClusterState)
    ensures r.Keys == cs.Keys + {Blue, Green}
    ensures forall c :: c in cs ==> r[c] == cs[c]
    ensures forall c :: GroupOf(r, c) == GroupOf(cs, c)
  {
    NewClusterState() + cs
  }

  /** A new state in which the group of colour g has count more nodes, keeping its version. */
  function AddNodes(cs: ClusterState, g: Color, count: int): (r: ClusterState)
    ensures r.Keys == cs.Keys + {Blue, Green, g}
    ensures Count(r, g) == Count(cs, g) + count
    ensures GroupOf(r, g).version == GroupOf(cs, g).version
    ensures forall c :: c != g ==> GroupOf(r, c) == GroupOf(cs, c)
  {
    var copy := Clone(cs);
    copy[g := GroupState(GroupOf(copy, g).count + count, GroupOf(copy, g).version)]
  }

  /** Counts hosts per colour group, carrying the versions along. */
  function AsClusterState(cl: Cluster): (cs: ClusterState)
    ensures cs.Keys == cl.Keys + {Blue, Green}
    ensures forall c :: Count(cs, c) == |HostsOf(cl, c)|
    ensures forall c :: c in cl ==> GroupOf(cs, c).version == cl[c].version
  {
    NewClusterState() + map c | c in cl :: GroupState(|cl[c].hosts|, cl[c].version)
  }

  lemma {:induction false} CleanIffOneColourEmpty(cs: ClusterState)
    requires ValidKeys(cs)
    ensures IsCleanState(cs) <==> Count(cs, Blue) == 0 || Count(cs, Green) == 0
    ensures IsEmpty(cs) <==> Count(cs, Blue) == 0 && Count(cs, Green) == 0
  {
    assert Count(cs, Unknown) == 0;
  }

  /*
   * Errors. A Go error value is modelled by its dynamic type: the package
   * sentinels (compared by identity), errors.New texts, fmt.Errorf wrappers
   * with one %w verb, and the model/runner error types.
   */

  /** The package-level sentinel errors of the core. */
  datatype Kind =
    | NotCleanClusterState
    | DetermineGroupFailure
    | GetClusterFailure
    | GoalStateFailure
    | TaintHostFailure
    | NoSuchResource
    | EmptyHostName
    | StateList
    | HostNotInGroup
    | InitWorkspaceFailure
    | ShowWorkspaceFailure
    | ListWorkspaceFailure
    | SelectWorkspaceFailure
    | CreateWorkspaceFailure

  function KindMessage(k: Kind): string
  {
    match k
    case NotCleanClusterState => "cluster is not in a clean state"
    case DetermineGroupFailure => "failed to determine current group"
    case GetClusterFailure => "failed to get cluster state"
    case GoalStateFailure => "failed to establish goal state"
    case TaintHostFailure => "failed to taint host"
    case NoSuchResource =>
      "resource not found, could be an outdated terraform https://github.com/hashicorp/terraform/pull/22467"
    case EmptyHostName => "hostname can not be empty"
    case StateList => "failed to list resources"
    case HostNotInGroup => "host not part of group"
    case InitWorkspaceFailure => "failed to initialize workspace"
    case ShowWorkspaceFailure => "failed to show workspace"
    case ListWorkspaceFailure => "failed to list workspace"
    case SelectWorkspaceFailure => "failed to select workspace"
    case CreateWorkspaceFailure => "failed to create workspace"
  }

  datatype Error =
    | Sentinel(kind: Kind)
      /** errors.New at a call site, or an error from a collaborator. */
    | Plain(text: string)
      /** fmt.Errorf with one %w verb: prefix, the wrapped error's text, suffix. */
    | Wrapped(prefix: string, inner: Error, suffix: string)
      /** model.Errors */
    | Multi(errs: seq<Error>)
      /** model.StepError, returned by value */
    | StepFailure(cause: Error, todo: seq<Step>, originalCluster: Cluster, startingGroup: Color, goal: ClusterState)
      /** model.RunnableError, returned by value */
    | RunnableFailure(output: seq<bv8>, resultErr: Error)
      /** runner.ExitError: the captured error and the collected standard error output */
    | ExitFailure(captured: Error, errOutput: string)
      /** *exec.ExitError: the exit status text and the process's standard error */
    | ProcessExit(status: string, stderr: string)

  /** fmt.Errorf("%w: %v", sentinel, err). */
  function WrapSentinel(k: Kind, err: Error): (e: Error)
    ensures Is(e, Sentinel(k))
  {
    Wrapped("", Sentinel(k), ": " + Message(err))
  }

  /** The Error() text. */
  function Message(e: Error): string
  {
    match e
    case Sentinel(k) => KindMessage(k)
    case Plain(t) => t
    case Wrapped(p, inner, s) => p + Message(inner) + s
    case Multi(errs) =>
      "multiple errors: [" + Text.Join(seq(|errs|, i requires 0 <= i < |errs| => Message(errs[i])), ", ") + "]"
    case StepFailure(cause, _, _, _, _) => Message(cause)
    case RunnableFailure(_, resultErr) => Message(resultErr)
    case ExitFailure(_, out) => out
    case ProcessExit(status, _) => status
  }

  /** The texts of a list of errors. */
  function Messages(errs: seq<Error>): (texts: seq<string>)
    ensures |texts| == |errs|
    ensures forall i :: 0 <= i < |errs| ==> texts[i] == Message(errs[i])
  {
    seq(|errs|, i requires 0 <= i < |errs| => Message(errs[i]))
  }

  lemma {:induction false} MultiMessage(errs: seq<Error>)
    ensures Message(Multi(errs)) == "multiple errors: [" + Text.Join(Messages(errs), ", ") + "]"
  {
    assert Messages(errs) == seq(|errs|, i requires 0 <= i < |errs| => Message(errs[i]));
  }

  /** What the strings.Builder of Errors.Error starts with. */
  const MultiHead: string := "multiple errors: ["

  /** Errors.Error: the messages in order, comma separated, in "multiple errors: [...]". */
  method MultiErrorString(errs: seq<Error>) returns (s: string)
    ensures s == Message(Multi(errs))
  {
    s := MultiHead;
    var i := 0;
    while i < |errs|
      invariant 0 <= i <= |errs|
      invariant s == MultiHead + Text.Join(Messages(errs[..i]), ", ")
    {
      ghost var before := s;
      if i > 0 {
        s := s + ", ";
      }
      s := s + Message(errs[i]);
      BuilderStep(errs, i, before);
      i := i + 1;
    }
    s := s + "]";
    assert errs[..i] == errs;
    MultiMessage(errs);
  }

  /** One pass of the builder loop: the separator, then the next message, extend the joined text. */
  lemma {:induction false} BuilderStep(errs: seq<Error>, i: nat, before: string)
    requires i < |errs| && before == MultiHead + Text.Join(Messages(errs[..i]), ", ")
    ensures (if i > 0 then before + ", " else before) + Message(errs[i]) == MultiHead + Text.Join(Messages(errs[..i + 1]), ", ")
  {
    var texts := Messages(errs[..i]);
    assert Messages(errs[..i + 1]) == texts + [Message(errs[i])];
    Text.JoinSnoc(texts, Message(errs[i]), ", ");
  }

  lemma {:induction false} JoinFour(a: string, b: string, c: string, d: string, sep: string)
    ensures Text.Join([a, b, c, d], sep) == a + sep + b + sep + c + sep + d
  {
    Text.JoinSnoc([a], b, sep);
    assert [a] + [b] == [a, b];
    Text.JoinSnoc([a, b], c, sep);
    assert [a, b] + [c] == [a, b, c];
    Text.JoinSnoc([a, b, c], d, sep);
    assert [a, b, c] + [d] == [a, b, c, d];
  }

  lemma {:induction false} FourErrorsMessage(a: Error, b: Error, c: Error, d: Error)
    ensures Message(Multi([a, b, c, d]))
         == "multiple errors: [" + Message(a) + ", " + Message(b) + ", " + Message(c) + ", " + Message(d) + "]"
  {
    MultiMessage([a, b, c, d]);
    assert Messages([a, b, c, d]) == [Message(a), Message(b), Message(c), Message(d)];
    JoinFour(Message(a), Message(b), Message(c), Message(d), ", ");
  }

  /** The nested list of the error-list example renders piece by piece as follows. */
  lemma {:induction false} NestedErrorsMessage()
    ensures Message(Multi([Plain("error1"), Plain("testing error list"), Plain("test"),
                           Multi([Plain("inner list test"), Plain("")])]))
         == "multiple errors: [" + "error1" + ", " + "testing error list" + ", " + "test" + ", "
            + ("multiple errors: [" + "inner list test" + ", " + "" + "]") + "]"
  {
    var inner := [Plain("inner list test"), Plain("")];
    MultiMessage(inner);
    assert Messages(inner) == ["inner list test"] + [""];
    Text.JoinSnoc(["inner list test"], "", ", ");
    FourErrorsMessage(Plain("error1"), Plain("testing error list"), Plain("test"), Multi(inner));
  }

  /** The error a value of this dynamic type unwraps to through a pointer receiver. */
  function Unwrap(e: Error): (r: Option<Error>)
    ensures r.Some? ==> r.value < e
    ensures r.Some? <==> e.Wrapped? || e.StepFailure? || e.RunnableFailure? || e.ExitFailure?
  {
    match e
    case Wrapped(_, inner, _) => Some(inner)
    case StepFailure(cause, _, _, _, _) => Some(cause)
    case RunnableFailure(_, resultErr) => Some(resultErr)
    case ExitFailure(captured, _) => Some(captured)
    case _ => None
  }

  /** errors.Is: target is found along the chain of unwrapped errors. */
  predicate Is(e: Error, target: Error)
    decreases e
  {
    e == target || (Unwrap(e).Some? && Is(Unwrap(e).value, target))
  }

  /**
   * What errors.Is sees for the values the code actually returns: StepError
   * and RunnableError declare Unwrap on the pointer receiver but are returned
   * by value, so the chain stops at them.
   */
  function UnwrapAsReturned(e: Error): (r: Option<Error>)
    ensures r.Some? ==> r.value < e
    ensures r.Some? <==> e.Wrapped? || e.ExitFailure?
  {
    match e
    case Wrapped(_, inner, _) => Some(inner)
    case ExitFailure(captured, _) => Some(captured)
    case _ => None
  }

  predicate IsAsReturned(e: Error, target: Error)
    decreases e
  {
    e == target || (UnwrapAsReturned(e).Some? && IsAsReturned(UnwrapAsReturned(e).value, target))
  }

  /** A step error does not reveal its cause to errors.Is as the code returns it. */
  lemma {:induction false} StepErrorHidesCause(k: Kind, todo: seq<Step>, cl: Cluster, g: Color, goal: ClusterState)
    ensures !IsAsReturned(StepFailure(Sentinel(k), todo, cl, g, goal), Sentinel(k))
    ensures Is(StepFailure(Sentinel(k), todo, cl, g, goal), Sentinel(k))
  {
    assert Is(Sentinel(k), Sentinel(k));
  }

  /** Wrapping never hides the wrapped error from errors.Is. */
  lemma {:induction false} IsThroughUnwrap(e: Error, target: Error)
    requires Unwrap(e).Some? && Is(Unwrap(e).value, target)
    ensures Is(e, target)
  {
  }

  /** The serialised part of a step error: everything but its cause. */
  datatype StepRecord = StepRecord(todo: seq<Step>, originalCluster: Cluster, startingGroup: Color, goalState: ClusterState)

  function Record(e: Error): (r: StepRecord)
    requires e.StepFailure?
    ensures r.todo == e.todo && r.startingGroup == e.startingGroup && r.goalState == e.goal
    ensures r.originalCluster == e.originalCluster
  {
    StepRecord(e.todo, e.originalCluster, e.startingGroup, e.goal)
  }

  /** Two step errors that differ only in their cause serialise identically. */
  lemma {:induction false} RecordIgnoresCause(a: Error, b: Error)
    requires a.StepFailure? && b.StepFailure?
    requires a.todo == b.todo && a.originalCluster == b.originalCluster
    requires a.startingGroup == b.startingGroup && a.goal == b.goal
    ensures Record(a) == Record(b)
    ensures Message(a) == Message(a.cause) && Message(b) == Message(b.cause)
  {
  }
}
