/**
 * GetResourcesForHost of the terraform cluster graph
 * (pkg/controller/terraform/graph.go, iac/terraform-controller/graph.go and
 * graph.go): the terraform resources that belong to one host are the lines
 * of "terraform state list" that carry the host's position in its group,
 * written "[i]".
 *
 * Go visits a map's keys in an unspecified order; the search takes that order
 * as a parameter, and LocateOrderIrrelevant shows when it does not matter.
 */
module Graph {
  import opened Wrappers
  import opened Colors
  import opened Model
  import opened Shell
  import Text

  /** An order in which a range over a Cluster may visit its colours: each colour once, absent ones skipped. */
  predicate IterationOrder(order: seq<Color>)
  {
    |order| == 3 && Blue in order && Green in order && Unknown in order
  }

  /** The group of colour c lists host. */
  predicate Holds(cl: Cluster, c: Color, host: string)
  {
    c in cl && host in cl[c].hosts
  }

  /** The position of the first occurrence of x in s. */
  function FirstIndex(s: seq<string>, x: string): (i: nat)
    requires x in s
    ensures i < |s| && s[i] == x && x !in s[..i]
  {
    if s[0] == x then 0 else 1 + FirstIndex(s[1..], x)
  }

  /** Where the labelled search loop stops: the first colour in order whose group lists host, and host's first position in it. */
  function Locate(cl: Cluster, order: seq<Color>, host: string): (Color, nat)
  {
    if |order| == 0 then (Unknown, 0)
    else if Holds(cl, order[0], host) then (order[0], FirstIndex(cl[order[0]].hosts, host))
    else Locate(cl, order[1..], host)
  }

  /**
   * The search finds host at its first position in the first group (in
   * visiting order) that lists it, and reports (Unknown, 0) when no group does.
   */
  lemma {:induction false} LocateFindsFirstHolder(cl: Cluster, order: seq<Color>, host: string)
    ensures var (g, i) := Locate(cl, order, host);
      && ((forall k :: 0 <= k < |order| ==> !Holds(cl, order[k], host)) ==> (g, i) == (Unknown, 0))
      && ((exists k :: 0 <= k < |order| && Holds(cl, order[k], host)) ==>
            && Holds(cl, g, host) && i == FirstIndex(cl[g].hosts, host)
            && exists k :: 0 <= k < |order| && order[k] == g && forall j :: 0 <= j < k ==> !Holds(cl, order[j], host))
    decreases |order|
  {
    if |order| > 0 && !Holds(cl, order[0], host) {
      LocateFindsFirstHolder(cl, order[1..], host);
      var (g, i) := Locate(cl, order, host);
      if exists k :: 0 <= k < |order| && Holds(cl, order[k], host) {
        var k0 :| 0 <= k0 < |order| && Holds(cl, order[k0], host);
        assert order[1..][k0 - 1] == order[k0];
        var k :| 0 <= k < |order[1..]| && order[1..][k] == g && forall j :: 0 <= j < k ==> !Holds(cl, order[1..][j], host);
        assert order[k + 1] == g;
        assert forall j :: 0 <= j < k + 1 ==> !Holds(cl, order[j], host) by {
          forall j | 0 <= j < k + 1
            ensures !Holds(cl, order[j], host)
          {
            if j > 0 {
              assert order[j] == order[1..][j - 1];
            }
          }
        }
      } else {
        forall k | 0 <= k < |order[1..]|
          ensures !Holds(cl, order[1..][k], host)
        {
          assert order[1..][k] == order[k + 1];
        }
      }
    } else if |order| > 0 {
      assert order[0] == Locate(cl, order, host).0;
    }
  }

  /** When at most one group lists host, every visiting order finds the same colour and position. */
  lemma {:induction false} LocateOrderIrrelevant(cl: Cluster, o1: seq<Color>, o2: seq<Color>, host: string)
    requires IterationOrder(o1) && IterationOrder(o2)
    requires forall c, d :: Holds(cl, c, host) && Holds(cl, d, host) ==> c == d
    ensures Locate(cl, o1, host) == Locate(cl, o2, host)
  {
    LocateFindsFirstHolder(cl, o1, host);
    LocateFindsFirstHolder(cl, o2, host);
    if exists c :: Holds(cl, c, host) {
      var c :| Holds(cl, c, host);
      assert exists k :: 0 <= k < |o1| && Holds(cl, o1[k], host) by {
        assert c in o1;
      }
      assert exists k :: 0 <= k < |o2| && Holds(cl, o2[k], host) by {
        assert c in o2;
      }
    }
  }

  /** The labelled nested search loop of GetResourcesForHost. */
  method FindHost(cl: Cluster, order: seq<Color>, host: string) returns (group: Color, index: nat)
    ensures (group, index) == Locate(cl, order, host)
  {
    group := Unknown;
    index := 0;
    var k := 0;
    label search:
    while k < |order|
      invariant 0 <= k <= |order|
      invariant Locate(cl, order, host) == Locate(cl, order[k..], host)
      invariant group == Unknown && index == 0
    {
      var color := order[k];
      if color in cl {
        var hosts := cl[color].hosts;
        var i := 0;
        while i < |hosts|
          invariant 0 <= i <= |hosts|
          invariant host !in hosts[..i]
        {
          if hosts[i] == host {
            assert FirstIndex(hosts, host) == i;
            group := color;
            index := i;
            break search;
          }
          assert hosts[..i + 1] == hosts[..i] + [hosts[i]];
          i := i + 1;
        }
        assert hosts[..i] == hosts;
      }
      assert order[k..][1..] == order[k + 1..];
      k := k + 1;
    }
  }

  /** The text a resource line must contain for host position index: "[index]". */
  function Marker(index: nat): string
  {
    "[" + Text.NatToString(index) + "]"
  }

  /** The lines that contain marker, in their order. */
  function Matching(lines: seq<string>, marker: string): seq<string>
  {
    if |lines| == 0 then []
    else Matching(lines[..|lines| - 1], marker) + (if Text.Contains(lines[|lines| - 1], marker) then [lines[|lines| - 1]] else [])
  }

  /** A line is kept exactly when it is one of the lines and contains the marker; no more lines come out than went in. */
  lemma {:induction false} MatchingKeepsMarked(lines: seq<string>, marker: string)
    ensures |Matching(lines, marker)| <= |lines|
    ensures forall x :: x in Matching(lines, marker) <==> x in lines && Text.Contains(x, marker)
    decreases |lines|
  {
    if |lines| > 0 {
      var init := lines[..|lines| - 1];
      MatchingKeepsMarked(init, marker);
      assert lines == init + [lines[|lines| - 1]];
    }
  }

  /** The filter loop of GetResourcesForHost. */
  method FilterResources(lines: seq<string>, marker: string) returns (resources: seq<string>)
    ensures resources == Matching(lines, marker)
  {
    resources := [];
    var k := 0;
    while k < |lines|
      invariant 0 <= k <= |lines|
      invariant resources == Matching(lines[..k], marker)
    {
      var resource := lines[k];
      assert lines[..k + 1][..k] == lines[..k];
      if Text.Contains(resource, marker) {
        resources := resources + [resource];
      }
      k := k + 1;
    }
    assert lines[..k] == lines;
  }

  /** What GetResourcesForHost returns: the resources, or [] and an error. */
  datatype Lookup = Lookup(resources: seq<string>, err: Option<Error>)

  /**
   * GetResourcesForHost as a function of the binary's answers: the commands
   * run after ran, and the lookup.
   */
  function LookupSpec(b: Binary, ran: seq<Command>, order: seq<Color>, hostname: string): (seq<Command>, Lookup)
  {
    if hostname == "" then (ran, Lookup([], Some(Sentinel(EmptyHostName))))
    else
      var pulled := ran + [StatePullCommand];
      var c := b.state(pulled);
      if c.Failure? then (pulled, Lookup([], Some(WrapSentinel(GetClusterFailure, c.error))))
      else
        var (group, index) := Locate(c.value, order, Text.TrimSpace(hostname));
        if group == Unknown then (pulled, Lookup([], Some(Wrapped("", Sentinel(HostNotInGroup), ": " + hostname))))
        else
          var listed := pulled + [StateListCommand];
          var out := b.output(listed);
          if out.Failure? then (listed, Lookup([], Some(WrapSentinel(StateList, out.error))))
          else (listed, Lookup(Matching(Text.Split(out.value, '\n'), Marker(index)), None))
  }

  /**
   * GetResourcesForHost: the empty hostname is refused before the cluster is
   * read; a cluster read failure, a host in no valid group, or a failed state
   * listing each give their sentinel; otherwise the listing's lines carrying
   * the host's position.
   */
  method GetResourcesForHost(b: Binary, order: seq<Color>, hostname: string) returns (r: Lookup)
    modifies b
    ensures (b.ran, r) == LookupSpec(b, old(b.ran), order, hostname)
  {
    if hostname == "" {
      return Lookup([], Some(Sentinel(EmptyHostName)));
    }
    var c := b.GetCluster();
    if c.Failure? {
      return Lookup([], Some(WrapSentinel(GetClusterFailure, c.error)));
    }
    var group, index := FindHost(c.value, order, Text.TrimSpace(hostname));
    if group == Unknown {
      return Lookup([], Some(Wrapped("", Sentinel(HostNotInGroup), ": " + hostname)));
    }
    var listBytes := b.Run(StateListCommand);
    if listBytes.Failure? {
      return Lookup([], Some(WrapSentinel(StateList, listBytes.error)));
    }
    var clusterResources := Text.Split(listBytes.value, '\n');
    var resources := FilterResources(clusterResources, Marker(index));
    r := Lookup(resources, None);
  }

  /**
   * The stages of a lookup: what runs, which sentinel each failure carries,
   * and that a successful lookup returns exactly the listed lines naming the
   * trimmed host's position in a group of a valid colour.
   */
  lemma {:induction false} LookupStages(b: Binary, ran: seq<Command>, order: seq<Color>, hostname: string)
    ensures var (after, r) := LookupSpec(b, ran, order, hostname);
      && (r.err.Some? ==> r.resources == [])
      && (hostname == "" ==> after == ran && r.err == Some(Sentinel(EmptyHostName)))
      && (hostname != "" && b.state(ran + [StatePullCommand]).Failure? ==>
            after == ran + [StatePullCommand] && r.err.Some? && Is(r.err.value, Sentinel(GetClusterFailure)))
      && (r.err.Some? && Is(r.err.value, Sentinel(StateList)) ==> after == ran + [StatePullCommand, StateListCommand])
      && (r.err.None? ==>
            && after == ran + [StatePullCommand, StateListCommand]
            && b.state(ran + [StatePullCommand]).Success? && b.output(after).Success?
            && var cl := b.state(ran + [StatePullCommand]).value;
               var (g, i) := Locate(cl, order, Text.TrimSpace(hostname));
               && g in ValidColors && Holds(cl, g, Text.TrimSpace(hostname))
               && i == FirstIndex(cl[g].hosts, Text.TrimSpace(hostname))
               && forall x :: x in r.resources <==> x in Text.Split(b.output(after).value, '\n') && Text.Contains(x, Marker(i)))
  {
    var (after, r) := LookupSpec(b, ran, order, hostname);
    if hostname == "" {
      assert !Is(Sentinel(EmptyHostName), Sentinel(StateList));
    } else if b.state(ran + [StatePullCommand]).Failure? {
      assert !Is(Sentinel(GetClusterFailure), Sentinel(StateList));
    } else {
      var cl := b.state(ran + [StatePullCommand]).value;
      var host := Text.TrimSpace(hostname);
      LocateFindsFirstHolder(cl, order, host);
      var (g, i) := Locate(cl, order, host);
      if g != Unknown {
        assert ran + [StatePullCommand] + [StateListCommand] == ran + [StatePullCommand, StateListCommand];
        if b.output(ran + [StatePullCommand, StateListCommand]).Success? {
          MatchingKeepsMarked(Text.Split(b.output(after).value, '\n'), Marker(i));
        }
      } else {
        assert !Is(Sentinel(HostNotInGroup), Sentinel(StateList));
      }
    }
  }
}
