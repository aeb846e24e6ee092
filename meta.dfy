/**
 * The meta-parameter pass of the command-line front end (cmd/meta.go):
 * every "-no-color" argument is removed in place, the others keep their
 * order, and the user interface is wrapped in a coloured one unless colour
 * was switched off.
 */
module Meta {
  import opened Wrappers

  const NoColorFlag: string := "-no-color"

  /** The user interface: the one the command started with, or a concurrent coloured wrapper around another. */
  datatype Ui = Plain(id: nat) | Coloured(inner: Ui)

  /** The arguments process keeps, in their order. */
  function WithoutNoColor(args: seq<string>): (kept: seq<string>)
    ensures |kept| <= |args|
  {
    if |args| == 0 then []
    else WithoutNoColor(args[..|args| - 1]) + (if args[|args| - 1] == NoColorFlag then [] else [args[|args| - 1]])
  }

  /** The interface before process ran, and the one after: the earlier wrapper is undone first, so wrappers never nest. */
  function ProcessUi(ui: Ui, oldUi: Option<Ui>, color: bool): (r: (Ui, Option<Ui>))
  {
    var base := if oldUi.Some? then oldUi.value else ui;
    (if color then Coloured(base) else base, Some(base))
  }

  class Meta {
    var ui: Ui
    var oldUi: Option<Ui>
    var color: bool

    constructor (ui: Ui)
      ensures this.ui == ui && oldUi == None && color
    {
      this.ui := ui;
      oldUi := None;
      color := true;
    }

    /**
     * process: compacts args in place and returns the length of the kept
     * prefix; the slots after it are untouched. Colour stays on exactly when
     * no argument is "-no-color".
     */
    method Process(args: array<string>) returns (n: nat)
      modifies this, args
      ensures n <= args.Length
      ensures args[..n] == WithoutNoColor(old(args[..]))
      ensures args[n..] == old(args[..])[n..]
      ensures color <==> NoColorFlag !in old(args[..])
      ensures (ui, oldUi) == ProcessUi(old(ui), old(oldUi), color)
    {
      if oldUi.Some? {
        ui := oldUi.value;
      }
      color := true;
      ghost var original := args[..];
      var i := 0;
      var k := 0;
      while k < args.Length
        invariant 0 <= i <= k <= args.Length
        invariant args[..i] == WithoutNoColor(original[..k])
        invariant forall j :: i <= j < args.Length ==> args[j] == original[j]
        invariant color <==> NoColorFlag !in original[..k]
        invariant ui == (if old(oldUi).Some? then old(oldUi).value else old(ui)) && oldUi == old(oldUi)
      {
        var v := args[k];
        assert original[..k + 1] == original[..k] + [v];
        if v == NoColorFlag {
          color := false;
        } else {
          args[i] := v;
          i := i + 1;
        }
        k := k + 1;
      }
      assert original[..k] == original;
      n := i;
      oldUi := Some(ui);
      if color {
        ui := Coloured(ui);
      }
    }
  }

  /** An argument is kept exactly when it is one of the arguments and is not "-no-color". */
  lemma {:induction false} KeptArguments(args: seq<string>)
    ensures forall x :: x in WithoutNoColor(args) <==> x in args && x != NoColorFlag
    decreases |args|
  {
    if |args| > 0 {
      KeptArguments(args[..|args| - 1]);
      assert args == args[..|args| - 1] + [args[|args| - 1]];
    }
  }

  /** Exactly the "-no-color" arguments are dropped. */
  lemma {:induction false} KeptCount(args: seq<string>)
    ensures |WithoutNoColor(args)| == |args| - multiset(args)[NoColorFlag]
    decreases |args|
  {
    if |args| > 0 {
      KeptCount(args[..|args| - 1]);
      assert args == args[..|args| - 1] + [args[|args| - 1]];
    }
  }

  /** Processing the kept arguments again keeps them all. */
  lemma {:induction false} WithoutNoColorIdempotent(args: seq<string>)
    ensures WithoutNoColor(WithoutNoColor(args)) == WithoutNoColor(args)
  {
    var kept := WithoutNoColor(args);
    KeptArguments(args);
    NothingToDrop(kept);
  }

  /** With no "-no-color" among them, every argument is kept. */
  lemma {:induction false} NothingToDrop(args: seq<string>)
    requires NoColorFlag !in args
    ensures WithoutNoColor(args) == args
    decreases |args|
  {
    if |args| > 0 {
      NothingToDrop(args[..|args| - 1]);
      assert args == args[..|args| - 1] + [args[|args| - 1]];
    }
  }

  /** Running process twice leaves a single coloured wrapper, set by the second run's colour, around the first interface. */
  lemma {:induction false} ProcessUiTwice(ui: Ui, oldUi: Option<Ui>, first: bool, second: bool)
    ensures var (ui1, old1) := ProcessUi(ui, oldUi, first);
      var base := if oldUi.Some? then oldUi.value else ui;
      ProcessUi(ui1, old1, second) == (if second then Coloured(base) else base, Some(base))
  {
  }
}
