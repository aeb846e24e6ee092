/**
 * Workspace selection (setup.go and pkg/controller/terraform/setup.go): run
 * "terraform init", then make the requested workspace the current one,
 * selecting it when "terraform workspace list" mentions it and creating it
 * otherwise.
 */
module Setup {
  import opened Wrappers
  import opened Model
  import opened Shell
  import Text

  const InitCommand: Command := ["init"]
  const ShowCommand: Command := ["workspace", "show"]
  const ListCommand: Command := ["workspace", "list"]

  function SelectCommand(workspace: string): Command
  {
    ["workspace", "select", workspace]
  }

  function NewCommand(workspace: string): Command
  {
    ["workspace", "new", workspace]
  }

  /** fmt.Errorf("%v: %w for %s", sentinel, err, workspace): the sentinel's text only, wrapping err. */
  function WrapCause(k: Kind, err: Error, workspace: string): Error
  {
    Wrapped(KindMessage(k) + ": ", err, " for " + workspace)
  }

  /** The last stage, after a successful listing: select a workspace the listing mentions, create any other. */
  function SwitchSpec(b: Binary, afterList: seq<Command>, workspace: string): (seq<Command>, Option<Error>)
    requires b.output(afterList).Success?
  {
    if Text.Contains(b.output(afterList).value, workspace) then
      var afterSelect := afterList + [SelectCommand(workspace)];
      var sel := b.output(afterSelect);
      (afterSelect, if sel.Failure? then Some(WrapCause(SelectWorkspaceFailure, sel.error, workspace)) else None)
    else
      var afterNew := afterList + [NewCommand(workspace)];
      var created := b.output(afterNew);
      (afterNew, if created.Failure? then Some(WrapCause(CreateWorkspaceFailure, created.error, workspace)) else None)
  }

  /** The stages after init: show the current workspace, and list the workspaces when another one is current. */
  function ShowSpec(b: Binary, afterInit: seq<Command>, workspace: string): (seq<Command>, Option<Error>)
  {
    var afterShow := afterInit + [ShowCommand];
    var show := b.output(afterShow);
    if show.Failure? then (afterShow, Some(WrapSentinel(ShowWorkspaceFailure, show.error)))
    else if Text.TrimSpace(show.value) == workspace then (afterShow, None)
    else
      var afterList := afterShow + [ListCommand];
      var list := b.output(afterList);
      if list.Failure? then (afterList, Some(WrapSentinel(ListWorkspaceFailure, list.error)))
      else SwitchSpec(b, afterList, workspace)
  }

  /** SelectWorkspace as a function of the binary's answers: the runs after ran, and the error. */
  function SelectSpec(b: Binary, ran: seq<Command>, workspace: string): (seq<Command>, Option<Error>)
  {
    var afterInit := ran + [InitCommand];
    var init := b.output(afterInit);
    if init.Failure? then (afterInit, Some(WrapSentinel(InitWorkspaceFailure, init.error)))
    else if workspace == "" then (afterInit, None)
    else ShowSpec(b, afterInit, workspace)
  }

  /** SelectWorkspace, each stage returning as soon as it fails or has nothing left to do. */
  method SelectWorkspace(b: Binary, workspace: string) returns (err: Option<Error>)
    modifies b
    ensures (b.ran, err) == SelectSpec(b, old(b.ran), workspace)
  {
    var init := b.Run(InitCommand);
    if init.Failure? {
      return Some(WrapSentinel(InitWorkspaceFailure, init.error));
    }
    if workspace == "" {
      return None;
    }
    var data := b.Run(ShowCommand);
    if data.Failure? {
      return Some(WrapSentinel(ShowWorkspaceFailure, data.error));
    }
    if Text.TrimSpace(data.value) == workspace {
      return None;
    }
    data := b.Run(ListCommand);
    if data.Failure? {
      return Some(WrapSentinel(ListWorkspaceFailure, data.error));
    }
    if Text.Contains(data.value, workspace) {
      var sel := b.Run(SelectCommand(workspace));
      if sel.Failure? {
        return Some(WrapCause(SelectWorkspaceFailure, sel.error, workspace));
      }
      return None;
    }
    var created := b.Run(NewCommand(workspace));
    if created.Failure? {
      return Some(WrapCause(CreateWorkspaceFailure, created.error, workspace));
    }
    err := None;
  }

  /**
   * What SelectWorkspace runs, case by case: init alone when it fails or no
   * workspace is named; init and show when show fails or already names the
   * workspace; then the listing, and after a successful listing exactly one
   * of select (the listing mentions the workspace) or new (it does not).
   */
  lemma {:induction false} SelectRuns(b: Binary, ran: seq<Command>, workspace: string)
    ensures var after := SelectSpec(b, ran, workspace).0;
      var init := b.output(ran + [InitCommand]);
      var shown := b.output(ran + [InitCommand, ShowCommand]);
      var listed := b.output(ran + [InitCommand, ShowCommand, ListCommand]);
      && (init.Failure? || workspace == "" ==> after == ran + [InitCommand])
      && (init.Success? && workspace != "" && (shown.Failure? || Text.TrimSpace(shown.value) == workspace) ==>
            after == ran + [InitCommand, ShowCommand])
      && (init.Success? && workspace != "" && shown.Success? && Text.TrimSpace(shown.value) != workspace ==>
            if listed.Failure? then after == ran + [InitCommand, ShowCommand, ListCommand]
            else after == ran + [InitCommand, ShowCommand, ListCommand,
                                 if Text.Contains(listed.value, workspace) then SelectCommand(workspace) else NewCommand(workspace)])
  {
    var afterInit := ran + [InitCommand];
    var afterShow := afterInit + [ShowCommand];
    var afterList := afterShow + [ListCommand];
    assert afterShow == ran + [InitCommand, ShowCommand];
    assert afterList == ran + [InitCommand, ShowCommand, ListCommand];
    if b.output(afterInit).Success? && workspace != "" && b.output(afterShow).Success?
       && Text.TrimSpace(b.output(afterShow).value) != workspace && b.output(afterList).Success? {
      var x := if Text.Contains(b.output(afterList).value, workspace) then SelectCommand(workspace) else NewCommand(workspace);
      assert SelectSpec(b, ran, workspace).0 == afterList + [x];
      assert afterList + [x] == ran + [InitCommand, ShowCommand, ListCommand, x];
    }
  }

  /**
   * SelectWorkspace reports an error exactly when the last run failed; the
   * init, show and list failures carry their sentinel, while a failed select
   * or create carries the terraform error itself.
   */
  lemma {:induction false} SelectErrors(b: Binary, ran: seq<Command>, workspace: string)
    ensures var (after, err) := SelectSpec(b, ran, workspace);
      var init := b.output(ran + [InitCommand]);
      var shown := b.output(ran + [InitCommand, ShowCommand]);
      var listed := b.output(ran + [InitCommand, ShowCommand, ListCommand]);
      && (err.None? <==> b.output(after).Success?)
      && (init.Failure? ==> err.Some? && Is(err.value, Sentinel(InitWorkspaceFailure)))
      && (init.Success? && workspace != "" && shown.Failure? ==> err.Some? && Is(err.value, Sentinel(ShowWorkspaceFailure)))
      && (init.Success? && workspace != "" && shown.Success? && Text.TrimSpace(shown.value) != workspace ==>
            && (listed.Failure? ==> err.Some? && Is(err.value, Sentinel(ListWorkspaceFailure)))
            && (listed.Success? && err.Some? ==>
                  && err.value == WrapCause(if Text.Contains(listed.value, workspace) then SelectWorkspaceFailure
                                            else CreateWorkspaceFailure, b.output(after).error, workspace)
                  && Is(err.value, b.output(after).error)))
  {
    var afterInit := ran + [InitCommand];
    var afterShow := afterInit + [ShowCommand];
    var afterList := afterShow + [ListCommand];
    assert afterShow == ran + [InitCommand, ShowCommand];
    assert afterList == ran + [InitCommand, ShowCommand, ListCommand];
    if b.output(afterInit).Success? && workspace != "" && b.output(afterShow).Success?
       && Text.TrimSpace(b.output(afterShow).value) != workspace && b.output(afterList).Success? {
      SwitchErrors(b, afterList, workspace);
    }
  }

  /** The last stage fails exactly when its run fails, with the terraform error wrapped under the stage's sentinel text. */
  lemma {:induction false} SwitchErrors(b: Binary, afterList: seq<Command>, workspace: string)
    requires b.output(afterList).Success?
    ensures var (after, err) := SwitchSpec(b, afterList, workspace);
      && (err.None? <==> b.output(after).Success?)
      && (err.Some? ==>
            && err.value == WrapCause(if Text.Contains(b.output(afterList).value, workspace) then SelectWorkspaceFailure
                                      else CreateWorkspaceFailure, b.output(after).error, workspace)
            && Is(err.value, b.output(after).error))
  {
    var after := SwitchSpec(b, afterList, workspace).0;
    if b.output(after).Failure? {
      assert Is(b.output(after).error, b.output(after).error);
    }
  }

  /** A failed select or create is found by errors.Is as its sentinel only when the terraform error already was. */
  lemma {:induction false} WrapCauseHidesSentinel(k: Kind, e: Error, workspace: string)
    ensures Is(WrapCause(k, e, workspace), Sentinel(k)) <==> Is(e, Sentinel(k))
  {
  }
}
