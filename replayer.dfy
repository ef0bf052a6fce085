/** The `rerun.run` command: what replaying the slot asks of the host, and
    what it leaves in the slot. */
module Replayer {
  import opened LastAction
  import Recorder

  const NothingRecorded := "Rerun: nothing recorded yet."
  const UnknownKind := "Rerun: unknown last kind."
  const TerminalName := "Rerun"

  /** No command dispatch and no terminal input among the effects. */
  predicate IssuesNothing(effects: seq<Effect>)
  {
    forall k :: 0 <= k < |effects| ==> !effects[k].Forward? && !effects[k].SendText?
  }

  /** The effects of one replay of `slot`. `activeTerminal` says whether the
      host has an active terminal; `hostError` is the rejection of the
      re-dispatched command, if it failed. */
  function ReplayEffects(slot: Option<Record>, activeTerminal: bool, hostError: Option<string>): (effects: seq<Effect>)
    ensures |effects| >= 1
  {
    match slot
    case None => [ShowWarning(NothingRecorded)]
    case Some(r) =>
      if r.kind == CommandKind then
        [Forward(FieldValue(r.id), ArgsOrEmpty(r)),
         if hostError.Some? then ShowError("Rerun failed: " + hostError.value)
         else ShowInfo("Rerun: " + Rendered(r.id))]
      else if r.kind == TerminalKind then
        (if activeTerminal then [] else [CreateTerminal(TerminalName)]) +
        [ShowTerminal(true), SendText(FieldValue(r.line), true), ShowInfo("Rerun: " + Rendered(r.line))]
      else
        [ShowWarning(UnknownKind)]
  }

  /** The slot after a replay: a command replay goes back through the
      dispatch hook and may re-record; nothing else touches the slot. */
  function AfterReplay(slot: Option<Record>, when: string): (next: Option<Record>)
  {
    match slot
    case Some(r) =>
      if r.kind == CommandKind then Recorder.AfterExec(slot, FieldValue(r.id), ArgsOrEmpty(r), when)
      else slot
    case None => slot
  }

  /** A replay that goes back through the hook and is recorded there. */
  predicate ReplayRecords(slot: Option<Record>)
  {
    slot.Some? && slot.value.kind == CommandKind && Recorder.IsRecordable(FieldValue(slot.value.id))
  }

  lemma ReplayOfEmptySlotWarns(activeTerminal: bool, hostError: Option<string>, when: string)
    ensures ReplayEffects(None, activeTerminal, hostError) == [ShowWarning(NothingRecorded)]
    ensures IssuesNothing(ReplayEffects(None, activeTerminal, hostError))
    ensures AfterReplay(None, when) == None
  {
  }

  /** A command replay dispatches exactly once, with the stored id and the
      stored arguments in their order, and then confirms or reports. */
  lemma ReplayOfCommandDispatches(r: Record, activeTerminal: bool, hostError: Option<string>)
    requires r.kind == CommandKind
    ensures var effects := ReplayEffects(Some(r), activeTerminal, hostError);
      && |effects| == 2
      && effects[0] == Forward(FieldValue(r.id), if r.args.Some? then r.args.value else [])
      && !effects[1].Forward? && !effects[1].SendText?
      && (hostError.None? ==> effects[1] == ShowInfo("Rerun: " + Rendered(r.id)))
      && (hostError.Some? ==> effects[1] == ShowError("Rerun failed: " + hostError.value))
  {
  }

  /** A terminal replay sends the stored line once, with a newline, and dispatches nothing. */
  lemma ReplayOfTerminalSendsLine(r: Record, activeTerminal: bool, hostError: Option<string>, when: string)
    requires r.kind == TerminalKind
    ensures var effects := ReplayEffects(Some(r), activeTerminal, hostError);
      && (forall k :: 0 <= k < |effects| ==> !effects[k].Forward?)
      && (forall k :: 0 <= k < |effects| && effects[k].SendText? ==> k == |effects| - 2)
      && effects[|effects| - 2] == SendText(FieldValue(r.line), true)
      && (CreateTerminal(TerminalName) in effects <==> !activeTerminal)
    ensures AfterReplay(Some(r), when) == Some(r)
  {
  }

  lemma ReplayOfUnknownKindWarns(r: Record, activeTerminal: bool, hostError: Option<string>, when: string)
    requires r.kind != CommandKind && r.kind != TerminalKind
    ensures ReplayEffects(Some(r), activeTerminal, hostError) == [ShowWarning(UnknownKind)]
    ensures IssuesNothing(ReplayEffects(Some(r), activeTerminal, hostError))
    ensures AfterReplay(Some(r), when) == Some(r)
  {
  }

  /** Replaying a command record whose id is recordable re-records it with
      the same id and arguments but source "executeCommand". */
  lemma ReplayReRecords(r: Record, when: string)
    requires r.kind == CommandKind && r.id.Some? && Recorder.IsRecordable(Str(r.id.value))
    ensures var next := AfterReplay(Some(r), when);
      && next.Some? && next.value.kind == CommandKind
      && next.value.id == r.id
      && next.value.args == Some(ArgsOrEmpty(r))
      && next.value.source == Recorder.ExecSource
      && next.value.when == when
  {
  }

  /** A second replay asks exactly what the first one asked, whatever the first re-recorded. */
  lemma ReplayRepeats(slot: Option<Record>, when: string, activeTerminal: bool, hostError: Option<string>)
    ensures ReplayEffects(AfterReplay(slot, when), activeTerminal, hostError) == ReplayEffects(slot, activeTerminal, hostError)
  {
  }
}
