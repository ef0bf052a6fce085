/** The status-bar label: a pure function of the slot. */
module Status {
  import opened LastAction
  import Recorder
  import Replayer

  const Marker := "\U{23EF} "
  const NoneText := "\U{23EF} Rerun: <none>"

  /** The text `updateStatus` puts on the status-bar item. A command record
      shows its id, every other record its terminal line. */
  function Text(slot: Option<Record>): string
  {
    match slot
    case None => NoneText
    case Some(r) =>
      if r.kind == CommandKind then Marker + Rendered(r.id) else Marker + Rendered(r.line)
  }

  /** After a recorded dispatch the label names the dispatched command. */
  lemma TextAfterRecordedExec(slot: Option<Record>, id: Value, args: seq<Value>, when: string)
    requires Recorder.IsRecordable(id)
    ensures Text(Recorder.AfterExec(slot, id, args, when)) == Marker + id.s
  {
  }

  /** After a debug-session start the label names the start-debugging command. */
  lemma TextAfterDebugStart(when: string)
    ensures Text(Some(Recorder.DebugStartRecord(when))) == Marker + Recorder.DebugStartId
  {
  }

  /** The label of a command record names exactly the command a replay would dispatch. */
  lemma LabelNamesReplayedCommand(r: Record, activeTerminal: bool, hostError: Option<string>)
    requires r.kind == CommandKind && r.id.Some?
    ensures Text(Some(r)) == Marker + r.id.value
    ensures Replayer.ReplayEffects(Some(r), activeTerminal, hostError)[0].Forward?
    ensures Replayer.ReplayEffects(Some(r), activeTerminal, hostError)[0].id == Str(r.id.value)
  {
  }

  /** Two command records with different ids get different labels. */
  lemma LabelsTellCommandsApart(r1: Record, r2: Record)
    requires r1.kind == CommandKind && r2.kind == CommandKind
    requires r1.id.Some? && r2.id.Some? && r1.id != r2.id
    ensures Text(Some(r1)) != Text(Some(r2))
  {
    var t1, t2 := Text(Some(r1)), Text(Some(r2));
    assert t1[|Marker|..] == r1.id.value;
    assert t2[|Marker|..] == r2.id.value;
  }

  /** Before anything was ever saved, activation shows the empty label. */
  lemma FreshInstallShowsNone(storage: map<string, Record>)
    requires StorageKey !in storage
    ensures Text(Restored(storage)) == NoneText
  {
  }

  /** The label of a terminal record shows the line a replay sends. */
  lemma LabelShowsSentLine(r: Record, activeTerminal: bool, hostError: Option<string>)
    requires r.kind == TerminalKind && r.line.Some?
    ensures Text(Some(r)) == Marker + r.line.value
    ensures SendText(Str(r.line.value), true) in Replayer.ReplayEffects(Some(r), activeTerminal, hostError)
  {
    var effects := Replayer.ReplayEffects(Some(r), activeTerminal, hostError);
    assert effects[|effects| - 2] == SendText(Str(r.line.value), true);
  }
}
