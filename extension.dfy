/** The activated extension: the slot `last`, the global-state store it is
    persisted in, and the status-bar label that mirrors it. */
module Extension {
  import opened LastAction
  import Recorder
  import Replayer
  import Status

  class Rerun {
    var last: Option<Record>
    var storage: map<string, Record>
    var statusText: string

    /** A restart would restore the slot after its JSON round trip, and the
        label mirrors the slot. */
    ghost predicate Valid()
      reads this
    {
      Restored(storage) == PersistedSlot(last) && statusText == Status.Text(last)
    }

    /** `activate`: restore the slot from storage and draw the label. */
    constructor Activate(persisted: map<string, Record>)
      ensures Valid()
      ensures storage == persisted
      ensures last == Restored(persisted)
    {
      if StorageKey in persisted {
        PersistedIdempotent(persisted[StorageKey]);
      }
      storage := persisted;
      last := Restored(persisted);
      statusText := Status.Text(Restored(persisted));
    }

    /** `save` as rebound after activation: overwrite the slot, persist it,
        refresh the label. */
    method Save(s: Record)
      requires Valid()
      modifies this
      ensures Valid()
      ensures last == Some(s)
      ensures storage == old(storage)[StorageKey := s]
    {
      last := Some(s);
      storage := storage[StorageKey := s];
      statusText := Status.Text(last);
    }

    /** The patched `executeCommand`: record the dispatch when its id is
        recordable, then forward it unchanged to the original dispatcher. */
    method ExecuteCommand(id: Value, args: seq<Value>, when: string) returns (forwarded: Effect)
      requires Valid()
      modifies this
      ensures Valid()
      ensures forwarded == Forward(id, args)
      ensures Recorder.IsRecordable(id) ==>
        last == Some(Record(CommandKind, Some(id.s), Some(args), None, Recorder.ExecSource, when)) &&
        storage == old(storage)[StorageKey := last.value]
      ensures !Recorder.IsRecordable(id) ==>
        last == old(last) && storage == old(storage) && statusText == old(statusText)
      ensures last == Recorder.AfterExec(old(last), id, args, when)
    {
      if Recorder.IsRecordable(id) {
        Save(Recorder.ExecRecord(id.s, args, when));
      }
      forwarded := Forward(id, args);
    }

    /** The `onDidStartDebugSession` handler. */
    method OnDidStartDebugSession(when: string)
      requires Valid()
      modifies this
      ensures Valid()
      ensures last == Some(Record(CommandKind, Some(Recorder.DebugStartId), Some([]), None, Recorder.DebugSource, when))
      ensures storage == old(storage)[StorageKey := last.value]
    {
      Save(Recorder.DebugStartRecord(when));
    }

    /** The `rerun.run` command. A command record is re-dispatched through
        the patched `executeCommand`, so it may be recorded again. */
    method Replay(when: string, activeTerminal: bool, hostError: Option<string>) returns (effects: seq<Effect>)
      requires Valid()
      modifies this
      ensures Valid()
      ensures effects == Replayer.ReplayEffects(old(last), activeTerminal, hostError)
      ensures last == Replayer.AfterReplay(old(last), when)
      ensures Replayer.ReplayRecords(old(last)) ==> storage == old(storage)[StorageKey := last.value]
      ensures !Replayer.ReplayRecords(old(last)) ==> storage == old(storage) && last == old(last)
    {
      if last.None? {
        effects := [ShowWarning(Replayer.NothingRecorded)];
        return;
      }
      var r := last.value;
      if r.kind == CommandKind {
        var dispatched := ExecuteCommand(FieldValue(r.id), ArgsOrEmpty(r), when);
        // the confirmation reads the slot again, after the dispatch
        var outcome := if hostError.Some? then ShowError("Rerun failed: " + hostError.value)
                       else ShowInfo("Rerun: " + Rendered(last.value.id));
        effects := [dispatched, outcome];
      } else if r.kind == TerminalKind {
        var open := if activeTerminal then [] else [CreateTerminal(Replayer.TerminalName)];
        effects := open + [ShowTerminal(true), SendText(FieldValue(r.line), true), ShowInfo("Rerun: " + Rendered(r.line))];
      } else {
        effects := [ShowWarning(Replayer.UnknownKind)];
      }
    }
  }
}
