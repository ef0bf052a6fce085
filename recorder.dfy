/** What the recorder writes into the slot: the prefix filter of the
    command-dispatch hook and the record of a debug-session start. */
module Recorder {
  import opened LastAction

  /** The command namespaces worth recording. */
  const RecordedPrefixes: seq<string> := ["jbang.", "java.", "workbench.action.debug.", "debug."]

  const ExecSource := "executeCommand"
  const DebugSource := "debug"
  const DebugStartId := "workbench.action.debug.start"

  /** The hook's filter: a string id in one of the four namespaces. */
  predicate IsRecordable(id: Value)
  {
    id.Str? &&
    ("jbang." <= id.s ||
     "java." <= id.s ||
     "workbench.action.debug." <= id.s ||
     "debug." <= id.s)
  }

  /** Reference reading of the filter: some listed prefix starts the id. */
  ghost predicate HasRecordedPrefix(id: string)
  {
    exists k :: 0 <= k < |RecordedPrefixes| && RecordedPrefixes[k] <= id
  }

  lemma RecordableIff(id: Value)
    ensures IsRecordable(id) <==> id.Str? && HasRecordedPrefix(id.s)
  {
    if id.Str? && HasRecordedPrefix(id.s) {
      var k :| 0 <= k < |RecordedPrefixes| && RecordedPrefixes[k] <= id.s;
      assert k == 0 || k == 1 || k == 2 || k == 3;
    }
    if IsRecordable(id) {
      if "jbang." <= id.s {
        assert RecordedPrefixes[0] <= id.s;
      } else if "java." <= id.s {
        assert RecordedPrefixes[1] <= id.s;
      } else if "workbench.action.debug." <= id.s {
        assert RecordedPrefixes[2] <= id.s;
      } else {
        assert RecordedPrefixes[3] <= id.s;
      }
    }
  }

  /** The record the hook saves for a recordable dispatch. */
  function ExecRecord(id: string, args: seq<Value>, when: string): Record
  {
    Record(CommandKind, Some(id), Some(args), None, ExecSource, when)
  }

  /** The record saved on every debug-session start. */
  function DebugStartRecord(when: string): Record
  {
    Record(CommandKind, Some(DebugStartId), Some([]), None, DebugSource, when)
  }

  /** The slot after the hook has seen a dispatch of `id` with `args`. */
  function AfterExec(slot: Option<Record>, id: Value, args: seq<Value>, when: string): Option<Record>
  {
    if IsRecordable(id) then Some(ExecRecord(id.s, args, when)) else slot
  }

  /** Recording forgets the previous slot entirely and keeps exactly the
      dispatched id and arguments; any other dispatch changes nothing. */
  lemma RecordingForgetsPrevious(a: Option<Record>, b: Option<Record>, id: Value, args: seq<Value>, when: string)
    ensures IsRecordable(id) ==> AfterExec(a, id, args, when) == AfterExec(b, id, args, when)
    ensures IsRecordable(id) ==>
      var r := AfterExec(a, id, args, when);
      r.Some? && r.value.kind == CommandKind && r.value.source == ExecSource &&
      r.value.id == Some(id.s) && r.value.args == Some(args) && r.value.when == when
    ensures !IsRecordable(id) ==> AfterExec(a, id, args, when) == a
  {
  }

  lemma JbangRunIsRecorded()
    ensures IsRecordable(Str("jbang.run"))
  {
    assert "jbang." <= "jbang.run";
  }

  lemma FormatDocumentIsNotRecorded()
    ensures !IsRecordable(Str("editor.action.formatDocument"))
  {
    assert "editor.action.formatDocument"[0] == 'e';
  }

  lemma DebugStartIdIsRecordable()
    ensures IsRecordable(Str(DebugStartId))
  {
    assert "workbench.action.debug." <= DebugStartId;
  }
}
