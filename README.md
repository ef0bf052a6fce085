# Rerun: record the last runnable action and replay it

A model of the VS Code extension "rerun" (`extension.js`). The extension keeps
one slot, `last`, holding the most recent runnable action. Three kinds of host
event act on it:

- a command dispatch through the patched `vscode.commands.executeCommand`: the
  slot is overwritten when the id is a string in the `jbang.`, `java.`,
  `workbench.action.debug.` or `debug.` namespace, and the dispatch is always
  forwarded to the original dispatcher;
- a debug-session start: the slot is overwritten with a
  `workbench.action.debug.start` command record of source `debug`;
- the `rerun.run` command, which replays the slot: a warning when it is empty,
  a re-dispatch for a command record, a terminal line for a terminal record, a
  warning for any other kind.

Every save persists the slot under the global-state key `rerun.last` and
refreshes the status-bar label, which is a pure function of the slot.

Layout:

- `lastaction.dfy` (`LastAction`): the record, host values, the effects asked
  of the host, and the restore from storage.
- `recorder.dfy` (`Recorder`): the prefix filter and the two records the
  recorder writes.
- `replayer.dfy` (`Replayer`): what one replay asks of the host and what it
  leaves in the slot.
- `status.dfy` (`Status`): the status-bar text.
- `extension.dfy` (`Extension`): the activated extension as a class `Rerun`
  with the fields `last`, `storage` (the global state) and `statusText`, and
  one method per event. `Valid()` says a restart restores the slot, after the
  JSON round trip of the global state, and the label mirrors the slot. `Replay` calls `ExecuteCommand`, as the source's
  replay calls the patched dispatcher, so replaying a recordable command
  records it again with source `executeCommand`.
- `trace.dfy` (`Trace`): the same machine as pure functions over sequences of
  events, with lemmas about whole runs.

Host calls are effects returned by the methods: `Forward(id, args)` is the call
of the original dispatcher, and `ShowWarning`, `ShowInfo`, `ShowError`,
`CreateTerminal`, `ShowTerminal` and `SendText` are the window and terminal
calls. The timestamp `now()` is the parameter `when`. Whether the host has an
active terminal is the parameter `activeTerminal`. The rejection of a
re-dispatched command is the parameter `hostError`.

A field missing from a record is `None`. Where the source passes it on, it
becomes `undefined` (`FieldValue`). Where the source prints it in a template
string, it becomes the text `undefined` (`Rendered`).

The header comment of `extension.js` (lines 5-12) lists only the kinds
`"command"` and `"terminal"`. The model follows the code, which also handles any
other kind read back from storage. Such a record is not treated as "no record".
Replay warns about it, and the status label shows its `line` field.

## Model

| member | source | states |
|---|---|---|
| LastAction.Persisted | extension.js:32 | storing a record as JSON keeps its kind, id, line, source and time and the length of its args, and turns each `undefined` argument into `null` and no other |
| LastAction.PersistedKeepsJsonData | extension.js:32 | a record with no `undefined` argument survives the round trip unchanged |
| LastAction.PersistedIdempotent | extension.js:24 | storing a restored record again changes nothing |
| LastAction.UndefinedArgumentRestoredAsNull | extension.js:24 | a record saved with args `[undefined]` is restored with args `[null]` |
| Recorder.RecordableIff | extension.js:41-49 | an id is recorded if and only if it is a string that one of the four listed prefixes starts |
| Recorder.RecordingForgetsPrevious | extension.js:41-51 | a recordable dispatch leaves a command record with exactly the dispatched id and args, source `executeCommand` and the given time, whatever the slot held; any other dispatch leaves the slot unchanged |
| Recorder.JbangRunIsRecorded | extension.js:44 | `jbang.run` passes the filter |
| Recorder.FormatDocumentIsNotRecorded | extension.js:41-49 | `editor.action.formatDocument` does not pass the filter |
| Recorder.DebugStartIdIsRecordable | extension.js:46 | the debug-start id is itself in a recorded namespace, so replaying it records it again |
| Status.TextAfterRecordedExec | extension.js:135-139 | after a recorded dispatch the label names the dispatched id |
| Status.TextAfterDebugStart | extension.js:69 | after a debug-session start the label names `workbench.action.debug.start` |
| Status.FreshInstallShowsNone | extension.js:115-116 | when nothing was ever saved under `rerun.last`, activation draws the label `⏯ Rerun: <none>` |
| Status.LabelShowsSentLine | extension.js:121-122 | the label of a terminal record is the marker and its line, the same line a replay sends |
| Status.LabelNamesReplayedCommand | extension.js:118-119 | the label of a command record is the marker and its id, the same id a replay dispatches first |
| Status.LabelsTellCommandsApart | extension.js:118-119 | command records whose ids are present and different get different labels |
| Replayer.ReplayEffects | extension.js:82-109 | every replay asks the host for at least one thing: a dispatch, a terminal send or a message |
| Replayer.ReplayOfEmptySlotWarns | extension.js:84-88 | replaying an empty slot yields only the warning, issues no dispatch and no terminal send, and changes nothing |
| Replayer.ReplayOfCommandDispatches | extension.js:91-94 | replaying a command record dispatches once, with the stored id and the stored args (or none when absent), then shows the confirmation, or the error when the dispatch failed |
| Replayer.ReplayOfTerminalSendsLine | extension.js:95-100 | replaying a terminal record dispatches nothing, sends the stored line once with a newline, creates a terminal only when none is active, and leaves the slot unchanged |
| Replayer.ReplayOfUnknownKindWarns | extension.js:101-104 | replaying a record of any other kind yields only the unknown-kind warning and leaves the slot unchanged |
| Replayer.ReplayReRecords | extension.js:91-93 | replaying a command record with a recordable id leaves a record with the same id and args and source `executeCommand` |
| Replayer.ReplayRepeats | extension.js:91-94 | a second replay asks the host for exactly what the first asked, whatever the first re-recorded |
| LastAction.SavedIsRestored | extension.js:30-32 | after `save(s)` writes `s` under `rerun.last`, a restart restores `s` after its JSON round trip, whatever else storage holds, and `s` itself when its args hold no `undefined` |
| Extension.Rerun.Activate | extension.js:22-28 | activation restores the slot from storage and draws the label for it |
| Extension.Rerun.Save | extension.js:30-34 | save overwrites the whole slot, persists it under `rerun.last` and refreshes the label |
| Extension.Rerun.ExecuteCommand | extension.js:38-56 | the hook forwards the dispatch with the same id and args; it records a recordable id and leaves slot, storage and label untouched otherwise |
| Extension.Rerun.OnDidStartDebugSession | extension.js:61-74 | a debug-session start sets and persists the debug record, whatever the slot held |
| Extension.Rerun.Replay | extension.js:82-109 | replay yields the effects of the slot it started from and leaves the slot the re-dispatch through the hook leaves; storage changes at the key `rerun.last` and nowhere else exactly when the re-dispatch is recorded, and the slot and storage are unchanged otherwise |
| Trace.LastWriteWins | extension.js:30-34 | once a run contains an overwriting event, its final slot does not depend on the slot it started from |
| Trace.RunProvenance | extension.js:36-74 | every slot a run reaches is its starting slot or a command record with a recordable id, args present and source `executeCommand` or `debug` |
| Trace.NoTerminalRecorded | extension.js:5-12 | no event produces a terminal record; one can only come from storage |
| Trace.EveryDispatchIsForwarded | extension.js:55 | a run of dispatches forwards each one, in order, with its own id and args, recorded or not |
| Trace.JbangRunScenario | extension.js:38-56 | dispatching `jbang.run` with `["a","b"]` and replaying re-dispatches it with the same args and leaves its record |
| Trace.FormatDocumentScenario | extension.js:41-51 | dispatching `editor.action.formatDocument` leaves the slot unchanged |
| Trace.DebugStartScenario | extension.js:61-74 | a debug start then a replay re-dispatches `workbench.action.debug.start` with no args and leaves it re-recorded with source `executeCommand` |
| Trace.EmptyReplayScenario | extension.js:84-88 | replaying before anything was recorded only warns and dispatches nothing |

## Left out

- Output-channel log lines: they are diagnostic output only.
- The status-bar tooltip: it prints args with `JSON.stringify`, and args are opaque host values. Only the label text is modelled.
- Setting `status.command` to `rerun.run`, `status.show()`, and the registration of subscriptions: these are host calls. The `Replay` method is the `rerun.run` command.
- The debug `meta` object (session type, name and workspace folder): it is read from the host session and is display-only.
- The keybinding-conflict check: it is an asynchronous host query that only gives advice and does not touch the slot.
- The `catch` branches of the hook (extension.js:52-54) and of the debug handler (extension.js:71-73). The exception they can catch in practice comes from the extension's own `JSON.stringify(last)` in `save` (extension.js:33), when the args hold a circular object or a BigInt. `globalState.update` returns a promise that `save` never awaits. So only a synchronous throw from it reaches that `catch`; a rejection escapes it. Args are opaque values in the model, so it cannot tell which args fail to serialise. Only the rejection of a replayed command is modelled, as `ShowError`.
- Extension.Rerun.Save: the model assumes the log line serialises. In the source, a throw at extension.js:33 comes after `last = state` (extension.js:31) but before the rebound `save` calls `updateStatus()` (extension.js:137-138). The slot and storage then change while the label stays stale. `Valid()` does not capture that state.
- Extension.Rerun.ExecuteCommand: the same throw leaves a new slot with a stale label, and the hook still forwards the dispatch. The model promises `Valid()` for every args.
- Extension.Rerun.OnDidStartDebugSession: the debug record always serialises, so this path is not affected.
- Extension.Rerun.Replay: for a command record, `JSON.stringify(last.args || [])` in the log line at extension.js:92 runs before the dispatch at extension.js:93. If it throws, the source sends no dispatch and shows only "Rerun failed: …". The model always emits `Forward` first.
- The `catch` of the restore (extension.js:26-28): a storage read that throws leaves the slot `null` and only logs. The model's `Activate` always reads the stored map.
- Extension.Rerun.Replay: a failure of the host's terminal calls is not modelled.
- Extension.Rerun.Replay: the model treats a replay as one step. In the source, other callbacks may run while it awaits the dispatch, before the confirmation reads `last.id` again. The model re-reads the slot only after its own re-dispatch.
- LastAction.Persisted: only the `undefined` to `null` conversion of the JSON round trip is modelled. Host objects in args (a `Uri`, say) come back from storage as plain data, but the model keeps them as the same `Opaque` value.
- Monkey-patching and `async`/`await`: the hook is a method that returns the forwarded call.
- Args are captured by reference in the source. The model copies them as values, so aliasing is not captured.
- Stored records whose `id` or `line` is not a string, and falsy stored values other than `null`, are not modelled. The slot is an `Option` of a record.
- Between installing the hook and rebinding `save`, activation runs without yielding, so no event can see the save that does not refresh the label. The model's `Save` always refreshes it.
- `deactivate`: it does nothing.
