/** The extension as a state machine over sequences of host events: one
    step per callback, since the host runs callbacks one at a time. */
module Trace {
  import opened LastAction
  import Recorder
  import Replayer

  datatype Event =
    | Exec(id: Value, args: seq<Value>, when: string)
    | DebugStart(when: string)
    | Replay(when: string, activeTerminal: bool, hostError: Option<string>)

  function Next(slot: Option<Record>, e: Event): Option<Record>
  {
    match e
    case Exec(id, args, when) => Recorder.AfterExec(slot, id, args, when)
    case DebugStart(when) => Some(Recorder.DebugStartRecord(when))
    case Replay(when, _, _) => Replayer.AfterReplay(slot, when)
  }

  function Emitted(slot: Option<Record>, e: Event): seq<Effect>
  {
    match e
    case Exec(id, args, _) => [Forward(id, args)]
    case DebugStart(_) => []
    case Replay(_, activeTerminal, hostError) => Replayer.ReplayEffects(slot, activeTerminal, hostError)
  }

  /** The slot after the events, in order. */
  function Run(slot: Option<Record>, es: seq<Event>): Option<Record>
    decreases |es|
  {
    if es == [] then slot else Run(Next(slot, es[0]), es[1..])
  }

  /** Everything the events ask of the host, in order. */
  function RunEffects(slot: Option<Record>, es: seq<Event>): seq<Effect>
    decreases |es|
  {
    if es == [] then [] else Emitted(slot, es[0]) + RunEffects(Next(slot, es[0]), es[1..])
  }

  /** An event that writes the slot whatever it held. */
  predicate Overwrites(e: Event)
  {
    e.DebugStart? || (e.Exec? && Recorder.IsRecordable(e.id))
  }

  /** A record that one of the recorder's paths can have written. */
  predicate IsRecorded(slot: Option<Record>)
  {
    && slot.Some?
    && slot.value.kind == CommandKind
    && slot.value.id.Some?
    && Recorder.IsRecordable(Str(slot.value.id.value))
    && slot.value.args.Some?
    && (slot.value.source == Recorder.ExecSource || slot.value.source == Recorder.DebugSource)
  }

  /** Last write wins: once an overwriting event has happened, nothing of
      the slot that was there before it can be observed. */
  lemma {:induction false} LastWriteWins(a: Option<Record>, b: Option<Record>, es: seq<Event>, k: nat)
    requires k < |es| && Overwrites(es[k])
    ensures Run(a, es) == Run(b, es)
    decreases |es|
  {
    if !Overwrites(es[0]) {
      LastWriteWins(Next(a, es[0]), Next(b, es[0]), es[1..], k - 1);
    } else {
      assert Next(a, es[0]) == Next(b, es[0]);
    }
  }

  lemma NextKeepsRecorded(slot: Option<Record>, e: Event)
    ensures Next(slot, e) == slot || IsRecorded(Next(slot, e))
    ensures IsRecorded(slot) ==> IsRecorded(Next(slot, e))
  {
    match e
    case Exec(id, args, when) =>
    case DebugStart(when) =>
      Recorder.DebugStartIdIsRecordable();
    case Replay(when, _, _) =>
  }

  /** Every slot a run reaches is the one it started from or a command
      record written by the hook or the debug listener. */
  lemma {:induction false} RunProvenance(a: Option<Record>, es: seq<Event>)
    ensures Run(a, es) == a || IsRecorded(Run(a, es))
    ensures IsRecorded(a) ==> IsRecorded(Run(a, es))
    decreases |es|
  {
    if es != [] {
      NextKeepsRecorded(a, es[0]);
      RunProvenance(Next(a, es[0]), es[1..]);
    }
  }

  /** No event writes a terminal record: that kind only comes from storage. */
  lemma NoTerminalRecorded(a: Option<Record>, es: seq<Event>)
    requires a.None? || a.value.kind != TerminalKind
    ensures Run(a, es).None? || Run(a, es).value.kind != TerminalKind
  {
    RunProvenance(a, es);
  }

  /** Every dispatch reaches the original dispatcher, with its own id and
      arguments and in dispatch order, recorded or not. */
  lemma {:induction false} EveryDispatchIsForwarded(a: Option<Record>, es: seq<Event>)
    requires forall k :: 0 <= k < |es| ==> es[k].Exec?
    ensures |RunEffects(a, es)| == |es|
    ensures forall k :: 0 <= k < |es| ==> RunEffects(a, es)[k] == Forward(es[k].id, es[k].args)
    decreases |es|
  {
    if es != [] {
      EveryDispatchIsForwarded(Next(a, es[0]), es[1..]);
      assert forall k :: 1 <= k < |es| ==> es[k] == es[1..][k - 1];
    }
  }

  /** Dispatching "jbang.run" with ["a", "b"] and replaying re-dispatches
      the same command with the same arguments. */
  lemma JbangRunScenario(a: Option<Record>, w1: string, w2: string)
    ensures var es := [Exec(Str("jbang.run"), [Str("a"), Str("b")], w1), Replay(w2, true, None)];
      && Run(a, es) == Some(Recorder.ExecRecord("jbang.run", [Str("a"), Str("b")], w2))
      && RunEffects(a, es) == [Forward(Str("jbang.run"), [Str("a"), Str("b")]),
                               Forward(Str("jbang.run"), [Str("a"), Str("b")]),
                               ShowInfo("Rerun: " + "jbang.run")]
  {
    Recorder.JbangRunIsRecorded();
    var args := [Str("a"), Str("b")];
    var es := [Exec(Str("jbang.run"), args, w1), Replay(w2, true, None)];
    var s1 := Some(Recorder.ExecRecord("jbang.run", args, w1));
    assert Next(a, es[0]) == s1;
    assert Next(s1, es[1]) == Some(Recorder.ExecRecord("jbang.run", args, w2));
    assert Emitted(s1, es[1]) == [Forward(Str("jbang.run"), args), ShowInfo("Rerun: " + "jbang.run")];
    assert es[1..] == [es[1]];
    assert Run(s1, es[1..]) == Run(Next(s1, es[1]), []);
    assert RunEffects(s1, es[1..]) == Emitted(s1, es[1]) + RunEffects(Next(s1, es[1]), []);
  }

  /** Dispatching "editor.action.formatDocument" leaves the slot as it was. */
  lemma FormatDocumentScenario(a: Option<Record>, w: string)
    ensures Run(a, [Exec(Str("editor.action.formatDocument"), [], w)]) == a
  {
    Recorder.FormatDocumentIsNotRecorded();
    assert [Exec(Str("editor.action.formatDocument"), [], w)][1..] == [];
  }

  /** A debug start followed by a replay re-dispatches the start-debugging
      command without arguments; the replay re-records it as a dispatch. */
  lemma DebugStartScenario(a: Option<Record>, w1: string, w2: string)
    ensures var es := [DebugStart(w1), Replay(w2, true, None)];
      && Run(a, es) == Some(Recorder.ExecRecord(Recorder.DebugStartId, [], w2))
      && RunEffects(a, es) == [Forward(Str(Recorder.DebugStartId), []),
                               ShowInfo("Rerun: " + Recorder.DebugStartId)]
  {
    Recorder.DebugStartIdIsRecordable();
    var es := [DebugStart(w1), Replay(w2, true, None)];
    var s1 := Some(Recorder.DebugStartRecord(w1));
    assert Next(a, es[0]) == s1;
    assert Next(s1, es[1]) == Some(Recorder.ExecRecord(Recorder.DebugStartId, [], w2));
    assert Emitted(s1, es[1]) == [Forward(Str(Recorder.DebugStartId), []), ShowInfo("Rerun: " + Recorder.DebugStartId)];
    assert es[1..] == [es[1]];
    assert Run(s1, es[1..]) == Run(Next(s1, es[1]), []);
    assert RunEffects(s1, es[1..]) == Emitted(s1, es[1]) + RunEffects(Next(s1, es[1]), []);
  }

  /** Replaying before anything was recorded only warns. */
  lemma EmptyReplayScenario(w: string, activeTerminal: bool, hostError: Option<string>)
    ensures Run(None, [Replay(w, activeTerminal, hostError)]) == None
    ensures RunEffects(None, [Replay(w, activeTerminal, hostError)]) == [ShowWarning(Replayer.NothingRecorded)]
  {
    assert [Replay(w, activeTerminal, hostError)][1..] == [];
  }
}
