/** The one piece of state of the extension: the last runnable action, and
    the effects the extension asks of its host. */
module LastAction {

  datatype Option<+T> = None | Some(value: T)

  /** A value handed over by the editor host. Only strings are looked at;
      every other value is carried around unopened. */
  datatype Value = Undefined | Null | Str(s: string) | Opaque(handle: nat)

  /** The stored record. `kind` is a free string because a record restored
      from storage may carry any kind; `id` and `args` belong to command
      records and `line` to terminal records, and a missing field is `None`.
      `source` says which event produced the record, `when` is its timestamp. */
  datatype Record = Record(
    kind: string,
    id: Option<string>,
    args: Option<seq<Value>>,
    line: Option<string>,
    source: string,
    when: string)

  const CommandKind := "command"
  const TerminalKind := "terminal"

  /** The key under which the record is persisted in the extension's global state. */
  const StorageKey := "rerun.last"

  /** A request the extension makes of the host. */
  datatype Effect =
    | Forward(id: Value, args: seq<Value>)       // call of the original command dispatcher
    | ShowWarning(message: string)
    | ShowInfo(message: string)
    | ShowError(message: string)
    | CreateTerminal(name: string)
    | ShowTerminal(preserveFocus: bool)
    | SendText(text: Value, addNewLine: bool)

  /** An optional string field as JavaScript passes it on: absent is `undefined`. */
  function FieldValue(f: Option<string>): Value
  {
    match f
    case Some(s) => Str(s)
    case None => Undefined
  }

  /** An optional string field as a template literal renders it. */
  function Rendered(f: Option<string>): string
  {
    match f
    case Some(s) => s
    case None => "undefined"
  }

  /** `last.args || []`: the stored arguments, or none when they are absent. */
  function ArgsOrEmpty(r: Record): seq<Value>
  {
    match r.args
    case Some(a) => a
    case None => []
  }

  /** An array element after a JSON round trip: `undefined` comes back as `null`. */
  function JsonElement(v: Value): Value
  {
    if v.Undefined? then Null else v
  }

  /** A record as the host's global state gives it back after storing it
      as JSON. A missing field stays missing; inside the argument array
      every `undefined` becomes `null`. */
  function Persisted(r: Record): (p: Record)
    ensures p.kind == r.kind && p.id == r.id && p.line == r.line
    ensures p.source == r.source && p.when == r.when
    ensures p.args.Some? <==> r.args.Some?
    ensures p.args.Some? ==> |p.args.value| == |r.args.value|
    ensures p.args.Some? ==> forall k :: 0 <= k < |p.args.value| ==> !p.args.value[k].Undefined?
    ensures p.args.Some? ==> forall k :: 0 <= k < |p.args.value| ==>
      (p.args.value[k] == r.args.value[k] || (r.args.value[k].Undefined? && p.args.value[k].Null?))
  {
    match r.args
    case None => r
    case Some(a) => r.(args := Some(seq(|a|, k requires 0 <= k < |a| => JsonElement(a[k]))))
  }

  function PersistedSlot(slot: Option<Record>): Option<Record>
  {
    match slot
    case Some(r) => Some(Persisted(r))
    case None => None
  }

  /** A record that holds no `undefined` argument survives the round trip unchanged. */
  lemma PersistedKeepsJsonData(r: Record)
    requires r.args.Some? ==> forall k :: 0 <= k < |r.args.value| ==> !r.args.value[k].Undefined?
    ensures Persisted(r) == r
  {
    if r.args.Some? {
      assert Persisted(r).args.value == r.args.value;
    }
  }

  /** Storing what was read back changes nothing. */
  lemma PersistedIdempotent(r: Record)
    ensures Persisted(Persisted(r)) == Persisted(r)
  {
    PersistedKeepsJsonData(Persisted(r));
  }

  /** The value `globalState.get("rerun.last", null)` returns: the stored
      record after its JSON round trip. */
  function Restored(storage: map<string, Record>): Option<Record>
  {
    if StorageKey in storage then Some(Persisted(storage[StorageKey])) else None
  }

  /** The persistence round trip: what a save writes, a restart restores,
      exactly when its arguments hold no `undefined`. */
  lemma SavedIsRestored(storage: map<string, Record>, s: Record)
    ensures Restored(storage[StorageKey := s]) == Some(Persisted(s))
    ensures (s.args.Some? ==> forall k :: 0 <= k < |s.args.value| ==> !s.args.value[k].Undefined?) ==>
      Restored(storage[StorageKey := s]) == Some(s)
  {
    if s.args.Some? ==> forall k :: 0 <= k < |s.args.value| ==> !s.args.value[k].Undefined? {
      PersistedKeepsJsonData(s);
    }
  }

  /** An `undefined` argument comes back from storage as `null`. */
  lemma UndefinedArgumentRestoredAsNull(storage: map<string, Record>, s: Record)
    requires s.args == Some([Undefined])
    ensures Restored(storage[StorageKey := s]).value.args == Some([Null])
  {
    assert Persisted(s).args.value == [Null];
  }
}
