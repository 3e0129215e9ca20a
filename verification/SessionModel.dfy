/**
 The session store as values: JSONL entries, the tree they denote, and the two
 ways that tree comes about. `Replay` is what `Open` does with a file;
 `Live` is what a running session does to its fields, and `Written` the line it
 appends while doing so.
 */
module SessionModel {
  import opened Prelude

  /** Entry ids; the empty string means "no entry". */
  type Id = string

  datatype Message =
    | UserMessage(content: string, ts: int)
    | AssistantMessage(text: string)
    | ToolResultMessage(callId: string, text: string)

  datatype Meta = Meta(id: string, cwd: string, model: string, createdAt: int,
                       title: string, parentId: string, forkPoint: int)

  datatype CustomMessageData = CustomMessageData(role: string, content: string)
  datatype LabelData = LabelData(target: Id, tag: string)

  /**
   A JSON value, represented by what each decoder of the package makes of it:
   `None` where json.Unmarshal reports an error. A value written by an
   extension may satisfy any combination of decoders.
   */
  datatype Raw = Raw(
    asMeta: Option<Meta>,
    asUser: Option<Message>,
    asAssistant: Option<Message>,
    asToolResult: Option<Message>,
    asCompact: Option<seq<SubEntry>>,
    asCustom: Option<CustomMessageData>,
    asLabel: Option<LabelData>)

  /** An entry inside a compact checkpoint: only its type and data are set. */
  datatype SubEntry = SubEntry(typ: string, data: Raw)

  datatype Entry = Entry(typ: string, id: Id, parentId: Id, ts: int, data: Raw, tokensBefore: int)

  datatype Node = Node(parentId: Id, typ: string, ts: int,
                       message: Option<Message>, compact: Option<seq<Message>>, tokensBefore: int)

  /** The in-memory fields of a session that the file determines. */
  datatype State = State(id: string, meta: Meta, nodes: map<Id, Node>,
                         labels: map<Id, string>, leaf: Id, legacySeq: nat)

  const TYPE_USER := "user"
  const TYPE_ASSISTANT := "assistant"
  const TYPE_TOOL_RESULT := "tool_result"
  const TYPE_META := "meta"
  const TYPE_COMPACT := "compact"
  const TYPE_BRANCH_SUMMARY := "branch_summary"
  const TYPE_CUSTOM_MESSAGE := "custom_message"
  const TYPE_LABEL := "label"

  const NO_META := Meta("", "", "", 0, "", "", 0)
  const EMPTY := State("", NO_META, map[], map[], "", 0)

  // ----- codecs -----

  const OPAQUE_JSON := Raw(None, None, None, None, None, None, None)

  function EncodeMeta(m: Meta): Raw { OPAQUE_JSON.(asMeta := Some(m)) }

  function EncodeMessage(m: Message): Raw {
    match m
    case UserMessage(_, _) => OPAQUE_JSON.(asUser := Some(m))
    case AssistantMessage(_) => OPAQUE_JSON.(asAssistant := Some(m))
    case ToolResultMessage(_, _) => OPAQUE_JSON.(asToolResult := Some(m))
  }

  function MessageEntryType(m: Message): string {
    match m
    case UserMessage(_, _) => TYPE_USER
    case AssistantMessage(_) => TYPE_ASSISTANT
    case ToolResultMessage(_, _) => TYPE_TOOL_RESULT
  }

  function EncodeCompact(msgs: seq<Message>): Raw {
    OPAQUE_JSON.(asCompact := Some(seq(|msgs|, i requires 0 <= i < |msgs| =>
      SubEntry(MessageEntryType(msgs[i]), EncodeMessage(msgs[i])))))
  }

  function CustomMessageToCore(role: string, content: string, ts: int): Message {
    if role == "assistant" then AssistantMessage(content) else UserMessage(content, ts)
  }

  /** What a message-typed entry decodes to. */
  function DecodeMessage(typ: string, data: Raw): Option<Message> {
    if typ == TYPE_USER then data.asUser
    else if typ == TYPE_ASSISTANT then data.asAssistant
    else if typ == TYPE_TOOL_RESULT then data.asToolResult
    else None
  }

  function ReplayCompact(entries: seq<SubEntry>): seq<Message> {
    if entries == [] then []
    else
      var rest := ReplayCompact(entries[..|entries| - 1]);
      var last := entries[|entries| - 1];
      match DecodeMessage(last.typ, last.data)
      case Some(m) => rest + [m]
      case None => rest
  }

  // ----- replay -----

  function Digits(n: nat): string {
    var d := ['0' + (n % 10) as char];
    if n < 10 then d else Digits(n / 10) + d
  }

  /** A legacy line gets a sequential id and hangs off the current leaf. */
  function Upgrade(s: State, e: Entry): Entry {
    if e.id != "" then e
    else e.(id := "L" + Digits(s.legacySeq), parentId := if s.leaf != "" then s.leaf else e.parentId)
  }

  function NodeOf(e: Entry): Node {
    Node(e.parentId, e.typ, e.ts,
         if e.typ == TYPE_CUSTOM_MESSAGE then
           match e.data.asCustom
           case Some(cm) => Some(CustomMessageToCore(cm.role, cm.content, e.ts))
           case None => None
         else DecodeMessage(e.typ, e.data),
         if e.typ == TYPE_COMPACT && e.data.asCompact.Some? then
           // an empty result is a nil slice
           var msgs := ReplayCompact(e.data.asCompact.value);
           if msgs == [] then None else Some(msgs)
         else None,
         if e.typ == TYPE_COMPACT then e.tokensBefore else 0)
  }

  function SetLabel(labels: map<Id, string>, target: Id, tag: string): map<Id, string> {
    if tag != "" then labels[target := tag] else labels - {target}
  }

  function ReplayedLabels(labels: map<Id, string>, e: Entry): map<Id, string> {
    if e.typ == TYPE_LABEL && e.data.asLabel.Some?
    then SetLabel(labels, e.data.asLabel.value.target, e.data.asLabel.value.tag)
    else labels
  }

  function ReplayEntry(s: State, e: Entry): State {
    if e.typ == TYPE_META then
      match e.data.asMeta
      case Some(m) => s.(id := m.id, meta := m)
      case None => s
    else
      var u := Upgrade(s, e);
      s.(nodes := s.nodes[u.id := NodeOf(u)],
         leaf := u.id,
         labels := ReplayedLabels(s.labels, u),
         legacySeq := if e.id == "" then s.legacySeq + 1 else s.legacySeq)
  }

  function Replay(log: seq<Entry>): State {
    if log == [] then EMPTY else ReplayEntry(Replay(log[..|log| - 1]), log[|log| - 1])
  }

  // ----- live operations -----

  datatype Op =
    | Append(msg: Message)
    | AppendCompact(msgs: seq<Message>, tokens: int)
    | AppendCustom(kind: string, data: Raw)
    | AppendCustomMessage(role: string, content: string)
    | AppendLabel(target: Id, tag: string)
    | Branch(target: Id, summary: string)
    | ResetLeaf
    | SetTitle(title: string)
    | SetModel(model: string)

  /** What the world contributes to one call: a generated id, the clock, and whether the write succeeds. */
  datatype World = World(id: Id, now: int, ok: bool)

  /** The operation reports an unknown target before it writes anything. */
  predicate Rejected(s: State, op: Op) {
    match op
    case AppendLabel(target, _) => target !in s.nodes
    case Branch(target, _) => target !in s.nodes
    case _ => false
  }

  predicate IsMetaOp(op: Op) { op.SetTitle? || op.SetModel? }

  function NewMeta(m: Meta, op: Op): Meta
    requires IsMetaOp(op)
  {
    match op
    case SetTitle(t) => m.(title := t)
    case SetModel(x) => m.(model := x)
  }

  /** The entry type and payload a node-creating operation commits. */
  function Payload(op: Op): (string, Raw)
    requires !IsMetaOp(op)
  {
    match op
    case Append(m) => (MessageEntryType(m), EncodeMessage(m))
    case AppendCompact(ms, _) => (TYPE_COMPACT, EncodeCompact(ms))
    case AppendCustom(kind, data) => (kind, data)
    case AppendCustomMessage(r, c) => (TYPE_CUSTOM_MESSAGE, OPAQUE_JSON.(asCustom := Some(CustomMessageData(r, c))))
    case AppendLabel(t, l) => (TYPE_LABEL, OPAQUE_JSON.(asLabel := Some(LabelData(t, l))))
    case Branch(_, _) => (TYPE_BRANCH_SUMMARY, OPAQUE_JSON)
    case ResetLeaf => (TYPE_BRANCH_SUMMARY, OPAQUE_JSON)
  }

  /** The parent of the committed entry: the leaf, unless the operation moves it first. */
  function ParentFor(s: State, op: Op): Id {
    match op
    case Branch(target, _) => target
    case ResetLeaf => ""
    case _ => s.leaf
  }

  /** The node a live operation inserts; message and compact come from the arguments, not from the payload. */
  function LiveNode(s: State, op: Op, w: World): Node
    requires !IsMetaOp(op)
  {
    Node(ParentFor(s, op), Payload(op).0, w.now,
         match op {
           case Append(m) => Some(m)
           case AppendCustomMessage(r, c) => Some(CustomMessageToCore(r, c, w.now))
           case _ => None
         },
         if op.AppendCompact? then Some(op.msgs) else None,
         if op.AppendCompact? then op.tokens else 0)
  }

  function Written(s: State, op: Op, w: World): seq<Entry> {
    if Rejected(s, op) || !w.ok then []
    else if IsMetaOp(op) then [Entry(TYPE_META, "", "", w.now, EncodeMeta(NewMeta(s.meta, op)), 0)]
    else [Entry(Payload(op).0, w.id, ParentFor(s, op), w.now, Payload(op).1, if op.AppendCompact? then op.tokens else 0)]
  }

  function Live(s: State, op: Op, w: World): State {
    if IsMetaOp(op) then s.(meta := NewMeta(s.meta, op))   // before the write, whatever its outcome
    else if Rejected(s, op) || !w.ok then s
    else
      s.(nodes := s.nodes[w.id := LiveNode(s, op, w)],
         leaf := w.id,
         labels := if op.AppendLabel? then SetLabel(s.labels, op.target, op.tag) else s.labels)
  }

  // ----- runs -----

  datatype Step = Step(op: Op, w: World)

  function Run(s: State, steps: seq<Step>): State {
    if steps == [] then s
    else var last := steps[|steps| - 1]; Live(Run(s, steps[..|steps| - 1]), last.op, last.w)
  }

  function RunLog(s: State, steps: seq<Step>): seq<Entry> {
    if steps == [] then []
    else
      var last := steps[|steps| - 1];
      RunLog(s, steps[..|steps| - 1]) + Written(Run(s, steps[..|steps| - 1]), last.op, last.w)
  }

  /** A generated id that is in use by no entry. */
  predicate FreshId(s: State, id: Id) { id != "" && id !in s.nodes }

  /** Every id generated during the run was unused at the time. */
  predicate FreshIds(s: State, steps: seq<Step>) {
    steps == [] || (FreshIds(s, steps[..|steps| - 1]) && FreshId(Run(s, steps[..|steps| - 1]), steps[|steps| - 1].w.id))
  }
}
