/** The chunk-to-event state machine as a function on values, and the buffered
    translation it has to agree with. `StreamMachine` runs it in place. */
module StreamSpec {
  import opened Prelude
  import opened ChatWire

  datatype Event =
    | Created(resp: Response)
    | InProgressEvent(resp: Response)
    | ItemAdded(outputIndex: nat, item: Item)
    | PartAdded(itemId: nat, outputIndex: nat)
    | TextDelta(itemId: nat, outputIndex: nat, delta: string)
    | TextDone(itemId: nat, outputIndex: nat, text: string)
    | PartDone(itemId: nat, outputIndex: nat, text: string)
    | ArgumentsDelta(itemId: nat, outputIndex: nat, delta: string)
    | ArgumentsDone(itemId: nat, outputIndex: nat, arguments: string)
    | ItemDone(outputIndex: nat, item: Item)
    | CompletedEvent(resp: Response)
    | IncompleteEvent(resp: Response)

  /** An event together with its `sequence_number`. */
  datatype Numbered = Numbered(number: nat, event: Event)

  datatype OpenItem = OpenItem(outputIndex: nat, itemId: nat, toolIndex: Option<int>,
                               callId: CallId, name: string, buf: string)

  /** `ids` counts generated ids, which makes each of them new; `out` is
      everything emitted so far. */
  datatype Stream = Stream(
    seqNo: nat, respId: nat, model: string, started: bool, nextIndex: nat,
    text: Option<OpenItem>, calls: seq<OpenItem>, finishedItems: seq<Item>,
    usage: Usage, truncated: bool, finished: bool, ns: NamespaceMap,
    ids: nat, out: seq<Numbered>)

  function New(model: string, ns: NamespaceMap): Stream {
    Stream(0, 0, model, false, 0, None, [], [], NO_USAGE, false, false, ns, 1, [])
  }

  function Emit(s: Stream, ev: Event): Stream {
    s.(seqNo := s.seqNo + 1, out := s.out + [Numbered(s.seqNo, ev)])
  }

  /** Neither what a chunk says beside its delta nor the lifecycle flags differ. */
  predicate SameHeader(s: Stream, r: Stream) {
    && r.respId == s.respId && r.model == s.model && r.usage == s.usage && r.truncated == s.truncated
    && r.started == s.started && r.finished == s.finished && r.ns == s.ns
  }

  predicate SameTexts(s: Stream, r: Stream) {
    r.text == s.text && r.finishedItems == s.finishedItems
  }

  function ResponseObj(s: Stream, status: Status, output: seq<Item>): Response {
    Response(s.respId, status, s.model, output, s.usage)
  }

  function Start(s: Stream): Stream {
    if s.started then s else
    var r := ResponseObj(s, StatusInProgress, []);
    Emit(Emit(s.(started := true), Created(r)), InProgressEvent(r))
  }

  function MessageItem(t: OpenItem): Item {
    Message(t.itemId, Completed, t.buf)
  }

  function CloseText(s: Stream): (r: Stream)
    ensures SameHeader(s, r) && r.calls == s.calls
  {
    if s.text.None? then s else
    var t := s.text.value;
    var s1 := Emit(s.(text := None), TextDone(t.itemId, t.outputIndex, t.buf));
    var s2 := Emit(s1, PartDone(t.itemId, t.outputIndex, t.buf));
    var s3 := Emit(s2, ItemDone(t.outputIndex, MessageItem(t)));
    s3.(finishedItems := s3.finishedItems + [MessageItem(t)])
  }

  function CallItem(c: OpenItem, status: ItemStatus, arguments: string, ns: NamespaceMap): Item {
    WithNamespace(FunctionCall(c.itemId, status, c.callId, None, Some(c.name), arguments), ns)
  }

  function CloseCall(s: Stream, c: OpenItem): (r: Stream)
    ensures SameHeader(s, r) && r.text == s.text && r.calls == s.calls
  {
    var item := CallItem(c, Completed, c.buf, s.ns);
    var s1 := Emit(s, ArgumentsDone(c.itemId, c.outputIndex, c.buf));
    var s2 := Emit(s1, ItemDone(c.outputIndex, item));
    s2.(finishedItems := s2.finishedItems + [item])
  }

  function CloseCalls(s: Stream, cs: seq<OpenItem>): (r: Stream)
    ensures SameHeader(s, r) && r.text == s.text && r.calls == s.calls
  {
    if cs == [] then s else CloseCall(CloseCalls(s, cs[..|cs| - 1]), cs[|cs| - 1])
  }

  function OpenText(s: Stream): (r: Stream)
    ensures SameHeader(s, r) && r.calls == s.calls && r.finishedItems == s.finishedItems
  {
    if s.text.Some? then s else
    var (idx, id) := (s.nextIndex, s.ids);
    var s1 := Emit(s.(nextIndex := idx + 1, ids := id + 1), ItemAdded(idx, Message(id, InProgress, "")));
    var s2 := Emit(s1, PartAdded(id, idx));
    s2.(text := Some(OpenItem(idx, id, None, Given(""), "", "")))
  }

  function FeedText(s: Stream, txt: string): (r: Stream)
    ensures SameHeader(s, r) && r.calls == s.calls && r.finishedItems == s.finishedItems
  {
    if txt == "" then s else
    var s1 := OpenText(s);
    var t := s1.text.value;
    Emit(s1.(text := Some(t.(buf := t.buf + txt))), TextDelta(t.itemId, t.outputIndex, txt))
  }

  /** The first open call with this tool index. */
  function Position(calls: seq<OpenItem>, ti: int): (p: Option<nat>)
    ensures p.Some? ==> p.value < |calls| && calls[p.value].toolIndex == Some(ti)
    ensures p.Some? ==> forall i :: 0 <= i < p.value ==> calls[i].toolIndex != Some(ti)
    ensures p.None? ==> forall i :: 0 <= i < |calls| ==> calls[i].toolIndex != Some(ti)
  {
    if calls == [] then None
    else if calls[0].toolIndex == Some(ti) then Some(0)
    else
      match Position(calls[1..], ti)
      case None => None
      case Some(p) => Some(p + 1)
  }

  function OpenCall(s: Stream, f: Fragment): (r: Stream)
    ensures SameHeader(s, r) && SameTexts(s, r)
  {
    var (idx, id) := (s.nextIndex, s.ids);
    var callId := if f.id.Some? then Given(f.id.value) else Generated(id + 1);
    var o := OpenItem(idx, id, Some(f.Key()), callId, f.name.GetOr(""), "");
    var s1 := s.(nextIndex := idx + 1, ids := if f.id.Some? then id + 1 else id + 2);
    var s2 := Emit(s1, ItemAdded(idx, CallItem(o, InProgress, "", s.ns)));
    s2.(calls := s2.calls + [o])
  }

  function FeedArguments(s: Stream, pos: nat, a: string): (r: Stream)
    requires pos < |s.calls|
    ensures SameHeader(s, r) && SameTexts(s, r)
  {
    if a == "" then s else
    var o := s.calls[pos];
    Emit(s.(calls := s.calls[pos := o.(buf := o.buf + a)]), ArgumentsDelta(o.itemId, o.outputIndex, a))
  }

  function FeedFragment(s: Stream, f: Fragment): (r: Stream)
    ensures SameHeader(s, r) && SameTexts(s, r)
  {
    match Position(s.calls, f.Key())
    case Some(p) => FeedArguments(s, p, f.arguments.GetOr(""))
    case None => FeedArguments(OpenCall(s, f), |s.calls|, f.arguments.GetOr(""))
  }

  function FeedFragments(s: Stream, fs: seq<Fragment>): (r: Stream)
    ensures SameHeader(s, r) && SameTexts(s, r)
  {
    if fs == [] then s else FeedFragment(FeedFragments(s, fs[..|fs| - 1]), fs[|fs| - 1])
  }

  /** A `tool_calls` array ends the text message, even an empty one. */
  function FeedTools(s: Stream, tools: Option<seq<Fragment>>): Stream {
    if tools.Some? then FeedFragments(CloseText(s), tools.value) else s
  }

  /** The fields a chunk sets before its delta is looked at. */
  function Absorb(s: Stream, c: Chunk): Stream {
    s.(model := c.model.GetOr(s.model),
       usage := if c.usage.Some? then UsageOf(c.usage) else s.usage)
  }

  function Feed(s: Stream, c: Chunk): Stream {
    if s.finished then s else
    var s1 := FeedText(Absorb(Start(s), c), c.Text());
    var s2 := FeedTools(s1, c.toolCalls);
    s2.(truncated := s2.truncated || c.lengthStop)
  }

  /** The terminal event, once every item is closed. */
  function Conclude(s: Stream): Stream {
    var r := ResponseObj(s, if s.truncated then StatusIncomplete else StatusCompleted, s.finishedItems);
    Emit(s.(finished := true, finishedItems := []), if s.truncated then IncompleteEvent(r) else CompletedEvent(r))
  }

  function Finish(s: Stream): Stream {
    if s.finished then s else
    var s1 := CloseText(Start(s));
    Conclude(CloseCalls(s1.(calls := []), s1.calls))
  }

  function FeedAll(s: Stream, cs: seq<Chunk>): Stream {
    if cs == [] then s else Feed(FeedAll(s, cs[..|cs| - 1]), cs[|cs| - 1])
  }

  /** Every event of one translated stream. */
  function Run(model: string, ns: NamespaceMap, cs: seq<Chunk>): seq<Numbered> {
    Finish(FeedAll(New(model, ns), cs)).out
  }

  // ---- the buffered translation

  /** A reply call as an output item; `k` numbers the ids generated for it. */
  function ReplyItem(c: ReplyCall, k: nat, ns: NamespaceMap): Item {
    var callId := if c.id.Some? then Given(c.id.value) else Generated(2 * k);
    WithNamespace(FunctionCall(2 * k + 1, Completed, callId, None, c.name, c.arguments.GetOr("{}")), ns)
  }

  function ReplyItems(calls: seq<ReplyCall>, ns: NamespaceMap): (r: seq<Item>)
    ensures |r| == |calls|
  {
    seq(|calls|, i requires 0 <= i < |calls| => ReplyItem(calls[i], i + 1, ns))
  }

  function TextItems(content: string): seq<Item> {
    if content == "" then [] else [Message(0, Completed, content)]
  }

  function ChatToResponse(chat: ChatReply, model: string, ns: NamespaceMap): Response {
    var output := TextItems(chat.content.GetOr("")) + ReplyItems(chat.toolCalls.GetOr([]), ns);
    Response(0, if chat.lengthStop then StatusIncomplete else StatusCompleted,
             chat.model.GetOr(model), output, UsageOf(chat.usage))
  }
}
