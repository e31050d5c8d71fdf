/** The chat-completions shapes the Responses front door reads and the
    Responses shapes it writes, with only the fields the translation looks at.
    `None` stands for a JSON value of any other type, or an absent one. */
module ChatWire {
  import opened Prelude

  /** Flattened chat tool name -> (namespace, tool name). */
  type NamespaceMap = map<string, (string, string)>

  datatype RawUsage = RawUsage(prompt: Option<int>, completion: Option<int>, total: Option<int>)

  datatype Usage = Usage(input: int, output: int, total: int)

  /** One element of a chunk's `delta.tool_calls`. */
  datatype Fragment = Fragment(index: Option<int>, id: Option<string>,
                               name: Option<string>, arguments: Option<string>)
  {
    function Key(): int { index.GetOr(0) }
  }

  /** One chat-completion chunk; `lengthStop` is `finish_reason == "length"`. */
  datatype Chunk = Chunk(model: Option<string>, usage: Option<RawUsage>, content: Option<string>,
                         toolCalls: Option<seq<Fragment>>, lengthStop: bool)
  {
    function Text(): string { content.GetOr("") }
    function Fragments(): seq<Fragment> { toolCalls.GetOr([]) }
    predicate Speaks() { Text() != "" }
    predicate HasTools() { toolCalls.Some? }
  }

  datatype ReplyCall = ReplyCall(id: Option<string>, name: Option<string>, arguments: Option<string>)

  /** A buffered chat-completion reply. */
  datatype ChatReply = ChatReply(model: Option<string>, usage: Option<RawUsage>, content: Option<string>,
                                 toolCalls: Option<seq<ReplyCall>>, lengthStop: bool)

  datatype ItemStatus = InProgress | Completed

  /** The upstream's call id, or one generated because it sent none. */
  datatype CallId = Given(s: string) | Generated(n: nat)

  datatype Item =
    | Message(id: nat, status: ItemStatus, text: string)
    | FunctionCall(id: nat, status: ItemStatus, callId: CallId,
                   space: Option<string>, name: Option<string>, arguments: string)
  {
    /** The part of an item that streams in through deltas. */
    function Body(): string { if Message? then text else arguments }

    function WithBody(body: string): Item {
      if Message? then this.(text := body) else this.(arguments := body)
    }
  }

  datatype Status = StatusInProgress | StatusCompleted | StatusIncomplete

  datatype Response = Response(id: nat, status: Status, model: string, output: seq<Item>, usage: Usage)

  const NO_USAGE := Usage(0, 0, 0)

  function UsageOf(u: Option<RawUsage>): Usage {
    match u
    case None => NO_USAGE
    case Some(r) =>
      var i, o := r.prompt.GetOr(0), r.completion.GetOr(0);
      Usage(i, o, r.total.GetOr(Wrap64(i + o)))
  }

  /** Applies the namespace split to a `function_call` item. */
  function WithNamespace(item: Item, ns: NamespaceMap): Item
    requires item.FunctionCall?
  {
    if item.name.Some? && item.name.value in ns then
      item.(space := Some(ns[item.name.value].0), name := Some(ns[item.name.value].1))
    else
      item
  }

  /** Equality of items, generated ids aside. */
  predicate SameItem(a: Item, b: Item) {
    if a.Message? then
      b.Message? && a.status == b.status && a.text == b.text
    else
      && b.FunctionCall? && a.status == b.status
      && a.space == b.space && a.name == b.name && a.arguments == b.arguments
      && (a.callId == b.callId || (a.callId.Generated? && b.callId.Generated?))
  }

  predicate SameItems(a: seq<Item>, b: seq<Item>) {
    |a| == |b| && forall i :: 0 <= i < |a| ==> SameItem(a[i], b[i])
  }

  /** Equality of response objects, generated ids and the timestamp aside. */
  predicate SameResponse(a: Response, b: Response) {
    a.status == b.status && a.model == b.model && a.usage == b.usage && SameItems(a.output, b.output)
  }
}
