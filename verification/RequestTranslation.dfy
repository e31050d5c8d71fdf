/** Responses request -> chat messages. Tool calls merge into the trailing
    assistant message; nothing is lost, duplicated or reordered on the way. */
module RequestTranslation {
  import opened Prelude
  import opened Json

  datatype ToolCall = ToolCall(id: string, name: Json, arguments: Json)

  /** A tool result's text: given as such, or the printed form of a JSON value. */
  datatype ResultText = Plainly(s: string) | Printed(v: Json)

  /** A chat message; `content` is `null` exactly when a call opened it. */
  datatype ChatMessage =
    | Spoken(role: string, content: Json, calls: seq<ToolCall>)
    | ToolResult(callId: Json, text: ResultText)
  {
    predicate IsAssistant() { Spoken? && role == "assistant" }
    predicate IsOpener() { Spoken? && content == Null }
  }

  // ---- one input item

  function FlatName(ns: string, name: string): string { ns + "__" + name }

  function JoinText(parts: seq<Json>): string {
    if parts == [] then "" else parts[0].GetStr("text").GetOr("") + JoinText(parts[1..])
  }

  function TextOfParts(content: Json): string {
    match content
    case Str(s) => s
    case Arr(parts) => JoinText(parts)
    case _ => ""
  }

  function ChatPart(p: Json): seq<Json> {
    if p.GetStr("type") == Some("input_image") then
      var url := p.At("image_url");
      [Obj(map["type" := Str("image_url"),
               "image_url" := if url.Str? then Obj(map["url" := url]) else url])]
    else
      match p.GetStr("text")
      case Some(t) => [Obj(map["type" := Str("text"), "text" := Str(t)])]
      case None => []
  }

  function ChatParts(parts: seq<Json>): seq<Json> {
    if parts == [] then [] else ChatPart(parts[0]) + ChatParts(parts[1..])
  }

  function ChatContent(content: Json): (r: Json)
    ensures r != Null
  {
    if content.Arr? then
      var out := ChatParts(content.elems);
      if forall i :: 0 <= i < |out| ==> out[i].At("type") == Str("text") then Str(JoinText(out)) else Arr(out)
    else
      Str(TextOfParts(content))
  }

  function CallName(item: Json): Json {
    match (item.At("namespace").AsStr(), item.At("name").AsStr())
    case (Some(ns), Some(n)) => Str(FlatName(ns, n))
    case _ => item.At("name")
  }

  function ToolCallOf(item: Json): ToolCall {
    var id := if item.Get("call_id").Some? then item.Get("call_id") else item.Get("id");
    ToolCall(if id.Some? then id.value.AsStr().GetOr("call_0") else "call_0",
             CallName(item), item.Get("arguments").GetOr(Str("{}")))
  }

  function ResultOf(item: Json): ChatMessage {
    var text :=
      match item.Get("output")
      case Some(Str(s)) => Plainly(s)
      case Some(Arr(parts)) => Plainly(TextOfParts(Arr(parts)))
      case Some(v) => Printed(v)
      case None => Plainly("");
    ToolResult(item.At("call_id"), text)
  }

  function MessageOf(item: Json): ChatMessage {
    var role :=
      match item.GetStr("role")
      case Some(r) => if r == "developer" then "system" else r
      case None => "user";
    var content := item.At("content");
    Spoken(role, if role == "assistant" then Str(TextOfParts(content)) else ChatContent(content), [])
  }

  // ---- what a conversation says, in order

  /** One thing said: a message, a tool call, or a tool's result. */
  datatype Token = Said(role: string, content: Json) | Called(call: ToolCall) | Answered(callId: Json, text: ResultText)

  datatype Kind = CallKind | OutputKind | MessageKind | DroppedKind

  /** Reasoning items, web searches and the like have no chat equivalent. */
  function KindOf(item: Json): Kind {
    match item.GetStr("type")
    case None => MessageKind
    case Some(t) =>
      if t == "function_call" then CallKind
      else if t == "function_call_output" then OutputKind
      else if t == "message" then MessageKind
      else DroppedKind
  }

  function ItemTokens(item: Json): seq<Token> {
    match KindOf(item)
    case CallKind => [Called(ToolCallOf(item))]
    case OutputKind => [Answered(ResultOf(item).callId, ResultOf(item).text)]
    case MessageKind => [Said(MessageOf(item).role, MessageOf(item).content)]
    case DroppedKind => []
  }

  function InputTokens(items: seq<Json>): seq<Token> {
    if items == [] then [] else InputTokens(items[..|items| - 1]) + ItemTokens(items[|items| - 1])
  }

  function CallTokens(calls: seq<ToolCall>): seq<Token> {
    seq(|calls|, i requires 0 <= i < |calls| => Called(calls[i]))
  }

  function MessageTokens(m: ChatMessage): seq<Token> {
    match m
    case Spoken(role, content, calls) => (if content == Null then [] else [Said(role, content)]) + CallTokens(calls)
    case ToolResult(id, text) => [Answered(id, text)]
  }

  function Tokens(ms: seq<ChatMessage>): seq<Token> {
    if ms == [] then [] else Tokens(ms[..|ms| - 1]) + MessageTokens(ms[|ms| - 1])
  }

  /** Only assistant messages carry calls, only a call opens a message without
      content, and none is opened right after an assistant message. */
  predicate Canonical(ms: seq<ChatMessage>) {
    forall i :: 0 <= i < |ms| && ms[i].Spoken? ==>
      && (ms[i].calls != [] ==> ms[i].role == "assistant")
      && (ms[i].IsOpener() ==> ms[i].calls != [])
      && (ms[i].IsOpener() && i > 0 ==> !ms[i - 1].IsAssistant())
  }

  /** `push_tool_call`. */
  function PushCall(ms: seq<ChatMessage>, call: ToolCall): seq<ChatMessage> {
    if ms != [] && ms[|ms| - 1].IsAssistant() then
      ms[..|ms| - 1] + [ms[|ms| - 1].(calls := ms[|ms| - 1].calls + [call])]
    else
      ms + [Spoken("assistant", Null, [call])]
  }

  lemma TokensSnoc(ms: seq<ChatMessage>, m: ChatMessage)
    ensures Tokens(ms + [m]) == Tokens(ms) + MessageTokens(m)
  {
    assert (ms + [m])[..|ms|] == ms;
  }

  lemma MessageGrows(m: ChatMessage, call: ToolCall)
    requires m.Spoken?
    ensures MessageTokens(m.(calls := m.calls + [call])) == MessageTokens(m) + [Called(call)]
  {
    assert CallTokens(m.calls + [call]) == CallTokens(m.calls) + [Called(call)];
  }

  lemma PushCallCanonical(ms: seq<ChatMessage>, call: ToolCall)
    requires Canonical(ms)
    ensures Canonical(PushCall(ms, call))
  {
  }

  lemma PushCallTokens(ms: seq<ChatMessage>, call: ToolCall)
    ensures Tokens(PushCall(ms, call)) == Tokens(ms) + [Called(call)]
  {
    if ms != [] && ms[|ms| - 1].IsAssistant() {
      var front, last := ms[..|ms| - 1], ms[|ms| - 1];
      assert ms == front + [last];
      MessageGrows(last, call);
      TokensSnoc(front, last);
      TokensSnoc(front, last.(calls := last.calls + [call]));
    } else {
      TokensSnoc(ms, Spoken("assistant", Null, [call]));
      assert MessageTokens(Spoken("assistant", Null, [call])) == [Called(call)];
    }
  }

  lemma PushMessageTokens(ms: seq<ChatMessage>, m: ChatMessage)
    requires Canonical(ms) && (m.Spoken? ==> m.calls == [] && m.content != Null)
    ensures Canonical(ms + [m]) && Tokens(ms + [m]) == Tokens(ms) + MessageTokens(m)
    ensures MessageTokens(m) == if m.Spoken? then [Said(m.role, m.content)] else [Answered(m.callId, m.text)]
  {
    assert (ms + [m])[..|ms|] == ms;
  }

  // ---- the translation

  function InstructionTokens(ins: Option<string>): seq<Token> {
    match ins
    case Some(ins) => if ins == "" then [] else [Said("system", Str(ins))]
    case None => []
  }

  /** What a request with these `instructions` and this `input` says, in order. */
  function RequestTokens(ins: Option<string>, input: Json): seq<Token> {
    InstructionTokens(ins) +
    match input
    case Str(s) => [Said("user", Str(s))]
    case Arr(items) => InputTokens(items)
    case _ => []
  }

  datatype RequestError = MissingModel | MissingInput

  /** The `messages` of the chat request, or the error the caller sees. */
  method RequestMessages(req: Json) returns (r: Result<seq<ChatMessage>, RequestError>)
    ensures req.GetStr("model").None? <==> r == Err(MissingModel)
    ensures req.GetStr("model").Some? ==> (r == Err(MissingInput) <==> !req.At("input").Str? && !req.At("input").Arr?)
    ensures r.Ok? ==> Canonical(r.value)
    ensures r.Ok? ==> Tokens(r.value) == RequestTokens(req.GetStr("instructions"), req.At("input"))
  {
    if req.GetStr("model").None? { return Err(MissingModel); }
    r := ConversationMessages(req.GetStr("instructions"), req.At("input"));
  }

  method ConversationMessages(ins: Option<string>, input: Json) returns (r: Result<seq<ChatMessage>, RequestError>)
    ensures r == Err(MissingInput) <==> !input.Str? && !input.Arr?
    ensures r != Err(MissingModel)
    ensures r.Ok? ==> Canonical(r.value) && Tokens(r.value) == RequestTokens(ins, input)
  {
    var messages := InstructionMessages(ins);
    match input {
      case Str(s) =>
        var said := Spoken("user", Str(s), []);
        PushMessageTokens(messages, said);
        messages := messages + [said];
      case Arr(items) =>
        messages := InputMessages(messages, items);
      case _ =>
        return Err(MissingInput);
    }
    r := Ok(messages);
  }

  method InstructionMessages(ins: Option<string>) returns (messages: seq<ChatMessage>)
    ensures Canonical(messages) && Tokens(messages) == InstructionTokens(ins)
  {
    messages := [];
    if ins.Some? && ins.value != "" {
      PushMessageTokens(messages, Spoken("system", Str(ins.value), []));
      messages := messages + [Spoken("system", Str(ins.value), [])];
    }
  }

  lemma InputSnoc(start: seq<ChatMessage>, items: seq<Json>, i: nat)
    requires i < |items|
    ensures var before := Tokens(start) + InputTokens(items[..i]);
      Tokens(start) + InputTokens(items[..i + 1]) == before + ItemTokens(items[i])
  {
    assert items[..i + 1][..i] == items[..i];
    Assoc(Tokens(start), InputTokens(items[..i]), ItemTokens(items[i]));
  }

  /** The loop over `input`, pushing onto the messages so far. */
  method InputMessages(start: seq<ChatMessage>, items: seq<Json>) returns (messages: seq<ChatMessage>)
    requires Canonical(start)
    ensures Canonical(messages) && Tokens(messages) == Tokens(start) + InputTokens(items)
  {
    messages := start;
    var i := 0;
    while i < |items|
      invariant i <= |items|
      invariant Canonical(messages)
      invariant Tokens(messages) == Tokens(start) + InputTokens(items[..i])
    {
      messages := PushItem(messages, items[i]);
      InputSnoc(start, items, i);
      i := i + 1;
    }
    assert items[..i] == items;
  }

  method PushItem(messages: seq<ChatMessage>, item: Json) returns (r: seq<ChatMessage>)
    requires Canonical(messages)
    ensures Canonical(r) && Tokens(r) == Tokens(messages) + ItemTokens(item)
  {
    match KindOf(item) {
      case CallKind =>
        PushCallCanonical(messages, ToolCallOf(item));
        PushCallTokens(messages, ToolCallOf(item));
        r := PushToolCall(messages, ToolCallOf(item));
      case OutputKind =>
        PushMessageTokens(messages, ResultOf(item));
        r := messages + [ResultOf(item)];
      case MessageKind =>
        PushMessageTokens(messages, MessageOf(item));
        r := messages + [MessageOf(item)];
      case DroppedKind =>
        r := messages;
    }
  }

  method PushToolCall(messages: seq<ChatMessage>, call: ToolCall) returns (r: seq<ChatMessage>)
    ensures r == PushCall(messages, call)
  {
    r := messages;
    if |r| > 0 {
      var last := r[|r| - 1];
      if last.IsAssistant() {
        r := r[|r| - 1 := last.(calls := last.calls + [call])];
        return;
      }
    }
    r := r + [Spoken("assistant", Null, [call])];
  }

  // ---- the messages are determined by what they say

  /** A canonical message list with its last token taken back. */
  function TakeBack(ms: seq<ChatMessage>): seq<ChatMessage>
    requires ms != []
  {
    var n := |ms| - 1;
    var last := ms[n];
    if last.Spoken? && last.calls != [] && (|last.calls| > 1 || last.content != Null) then
      ms[..n] + [last.(calls := last.calls[..|last.calls| - 1])]
    else
      ms[..n]
  }

  /** Puts one token after what `ms` says. */
  function PutToken(ms: seq<ChatMessage>, t: Token): seq<ChatMessage> {
    match t
    case Said(role, content) => ms + [Spoken(role, content, [])]
    case Answered(id, text) => ms + [ToolResult(id, text)]
    case Called(call) => PushCall(ms, call)
  }

  lemma ShorterLast(front: seq<ChatMessage>, last: ChatMessage)
    requires Canonical(front + [last]) && last.Spoken? && last.calls != [] && (|last.calls| > 1 || last.content != Null)
    ensures var less := front + [last.(calls := last.calls[..|last.calls| - 1])];
      Canonical(less) && PushCall(less, last.calls[|last.calls| - 1]) == front + [last]
  {
    var ms, less := front + [last], front + [last.(calls := last.calls[..|last.calls| - 1])];
    assert ms[|front|] == last && less[..|front|] == front;
    assert last.calls == last.calls[..|last.calls| - 1] + [last.calls[|last.calls| - 1]];
    assert forall i :: 0 <= i < |front| ==> less[i] == ms[i];
  }

  lemma OnlyCallGone(front: seq<ChatMessage>, last: ChatMessage)
    requires Canonical(front + [last]) && last.Spoken? && |last.calls| == 1 && last.content == Null
    ensures Canonical(front) && PushCall(front, last.calls[0]) == front + [last]
  {
    var ms := front + [last];
    assert ms[|front|] == last && last.role == "assistant" && last.calls == [last.calls[0]];
    assert forall i :: 0 <= i < |front| ==> front[i] == ms[i];
  }

  lemma TakeBackCall(front: seq<ChatMessage>, last: ChatMessage)
    requires Canonical(front + [last]) && last.Spoken? && last.calls != []
    ensures var ms, call := front + [last], last.calls[|last.calls| - 1];
      && Canonical(TakeBack(ms))
      && PushCall(TakeBack(ms), call) == ms
      && Tokens(ms) == Tokens(TakeBack(ms)) + [Called(call)]
  {
    var ms, k := front + [last], |last.calls| - 1;
    assert ms[..|ms| - 1] == front && ms[|front|] == last;
    if k > 0 || last.content != Null {
      ShorterLast(front, last);
    } else {
      OnlyCallGone(front, last);
    }
    PushCallTokens(TakeBack(ms), last.calls[k]);
  }

  lemma TakeBackToken(ms: seq<ChatMessage>) returns (t: Token)
    requires Canonical(ms) && ms != []
    ensures Canonical(TakeBack(ms)) && PutToken(TakeBack(ms), t) == ms
    ensures Tokens(ms) == Tokens(TakeBack(ms)) + [t]
  {
    var front, last := ms[..|ms| - 1], ms[|ms| - 1];
    assert ms == front + [last];
    if last.Spoken? && last.calls != [] {
      t := Called(last.calls[|last.calls| - 1]);
      TakeBackCall(front, last);
    } else {
      t := if last.Spoken? then Said(last.role, last.content) else Answered(last.callId, last.text);
      TokensSnoc(front, last);
      assert MessageTokens(last) == [t];
      assert forall i :: 0 <= i < |front| ==> front[i] == ms[i];
    }
  }

  /** Two canonical message lists that say the same are the same list. */
  lemma {:induction false} CanonicalIsUnique(ms: seq<ChatMessage>, ns: seq<ChatMessage>)
    requires Canonical(ms) && Canonical(ns) && Tokens(ms) == Tokens(ns)
    ensures ms == ns
    decreases |Tokens(ms)|
  {
    var t, u;
    if ms != [] { t := TakeBackToken(ms); }
    if ns != [] { u := TakeBackToken(ns); }
    if ms != [] && ns != [] {
      assert Tokens(TakeBack(ms)) == Tokens(ms)[..|Tokens(ms)| - 1] == Tokens(TakeBack(ns));
      assert t == Tokens(ms)[|Tokens(ms)| - 1] == u;
      CanonicalIsUnique(TakeBack(ms), TakeBack(ns));
    }
  }

  // ---- calls and results on their own

  function CallsIn(ts: seq<Token>): seq<ToolCall> {
    if ts == [] then [] else
    CallsIn(ts[..|ts| - 1]) + if ts[|ts| - 1].Called? then [ts[|ts| - 1].call] else []
  }

  function CallsOf(ms: seq<ChatMessage>): seq<ToolCall> {
    if ms == [] then [] else
    CallsOf(ms[..|ms| - 1]) + if ms[|ms| - 1].Spoken? then ms[|ms| - 1].calls else []
  }

  function CallItems(items: seq<Json>): seq<ToolCall> {
    if items == [] then [] else
    var item := items[|items| - 1];
    CallItems(items[..|items| - 1]) + if KindOf(item) == CallKind then [ToolCallOf(item)] else []
  }

  function ResultsOf(ms: seq<ChatMessage>): seq<ChatMessage> {
    if ms == [] then [] else
    ResultsOf(ms[..|ms| - 1]) + if ms[|ms| - 1].ToolResult? then [ms[|ms| - 1]] else []
  }

  function ResultItems(items: seq<Json>): seq<ChatMessage> {
    if items == [] then [] else
    var item := items[|items| - 1];
    ResultItems(items[..|items| - 1]) + if KindOf(item) == OutputKind then [ResultOf(item)] else []
  }

  function ResultsIn(ts: seq<Token>): seq<ChatMessage> {
    if ts == [] then [] else
    var t := ts[|ts| - 1];
    ResultsIn(ts[..|ts| - 1]) + if t.Answered? then [ToolResult(t.callId, t.text)] else []
  }

  lemma {:induction false} InSplit(a: seq<Token>, b: seq<Token>)
    ensures CallsIn(a + b) == CallsIn(a) + CallsIn(b) && ResultsIn(a + b) == ResultsIn(a) + ResultsIn(b)
  {
    if b == [] {
      assert a + b == a;
    } else {
      InSplit(a, b[..|b| - 1]);
      assert (a + b)[..|a + b| - 1] == a + b[..|b| - 1];
    }
  }

  lemma {:induction false} CallTokensIn(calls: seq<ToolCall>)
    ensures CallsIn(CallTokens(calls)) == calls && ResultsIn(CallTokens(calls)) == []
  {
    if calls != [] {
      CallTokensIn(calls[..|calls| - 1]);
      assert CallTokens(calls)[..|calls| - 1] == CallTokens(calls[..|calls| - 1]);
    }
  }

  lemma OfMessage(m: ChatMessage)
    ensures CallsIn(MessageTokens(m)) == (if m.Spoken? then m.calls else [])
    ensures ResultsIn(MessageTokens(m)) == (if m.ToolResult? then [m] else [])
  {
    if m.Spoken? {
      var said := if m.content == Null then [] else [Said(m.role, m.content)];
      CallTokensIn(m.calls);
      InSplit(said, CallTokens(m.calls));
      assert said == [] || said[..0] == [];
    } else {
      assert MessageTokens(m)[..0] == [];
    }
  }

  lemma {:induction false} OfTokens(ms: seq<ChatMessage>)
    ensures CallsIn(Tokens(ms)) == CallsOf(ms) && ResultsIn(Tokens(ms)) == ResultsOf(ms)
  {
    if ms != [] {
      OfTokens(ms[..|ms| - 1]);
      OfMessage(ms[|ms| - 1]);
      InSplit(Tokens(ms[..|ms| - 1]), MessageTokens(ms[|ms| - 1]));
    }
  }

  lemma OfItem(item: Json)
    ensures CallsIn(ItemTokens(item)) == (if KindOf(item) == CallKind then [ToolCallOf(item)] else [])
    ensures ResultsIn(ItemTokens(item)) == (if KindOf(item) == OutputKind then [ResultOf(item)] else [])
  {
    var ts := ItemTokens(item);
    assert ts == [] || ts[..0] == [];
  }

  lemma {:induction false} OfItems(items: seq<Json>)
    ensures CallsIn(InputTokens(items)) == CallItems(items) && ResultsIn(InputTokens(items)) == ResultItems(items)
  {
    if items != [] {
      OfItems(items[..|items| - 1]);
      OfItem(items[|items| - 1]);
      InSplit(InputTokens(items[..|items| - 1]), ItemTokens(items[|items| - 1]));
    }
  }

  /** The chat messages carry exactly the request's function calls, in input
      order, and exactly its tool results, in input order. */
  lemma {:induction false} CallsAndResultsConserved(ins: Option<string>, items: seq<Json>, ms: seq<ChatMessage>)
    requires Tokens(ms) == RequestTokens(ins, Arr(items))
    ensures CallsOf(ms) == CallItems(items) && ResultsOf(ms) == ResultItems(items)
  {
    OfTokens(ms);
    OfItems(items);
    var prefix := InstructionTokens(ins);
    InSplit(prefix, InputTokens(items));
    assert prefix == [] || prefix[..0] == [];
  }
}
