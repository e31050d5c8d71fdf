/** What the items of a request become, in terms of their own members: which id pairs
    a call with its result, whose words a message carries, what is dropped. */
module RequestMeaning {
  import opened Prelude
  import opened Json
  import opened RequestTranslation

  /** `item` is an object whose `key` is `v`. */
  predicate Has(item: Json, key: string, v: Json) { item.Obj? && key in item.members && item.members[key] == v }

  predicate Lacks(item: Json, key: string) { item.Obj? ==> key !in item.members }

  // ---- calls and results

  /** How many of the items are of this type. */
  function Count(items: seq<Json>, kind: string): nat {
    if items == [] then 0
    else Count(items[..|items| - 1], kind) + if Has(items[|items| - 1], "type", Str(kind)) then 1 else 0
  }

  lemma CallKinds(item: Json)
    ensures KindOf(item) == CallKind <==> Has(item, "type", Str("function_call"))
    ensures KindOf(item) == OutputKind <==> Has(item, "type", Str("function_call_output"))
  {
    assert "function_call" != "function_call_output" by { assert |"function_call"| != |"function_call_output"|; }
  }

  lemma {:induction false} CallCounts(items: seq<Json>)
    ensures |CallItems(items)| == Count(items, "function_call")
    ensures |ResultItems(items)| == Count(items, "function_call_output")
  {
    if items != [] {
      CallCounts(items[..|items| - 1]);
      CallKinds(items[|items| - 1]);
    }
  }

  lemma {:induction false} CallPlace(items: seq<Json>, a: nat)
    requires a < |items| && Has(items[a], "type", Str("function_call"))
    ensures Count(items[..a], "function_call") < |CallItems(items)|
    ensures CallItems(items)[Count(items[..a], "function_call")] == ToolCallOf(items[a])
  {
    var front := items[..|items| - 1];
    CallCounts(front);
    if a < |front| {
      CallPlace(front, a);
      assert front[..a] == items[..a];
    } else {
      CallKinds(items[a]);
    }
  }

  lemma {:induction false} ResultPlace(items: seq<Json>, b: nat)
    requires b < |items| && Has(items[b], "type", Str("function_call_output"))
    ensures Count(items[..b], "function_call_output") < |ResultItems(items)|
    ensures ResultItems(items)[Count(items[..b], "function_call_output")] == ResultOf(items[b])
  {
    var front := items[..|items| - 1];
    CallCounts(front);
    if b < |front| {
      ResultPlace(front, b);
      assert front[..b] == items[..b];
    } else {
      CallKinds(items[b]);
    }
  }

  /** A call's id is its `call_id`, else its `id`; an id that is no string, or none,
      is `call_0`. Its arguments are passed on, by default an empty object. */
  lemma CallMeans(item: Json)
    ensures forall id: string :: Has(item, "call_id", Str(id)) ==> ToolCallOf(item).id == id
    ensures forall id: string :: Lacks(item, "call_id") && Has(item, "id", Str(id)) ==> ToolCallOf(item).id == id
    ensures Lacks(item, "call_id") && Lacks(item, "id") ==> ToolCallOf(item).id == "call_0"
    ensures forall v: Json :: Has(item, "arguments", v) ==> ToolCallOf(item).arguments == v
    ensures Lacks(item, "arguments") ==> ToolCallOf(item).arguments == Str("{}")
    ensures forall v: Json :: Lacks(item, "namespace") && Has(item, "name", v) ==> ToolCallOf(item).name == v
  {
  }

  /** A result keeps its `call_id` as it is; a string output is passed on, of a list
      the texts in order, and any other value is printed. */
  lemma ResultMeans(item: Json)
    ensures forall id: Json :: Has(item, "call_id", id) ==> ResultOf(item).callId == id
    ensures Lacks(item, "call_id") ==> ResultOf(item).callId == Null
    ensures forall s: string :: Has(item, "output", Str(s)) ==> ResultOf(item).text == Plainly(s)
    ensures forall parts: seq<Json> :: Has(item, "output", Arr(parts)) ==> ResultOf(item).text == Plainly(Texts(parts))
    ensures forall v: Json :: Has(item, "output", v) && !v.Str? && !v.Arr? ==> ResultOf(item).text == Printed(v)
    ensures Lacks(item, "output") ==> ResultOf(item).text == Plainly("")
  {
    if item.At("output").Arr? { JoinIsTexts(item.At("output").elems); }
  }

  /** Over a whole request: a call and the result that names it by a string
      `call_id` keep one id, each at its place among the calls or the results. */
  lemma {:induction false} PairingKept(ins: Option<string>, items: seq<Json>, ms: seq<ChatMessage>, a: nat, b: nat,
                                       id: string)
    requires Tokens(ms) == RequestTokens(ins, Arr(items)) && a < |items| && b < |items|
    requires Has(items[a], "type", Str("function_call")) && Has(items[b], "type", Str("function_call_output"))
    requires Has(items[a], "call_id", Str(id)) && Has(items[b], "call_id", Str(id))
    ensures var n, k := Count(items[..a], "function_call"), Count(items[..b], "function_call_output");
      && n < |CallsOf(ms)| && CallsOf(ms)[n].id == id
      && k < |ResultsOf(ms)| && ResultsOf(ms)[k].ToolResult? && ResultsOf(ms)[k].callId == Str(id)
  {
    CallsAndResultsConserved(ins, items, ms);
    CallPlace(items, a);
    ResultPlace(items, b);
    CallMeans(items[a]);
    ResultMeans(items[b]);
  }

  // ---- messages

  predicate IsMessage(item: Json) {
    Has(item, "type", Str("message")) || Lacks(item, "type") || !item.members["type"].Str?
  }

  predicate IsImage(part: Json) { Has(part, "type", Str("input_image")) }

  /** The texts of content parts, one after the other. */
  function Texts(parts: seq<Json>): string {
    if parts == [] then ""
    else (if parts[0].Obj? && "text" in parts[0].members && parts[0].members["text"].Str?
          then parts[0].members["text"].s else "") + Texts(parts[1..])
  }

  lemma {:induction false} JoinIsTexts(parts: seq<Json>)
    ensures JoinText(parts) == Texts(parts)
  {
    if parts != [] { JoinIsTexts(parts[1..]); }
  }

  lemma TextPartsText(p: Json)
    requires !IsImage(p)
    ensures Texts(ChatPart(p)) == Texts([p])
    ensures forall i :: 0 <= i < |ChatPart(p)| ==> ChatPart(p)[i].At("type") == Str("text")
  {
    assert ChatPart(p) == [] || ChatPart(p)[1..] == [];
    assert [p][1..] == [];
    assert "type" != "text" by { assert "type"[1] != "text"[1]; }
  }

  lemma ImagePart(p: Json)
    requires IsImage(p)
    ensures |ChatPart(p)| == 1 && ChatPart(p)[0].At("type") != Str("text")
    ensures forall url: string :: Has(p, "image_url", Str(url)) ==>
      ChatPart(p)[0].At("image_url") == Obj(map["url" := Str(url)])
  {
    assert "image_url" != "text" by { assert |"image_url"| != |"text"|; }
    assert "image_url" != "type" by { assert |"image_url"| != |"type"|; }
  }

  lemma {:induction false} TextsSplit(a: seq<Json>, b: seq<Json>)
    ensures Texts(a + b) == Texts(a) + Texts(b)
  {
    if a == [] {
      assert a + b == b;
    } else {
      assert (a + b)[0] == a[0] && (a + b)[1..] == a[1..] + b;
      TextsSplit(a[1..], b);
    }
  }

  lemma {:induction false} NoImageTexts(parts: seq<Json>)
    requires forall i :: 0 <= i < |parts| ==> !IsImage(parts[i])
    ensures Texts(ChatParts(parts)) == Texts(parts)
    ensures forall i :: 0 <= i < |ChatParts(parts)| ==> ChatParts(parts)[i].At("type") == Str("text")
  {
    if parts != [] {
      NoImageTexts(parts[1..]);
      TextPartsText(parts[0]);
      TextsSplit(ChatPart(parts[0]), ChatParts(parts[1..]));
      TextsSplit([parts[0]], parts[1..]);
      assert [parts[0]] + parts[1..] == parts;
    }
  }

  lemma {:induction false} ImageShows(parts: seq<Json>, i: nat)
    requires i < |parts| && IsImage(parts[i])
    ensures exists k :: 0 <= k < |ChatParts(parts)| && ChatParts(parts)[k].At("type") != Str("text")
  {
    if i == 0 {
      ImagePart(parts[0]);
      assert ChatParts(parts)[0] == ChatPart(parts[0])[0];
    } else {
      ImageShows(parts[1..], i - 1);
      var k :| 0 <= k < |ChatParts(parts[1..])| && ChatParts(parts[1..])[k].At("type") != Str("text");
      assert ChatParts(parts)[|ChatPart(parts[0])| + k] == ChatParts(parts[1..])[k];
    }
  }

  /** Content with images stays a list of parts; any other content becomes its text,
      all of it and in order. */
  lemma ContentMeans(content: Json)
    ensures content.Arr? ==>
      (ChatContent(content).Arr? <==> exists i :: 0 <= i < |content.elems| && IsImage(content.elems[i]))
    ensures content.Arr? && !ChatContent(content).Arr? ==> ChatContent(content) == Str(Texts(content.elems))
    ensures content.Str? ==> ChatContent(content) == content
    ensures !content.Arr? && !content.Str? ==> ChatContent(content) == Str("")
  {
    if content.Arr? {
      var parts := content.elems;
      JoinIsTexts(ChatParts(parts));
      if i :| 0 <= i < |parts| && IsImage(parts[i]) {
        ImageShows(parts, i);
      } else {
        NoImageTexts(parts);
      }
    }
  }

  /** A message item is said by its role, where developers speak as the system and
      nobody as the user; an assistant says text only. */
  lemma MessageMeans(item: Json)
    requires item.Obj? && IsMessage(item)
    ensures var content := if "content" in item.members then item.members["content"] else Null;
      var role := if "role" in item.members && item.members["role"].Str? then item.members["role"].s else "user";
      ItemTokens(item) ==
        if role == "assistant" then
          [Said(role, if content.Arr? then Str(Texts(content.elems)) else if content.Str? then content else Str(""))]
        else [Said(if role == "developer" then "system" else role, ChatContent(content))]
  {
    assert "message" != "function_call" by { assert |"message"| != |"function_call"|; }
    assert "message" != "function_call_output" by { assert |"message"| != |"function_call_output"|; }
    assert "developer" != "assistant" by { assert "developer"[0] != "assistant"[0]; }
    assert "system" != "assistant" by { assert "system"[0] != "assistant"[0]; }
    if item.At("content").Arr? { JoinIsTexts(item.At("content").elems); }
  }

  /** Items of any other type say nothing. */
  lemma OthersDropped(item: Json, kind: string)
    requires Has(item, "type", Str(kind))
    requires kind != "message" && kind != "function_call" && kind != "function_call_output"
    ensures ItemTokens(item) == []
  {
  }

  /** Instructions are the system's words, and come first; a plain input is the user's. */
  lemma ConversationOpens(ins: string, input: Json)
    ensures var opening := if ins == "" then [] else [Said("system", Str(ins))];
      RequestTokens(Some(ins), input) == opening + RequestTokens(None, input)
    ensures input.Str? ==> RequestTokens(None, input) == [Said("user", input)]
  {
  }
}
