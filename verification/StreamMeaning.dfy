/** What a translated reply says, in terms of the fields of its chunks: which count
    is which, whose model, whose calls. */
module StreamMeaning {
  import opened Prelude
  import opened ChatWire
  import opened StreamSpec
  import opened StreamBuffered

  // ---- usage, model and status

  /** Absent counts are 0, an absent total is the sum, in 64 bits. */
  predicate Counts(u: Usage, raw: RawUsage) {
    && u.input == (if raw.prompt.Some? then raw.prompt.value else 0)
    && u.output == (if raw.completion.Some? then raw.completion.value else 0)
    && (raw.total.Some? ==> u.total == raw.total.value)
    && (raw.total.None? ==> FitsSum(u.total, u.input + u.output))
  }

  /** `total` is `sum` when that fits an `i64`, and else what is left of it. */
  predicate FitsSum(total: int, sum: int) {
    && -0x8000_0000_0000_0000 <= total < 0x8000_0000_0000_0000
    && (total - sum) % 0x1_0000_0000_0000_0000 == 0
    && (-0x8000_0000_0000_0000 <= sum < 0x8000_0000_0000_0000 ==> total == sum)
  }

  lemma UsageMeans(raw: RawUsage)
    ensures Counts(UsageOf(Some(raw)), raw)
  {
  }

  /** Chunk `i` is the last one that states a usage. */
  predicate LastUsed(cs: seq<Chunk>, i: nat) {
    i < |cs| && cs[i].usage.Some? && forall j :: i < j < |cs| ==> cs[j].usage.None?
  }

  predicate LastNamed(cs: seq<Chunk>, i: nat) {
    i < |cs| && cs[i].model.Some? && forall j :: i < j < |cs| ==> cs[j].model.None?
  }

  lemma {:induction false} LastUsageIs(cs: seq<Chunk>)
    ensures LastUsage(cs).None? <==> forall j :: 0 <= j < |cs| ==> cs[j].usage.None?
    ensures forall i: nat :: LastUsed(cs, i) ==> LastUsage(cs) == cs[i].usage
  {
    if cs != [] && cs[|cs| - 1].usage.None? {
      var front := cs[..|cs| - 1];
      LastUsageIs(front);
      forall i: nat | LastUsed(cs, i) ensures LastUsage(cs) == cs[i].usage { assert LastUsed(front, i); }
    }
  }

  lemma {:induction false} LastModelIs(cs: seq<Chunk>)
    ensures LastModel(cs).None? <==> forall j :: 0 <= j < |cs| ==> cs[j].model.None?
    ensures forall i: nat :: LastNamed(cs, i) ==> LastModel(cs) == cs[i].model
  {
    if cs != [] && cs[|cs| - 1].model.None? {
      var front := cs[..|cs| - 1];
      LastModelIs(front);
      forall i: nat | LastNamed(cs, i) ensures LastModel(cs) == cs[i].model { assert LastNamed(front, i); }
    }
  }

  /** The terminal usage is the last chunk's that states one, count by count. */
  lemma StreamedUsage(model: string, ns: NamespaceMap, cs: seq<Chunk>)
    ensures var u := Streamed(model, ns, cs).usage;
      && (forall i: nat :: LastUsed(cs, i) ==> Counts(u, cs[i].usage.value))
      && ((forall j :: 0 <= j < |cs| ==> cs[j].usage.None?) ==> u == Usage(0, 0, 0))
  {
    StreamedIs(model, ns, cs);
    FeedAllMatches(model, ns, cs);
    LastUsageIs(cs);
    if LastUsage(cs).Some? { UsageMeans(LastUsage(cs).value); }
  }

  /** The terminal model is the last one stated, else the requested one; the reply
      is incomplete exactly when some chunk stopped for its length. */
  lemma StreamedHeader(model: string, ns: NamespaceMap, cs: seq<Chunk>)
    ensures var r := Streamed(model, ns, cs);
      && (forall i: nat :: LastNamed(cs, i) ==> r.model == cs[i].model.value)
      && ((forall j :: 0 <= j < |cs| ==> cs[j].model.None?) ==> r.model == model)
      && r.status == (if exists j :: 0 <= j < |cs| && cs[j].lengthStop then StatusIncomplete else StatusCompleted)
  {
    StreamedIs(model, ns, cs);
    FeedAllMatches(model, ns, cs);
    LastModelIs(cs);
  }

  /** A completed call under the upstream's id if it gave one, its name split again
      if it is a flattened one. */
  predicate CallIs(item: Item, ns: NamespaceMap, id: Option<string>, name: Option<string>, arguments: string) {
    && item.FunctionCall? && item.status == Completed && item.arguments == arguments
    && (if id.Some? then item.callId == Given(id.value) else item.callId.Generated?)
    && (if name.Some? && name.value in ns then
          item.space == Some(ns[name.value].0) && item.name == Some(ns[name.value].1)
        else item.space == None && item.name == name)
  }

  lemma ReplyItemIs(c: ReplyCall, k: nat, ns: NamespaceMap)
    ensures CallIs(ReplyItem(c, k, ns), ns, c.id, c.name, if c.arguments.Some? then c.arguments.value else "{}")
  {
  }

  /** And in one piece: the header says the same of the reply's own fields. */
  lemma BufferedHeader(chat: ChatReply, model: string, ns: NamespaceMap)
    ensures var r := ChatToResponse(chat, model, ns);
      && (chat.usage.Some? ==> Counts(r.usage, chat.usage.value))
      && (chat.usage.None? ==> r.usage == Usage(0, 0, 0))
      && r.model == (if chat.model.Some? then chat.model.value else model)
      && r.status == (if chat.lengthStop then StatusIncomplete else StatusCompleted)
  {
    if chat.usage.Some? { UsageMeans(chat.usage.value); }
  }

  lemma ReplyItemsAre(calls: seq<ReplyCall>, ns: NamespaceMap)
    ensures forall i :: 0 <= i < |calls| ==>
      CallIs(ReplyItems(calls, ns)[i], ns, calls[i].id, calls[i].name, calls[i].arguments.GetOr("{}"))
  {
    forall i | 0 <= i < |calls|
      ensures CallIs(ReplyItems(calls, ns)[i], ns, calls[i].id, calls[i].name, calls[i].arguments.GetOr("{}"))
    {
      ReplyItemIs(calls[i], i + 1, ns);
    }
  }

  /** Its output is the text, if any, and each call in order; a call without
      arguments gets an empty object. */
  lemma BufferedOutput(chat: ChatReply, model: string, ns: NamespaceMap) returns (texts: seq<Item>, calls: seq<Item>)
    ensures ChatToResponse(chat, model, ns).output == texts + calls
    ensures if chat.content.Some? && chat.content.value != "" then
        |texts| == 1 && texts[0].Message? && texts[0].text == chat.content.value
      else texts == []
    ensures |calls| == if chat.toolCalls.Some? then |chat.toolCalls.value| else 0
    ensures forall i :: 0 <= i < |calls| ==>
      var c := chat.toolCalls.value[i];
      CallIs(calls[i], ns, c.id, c.name, if c.arguments.Some? then c.arguments.value else "{}")
  {
    texts, calls := TextItems(chat.content.GetOr("")), ReplyItems(chat.toolCalls.GetOr([]), ns);
    if chat.toolCalls.Some? { ReplyItemsAre(chat.toolCalls.value, ns); }
  }

  // ---- how a stream opens

  lemma FragmentGrows(s: Stream, f: Fragment)
    ensures s.out <= FeedFragment(s, f).out
  {
    if Position(s.calls, f.Key()).None? {
      assert s.out <= OpenCall(s, f).out;
      assert OpenCall(s, f).out <= FeedArguments(OpenCall(s, f), |s.calls|, f.arguments.GetOr("")).out;
    }
  }

  lemma {:induction false} FragmentsGrow(s: Stream, fs: seq<Fragment>)
    ensures s.out <= FeedFragments(s, fs).out
  {
    if fs != [] {
      FragmentsGrow(s, fs[..|fs| - 1]);
      FragmentGrows(FeedFragments(s, fs[..|fs| - 1]), fs[|fs| - 1]);
    }
  }

  lemma FeedGrows(s: Stream, c: Chunk)
    requires !s.finished
    ensures Start(s).out <= Feed(s, c).out
  {
    var s1 := FeedText(Absorb(Start(s), c), c.Text());
    assert Start(s).out <= s1.out;
    if c.toolCalls.Some? {
      assert s1.out <= CloseText(s1).out;
      FragmentsGrow(CloseText(s1), c.toolCalls.value);
    }
  }

  lemma {:induction false} CallsGrow(s: Stream, cs: seq<OpenItem>)
    ensures s.out <= CloseCalls(s, cs).out
  {
    if cs != [] {
      CallsGrow(s, cs[..|cs| - 1]);
      var before := CloseCalls(s, cs[..|cs| - 1]);
      assert before.out <= CloseCall(before, cs[|cs| - 1]).out;
    }
  }

  lemma FinishGrows(s: Stream)
    requires !s.finished
    ensures Start(s).out <= Finish(s).out
  {
    var s1 := CloseText(Start(s));
    assert Start(s).out <= s1.out;
    CallsGrow(s1.(calls := []), s1.calls);
    var s2 := CloseCalls(s1.(calls := []), s1.calls);
    assert s2.out <= Conclude(s2).out;
  }

  /** The two opening events: the requested model, nothing used, nothing put out. */
  function Opening(model: string): seq<Numbered> {
    var r := Response(0, StatusInProgress, model, [], Usage(0, 0, 0));
    [Numbered(0, Created(r)), Numbered(1, InProgressEvent(r))]
  }

  lemma {:induction false} ChunksOpen(model: string, ns: NamespaceMap, cs: seq<Chunk>)
    ensures var s := FeedAll(New(model, ns), cs);
      if cs == [] then s == New(model, ns) else s.started && Opening(model) <= s.out
  {
    if cs != [] {
      var before := FeedAll(New(model, ns), cs[..|cs| - 1]);
      ChunksOpen(model, ns, cs[..|cs| - 1]);
      FeedAllMatches(model, ns, cs[..|cs| - 1]);
      FeedGrows(before, cs[|cs| - 1]);
    }
  }

  /** Every stream opens with the same two events, whatever its chunks say. */
  lemma StreamOpens(model: string, ns: NamespaceMap, cs: seq<Chunk>)
    ensures Opening(model) <= Run(model, ns, cs)
  {
    ChunksOpen(model, ns, cs);
    FeedAllMatches(model, ns, cs);
    FinishGrows(FeedAll(New(model, ns), cs));
  }

  // ---- the calls of a streamed reply

  /** The call a fragment belongs to: a missing index is index 0. */
  function CallNo(f: Fragment): int { if f.index.Some? then f.index.value else 0 }

  /** Fragment `p` is the first of its call. */
  predicate StartsCall(fs: seq<Fragment>, p: nat) {
    p < |fs| && forall q :: 0 <= q < p ==> CallNo(fs[q]) != CallNo(fs[p])
  }

  /** The positions of the first fragments, in order. */
  function Starts(fs: seq<Fragment>): (r: seq<nat>)
    ensures forall i :: 0 <= i < |r| ==> r[i] < |fs|
  {
    if fs == [] then []
    else Starts(fs[..|fs| - 1]) + if StartsCall(fs, |fs| - 1) then [|fs| - 1] else []
  }

  lemma {:induction false} StartsAre(fs: seq<Fragment>)
    ensures Ascending(Starts(fs)) && forall p: nat :: p in Starts(fs) <==> StartsCall(fs, p)
  {
    if fs != [] {
      var front := fs[..|fs| - 1];
      StartsAre(front);
      forall p: nat | p < |front| ensures StartsCall(fs, p) <==> StartsCall(front, p) {}
    }
  }

  lemma {:induction false} KeysAre(fs: seq<Fragment>, k: int)
    ensures k in Keys(fs) <==> exists q :: 0 <= q < |fs| && CallNo(fs[q]) == k
  {
    if fs != [] {
      var front, f := fs[..|fs| - 1], fs[|fs| - 1];
      KeysAre(front, k);
      if q :| 0 <= q < |front| && CallNo(front[q]) == k { assert fs[q] == front[q]; }
      assert f.Key() == CallNo(f);
    }
  }

  lemma {:induction false} KeysStart(fs: seq<Fragment>)
    ensures |Keys(fs)| == |Starts(fs)|
    ensures forall i :: 0 <= i < |Starts(fs)| ==>
      Keys(fs)[i] == CallNo(fs[Starts(fs)[i]]) && First(fs, Keys(fs)[i]) == fs[Starts(fs)[i]]
  {
    if fs != [] {
      var front, f := fs[..|fs| - 1], fs[|fs| - 1];
      KeysStart(front);
      KeysAre(front, CallNo(f));
      assert f.Key() == CallNo(f);
      assert StartsCall(fs, |front|) <==> f.Key() !in Keys(front) by {
        if q :| 0 <= q < |front| && CallNo(front[q]) == CallNo(f) { assert fs[q] == front[q]; }
      }
    }
  }

  /** The argument strings of call `k`'s fragments, one after the other. */
  function Spelled(fs: seq<Fragment>, k: int): string {
    if fs == [] then ""
    else
      (if CallNo(fs[0]) == k && fs[0].arguments.Some? then fs[0].arguments.value else "") + Spelled(fs[1..], k)
  }

  lemma {:induction false} SpelledSnoc(fs: seq<Fragment>, f: Fragment, k: int)
    ensures Spelled(fs + [f], k) ==
      Spelled(fs, k) + if CallNo(f) == k && f.arguments.Some? then f.arguments.value else ""
  {
    if fs == [] {
      assert (fs + [f])[1..] == [];
    } else {
      assert (fs + [f])[1..] == fs[1..] + [f];
      SpelledSnoc(fs[1..], f, k);
    }
  }

  lemma {:induction false} ArgumentsAreSpelled(fs: seq<Fragment>, k: int)
    ensures Arguments(fs, k) == Spelled(fs, k)
  {
    if fs != [] {
      ArgumentsAreSpelled(fs[..|fs| - 1], k);
      assert fs[..|fs| - 1] + [fs[|fs| - 1]] == fs;
      SpelledSnoc(fs[..|fs| - 1], fs[|fs| - 1], k);
    }
  }

  /** A closed call in terms of the fragments fed into it. */
  lemma CallItemIs(o: OpenItem, fs: seq<Fragment>, f: Fragment, ns: NamespaceMap)
    requires CallMatches(o, fs, CallNo(f)) && First(fs, CallNo(f)) == f
    ensures CallIs(CallItem(o, Completed, o.buf, ns), ns, f.id, Some(if f.name.Some? then f.name.value else ""),
                   Spelled(fs, CallNo(f)))
  {
    ArgumentsAreSpelled(fs, CallNo(f));
  }

  lemma {:induction false} ClosedCalls(calls: seq<OpenItem>, fs: seq<Fragment>, ns: NamespaceMap, i: nat)
    requires CallsMatch(calls, fs) && i < |Starts(fs)| == |calls|
    ensures var f := fs[Starts(fs)[i]];
      CallIs(CallItems(calls, ns)[i], ns, f.id, Some(if f.name.Some? then f.name.value else ""), Spelled(fs, CallNo(f)))
  {
    KeysStart(fs);
    assert CallMatches(calls[i], fs, Keys(fs)[i]);
    CallItemIs(calls[i], fs, fs[Starts(fs)[i]], ns);
  }

  /** The terminal output's calls are those the fragments start, in that order: each
      under the id and name of its first fragment (no name is the empty one), with
      the arguments of all its fragments joined in order. */
  lemma {:induction false} StreamedCalls(model: string, ns: NamespaceMap, cs: seq<Chunk>) returns (m: nat)
    ensures var output, fs := Streamed(model, ns, cs).output, AllFragments(cs);
      && FirstAreMessages(output, m) && |output| == m + |Starts(fs)|
      && forall i :: 0 <= i < |Starts(fs)| ==>
        var f := fs[Starts(fs)[i]];
        CallIs(output[m + i], ns, f.id, Some(if f.name.Some? then f.name.value else ""), Spelled(fs, CallNo(f)))
  {
    var s, fs := FeedAll(New(model, ns), cs), AllFragments(cs);
    StreamedIs(model, ns, cs);
    FeedAllMatches(model, ns, cs);
    MessagesFirst(model, ns, cs);
    KeysStart(fs);
    m := |CloseText(s).finishedItems|;
    var output := Streamed(model, ns, cs).output;
    forall i | 0 <= i < |Starts(fs)|
      ensures var f := fs[Starts(fs)[i]];
        CallIs(output[m + i], ns, f.id, Some(if f.name.Some? then f.name.value else ""), Spelled(fs, CallNo(f)))
    {
      assert output[m + i] == CallItems(s.calls, ns)[i];
      ClosedCalls(s.calls, fs, ns, i);
    }
  }

  // ---- the text of a streamed reply

  /** The chunks' texts, one after the other. */
  function Said(cs: seq<Chunk>): string {
    if cs == [] then "" else (if cs[0].content.Some? then cs[0].content.value else "") + Said(cs[1..])
  }

  lemma {:induction false} SaidSnoc(cs: seq<Chunk>, c: Chunk)
    ensures Said(cs + [c]) == Said(cs) + c.Text()
  {
    if cs == [] {
      assert (cs + [c])[1..] == [];
    } else {
      assert (cs + [c])[0] == cs[0] && (cs + [c])[1..] == cs[1..] + [c];
      SaidSnoc(cs[1..], c);
      Assoc(cs[0].Text(), Said(cs[1..]), c.Text());
    }
  }

  lemma {:induction false} ContentIsSaid(cs: seq<Chunk>)
    ensures Content(cs) == Said(cs)
  {
    if cs != [] {
      ContentIsSaid(cs[..|cs| - 1]);
      assert cs[..|cs| - 1] + [cs[|cs| - 1]] == cs;
      SaidSnoc(cs[..|cs| - 1], cs[|cs| - 1]);
    }
  }

  /** The bodies of items, one after the other. */
  function Bodies(items: seq<Item>): string {
    if items == [] then "" else items[0].Body() + Bodies(items[1..])
  }

  lemma {:induction false} BodiesSnoc(items: seq<Item>, item: Item)
    ensures Bodies(items + [item]) == Bodies(items) + item.Body()
  {
    if items == [] {
      assert (items + [item])[1..] == [];
    } else {
      assert (items + [item])[1..] == items[1..] + [item];
      BodiesSnoc(items[1..], item);
    }
  }

  lemma {:induction false} JoinedIsBodies(items: seq<Item>)
    ensures Joined(items) == Bodies(items)
  {
    if items != [] {
      JoinedIsBodies(items[..|items| - 1]);
      assert items[..|items| - 1] + [items[|items| - 1]] == items;
      BodiesSnoc(items[..|items| - 1], items[|items| - 1]);
    }
  }

  lemma {:induction false} GatheredText(s: Stream, cs: seq<Chunk>)
    requires TextsMatch(s, cs)
    ensures var items := CloseText(s).finishedItems;
      && Bodies(items) == Said(cs)
      && forall i :: 0 <= i < |items| ==> items[i].Message? && items[i].text != ""
  {
    CloseTextAre(s, Content(cs), HasText(cs), TextThenTools(cs), TextInOneRun(cs));
    ContentIsSaid(cs);
    JoinedIsBodies(CloseText(s).finishedItems);
  }

  lemma OutputStarts(model: string, ns: NamespaceMap, cs: seq<Chunk>)
    ensures var items, output := CloseText(FeedAll(New(model, ns), cs)).finishedItems, Streamed(model, ns, cs).output;
      |items| <= |output| && output[..|items|] == items
  {
    StreamedIs(model, ns, cs);
  }

  lemma {:induction false} TextGathered(model: string, ns: NamespaceMap, cs: seq<Chunk>)
    ensures var items := CloseText(FeedAll(New(model, ns), cs)).finishedItems;
      && Bodies(items) == Said(cs)
      && forall i :: 0 <= i < |items| ==> items[i].Message? && items[i].text != ""
  {
    FeedAllMatches(model, ns, cs);
    GatheredText(FeedAll(New(model, ns), cs), cs);
  }

  /** The output starts with messages that spell `text`, none of them empty. */
  ghost predicate Spells(output: seq<Item>, m: nat, text: string) {
    && FirstAreMessages(output, m) && Bodies(output[..m]) == text
    && forall i :: 0 <= i < m ==> output[i].text != ""
  }

  lemma StartSpells(output: seq<Item>, items: seq<Item>, text: string)
    requires FirstAreMessages(output, |items|) && output[..|items|] == items && Bodies(items) == text
    requires forall i :: 0 <= i < |items| ==> items[i].Message? && items[i].text != ""
    ensures Spells(output, |items|, text)
  {
    assert forall i :: 0 <= i < |items| ==> output[i] == items[i];
  }

  /** The terminal output's messages spell the chunks' texts, none lost, doubled or
      moved. */
  lemma {:induction false} StreamedText(model: string, ns: NamespaceMap, cs: seq<Chunk>) returns (m: nat)
    ensures Spells(Streamed(model, ns, cs).output, m, Said(cs))
  {
    var items := CloseText(FeedAll(New(model, ns), cs)).finishedItems;
    m := |items|;
    MessagesFirst(model, ns, cs);
    OutputStarts(model, ns, cs);
    TextGathered(model, ns, cs);
    StartSpells(Streamed(model, ns, cs).output, items, Said(cs));
  }
}
