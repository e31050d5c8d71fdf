/** Streaming a reply ends with the response that translating the assembled
    reply in one piece gives - exactly when the text is in one run and every
    call is named by its first fragment. */
module StreamBuffered {
  import opened Prelude
  import opened ChatWire
  import opened StreamSpec

  // ---- the reply a chunk sequence spells out

  function Content(cs: seq<Chunk>): string {
    if cs == [] then "" else Content(cs[..|cs| - 1]) + cs[|cs| - 1].Text()
  }

  function AllFragments(cs: seq<Chunk>): seq<Fragment> {
    if cs == [] then [] else AllFragments(cs[..|cs| - 1]) + cs[|cs| - 1].Fragments()
  }

  function LastModel(cs: seq<Chunk>): Option<string> {
    if cs == [] then None
    else if cs[|cs| - 1].model.Some? then cs[|cs| - 1].model else LastModel(cs[..|cs| - 1])
  }

  function LastUsage(cs: seq<Chunk>): Option<RawUsage> {
    if cs == [] then None
    else if cs[|cs| - 1].usage.Some? then cs[|cs| - 1].usage else LastUsage(cs[..|cs| - 1])
  }

  /** The call indexes, in order of first appearance. */
  function Keys(fs: seq<Fragment>): seq<int> {
    if fs == [] then []
    else
      var before, k := Keys(fs[..|fs| - 1]), fs[|fs| - 1].Key();
      if k in before then before else before + [k]
  }

  function First(fs: seq<Fragment>, k: int): Fragment
    requires k in Keys(fs)
  {
    if k in Keys(fs[..|fs| - 1]) then First(fs[..|fs| - 1], k) else fs[|fs| - 1]
  }

  /** The arguments of call `k`: all its fragments' arguments, joined. */
  function Arguments(fs: seq<Fragment>, k: int): string {
    if fs == [] then ""
    else
      var f := fs[|fs| - 1];
      Arguments(fs[..|fs| - 1], k) + if f.Key() == k then f.arguments.GetOr("") else ""
  }

  function AssembleCalls(fs: seq<Fragment>): (r: seq<ReplyCall>)
    ensures |r| == |Keys(fs)|
  {
    seq(|Keys(fs)|, i requires 0 <= i < |Keys(fs)| =>
      var k := Keys(fs)[i];
      ReplyCall(First(fs, k).id, First(fs, k).name, Some(Arguments(fs, k))))
  }

  function Assemble(cs: seq<Chunk>): ChatReply {
    ChatReply(LastModel(cs), LastUsage(cs), Some(Content(cs)),
              Some(AssembleCalls(AllFragments(cs))),
              AnyLength(cs))
  }

  // ---- when the two translations agree

  predicate HasText(cs: seq<Chunk>) {
    cs != [] && (HasText(cs[..|cs| - 1]) || cs[|cs| - 1].Speaks())
  }

  /** Text came, and then (or in the same chunk) a `tool_calls` array. */
  predicate TextThenTools(cs: seq<Chunk>) {
    cs != [] && (TextThenTools(cs[..|cs| - 1]) || (cs[|cs| - 1].HasTools() && HasText(cs)))
  }

  /** No `tool_calls` array has text both before (or beside) it and after it. */
  predicate TextInOneRun(cs: seq<Chunk>) {
    cs == [] || (TextInOneRun(cs[..|cs| - 1]) && (cs[|cs| - 1].Speaks() ==> !TextThenTools(cs[..|cs| - 1])))
  }

  /** The first fragment of every call carries the call's name. */
  predicate Named(fs: seq<Fragment>) {
    forall k :: k in Keys(fs) ==> First(fs, k).name.Some?
  }

  predicate EveryCallNamed(cs: seq<Chunk>) {
    Named(AllFragments(cs))
  }

  lemma {:induction false} TextThenToolsMeans(cs: seq<Chunk>)
    ensures HasText(cs) <==> exists i :: 0 <= i < |cs| && cs[i].Speaks()
    ensures TextThenTools(cs) <==> exists i, j :: 0 <= i <= j < |cs| && cs[i].Speaks() && cs[j].HasTools()
  {
    if cs != [] { TextThenToolsMeans(cs[..|cs| - 1]); }
  }

  /** In terms of positions: no chunk `j` with a `tool_calls` array has text at
      or before it and text after it. */
  lemma {:induction false} TextInOneRunMeans(cs: seq<Chunk>)
    ensures TextInOneRun(cs) <==>
      forall i, j, k :: 0 <= i <= j < k < |cs| && cs[i].Speaks() && cs[j].HasTools() ==> !cs[k].Speaks()
  {
    if cs != [] {
      TextInOneRunMeans(cs[..|cs| - 1]);
      TextThenToolsMeans(cs[..|cs| - 1]);
    }
  }

  // ---- what the state machine has gathered

  function Joined(items: seq<Item>): string {
    if items == [] then "" else Joined(items[..|items| - 1]) + items[|items| - 1].Body()
  }

  /** The text messages gathered so far: they join to `content`; `has` says
      there are any, `split` that one of them is closed, `one` that there are
      not two. */
  predicate TextsAre(s: Stream, content: string, has: bool, split: bool, one: bool) {
    && (forall i :: 0 <= i < |s.finishedItems| ==> ClosedMessage(s.finishedItems[i]))
    && (s.text.Some? ==> s.text.value.buf != "")
    && Joined(s.finishedItems) + (if s.text.Some? then s.text.value.buf else "") == content
    && has == (s.finishedItems != [] || s.text.Some?)
    && split == (s.finishedItems != [])
    && one == (|s.finishedItems| + (if s.text.Some? then 1 else 0) <= 1)
  }

  predicate ClosedMessage(item: Item) {
    item.Message? && item.text != "" && item.status == Completed
  }

  ghost predicate TextsMatch(s: Stream, cs: seq<Chunk>) {
    TextsAre(s, Content(cs), HasText(cs), TextThenTools(cs), TextInOneRun(cs))
  }

  lemma FeedTextAre(s: Stream, txt: string, content: string, has: bool, split: bool, one: bool)
    requires TextsAre(s, content, has, split, one)
    ensures TextsAre(FeedText(s, txt), content + txt, has || txt != "", split, one && (txt == "" || !split))
  {
  }

  lemma CloseTextAre(s: Stream, content: string, has: bool, split: bool, one: bool)
    requires TextsAre(s, content, has, split, one)
    ensures TextsAre(CloseText(s), content, has, split || has, one)
  {
    if s.text.Some? {
      var items := s.finishedItems + [MessageItem(s.text.value)];
      assert items[..|items| - 1] == s.finishedItems;
    }
  }

  predicate CallMatches(o: OpenItem, fs: seq<Fragment>, k: int) {
    && k in Keys(fs) && o.toolIndex == Some(k)
    && o.name == First(fs, k).name.GetOr("") && o.buf == Arguments(fs, k)
    && (match First(fs, k).id case Some(id) => o.callId == Given(id) case None => o.callId.Generated?)
  }

  predicate CallsMatch(calls: seq<OpenItem>, fs: seq<Fragment>) {
    |calls| == |Keys(fs)| && forall i :: 0 <= i < |calls| ==> CallMatches(calls[i], fs, Keys(fs)[i])
  }

  lemma {:induction false} DistinctKeys(fs: seq<Fragment>)
    ensures forall i, j :: 0 <= i < j < |Keys(fs)| ==> Keys(fs)[i] != Keys(fs)[j]
    ensures forall k :: k !in Keys(fs) ==> Arguments(fs, k) == ""
  {
    if fs != [] {
      DistinctKeys(fs[..|fs| - 1]);
      forall k | k !in Keys(fs) ensures Arguments(fs, k) == "" {
        assert k !in Keys(fs[..|fs| - 1]) && k != fs[|fs| - 1].Key();
      }
    }
  }

  lemma ExtendFragments(fs: seq<Fragment>, f: Fragment)
    ensures var all := fs + [f];
      && Keys(all) == (if f.Key() in Keys(fs) then Keys(fs) else Keys(fs) + [f.Key()])
      && (forall k :: k in Keys(fs) ==> First(all, k) == First(fs, k))
      && (f.Key() !in Keys(fs) ==> First(all, f.Key()) == f)
      && (forall k :: Arguments(all, k) == Arguments(fs, k) + if f.Key() == k then f.arguments.GetOr("") else "")
  {
    assert (fs + [f])[..|fs|] == fs;
  }

  lemma CallMatchesExtends(o: OpenItem, fs: seq<Fragment>, k: int, f: Fragment)
    requires CallMatches(o, fs, k)
    ensures CallMatches(if f.Key() == k then o.(buf := o.buf + f.arguments.GetOr("")) else o, fs + [f], k)
  {
    ExtendFragments(fs, f);
  }

  lemma FeedKnownFragment(s: Stream, f: Fragment, fs: seq<Fragment>)
    requires CallsMatch(s.calls, fs) && f.Key() in Keys(fs)
    ensures CallsMatch(FeedFragment(s, f).calls, fs + [f])
  {
    var keys := Keys(fs);
    DistinctKeys(fs);
    ExtendFragments(fs, f);
    var i :| 0 <= i < |keys| && keys[i] == f.Key();
    assert CallMatches(s.calls[i], fs, keys[i]);
    var p := Position(s.calls, f.Key()).value;
    assert CallMatches(s.calls[p], fs, keys[p]);
    forall i | 0 <= i < |keys| ensures CallMatches(FeedFragment(s, f).calls[i], fs + [f], keys[i]) {
      CallMatchesExtends(s.calls[i], fs, keys[i], f);
    }
  }

  lemma FeedNewFragment(s: Stream, f: Fragment, fs: seq<Fragment>)
    requires CallsMatch(s.calls, fs) && f.Key() !in Keys(fs)
    ensures CallsMatch(FeedFragment(s, f).calls, fs + [f])
  {
    var keys, k := Keys(fs), f.Key();
    assert Position(s.calls, k).None? by {
      forall i | 0 <= i < |keys| ensures s.calls[i].toolIndex != Some(k) {
        assert CallMatches(s.calls[i], fs, keys[i]);
      }
    }
    var after := FeedFragment(s, f).calls;
    assert |after| == |keys| + 1 && after[..|keys|] == s.calls;
    forall i | 0 <= i < |keys| ensures CallMatches(after[i], fs + [f], keys[i]) {
      CallMatchesExtends(s.calls[i], fs, keys[i], f);
      assert after[i] == after[..|keys|][i];
    }
    assert CallMatches(after[|keys|], fs + [f], k) by {
      ExtendFragments(fs, f);
      DistinctKeys(fs);
    }
    ExtendFragments(fs, f);
  }

  lemma FeedFragmentMatches(s: Stream, f: Fragment, fs: seq<Fragment>)
    requires CallsMatch(s.calls, fs)
    ensures CallsMatch(FeedFragment(s, f).calls, fs + [f])
  {
    if f.Key() in Keys(fs) { FeedKnownFragment(s, f, fs); } else { FeedNewFragment(s, f, fs); }
  }

  lemma {:induction false} FeedFragmentsMatch(s: Stream, more: seq<Fragment>, fs: seq<Fragment>)
    requires CallsMatch(s.calls, fs)
    ensures CallsMatch(FeedFragments(s, more).calls, fs + more)
  {
    if more == [] {
      assert fs + more == fs;
    } else {
      var front, f := more[..|more| - 1], more[|more| - 1];
      FeedFragmentsMatch(s, front, fs);
      FeedFragmentMatches(FeedFragments(s, front), f, fs + front);
      assert fs + front + [f] == fs + more;
    }
  }

  lemma FeedDeltaTexts(s: Stream, c: Chunk, content: string, has: bool, split: bool, one: bool)
    requires TextsAre(s, content, has, split, one)
    ensures var all := has || c.Speaks();
      TextsAre(FeedTools(FeedText(s, c.Text()), c.toolCalls), content + c.Text(), all,
               split || (c.HasTools() && all), one && (c.Speaks() ==> !split))
  {
    FeedTextAre(s, c.Text(), content, has, split, one);
    if c.HasTools() {
      CloseTextAre(FeedText(s, c.Text()), content + c.Text(), has || c.Speaks(), split, one && (c.Speaks() ==> !split));
    }
  }

  lemma FeedTexts(s: Stream, c: Chunk, cs: seq<Chunk>)
    requires TextsMatch(s, cs) && !s.finished
    ensures TextsMatch(Feed(s, c), cs + [c])
  {
    assert (cs + [c])[..|cs|] == cs;
    FeedDeltaTexts(Absorb(Start(s), c), c, Content(cs), HasText(cs), TextThenTools(cs), TextInOneRun(cs));
  }

  lemma FeedCalls(s: Stream, c: Chunk, cs: seq<Chunk>)
    requires CallsMatch(s.calls, AllFragments(cs)) && !s.finished
    ensures CallsMatch(Feed(s, c).calls, AllFragments(cs + [c]))
  {
    assert (cs + [c])[..|cs|] == cs;
    var s1 := FeedText(Absorb(Start(s), c), c.Text());
    if c.HasTools() {
      FeedFragmentsMatch(CloseText(s1), c.toolCalls.value, AllFragments(cs));
    } else {
      assert AllFragments(cs) + [] == AllFragments(cs);
    }
  }

  predicate AnyLength(cs: seq<Chunk>) {
    exists i :: 0 <= i < |cs| && cs[i].lengthStop
  }

  predicate HeaderMatches(s: Stream, model: string, ns: NamespaceMap, cs: seq<Chunk>) {
    && s.model == LastModel(cs).GetOr(model) && s.usage == UsageOf(LastUsage(cs))
    && s.truncated == AnyLength(cs) && !s.finished && s.ns == ns
  }

  lemma FeedHeader(s: Stream, c: Chunk, model: string, ns: NamespaceMap, cs: seq<Chunk>)
    requires HeaderMatches(s, model, ns, cs)
    ensures HeaderMatches(Feed(s, c), model, ns, cs + [c])
  {
    var all := cs + [c];
    assert all[..|cs|] == cs && all[|cs|] == c;
    assert AnyLength(all) <==> AnyLength(cs) || c.lengthStop by {
      if i :| 0 <= i < |cs| && cs[i].lengthStop { assert all[i].lengthStop; }
    }
  }

  lemma {:induction false} FeedMatches(s: Stream, model: string, ns: NamespaceMap, cs: seq<Chunk>)
    requires cs != [] && HeaderMatches(s, model, ns, cs[..|cs| - 1])
    requires TextsMatch(s, cs[..|cs| - 1]) && CallsMatch(s.calls, AllFragments(cs[..|cs| - 1]))
    ensures HeaderMatches(Feed(s, cs[|cs| - 1]), model, ns, cs) && TextsMatch(Feed(s, cs[|cs| - 1]), cs)
    ensures CallsMatch(Feed(s, cs[|cs| - 1]).calls, AllFragments(cs))
  {
    var cs', c := cs[..|cs| - 1], cs[|cs| - 1];
    FeedTexts(s, c, cs');
    FeedCalls(s, c, cs');
    FeedHeader(s, c, model, ns, cs');
    assert cs' + [c] == cs;
  }

  lemma NewMatches(model: string, ns: NamespaceMap)
    ensures var s := New(model, ns);
      HeaderMatches(s, model, ns, []) && TextsMatch(s, []) && CallsMatch(s.calls, AllFragments([]))
  {
  }

  /** The state after any chunk sequence, in closed form. */
  lemma {:induction false} FeedAllMatches(model: string, ns: NamespaceMap, cs: seq<Chunk>)
    ensures var s := FeedAll(New(model, ns), cs);
      HeaderMatches(s, model, ns, cs) && TextsMatch(s, cs) && CallsMatch(s.calls, AllFragments(cs))
  {
    if cs == [] {
      NewMatches(model, ns);
    } else {
      FeedAllMatches(model, ns, cs[..|cs| - 1]);
      FeedMatches(FeedAll(New(model, ns), cs[..|cs| - 1]), model, ns, cs);
    }
  }

  // ---- the final response

  /** The response carried by the last event of a run. */
  function Streamed(model: string, ns: NamespaceMap, cs: seq<Chunk>): Response {
    var out := Run(model, ns, cs);
    if out == [] then Response(0, StatusInProgress, "", [], NO_USAGE)
    else
      match out[|out| - 1].event
      case CompletedEvent(r) => r
      case IncompleteEvent(r) => r
      case _ => Response(0, StatusInProgress, "", [], NO_USAGE)
  }

  function CallItems(calls: seq<OpenItem>, ns: NamespaceMap): (r: seq<Item>)
    ensures |r| == |calls|
  {
    seq(|calls|, i requires 0 <= i < |calls| => CallItem(calls[i], Completed, calls[i].buf, ns))
  }

  lemma CallItemsSnoc(calls: seq<OpenItem>, ns: NamespaceMap)
    requires calls != []
    ensures var o := calls[|calls| - 1];
      CallItems(calls, ns) == CallItems(calls[..|calls| - 1], ns) + [CallItem(o, Completed, o.buf, ns)]
  {
  }

  lemma {:induction false} CloseCallsItems(s: Stream, calls: seq<OpenItem>)
    ensures CloseCalls(s, calls).finishedItems == s.finishedItems + CallItems(calls, s.ns)
  {
    if calls == [] {
      assert CallItems(calls, s.ns) == [];
    } else {
      CloseCallsItems(s, calls[..|calls| - 1]);
      CallItemsSnoc(calls, s.ns);
    }
  }

  /** The last event in closed form: all messages, then all calls. */
  lemma StreamedIs(model: string, ns: NamespaceMap, cs: seq<Chunk>)
    ensures var s := FeedAll(New(model, ns), cs);
      var status := if s.truncated then StatusIncomplete else StatusCompleted;
      Streamed(model, ns, cs)
        == Response(s.respId, status, s.model, CloseText(s).finishedItems + CallItems(s.calls, ns), s.usage)
  {
    FeedAllMatches(model, ns, cs);
    var s := FeedAll(New(model, ns), cs);
    var s1 := CloseText(Start(s));
    CloseCallsItems(s1.(calls := []), s1.calls);
  }

  lemma ClosedMessages(s: Stream, cs: seq<Chunk>)
    requires TextsMatch(s, cs)
    ensures forall j :: 0 <= j < |CloseText(s).finishedItems| ==> CloseText(s).finishedItems[j].Message?
  {
    CloseTextAre(s, Content(cs), HasText(cs), TextThenTools(cs), TextInOneRun(cs));
  }

  predicate FirstAreMessages(output: seq<Item>, m: nat) {
    m <= |output| && forall j :: 0 <= j < |output| ==> (output[j].Message? <==> j < m)
  }

  lemma MessagesThenCalls(messages: seq<Item>, calls: seq<OpenItem>, ns: NamespaceMap)
    requires forall j :: 0 <= j < |messages| ==> messages[j].Message?
    ensures FirstAreMessages(messages + CallItems(calls, ns), |messages|)
  {
  }

  /** The messages of the final output come before its calls. */
  lemma {:induction false} MessagesFirst(model: string, ns: NamespaceMap, cs: seq<Chunk>)
    ensures FirstAreMessages(Streamed(model, ns, cs).output, |CloseText(FeedAll(New(model, ns), cs)).finishedItems|)
  {
    var s := FeedAll(New(model, ns), cs);
    FeedAllMatches(model, ns, cs);
    ClosedMessages(s, cs);
    var messages := CloseText(s).finishedItems;
    MessagesThenCalls(messages, s.calls, ns);
    StreamedIs(model, ns, cs);
  }

  lemma SameCallItem(o: OpenItem, fs: seq<Fragment>, i: nat, ns: NamespaceMap)
    requires i < |Keys(fs)| && CallMatches(o, fs, Keys(fs)[i])
    ensures SameItem(CallItem(o, Completed, o.buf, ns), ReplyItem(AssembleCalls(fs)[i], i + 1, ns))
       <==> First(fs, Keys(fs)[i]).name.Some?
  {
  }

  lemma SameCalls(calls: seq<OpenItem>, fs: seq<Fragment>, ns: NamespaceMap, reply: seq<Item>)
    requires CallsMatch(calls, fs)
    requires |reply| == |calls| && forall i :: 0 <= i < |reply| ==>
      reply[i] == ReplyItem(AssembleCalls(fs)[i], i + 1, ns)
    ensures SameItems(CallItems(calls, ns), reply) <==> Named(fs)
  {
    var mine := CallItems(calls, ns);
    forall i | 0 <= i < |calls| ensures SameItem(mine[i], reply[i]) <==> First(fs, Keys(fs)[i]).name.Some? {
      assert CallMatches(calls[i], fs, Keys(fs)[i]);
      SameCallItem(calls[i], fs, i, ns);
    }
    if SameItems(mine, reply) {
      forall k | k in Keys(fs) ensures First(fs, k).name.Some? {
        var i :| 0 <= i < |Keys(fs)| && Keys(fs)[i] == k;
        assert SameItem(mine[i], reply[i]);
      }
    }
  }

  lemma SplitSameItems(a: seq<Item>, b: seq<Item>, a': seq<Item>, b': seq<Item>)
    requires |b| == |b'|
    ensures SameItems(a + b, a' + b') <==> SameItems(a, a') && SameItems(b, b')
  {
    if SameItems(a + b, a' + b') {
      forall i | 0 <= i < |a| ensures SameItem(a[i], a'[i]) {
        assert SameItem((a + b)[i], (a' + b')[i]);
      }
      forall i | 0 <= i < |b| ensures SameItem(b[i], b'[i]) {
        assert SameItem((a + b)[|a| + i], (a' + b')[|a| + i]);
      }
    }
  }

  lemma SameMessages(items: seq<Item>, content: string, one: bool)
    requires forall i :: 0 <= i < |items| ==> ClosedMessage(items[i])
    requires Joined(items) == content && one == (|items| <= 1)
    ensures SameItems(items, TextItems(content)) <==> one
  {
    if |items| == 1 {
      assert items[..0] == [] && Joined(items) == Joined(items[..0]) + items[0].Body();
    }
  }

  lemma {:induction false} OutputsAgree(s: Stream, model: string, ns: NamespaceMap, cs: seq<Chunk>)
    requires HeaderMatches(s, model, ns, cs) && TextsMatch(s, cs) && CallsMatch(s.calls, AllFragments(cs))
    ensures SameItems(CloseText(s).finishedItems + CallItems(s.calls, ns),
                      TextItems(Content(cs)) + ReplyItems(AssembleCalls(AllFragments(cs)), ns))
       <==> TextInOneRun(cs) && EveryCallNamed(cs)
  {
    var items, calls := CloseText(s).finishedItems, CallItems(s.calls, ns);
    var texts, replies := TextItems(Content(cs)), ReplyItems(AssembleCalls(AllFragments(cs)), ns);
    assert SameItems(items, texts) <==> TextInOneRun(cs) by {
      CloseTextAre(s, Content(cs), HasText(cs), TextThenTools(cs), TextInOneRun(cs));
      SameMessages(items, Content(cs), TextInOneRun(cs));
    }
    assert SameItems(calls, replies) <==> EveryCallNamed(cs) by {
      SameCalls(s.calls, AllFragments(cs), ns, replies);
    }
    SplitSameItems(items, calls, texts, replies);
  }

  /** The streamed and the buffered translation of the same reply agree, ids
      aside, exactly when no tool-call array splits the text and the first
      fragment of every call carries its name. */
  lemma {:induction false} StreamedEqualsBuffered(model: string, ns: NamespaceMap, cs: seq<Chunk>)
    ensures SameResponse(Streamed(model, ns, cs), ChatToResponse(Assemble(cs), model, ns))
       <==> TextInOneRun(cs) && EveryCallNamed(cs)
  {
    var s, a, b := FeedAll(New(model, ns), cs), Streamed(model, ns, cs), ChatToResponse(Assemble(cs), model, ns);
    FeedAllMatches(model, ns, cs);
    assert a.status == b.status && a.model == b.model && a.usage == b.usage by {
      StreamedIs(model, ns, cs);
    }
    assert a.output == CloseText(s).finishedItems + CallItems(s.calls, ns) by {
      StreamedIs(model, ns, cs);
    }
    assert b.output == TextItems(Content(cs)) + ReplyItems(AssembleCalls(AllFragments(cs)), ns);
    OutputsAgree(s, model, ns, cs);
  }

  /** Two ways of chunking the same reply end with the same response. */
  lemma {:induction false} ChunkingIsInvisible(model: string, ns: NamespaceMap, cs: seq<Chunk>, ds: seq<Chunk>)
    requires Assemble(cs) == Assemble(ds)
    requires TextInOneRun(cs) && EveryCallNamed(cs) && TextInOneRun(ds) && EveryCallNamed(ds)
    ensures SameResponse(Streamed(model, ns, cs), Streamed(model, ns, ds))
  {
    StreamedEqualsBuffered(model, ns, cs);
    StreamedEqualsBuffered(model, ns, ds);
    var a, b, r := Streamed(model, ns, cs).output, Streamed(model, ns, ds).output,
                   ChatToResponse(Assemble(cs), model, ns).output;
    forall i | 0 <= i < |a| ensures SameItem(a[i], b[i]) {
      assert SameItem(a[i], r[i]) && SameItem(b[i], r[i]);
    }
  }
}
