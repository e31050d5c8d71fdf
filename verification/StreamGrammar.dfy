/** The event stream of every run obeys the client's grammar: each emission of
    the state machine is one legal step of the client. */
module StreamGrammar {
  import opened Prelude
  import opened ChatWire
  import opened StreamSpec
  import opened StreamClient

  predicate TextShown(c: Client, o: OpenItem) {
    o.outputIndex < |c.items| && c.items[o.outputIndex] == Seen(Message(o.itemId, InProgress, o.buf), PartOpen)
  }

  predicate CallShown(c: Client, o: OpenItem, ns: NamespaceMap) {
    o.outputIndex < |c.items| && c.items[o.outputIndex] == Seen(CallItem(o, InProgress, o.buf, ns), Added)
  }

  ghost predicate Accounted(s: Stream, c: Client, i: nat)
    requires i < |c.items|
  {
    || c.items[i].stage == Closed
    || (s.text.Some? && s.text.value.outputIndex == i)
    || exists k :: 0 <= k < |s.calls| && s.calls[k].outputIndex == i
  }

  predicate Listed(s: Stream, c: Client) {
    && |c.order| == |s.finishedItems|
    && forall j :: 0 <= j < |c.order| ==>
         && c.order[j] < |c.items| && c.items[c.order[j]].stage == Closed
         && c.items[c.order[j]].item.(status := Completed) == s.finishedItems[j]
  }

  /** The client sees exactly the items `s` has produced, each as far as it got. */
  ghost predicate Shows(s: Stream, c: Client) {
    && c.expected == s.seqNo && c.phase == Live && c.result == None
    && s.started && !s.finished
    && |c.items| == s.nextIndex
    && (forall i :: 0 <= i < |c.items| ==> c.items[i].item.id < s.ids)
    && (s.text.Some? ==> TextShown(c, s.text.value))
    && (forall k :: 0 <= k < |s.calls| ==> CallShown(c, s.calls[k], s.ns))
    && Ascending(CallIndexes(s.calls))
    && (forall i :: 0 <= i < |c.items| ==> Accounted(s, c, i))
    && Listed(s, c)
  }

  /** `c` is what the client makes of everything emitted so far. */
  ghost predicate Sim(s: Stream, c: Client) {
    Observe(s.out) == Some(c) && Shows(s, c)
  }

  function CallIndexes(calls: seq<OpenItem>): (r: seq<int>)
    ensures |r| == |calls|
  {
    seq(|calls|, k requires 0 <= k < |calls| => calls[k].outputIndex)
  }

  /** The message indexes in opening order, the open message included. */
  function Messages(s: Stream, c: Client): seq<int> {
    if s.text.Some? then c.order + [s.text.value.outputIndex] else c.order
  }

  /** The client's next state on an event that carries the expected number. */
  function Next(c: Client, ev: Event): Option<Client> {
    React(c.(expected := c.expected + 1), ev)
  }

  lemma EmitStep(s: Stream, ev: Event, c: Client)
    requires Observe(s.out) == Some(c) && c.expected == s.seqNo
    ensures Observe(Emit(s, ev).out) == Next(c, ev)
    ensures Next(c, ev).Some? ==> Next(c, ev).value.expected == Emit(s, ev).seqNo
  {
    var out := Emit(s, ev).out;
    assert out[..|out| - 1] == s.out;
  }

  lemma StartSim(s: Stream) returns (d: Client)
    requires s == New(s.model, s.ns)
    ensures Sim(Start(s), d) && Messages(Start(s), d) == []
  {
    var r := ResponseObj(s, StatusInProgress, []);
    var s1 := Emit(s.(started := true), Created(r));
    EmitStep(s.(started := true), Created(r), NEWCOMER);
    var c1 := Observe(s1.out).value;
    EmitStep(s1, InProgressEvent(r), c1);
    d := Observe(Start(s).out).value;
  }

  lemma OpenTextShows(s: Stream, c: Client) returns (c1: Client, d: Client)
    requires Shows(s, c) && s.text.None?
    ensures Next(c, ItemAdded(s.nextIndex, Message(s.ids, InProgress, ""))) == Some(c1)
    ensures Next(c1, PartAdded(s.ids, s.nextIndex)) == Some(d)
    ensures Shows(OpenText(s), d) && d.order == c.order
  {
    c1 := Next(c, ItemAdded(s.nextIndex, Message(s.ids, InProgress, ""))).value;
    d := Next(c1, PartAdded(s.ids, s.nextIndex)).value;
    forall i | 0 <= i < |d.items| ensures Accounted(OpenText(s), d, i) {
      if i < |c.items| { assert Accounted(s, c, i); }
    }
  }

  lemma OpenTextSim(s: Stream, c: Client) returns (d: Client)
    requires Sim(s, c)
    ensures Sim(OpenText(s), d) && d.order == c.order
  {
    if s.text.Some? { return c; }
    var s0 := s.(nextIndex := s.nextIndex + 1, ids := s.ids + 1);
    var added := ItemAdded(s.nextIndex, Message(s.ids, InProgress, ""));
    var c1;
    c1, d := OpenTextShows(s, c);
    EmitStep(s0, added, c);
    EmitStep(Emit(s0, added), PartAdded(s.ids, s.nextIndex), c1);
  }

  lemma GrowTextShows(s: Stream, txt: string, c: Client) returns (d: Client)
    requires Shows(s, c) && s.text.Some? && txt != ""
    ensures Next(c, TextDelta(s.text.value.itemId, s.text.value.outputIndex, txt)) == Some(d)
    ensures Shows(FeedText(s, txt), d) && d.order == c.order
  {
    d := Next(c, TextDelta(s.text.value.itemId, s.text.value.outputIndex, txt)).value;
    forall i | 0 <= i < |d.items| ensures Accounted(FeedText(s, txt), d, i) {
      assert Accounted(s, c, i);
    }
  }

  lemma FeedTextSim(s: Stream, txt: string, c: Client) returns (d: Client)
    requires Sim(s, c)
    ensures Sim(FeedText(s, txt), d) && d.order == c.order
  {
    if txt == "" { return c; }
    var c1 := OpenTextSim(s, c);
    var s1 := OpenText(s);
    var t := s1.text.value;
    d := GrowTextShows(s1, txt, c1);
    EmitStep(s1.(text := Some(t.(buf := t.buf + txt))), TextDelta(t.itemId, t.outputIndex, txt), c1);
  }

  lemma CloseTextShows(s: Stream, c: Client) returns (c1: Client, c2: Client, d: Client)
    requires Shows(s, c) && s.text.Some?
    ensures var t := s.text.value;
      && Next(c, TextDone(t.itemId, t.outputIndex, t.buf)) == Some(c1)
      && Next(c1, PartDone(t.itemId, t.outputIndex, t.buf)) == Some(c2)
      && Next(c2, ItemDone(t.outputIndex, MessageItem(t))) == Some(d)
    ensures Shows(CloseText(s), d) && d.order == c.order + [s.text.value.outputIndex]
  {
    var t := s.text.value;
    c1 := Next(c, TextDone(t.itemId, t.outputIndex, t.buf)).value;
    c2 := Next(c1, PartDone(t.itemId, t.outputIndex, t.buf)).value;
    d := Next(c2, ItemDone(t.outputIndex, MessageItem(t))).value;
    assert d.items == c.items[t.outputIndex := c.items[t.outputIndex].(stage := Closed)];
    forall i | 0 <= i < |d.items| ensures Accounted(CloseText(s), d, i) {
      assert Accounted(s, c, i);
    }
  }

  lemma CloseTextSim(s: Stream, c: Client) returns (d: Client)
    requires Sim(s, c)
    ensures Sim(CloseText(s), d) && Messages(CloseText(s), d) == Messages(s, c)
  {
    if s.text.None? { return c; }
    var t := s.text.value;
    var c1, c2;
    c1, c2, d := CloseTextShows(s, c);
    var s0 := s.(text := None);
    EmitStep(s0, TextDone(t.itemId, t.outputIndex, t.buf), c);
    var s1 := Emit(s0, TextDone(t.itemId, t.outputIndex, t.buf));
    EmitStep(s1, PartDone(t.itemId, t.outputIndex, t.buf), c1);
    EmitStep(Emit(s1, PartDone(t.itemId, t.outputIndex, t.buf)), ItemDone(t.outputIndex, MessageItem(t)), c2);
  }

  lemma OpenCallShows(s: Stream, f: Fragment, c: Client) returns (d: Client)
    requires Shows(s, c)
    ensures var o := OpenCall(s, f).calls[|s.calls|];
      Next(c, ItemAdded(s.nextIndex, CallItem(o, InProgress, "", s.ns))) == Some(d)
    ensures Shows(OpenCall(s, f), d) && d.order == c.order
    ensures CallIndexes(OpenCall(s, f).calls) == CallIndexes(s.calls) + [s.nextIndex]
  {
    var s' := OpenCall(s, f);
    var o := s'.calls[|s.calls|];
    assert CallIndexes(s'.calls) == CallIndexes(s.calls) + [s.nextIndex];
    d := Next(c, ItemAdded(s.nextIndex, CallItem(o, InProgress, "", s.ns))).value;
    forall j | 0 <= j < |s.calls| ensures CallIndexes(s.calls)[j] < s.nextIndex {
      assert CallShown(c, s.calls[j], s.ns);
    }
    forall i | 0 <= i < |d.items| ensures Accounted(s', d, i) {
      if i < |c.items| {
        assert Accounted(s, c, i);
        if k :| 0 <= k < |s.calls| && s.calls[k].outputIndex == i { assert s'.calls[k].outputIndex == i; }
      } else {
        assert s'.calls[|s.calls|].outputIndex == i;
      }
    }
  }

  lemma OpenCallSim(s: Stream, f: Fragment, c: Client) returns (d: Client)
    requires Sim(s, c)
    ensures Sim(OpenCall(s, f), d) && d.order == c.order
    ensures CallIndexes(OpenCall(s, f).calls) == CallIndexes(s.calls) + [s.nextIndex]
  {
    d := OpenCallShows(s, f, c);
    var s' := OpenCall(s, f);
    var o := s'.calls[|s.calls|];
    EmitStep(s'.(seqNo := s.seqNo, out := s.out), ItemAdded(s.nextIndex, CallItem(o, InProgress, "", s.ns)), c);
  }

  lemma FeedArgumentsShows(s: Stream, pos: nat, a: string, c: Client) returns (d: Client)
    requires Shows(s, c) && pos < |s.calls| && a != ""
    ensures Next(c, ArgumentsDelta(s.calls[pos].itemId, s.calls[pos].outputIndex, a)) == Some(d)
    ensures Shows(FeedArguments(s, pos, a), d) && d.order == c.order
    ensures CallIndexes(FeedArguments(s, pos, a).calls) == CallIndexes(s.calls)
  {
    var s' := FeedArguments(s, pos, a);
    var o := s.calls[pos];
    assert CallShown(c, o, s.ns);
    d := Next(c, ArgumentsDelta(o.itemId, o.outputIndex, a)).value;
    assert CallIndexes(s'.calls) == CallIndexes(s.calls);
    forall k | 0 <= k < |s'.calls| ensures CallShown(d, s'.calls[k], s.ns) {
      assert CallShown(c, s.calls[k], s.ns);
      assert k != pos ==> CallIndexes(s.calls)[k] != CallIndexes(s.calls)[pos];
    }
    forall i | 0 <= i < |d.items| ensures Accounted(s', d, i) {
      assert Accounted(s, c, i);
      if k :| 0 <= k < |s.calls| && s.calls[k].outputIndex == i { assert s'.calls[k].outputIndex == i; }
    }
  }

  lemma FeedArgumentsSim(s: Stream, pos: nat, a: string, c: Client) returns (d: Client)
    requires Sim(s, c) && pos < |s.calls|
    ensures Sim(FeedArguments(s, pos, a), d) && d.order == c.order
    ensures CallIndexes(FeedArguments(s, pos, a).calls) == CallIndexes(s.calls)
  {
    if a == "" { return c; }
    var s' := FeedArguments(s, pos, a);
    d := FeedArgumentsShows(s, pos, a, c);
    EmitStep(s'.(seqNo := s.seqNo, out := s.out), ArgumentsDelta(s.calls[pos].itemId, s.calls[pos].outputIndex, a), c);
  }

  lemma FeedFragmentSim(s: Stream, f: Fragment, c: Client) returns (d: Client)
    requires Sim(s, c)
    ensures Sim(FeedFragment(s, f), d) && d.order == c.order && FeedFragment(s, f).text == s.text
    ensures CallIndexes(FeedFragment(s, f).calls) == CallIndexes(s.calls)
        || CallIndexes(FeedFragment(s, f).calls) == CallIndexes(s.calls) + [s.nextIndex]
    ensures FeedFragment(s, f).calls != [] && s.nextIndex <= FeedFragment(s, f).nextIndex
    ensures CallIndexes(FeedFragment(s, f).calls) != CallIndexes(s.calls) ==> s.nextIndex < FeedFragment(s, f).nextIndex
  {
    match Position(s.calls, f.Key())
    case Some(p) => d := FeedArgumentsSim(s, p, f.arguments.GetOr(""), c);
    case None =>
      d := OpenCallSim(s, f, c);
      d := FeedArgumentsSim(OpenCall(s, f), |s.calls|, f.arguments.GetOr(""), d);
  }

  predicate Below(a: seq<int>, b: seq<int>) {
    forall i, j :: 0 <= i < |a| && 0 <= j < |b| ==> a[i] < b[j]
  }

  predicate UpTo(a: seq<int>, n: int) {
    forall i :: 0 <= i < |a| ==> a[i] < n
  }

  /** How message and call indexes interleave; `after` says that some text came
      after a tool call. */
  ghost predicate Ordered(s: Stream, c: Client, after: bool) {
    var m, k := Messages(s, c), CallIndexes(s.calls);
    && Ascending(m) && UpTo(m, s.nextIndex) && UpTo(k, s.nextIndex)
    && (s.text.Some? ==> UpTo(k, s.text.value.outputIndex))
    && (if after then m != [] && k != [] && k[0] < m[|m| - 1] else Below(m, k))
  }

  lemma FeedFragmentOrdered(s: Stream, s': Stream, c: Client, d: Client, after: bool)
    requires Ordered(s, c, after) && s.text.None? && s'.text.None? && d.order == c.order
    requires CallIndexes(s'.calls) == CallIndexes(s.calls)
          || CallIndexes(s'.calls) == CallIndexes(s.calls) + [s.nextIndex]
    requires s.nextIndex <= s'.nextIndex
    requires CallIndexes(s'.calls) != CallIndexes(s.calls) ==> s.nextIndex < s'.nextIndex
    ensures Ordered(s', d, after)
  {
  }

  lemma {:induction false} FeedFragmentsSim(s: Stream, fs: seq<Fragment>, c: Client, after: bool) returns (d: Client)
    requires Sim(s, c) && Ordered(s, c, after) && s.text.None?
    ensures Sim(FeedFragments(s, fs), d) && Ordered(FeedFragments(s, fs), d, after)
    ensures FeedFragments(s, fs).text.None?
    ensures FeedFragments(s, fs).calls == [] <==> s.calls == [] && fs == []
  {
    d := c;
    if fs != [] {
      var fs', f := fs[..|fs| - 1], fs[|fs| - 1];
      var e := FeedFragmentsSim(s, fs', c, after);
      d := FeedFragmentSim(FeedFragments(s, fs'), f, e);
      FeedFragmentOrdered(FeedFragments(s, fs'), FeedFragments(s, fs), e, d, after);
    }
  }

  lemma FeedTextOrdered(s: Stream, txt: string, c: Client, d: Client, after: bool)
    requires Ordered(s, c, after) && d.order == c.order
    ensures Ordered(FeedText(s, txt), d, after || (txt != "" && s.calls != []))
  {
    var s' := FeedText(s, txt);
    assert Messages(s', d) == Messages(s, c) + if txt != "" && s.text.None? then [s.nextIndex] else [];
  }

  /** `s'` differs from `s` only in what a chunk says besides its delta. */
  predicate SameItemsAs(s: Stream, s': Stream) {
    s' == s.(model := s'.model, usage := s'.usage, truncated := s'.truncated)
  }

  lemma HeaderSim(s: Stream, s': Stream, c: Client, after: bool)
    requires Sim(s, c) && Ordered(s, c, after) && SameItemsAs(s, s')
    ensures Sim(s', c) && Ordered(s', c, after)
  {
    forall i | 0 <= i < |c.items| ensures Accounted(s', c, i) {
      assert Accounted(s, c, i);
    }
    assert Messages(s', c) == Messages(s, c);
  }

  lemma FeedToolsSim(s: Stream, tools: Option<seq<Fragment>>, c: Client, after: bool) returns (d: Client)
    requires Sim(s, c) && Ordered(s, c, after)
    ensures Sim(FeedTools(s, tools), d) && Ordered(FeedTools(s, tools), d, after)
    ensures FeedTools(s, tools).calls == [] <==> s.calls == [] && tools.GetOr([]) == []
  {
    d := c;
    if tools.Some? {
      d := CloseTextSim(s, c);
      d := FeedFragmentsSim(CloseText(s), tools.value, d, after);
    }
  }

  lemma FeedDeltaSim(s: Stream, ch: Chunk, c: Client, after: bool) returns (d: Client)
    requires Sim(s, c) && Ordered(s, c, after)
    ensures var s' := FeedTools(FeedText(s, ch.Text()), ch.toolCalls);
      && Sim(s', d) && Ordered(s', d, after || (ch.Speaks() && s.calls != []))
      && (s'.calls == [] <==> s.calls == [] && ch.Fragments() == [])
  {
    var c1 := FeedTextSim(s, ch.Text(), c);
    FeedTextOrdered(s, ch.Text(), c, c1, after);
    d := FeedToolsSim(FeedText(s, ch.Text()), ch.toolCalls, c1, after || (ch.Speaks() && s.calls != []));
  }

  lemma FeedSim(s: Stream, ch: Chunk, c: Client, after: bool) returns (d: Client)
    requires Sim(s, c) && Ordered(s, c, after)
    ensures Sim(Feed(s, ch), d)
    ensures Ordered(Feed(s, ch), d, after || (ch.Speaks() && s.calls != []))
    ensures Feed(s, ch).calls == [] <==> s.calls == [] && ch.Fragments() == []
  {
    HeaderSim(s, Absorb(s, ch), c, after);
    d := FeedDeltaSim(Absorb(s, ch), ch, c, after);
    var fed := FeedTools(FeedText(Absorb(s, ch), ch.Text()), ch.toolCalls);
    HeaderSim(fed, Feed(s, ch), d, after || (ch.Speaks() && s.calls != []));
  }

  // ---- whole runs

  predicate SomeCall(cs: seq<Chunk>) {
    cs != [] && (SomeCall(cs[..|cs| - 1]) || cs[|cs| - 1].Fragments() != [])
  }

  /** Some chunk carries text after an earlier chunk carried a tool-call fragment. */
  predicate TextAfterCall(cs: seq<Chunk>) {
    cs != [] && (TextAfterCall(cs[..|cs| - 1]) || (cs[|cs| - 1].Speaks() && SomeCall(cs[..|cs| - 1])))
  }

  /** The same in terms of positions. */
  lemma {:induction false} TextAfterCallMeans(cs: seq<Chunk>)
    ensures SomeCall(cs) <==> exists i :: 0 <= i < |cs| && cs[i].Fragments() != []
    ensures TextAfterCall(cs) <==> exists i, j :: 0 <= i < j < |cs| && cs[i].Fragments() != [] && cs[j].Speaks()
  {
    if cs != [] { TextAfterCallMeans(cs[..|cs| - 1]); }
  }

  /** A started stream, chunk by chunk. */
  lemma {:induction false} FeedAllSim(model: string, ns: NamespaceMap, cs: seq<Chunk>) returns (d: Client)
    ensures var s := Start(FeedAll(New(model, ns), cs));
      Sim(s, d) && Ordered(s, d, TextAfterCall(cs)) && (s.calls == [] <==> !SomeCall(cs))
  {
    if cs == [] {
      d := StartSim(New(model, ns));
    } else {
      var cs', ch := cs[..|cs| - 1], cs[|cs| - 1];
      var c := FeedAllSim(model, ns, cs');
      var s := FeedAll(New(model, ns), cs');
      assert Feed(s, ch) == Feed(Start(s), ch);
      d := FeedSim(Start(s), ch, c, TextAfterCall(cs'));
    }
  }

  lemma FirstClosedShows(s: Stream, c: Client, s': Stream, d: Client)
    requires Shows(s, c) && s.calls != []
    requires s'.calls == s.calls[1..] && s'.text == s.text && s'.ns == s.ns
    requires d.items == c.items[s.calls[0].outputIndex := c.items[s.calls[0].outputIndex].(stage := Closed)]
    ensures forall i :: 0 <= i < |d.items| ==> Accounted(s', d, i)
    ensures forall k :: 0 <= k < |s'.calls| ==> CallShown(d, s'.calls[k], s.ns)
    ensures Ascending(CallIndexes(s'.calls))
  {
    assert CallIndexes(s'.calls) == CallIndexes(s.calls)[1..];
    forall k | 0 <= k < |s'.calls| ensures CallShown(d, s'.calls[k], s.ns) {
      assert CallShown(c, s.calls[k + 1], s.ns);
      assert CallIndexes(s.calls)[k + 1] != CallIndexes(s.calls)[0];
    }
    forall i | 0 <= i < |d.items| ensures Accounted(s', d, i) {
      assert Accounted(s, c, i);
      if k :| 0 <= k < |s.calls| && s.calls[k].outputIndex == i {
        if k > 0 { assert s'.calls[k - 1].outputIndex == i; }
      }
    }
  }

  lemma CloseFirstShows(s: Stream, c: Client) returns (c1: Client, d: Client)
    requires Shows(s, c) && s.calls != []
    ensures Next(c, ArgumentsDone(s.calls[0].itemId, s.calls[0].outputIndex, s.calls[0].buf)) == Some(c1)
    ensures Next(c1, ItemDone(s.calls[0].outputIndex, CallItem(s.calls[0], Completed, s.calls[0].buf, s.ns))) == Some(d)
    ensures Shows(CloseCall(s, s.calls[0]).(calls := s.calls[1..]), d)
    ensures d.order == c.order + [s.calls[0].outputIndex]
  {
    var o := s.calls[0];
    assert CallShown(c, o, s.ns);
    c1 := Next(c, ArgumentsDone(o.itemId, o.outputIndex, o.buf)).value;
    d := Next(c1, ItemDone(o.outputIndex, CallItem(o, Completed, o.buf, s.ns))).value;
    assert d.items == c.items[o.outputIndex := c.items[o.outputIndex].(stage := Closed)];
    FirstClosedShows(s, c, CloseCall(s, o).(calls := s.calls[1..]), d);
  }

  lemma CloseFirstSim(s: Stream, c: Client) returns (d: Client)
    requires Sim(s, c) && s.calls != []
    ensures Sim(CloseCall(s, s.calls[0]).(calls := s.calls[1..]), d)
    ensures d.order == c.order + [s.calls[0].outputIndex]
  {
    var o := s.calls[0];
    var c1;
    c1, d := CloseFirstShows(s, c);
    EmitStep(s, ArgumentsDone(o.itemId, o.outputIndex, o.buf), c);
    EmitStep(Emit(s, ArgumentsDone(o.itemId, o.outputIndex, o.buf)),
             ItemDone(o.outputIndex, CallItem(o, Completed, o.buf, s.ns)), c1);
  }

  /** `s` with its first `n` calls closed. */
  function ClosedUpTo(s: Stream, n: nat): Stream
    requires n <= |s.calls|
  {
    CloseCalls(s.(calls := []), s.calls[..n]).(calls := s.calls[n..])
  }

  lemma CloseOneMore(s: Stream, n: nat)
    requires n < |s.calls|
    ensures ClosedUpTo(s, n + 1) == CloseCall(ClosedUpTo(s, n), s.calls[n]).(calls := s.calls[n + 1..])
  {
    assert s.calls[..n + 1][..n] == s.calls[..n];
  }

  lemma ClosedNone(s: Stream)
    ensures ClosedUpTo(s, 0) == s
  {
    assert s.calls[0..] == s.calls && s.calls[..0] == [];
  }

  lemma ClosedRest(s: Stream, n: nat)
    requires n < |s.calls|
    ensures ClosedUpTo(s, n).calls != [] && ClosedUpTo(s, n).calls[0] == s.calls[n]
    ensures ClosedUpTo(s, n).calls[1..] == s.calls[n + 1..]
  {
  }

  lemma CloseOneMoreSim(s: Stream, n: nat, c: Client) returns (d: Client)
    requires n < |s.calls| && Sim(ClosedUpTo(s, n), c)
    ensures Sim(ClosedUpTo(s, n + 1), d) && d.order == c.order + [s.calls[n].outputIndex]
  {
    ClosedRest(s, n);
    CloseOneMore(s, n);
    d := CloseFirstSim(ClosedUpTo(s, n), c);
  }

  lemma {:induction false} CloseCallsSim(s: Stream, n: nat, c: Client) returns (d: Client)
    requires Sim(s, c) && n <= |s.calls|
    ensures Sim(ClosedUpTo(s, n), d)
    ensures d.order == c.order + CallIndexes(s.calls)[..n]
  {
    if n == 0 {
      ClosedNone(s);
      return c;
    }
    var before := CloseCallsSim(s, n - 1, c);
    d := CloseOneMoreSim(s, n - 1, before);
    IndexesSnoc(s.calls, n - 1);
    Assoc(c.order, CallIndexes(s.calls)[..n - 1], [s.calls[n - 1].outputIndex]);
  }

  lemma IndexesSnoc(calls: seq<OpenItem>, n: nat)
    requires n < |calls|
    ensures CallIndexes(calls)[..n + 1] == CallIndexes(calls)[..n] + [calls[n].outputIndex]
  {
  }
}
