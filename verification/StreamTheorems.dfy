/** What holds of every translated stream as a whole. */
module StreamTheorems {
  import opened Prelude
  import opened ChatWire
  import opened StreamSpec
  import opened StreamClient
  import opened StreamGrammar
  import B = StreamBuffered

  /** The client has seen the stream end, with every item closed. */
  ghost predicate Over(events: seq<Numbered>, d: Client) {
    && Observe(events) == Some(d) && d.phase == Ended
    && (forall i :: 0 <= i < |d.items| ==> d.items[i].stage == Closed)
    && (forall j :: 0 <= j < |d.order| ==> d.order[j] < |d.items|)
    && d.result.Some? && d.result.value.output == Output(d)
  }

  lemma ConcludeSim(s: Stream, c: Client) returns (d: Client)
    requires Sim(s, c) && s.text.None? && s.calls == []
    ensures Over(Conclude(s).out, d) && d.order == c.order
  {
    forall i | 0 <= i < |c.items| ensures c.items[i].stage == Closed { assert Accounted(s, c, i); }
    assert Output(c) == s.finishedItems;
    var r := ResponseObj(s, if s.truncated then StatusIncomplete else StatusCompleted, s.finishedItems);
    var ev := if s.truncated then IncompleteEvent(r) else CompletedEvent(r);
    EmitStep(s.(finished := true, finishedItems := []), ev, c);
    d := Next(c, ev).value;
    assert Output(d) == Output(c);
  }

  lemma DrainedSim(s: Stream, c: Client) returns (d: Client)
    requires Sim(s, c)
    ensures Sim(CloseCalls(s.(calls := []), s.calls), d)
    ensures d.order == c.order + CallIndexes(s.calls)
  {
    var n := |s.calls|;
    d := CloseCallsSim(s, n, c);
    assert ClosedUpTo(s, n) == CloseCalls(s.(calls := []), s.calls) by {
      assert s.calls[..n] == s.calls && s.calls[n..] == [];
    }
    assert CallIndexes(s.calls)[..n] == CallIndexes(s.calls);
  }

  function CloseAll(s: Stream): Stream {
    Conclude(CloseCalls(s.(calls := []), s.calls))
  }

  lemma CloseAllSim(s: Stream, c: Client) returns (d: Client)
    requires Sim(s, c) && s.text.None?
    ensures Over(CloseAll(s).out, d) && d.order == c.order + CallIndexes(s.calls)
  {
    d := DrainedSim(s, c);
    d := ConcludeSim(CloseCalls(s.(calls := []), s.calls), d);
  }

  lemma FinishSim(s: Stream, c: Client) returns (d: Client)
    requires Sim(s, c)
    ensures Over(Finish(s).out, d) && d.order == Messages(s, c) + CallIndexes(s.calls)
  {
    assert Finish(s) == CloseAll(CloseText(s));
    var c1 := CloseTextSim(s, c);
    d := CloseAllSim(CloseText(s), c1);
  }

  lemma AscendingWhen(s: Stream, c: Client, after: bool)
    requires Ordered(s, c, after) && Ascending(CallIndexes(s.calls))
    ensures Ascending(Messages(s, c) + CallIndexes(s.calls)) <==> !after
  {
    var m, k := Messages(s, c), CallIndexes(s.calls);
    if after {
      assert (m + k)[|m| - 1] == m[|m| - 1] && (m + k)[|m|] == k[0];
    }
  }

  /** Every run is accepted by the strict client and ends there; `m` items of
      the final output are messages. */
  lemma RunIsAccepted(model: string, ns: NamespaceMap, cs: seq<Chunk>) returns (d: Client, m: nat)
    ensures Over(Run(model, ns, cs), d)
    ensures Ascending(d.order) <==> !TextAfterCall(cs)
    ensures m == |CloseText(FeedAll(New(model, ns), cs)).finishedItems|
    ensures m <= |d.order| && Ascending(d.order[..m]) && Ascending(d.order[m..])
  {
    var c := FeedAllSim(model, ns, cs);
    var s := Start(FeedAll(New(model, ns), cs));
    assert Finish(s) == Finish(FeedAll(New(model, ns), cs));
    d := FinishSim(s, c);
    AscendingWhen(s, c, TextAfterCall(cs));
    m := |Messages(s, c)|;
    assert d.order[..m] == Messages(s, c) && d.order[m..] == CallIndexes(s.calls);
  }

  /** Numbered from 0; one terminal event, at the very end; every item added
      is reported done exactly once; deltas name only added items. */
  ghost predicate WellFormed(events: seq<Numbered>) {
    && (forall k :: 0 <= k < |events| ==> events[k].number == k)
    && (forall k :: 0 <= k < |events| ==> (Terminal(events[k].event) <==> k == |events| - 1))
    && (forall i: nat :: DoneCount(events, i) == if i < AddedCount(events) then 1 else 0)
    && (forall i: nat :: i >= AddedCount(events) ==> Deltas(events, i) == "")
  }

  /** `order` lists every added item once, and entry `j` of the output carries
      exactly the deltas of item `order[j]`. */
  ghost predicate OutputExplained(events: seq<Numbered>, output: seq<Item>, order: seq<nat>) {
    && |output| == |order|
    && (forall j :: 0 <= j < |order| ==> output[j].Body() == Deltas(events, order[j]))
    && (forall j, k :: 0 <= j < k < |order| ==> order[j] != order[k])
    && (forall i: nat :: i in order <==> i < AddedCount(events))
  }

  lemma OverMeans(events: seq<Numbered>, d: Client)
    requires Over(events, d)
    ensures WellFormed(events)
    ensures OutputExplained(events, d.result.value.output, d.order)
    ensures events != [] && EndsWith(events[|events| - 1].event, d.result.value)
  {
    AcceptedIsFaithful(events);
    forall i: nat
      ensures DoneCount(events, i) == if i < AddedCount(events) then 1 else 0
      ensures i >= AddedCount(events) ==> Deltas(events, i) == ""
    {
      assert ItemFaithful(events, d, i);
    }
    forall j | 0 <= j < |d.order| ensures d.result.value.output[j].Body() == Deltas(events, d.order[j]) {
      assert ItemFaithful(events, d, d.order[j]);
    }
  }

  /** The event grammar of every run. The terminal output is all messages in
      opening order and then all calls in opening order, which is the order of
      output indexes exactly when no text came after a tool call. */
  lemma EventGrammar(model: string, ns: NamespaceMap, cs: seq<Chunk>) returns (order: seq<nat>, m: nat)
    ensures WellFormed(Run(model, ns, cs))
    ensures OutputExplained(Run(model, ns, cs), B.Streamed(model, ns, cs).output, order)
    ensures B.FirstAreMessages(B.Streamed(model, ns, cs).output, m)
    ensures m <= |order| && Ascending(order[..m]) && Ascending(order[m..])
    ensures Ascending(order) <==> !TextAfterCall(cs)
  {
    var d;
    d, m := RunIsAccepted(model, ns, cs);
    order := d.order;
    OverMeans(Run(model, ns, cs), d);
    B.MessagesFirst(model, ns, cs);
  }
}
