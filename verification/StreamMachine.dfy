/** `StreamState` as the source runs it: fields updated in place, events pushed
    onto the caller's buffer. Each method is proved against `StreamSpec`. */
module StreamMachine {
  import opened Prelude
  import opened ChatWire
  import opened StreamSpec

  /** The event buffer a caller passes in. */
  class EventBuffer {
    var events: seq<Numbered>
    constructor () ensures events == [] { events := []; }
  }

  class StreamState {
    var seqNo: nat
    var respId: nat
    var model: string
    var started: bool
    var nextIndex: nat
    var text: Option<OpenItem>
    var calls: seq<OpenItem>
    var finishedItems: seq<Item>
    var usage: Usage
    var truncated: bool
    var finished: bool
    var ns: NamespaceMap
    var ids: nat

    ghost function With(events: seq<Numbered>): Stream
      reads this
    {
      Stream(seqNo, respId, model, started, nextIndex, text, calls, finishedItems,
             usage, truncated, finished, ns, ids, events)
    }

    ghost function View(out: EventBuffer): Stream
      reads this, out
    {
      With(out.events)
    }

    constructor (model: string, ns: NamespaceMap)
      ensures With([]) == New(model, ns)
    {
      seqNo, respId, nextIndex, ids := 0, 0, 0, 1;
      this.model, this.ns := model, ns;
      started, truncated, finished := false, false, false;
      text, calls, finishedItems := None, [], [];
      usage := NO_USAGE;
    }

    /** A fresh generated id. */
    method NewId() returns (id: nat)
      modifies `ids
      ensures id == old(ids) && ids == old(ids) + 1
    {
      id := ids;
      ids := ids + 1;
    }

    method EmitEvent(out: EventBuffer, ev: Event)
      modifies `seqNo, out
      ensures View(out) == Emit(old(View(out)), ev)
    {
      out.events := out.events + [Numbered(seqNo, ev)];
      seqNo := seqNo + 1;
    }

    method StartEvents(out: EventBuffer)
      modifies this, out
      ensures View(out) == Start(old(View(out)))
    {
      if started { return; }
      started := true;
      var r := Response(respId, StatusInProgress, model, [], usage);
      EmitEvent(out, Created(r));
      EmitEvent(out, InProgressEvent(r));
    }

    method CloseTextItem(out: EventBuffer)
      modifies this, out
      ensures View(out) == CloseText(old(View(out)))
    {
      if text.None? { return; }
      var t := text.value;
      text := None;
      EmitEvent(out, TextDone(t.itemId, t.outputIndex, t.buf));
      EmitEvent(out, PartDone(t.itemId, t.outputIndex, t.buf));
      var item := Message(t.itemId, Completed, t.buf);
      EmitEvent(out, ItemDone(t.outputIndex, item));
      finishedItems := finishedItems + [item];
    }

    method CloseCallItem(out: EventBuffer, c: OpenItem)
      modifies this, out
      ensures View(out) == CloseCall(old(View(out)), c)
    {
      EmitEvent(out, ArgumentsDone(c.itemId, c.outputIndex, c.buf));
      var item := CallItem(c, Completed, c.buf, ns);
      EmitEvent(out, ItemDone(c.outputIndex, item));
      finishedItems := finishedItems + [item];
    }

    method FeedContent(txt: string, out: EventBuffer)
      requires txt != ""
      modifies this, out
      ensures View(out) == FeedText(old(View(out)), txt)
    {
      if text.None? {
        var idx := nextIndex;
        var id := NewId();
        nextIndex := nextIndex + 1;
        EmitEvent(out, ItemAdded(idx, Message(id, InProgress, "")));
        EmitEvent(out, PartAdded(id, idx));
        text := Some(OpenItem(idx, id, None, Given(""), "", ""));
      }
      var t := text.value;
      text := Some(t.(buf := t.buf + txt));
      EmitEvent(out, TextDelta(t.itemId, t.outputIndex, txt));
    }

    method FindCall(ti: int) returns (p: Option<nat>)
      ensures p == Position(calls, ti)
    {
      var i := 0;
      while i < |calls|
        invariant i <= |calls|
        invariant forall k :: 0 <= k < i ==> calls[k].toolIndex != Some(ti)
      {
        if calls[i].toolIndex == Some(ti) { return Some(i); }
        i := i + 1;
      }
      p := None;
    }

    method AddCall(f: Fragment, out: EventBuffer)
      modifies this, out
      ensures View(out) == OpenCall(old(View(out)), f)
    {
      var idx := nextIndex;
      var id := NewId();
      nextIndex := nextIndex + 1;
      var callId := Given("");
      if f.id.Some? {
        callId := Given(f.id.value);
      } else {
        var g := NewId();
        callId := Generated(g);
      }
      var o := OpenItem(idx, id, Some(f.Key()), callId, f.name.GetOr(""), "");
      EmitEvent(out, ItemAdded(idx, CallItem(o, InProgress, "", ns)));
      calls := calls + [o];
    }

    method FeedOneFragment(f: Fragment, out: EventBuffer)
      modifies this, out
      ensures View(out) == FeedFragment(old(View(out)), f)
    {
      var p := FindCall(f.Key());
      var pos;
      if p.Some? {
        pos := p.value;
      } else {
        AddCall(f, out);
        pos := |calls| - 1;
      }
      var a := f.arguments.GetOr("");
      if a != "" {
        var o := calls[pos];
        calls := calls[pos := o.(buf := o.buf + a)];
        EmitEvent(out, ArgumentsDelta(o.itemId, o.outputIndex, a));
      }
    }

    method FeedToolCalls(fs: seq<Fragment>, out: EventBuffer)
      modifies this, out
      ensures View(out) == FeedFragments(old(View(out)), fs)
    {
      var i := 0;
      while i < |fs|
        invariant i <= |fs|
        invariant View(out) == FeedFragments(old(View(out)), fs[..i])
      {
        FeedOneFragment(fs[i], out);
        i := i + 1;
        assert fs[..i][..i - 1] == fs[..i - 1];
      }
      assert fs[..i] == fs;
    }

    method FeedHeader(chunk: Chunk, out: EventBuffer)
      modifies this
      ensures View(out) == Absorb(old(View(out)), chunk)
    {
      if chunk.model.Some? { model := chunk.model.value; }
      if chunk.usage.Some? { usage := UsageOf(chunk.usage); }
    }

    method FeedDelta(chunk: Chunk, out: EventBuffer)
      modifies this, out
      ensures View(out) == FeedTools(FeedText(old(View(out)), chunk.Text()), chunk.toolCalls)
    {
      if chunk.Text() != "" { FeedContent(chunk.Text(), out); }
      if chunk.toolCalls.Some? {
        CloseTextItem(out);
        FeedToolCalls(chunk.toolCalls.value, out);
      }
    }

    /** One parsed chat-completion chunk. */
    method FeedChunk(chunk: Chunk, out: EventBuffer)
      modifies this, out
      ensures View(out) == Feed(old(View(out)), chunk)
    {
      if finished { return; }
      StartEvents(out);
      FeedHeader(chunk, out);
      FeedDelta(chunk, out);
      if chunk.lengthStop { truncated := true; }
    }

    method CloseOpenCalls(out: EventBuffer)
      modifies this, out
      ensures var s := old(View(out)); View(out) == CloseCalls(s.(calls := []), s.calls)
    {
      var open := calls;
      calls := [];
      ghost var s := View(out);
      var i := 0;
      while i < |open|
        invariant i <= |open|
        invariant View(out) == CloseCalls(s, open[..i])
      {
        CloseCallItem(out, open[i]);
        i := i + 1;
        assert open[..i][..i - 1] == open[..i - 1];
      }
      assert open[..i] == open;
    }

    /** Upstream ended: close what is open and send the terminal event. */
    method FinishStream(out: EventBuffer)
      modifies this, out
      ensures View(out) == Finish(old(View(out)))
    {
      if finished { return; }
      StartEvents(out);
      CloseTextItem(out);
      CloseOpenCalls(out);
      finished := true;
      var items := finishedItems;
      finishedItems := [];
      var r := Response(respId, if truncated then StatusIncomplete else StatusCompleted, model, items, usage);
      EmitEvent(out, if truncated then IncompleteEvent(r) else CompletedEvent(r));
    }
  }

  /** A whole translated stream, chunk by chunk. */
  method Translate(model: string, ns: NamespaceMap, chunks: seq<Chunk>) returns (events: seq<Numbered>)
    ensures events == Run(model, ns, chunks)
  {
    var st := new StreamState(model, ns);
    var out := new EventBuffer();
    var i := 0;
    while i < |chunks|
      invariant i <= |chunks|
      invariant st.View(out) == FeedAll(New(model, ns), chunks[..i])
    {
      st.FeedChunk(chunks[i], out);
      i := i + 1;
      assert chunks[..i][..i - 1] == chunks[..i - 1];
    }
    assert chunks[..i] == chunks;
    st.FinishStream(out);
    events := out.events;
  }
}
