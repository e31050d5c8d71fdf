/** A streaming request answered with plain JSON is replayed as a stream of one
    chunk. The replay ends with the buffered translation of the same reply
    exactly when every call has its name and its arguments as strings. */
module StreamReplay {
  import opened Prelude
  import opened ChatWire
  import opened StreamSpec
  import opened StreamBuffered

  function ReplayFragments(calls: seq<ReplyCall>): (r: seq<Fragment>)
    ensures |r| == |calls|
  {
    seq(|calls|, i requires 0 <= i < |calls| =>
      Fragment(Some(i), calls[i].id, calls[i].name, calls[i].arguments))
  }

  function ReplayChunk(chat: ChatReply): Chunk {
    Chunk(chat.model, chat.usage, chat.content,
          if chat.toolCalls.Some? then Some(ReplayFragments(chat.toolCalls.value)) else None,
          chat.lengthStop)
  }

  predicate CallsComplete(calls: seq<ReplyCall>) {
    forall i :: 0 <= i < |calls| ==> calls[i].name.Some? && calls[i].arguments.Some?
  }

  lemma {:induction false} NumberedFragments(fs: seq<Fragment>)
    requires forall i :: 0 <= i < |fs| ==> fs[i].index == Some(i)
    ensures Keys(fs) == seq(|fs|, i => i)
    ensures forall i :: 0 <= i < |fs| ==>
      i in Keys(fs) && First(fs, i) == fs[i] && Arguments(fs, i) == fs[i].arguments.GetOr("")
  {
    if fs != [] {
      var front, n := fs[..|fs| - 1], |fs| - 1;
      NumberedFragments(front);
      DistinctKeys(front);
      assert front + [fs[n]] == fs;
      ExtendFragments(front, fs[n]);
      assert n !in Keys(front);
      assert Keys(fs) == seq(|fs|, i => i) && Keys(fs)[n] == n;
      forall i | 0 <= i < n
        ensures i in Keys(fs) && First(fs, i) == fs[i] && Arguments(fs, i) == fs[i].arguments.GetOr("")
      {
        assert Keys(front)[i] == i && front[i] == fs[i];
      }
    }
  }

  lemma SameReplayedCall(o: OpenItem, calls: seq<ReplyCall>, i: nat, ns: NamespaceMap)
    requires i < |calls| && CallMatches(o, ReplayFragments(calls), i)
    ensures SameItem(CallItem(o, Completed, o.buf, ns), ReplyItem(calls[i], i + 1, ns))
       <==> calls[i].name.Some? && calls[i].arguments.Some?
  {
    NumberedFragments(ReplayFragments(calls));
  }

  lemma SameReplayedCalls(started: seq<OpenItem>, calls: seq<ReplyCall>, ns: NamespaceMap)
    requires CallsMatch(started, ReplayFragments(calls))
    ensures SameItems(CallItems(started, ns), ReplyItems(calls, ns)) <==> CallsComplete(calls)
  {
    NumberedFragments(ReplayFragments(calls));
    var mine, theirs := CallItems(started, ns), ReplyItems(calls, ns);
    forall i | 0 <= i < |calls|
      ensures SameItem(mine[i], theirs[i]) <==> calls[i].name.Some? && calls[i].arguments.Some?
    {
      assert CallMatches(started[i], ReplayFragments(calls), i);
      SameReplayedCall(started[i], calls, i, ns);
    }
  }

  lemma OneChunk(c: Chunk)
    ensures Content([c]) == c.Text() && AllFragments([c]) == c.Fragments() && TextInOneRun([c])
    ensures LastModel([c]) == c.model && LastUsage([c]) == c.usage && (AnyLength([c]) <==> c.lengthStop)
  {
    assert [c][..0] == [];
  }

  lemma ReplayedText(s: Stream, c: Chunk)
    requires TextsMatch(s, [c])
    ensures SameItems(CloseText(s).finishedItems, TextItems(c.Text()))
  {
    OneChunk(c);
    CloseTextAre(s, Content([c]), HasText([c]), TextThenTools([c]), true);
    SameMessages(CloseText(s).finishedItems, Content([c]), true);
  }

  lemma ReplayedOutputs(items: seq<Item>, started: seq<OpenItem>, ns: NamespaceMap, text: string, calls: seq<ReplyCall>)
    requires SameItems(items, TextItems(text)) && CallsMatch(started, ReplayFragments(calls))
    ensures SameItems(items + CallItems(started, ns), TextItems(text) + ReplyItems(calls, ns)) <==> CallsComplete(calls)
  {
    SameReplayedCalls(started, calls, ns);
    assert |CallItems(started, ns)| == |ReplyItems(calls, ns)| by { NumberedFragments(ReplayFragments(calls)); }
    SplitSameItems(items, CallItems(started, ns), TextItems(text), ReplyItems(calls, ns));
  }

  /** The replay and the buffered translation agree, ids aside, exactly when no
      call lacks its name or its arguments (a missing argument string becomes
      "" in the replay and "{}" in the buffered form). */
  lemma ReplayEqualsBuffered(model: string, ns: NamespaceMap, chat: ChatReply)
    ensures SameResponse(Streamed(model, ns, [ReplayChunk(chat)]), ChatToResponse(chat, model, ns))
       <==> CallsComplete(chat.toolCalls.GetOr([]))
  {
    var c, calls := ReplayChunk(chat), chat.toolCalls.GetOr([]);
    var s := FeedAll(New(model, ns), [c]);
    FeedAllMatches(model, ns, [c]);
    assert AllFragments([c]) == ReplayFragments(calls) by { OneChunk(c); }
    ReplayedText(s, c);
    ReplayedOutputs(CloseText(s).finishedItems, s.calls, ns, c.Text(), calls);
    var a, b := Streamed(model, ns, [c]), ChatToResponse(chat, model, ns);
    assert a.output == CloseText(s).finishedItems + CallItems(s.calls, ns) by { StreamedIs(model, ns, [c]); }
    assert a.status == b.status && a.model == b.model && a.usage == b.usage by {
      OneChunk(c);
      StreamedIs(model, ns, [c]);
    }
  }
}
