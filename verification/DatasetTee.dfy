/** The dataset tee: the client sees the upstream items unchanged while a copy
    is kept, and the completion callback fires exactly once however it ends. */
module DatasetTee {
  import opened Prelude

  const MAX_CAPTURE: nat := 0x400_0000

  /** What the callback is given. */
  datatype Report = Report(bytes: Bytes, complete: bool)

  datatype Item<E> = Chunk(bytes: Bytes) | Failed(error: E)

  function Copied<E>(items: seq<Item<E>>): Bytes {
    if items == [] then []
    else
      var before, last := Copied(items[..|items| - 1]), items[|items| - 1];
      if last.Chunk? then before + last.bytes else before
  }

  /** Only the last item, if any, is an error. */
  predicate StopsAtError<E>(items: seq<Item<E>>) {
    forall i :: 0 <= i < |items| - 1 ==> items[i].Chunk?
  }

  /** The copy is the chunks, one after the other. */
  lemma {:induction false} CopiedSplits<E>(before: seq<Item<E>>, after: seq<Item<E>>)
    ensures Copied(before + after) == Copied(before) + Copied(after)
    ensures forall bytes :: Copied([Item<E>.Chunk(bytes)]) == bytes
  {
    assert forall item: Item<E> :: [item][..0] == [];
    if after == [] {
      assert before + after == before;
    } else {
      assert (before + after)[..|before + after| - 1] == before + after[..|after| - 1];
      CopiedSplits(before, after[..|after| - 1]);
    }
  }

  class FireOnDrop {
    var acc: Bytes
    var overflowed: bool
    var armed: bool
    /** Every report made so far. */
    var reports: seq<Report>

    ghost predicate Holds(copied: Bytes)
      reads this
    {
      && overflowed == (|copied| > MAX_CAPTURE) && acc == (if overflowed then [] else copied)
      && armed && reports == []
    }

    constructor ()
      ensures Holds([])
    {
      acc, overflowed, armed, reports := [], false, true, [];
    }

    method Copy(chunk: Bytes, ghost copied: Bytes)
      requires Holds(copied)
      modifies this
      ensures Holds(copied + chunk)
    {
      if !overflowed {
        if |acc| + |chunk| > MAX_CAPTURE {
          overflowed := true;
          acc := [];
        } else {
          acc := acc + chunk;
        }
      }
    }

    method FireNow(complete: bool)
      modifies this
      ensures !armed && reports ==
        if old(armed) then old(reports) + [Report(old(acc), complete && !old(overflowed))] else old(reports)
    {
      if armed {
        armed := false;
        var taken := acc;
        acc := [];
        reports := reports + [Report(taken, complete && !overflowed)];
      }
    }

    method Drop()
      modifies this
      ensures !armed && reports == if old(armed) then old(reports) + [Report(old(acc), false)] else old(reports)
    {
      FireNow(false);
    }
  }

  /** What the callback must be given once the client has seen `client`. */
  function Expected(copied: Bytes, complete: bool): Report {
    var fits := |copied| <= MAX_CAPTURE;
    Report(if fits then copied else [], complete && fits)
  }

  /** A run of at most `polls` polls of the tee over `upstream` (which ends
      after its last item), then a drop. `ended` says the client saw the end. */
  method Tee<E>(upstream: seq<Item<E>>, polls: nat) returns (client: seq<Item<E>>, ended: bool, reports: seq<Report>)
    ensures client <= upstream && StopsAtError(client) && |client| <= polls
    ensures |client| == polls || |client| == |upstream| || (client != [] && client[|client| - 1].Failed?)
    ensures ended <==> polls > |upstream| && forall i :: 0 <= i < |upstream| ==> upstream[i].Chunk?
    ensures |reports| == 1
    ensures reports[0].bytes == if |Copied(client)| <= 0x400_0000 then Copied(client) else []
    ensures reports[0].complete <==> ended && |Copied(client)| <= 0x400_0000
  {
    var g := new FireOnDrop();
    client, ended := [], false;
    var live := true;
    var n := 0;
    while n < polls && live
      invariant n <= polls
      invariant client <= upstream && StopsAtError(client) && |client| <= n && !ended
      invariant live ==>
        |client| == n && (forall i :: 0 <= i < |client| ==> client[i].Chunk?) && g.Holds(Copied(client))
      invariant !live ==> client != [] && client[|client| - 1].Failed?
      invariant !live ==> !g.armed && g.reports == [Expected(Copied(client), false)]
      invariant fresh(g)
    {
      n := n + 1;
      if |client| < |upstream| {
        var item := upstream[|client|];
        ghost var before := client;
        client := client + [item];
        assert client[..|client| - 1] == before;
        match item {
          case Chunk(bytes) => g.Copy(bytes, Copied(before));
          case Failed(_) =>
            g.FireNow(false);
            live := false;
        }
      } else {
        ended := true;
        g.FireNow(true);
        break;
      }
    }
    g.Drop();
    reports := g.reports;
  }
}
