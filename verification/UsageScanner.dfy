/** Token accounting on a streamed body: whatever the chunk boundaries, the
    scanner reports what a reader of the whole body would. */
module UsageScanner {
  import opened Prelude

  const NEWLINE: Byte := 10
  const MAX_LINE: nat := 0x10_0000
  const MAX_BODY: nat := 0x40_0000

  datatype Usage = Usage(input: int, output: int, cached: int)

  const NOTHING := Usage(0, 0, 0)

  function Max(a: int, b: int): int { if a < b then b else a }

  function Merge(a: Usage, b: Usage): Usage {
    Usage(Max(a.input, b.input), Max(a.output, b.output), Max(a.cached, b.cached))
  }

  /** Reads the usage out of one line or one JSON body. */
  type Reader = Bytes -> Option<Usage>

  // ---- the whole-input specification

  /** The bytes after the last newline. */
  function Tail(bs: Bytes): Bytes {
    if bs == [] then []
    else if bs[|bs| - 1] == NEWLINE then []
    else Tail(bs[..|bs| - 1]) + [bs[|bs| - 1]]
  }

  /** The terminated lines, each with its newline. */
  function Lines(bs: Bytes): seq<Bytes> {
    if bs == [] then []
    else
      var front := bs[..|bs| - 1];
      if bs[|bs| - 1] == NEWLINE then Lines(front) + [Tail(front) + [NEWLINE]] else Lines(front)
  }

  /** All lines, an unterminated last one included. */
  function AllLines(bs: Bytes): seq<Bytes> {
    if Tail(bs) == [] then Lines(bs) else Lines(bs) + [Tail(bs)]
  }

  /** A line's usage; an overlong line is skipped. */
  function LineUsage(read: Reader, line: Bytes): Option<Usage> {
    if |line| <= MAX_LINE then read(line) else None
  }

  function Best(read: Reader, lines: seq<Bytes>): Usage {
    if lines == [] then NOTHING
    else
      var before := Best(read, lines[..|lines| - 1]);
      match LineUsage(read, lines[|lines| - 1])
      case Some(u) => Merge(before, u)
      case None => before
  }

  function AnyUsage(read: Reader, lines: seq<Bytes>): bool {
    lines != [] && (AnyUsage(read, lines[..|lines| - 1]) || LineUsage(read, lines[|lines| - 1]).Some?)
  }

  /** The usage of a whole body: from its lines, or from the body as one JSON
      value when no line had any. */
  function WholeInput(readLine: Reader, readBody: Reader, bs: Bytes): Usage {
    if AnyUsage(readLine, AllLines(bs)) then Best(readLine, AllLines(bs))
    else if |bs| <= MAX_BODY && readBody(bs).Some? then Merge(NOTHING, readBody(bs).value)
    else NOTHING
  }

  function Joined(chunks: seq<Bytes>): Bytes {
    if chunks == [] then [] else Joined(chunks[..|chunks| - 1]) + chunks[|chunks| - 1]
  }

  /** No newline in here. */
  predicate Quiet(bs: Bytes) {
    forall k :: 0 <= k < |bs| ==> bs[k] != NEWLINE
  }

  /** A line with its newline at the end and nowhere else. */
  predicate IsLine(bs: Bytes) {
    bs != [] && bs[|bs| - 1] == NEWLINE && Quiet(bs[..|bs| - 1])
  }

  lemma {:induction false} LinesAreLines(bs: Bytes)
    ensures Quiet(Tail(bs)) && forall i :: 0 <= i < |Lines(bs)| ==> IsLine(Lines(bs)[i])
  {
    if bs != [] {
      var front := bs[..|bs| - 1];
      LinesAreLines(front);
      var line := Tail(front) + [NEWLINE];
      assert line[..|line| - 1] == Tail(front);
    }
  }

  /** `Lines` and `Tail` cut the input up without losing a byte. */
  lemma {:induction false} LinesJoin(bs: Bytes)
    ensures Joined(Lines(bs)) + Tail(bs) == bs
  {
    if bs != [] {
      var front, b := bs[..|bs| - 1], bs[|bs| - 1];
      LinesJoin(front);
      assert bs == front + [b];
      if b == NEWLINE {
        assert Lines(bs)[..|Lines(front)|] == Lines(front);
        assert Joined(Lines(bs)) == Joined(Lines(front)) + (Tail(front) + [NEWLINE]);
      }
    }
  }

  lemma {:induction false} QuietPart(bs: Bytes, part: Bytes)
    requires Quiet(part)
    ensures Tail(bs + part) == Tail(bs) + part && Lines(bs + part) == Lines(bs)
  {
    if part == [] {
      assert bs + part == bs;
    } else {
      var front, b := part[..|part| - 1], part[|part| - 1];
      QuietPart(bs, front);
      assert (bs + part)[..|bs + part| - 1] == bs + front;
      assert part == front + [b];
      Assoc(Tail(bs), front, [b]);
    }
  }

  lemma LineEnds(bs: Bytes)
    ensures Tail(bs + [NEWLINE]) == [] && Lines(bs + [NEWLINE]) == Lines(bs) + [Tail(bs) + [NEWLINE]]
  {
    assert (bs + [NEWLINE])[..|bs|] == bs;
  }

  lemma TerminatedPart(bs: Bytes, part: Bytes)
    requires IsLine(part)
    ensures Tail(bs + part) == [] && Lines(bs + part) == Lines(bs) + [Tail(bs) + part]
  {
    var front := part[..|part| - 1];
    QuietPart(bs, front);
    LineEnds(bs + front);
    assert part == front + [NEWLINE];
    Assoc(bs, front, [NEWLINE]);
    Assoc(Tail(bs), front, [NEWLINE]);
  }

  lemma {:induction false} NoneIsNothing(read: Reader, lines: seq<Bytes>)
    ensures !AnyUsage(read, lines) ==> Best(read, lines) == NOTHING
  {
    if lines != [] { NoneIsNothing(read, lines[..|lines| - 1]); }
  }

  // ---- the scanner

  class Scanner {
    var line: Bytes
    var lineOverflow: bool
    var body: Bytes
    var bodyOverflow: bool
    var sawLineUsage: bool
    var best: Usage
    const readLine: Reader
    const readBody: Reader

    /** The scanner has read exactly `seen`. */
    ghost predicate HasRead(seen: Bytes)
      reads this
    {
      LinesRead(Lines(seen)) && TailRead(Tail(seen)) && BodyRead(seen)
    }

    ghost predicate LinesRead(lines: seq<Bytes>)
      reads this
    {
      best == Best(readLine, lines) && sawLineUsage == AnyUsage(readLine, lines)
    }

    ghost predicate TailRead(tail: Bytes)
      reads this
    {
      lineOverflow == (|tail| > MAX_LINE) && line == if lineOverflow then [] else tail
    }

    ghost predicate BodyRead(seen: Bytes)
      reads this
    {
      bodyOverflow == (|seen| > MAX_BODY) && body == if bodyOverflow then [] else seen
    }

    constructor (readLine: Reader, readBody: Reader)
      ensures HasRead([]) && this.readLine == readLine && this.readBody == readBody
    {
      line, body, lineOverflow, bodyOverflow, sawLineUsage := [], [], false, false, false;
      best := NOTHING;
      this.readLine, this.readBody := readLine, readBody;
    }

    method OnLine(raw: Bytes, ghost lines: seq<Bytes>)
      requires |raw| <= MAX_LINE && LinesRead(lines)
      modifies `best, `sawLineUsage
      ensures LinesRead(lines + [raw])
    {
      assert (lines + [raw])[..|lines|] == lines;
      var u := readLine(raw);
      if u.Some? {
        sawLineUsage := true;
        best := Merge(best, u.value);
      }
    }

    /** One piece of a chunk, up to and including a newline if it has one. */
    method FeedPart(part: Bytes, ghost seen: Bytes)
      requires part != [] && Quiet(part[..|part| - 1])
      requires LinesRead(Lines(seen)) && TailRead(Tail(seen))
      modifies `line, `lineOverflow, `best, `sawLineUsage
      ensures LinesRead(Lines(seen + part)) && TailRead(Tail(seen + part))
    {
      if !lineOverflow {
        if |line| + |part| > MAX_LINE {
          lineOverflow := true;
          line := [];
        } else {
          line := line + part;
        }
      }
      if part[|part| - 1] == NEWLINE {
        TerminatedPart(seen, part);
        if !lineOverflow {
          var taken := line;
          line := [];
          OnLine(taken, Lines(seen));
        } else {
          assert (Lines(seen) + [Tail(seen) + part])[..|Lines(seen)|] == Lines(seen);
        }
        lineOverflow := false;
        line := [];
      } else {
        assert part == part[..|part| - 1] + [part[|part| - 1]] && Quiet(part);
        QuietPart(seen, part);
      }
    }

    method Feed(chunk: Bytes, ghost seen: Bytes)
      requires HasRead(seen)
      modifies this
      ensures HasRead(seen + chunk)
    {
      FeedBody(chunk, seen);
      FeedLines(chunk, seen);
    }

    method FeedBody(chunk: Bytes, ghost seen: Bytes)
      requires BodyRead(seen)
      modifies `body, `bodyOverflow
      ensures BodyRead(seen + chunk)
    {
      if !bodyOverflow {
        if |body| + |chunk| > MAX_BODY {
          bodyOverflow := true;
          body := [];
        } else {
          body := body + chunk;
        }
      }
    }

    method FeedLines(chunk: Bytes, ghost seen: Bytes)
      requires LinesRead(Lines(seen)) && TailRead(Tail(seen))
      modifies `line, `lineOverflow, `best, `sawLineUsage
      ensures LinesRead(Lines(seen + chunk)) && TailRead(Tail(seen + chunk))
    {
      var i := 0;
      assert seen + chunk[..0] == seen;
      while i < |chunk|
        invariant i <= |chunk|
        invariant LinesRead(Lines(seen + chunk[..i])) && TailRead(Tail(seen + chunk[..i]))
      {
        var j := PartEnd(chunk, i);
        assert chunk[i..j][..j - i - 1] == chunk[i..j - 1];
        FeedPart(chunk[i..j], seen + chunk[..i]);
        Reassociate(seen, chunk, i, j);
        i := j;
      }
      assert chunk[..i] == chunk;
    }

    method Finish(ghost seen: Bytes) returns (u: Usage)
      requires HasRead(seen)
      modifies this
      ensures u == WholeInput(readLine, readBody, seen)
    {
      if line != [] && !lineOverflow {
        var taken := line;
        line := [];
        OnLine(taken, Lines(seen));
      } else if Tail(seen) != [] {
        assert AllLines(seen)[..|Lines(seen)|] == Lines(seen);
      }
      NoneIsNothing(readLine, AllLines(seen));
      if !sawLineUsage && !bodyOverflow {
        var b := readBody(body);
        if b.Some? { best := Merge(best, b.value); }
      }
      u := best;
    }
  }

  lemma Reassociate(seen: Bytes, chunk: Bytes, i: nat, j: nat)
    requires i <= j <= |chunk|
    ensures seen + chunk[..i] + chunk[i..j] == seen + chunk[..j]
  {
  }

  /** The end of the piece of `chunk` that starts at `i`: just after the next
      newline, or at the end of the chunk. */
  method PartEnd(chunk: Bytes, i: nat) returns (j: nat)
    requires i < |chunk|
    ensures i < j <= |chunk| && Quiet(chunk[i..j - 1])
    ensures j == |chunk| || chunk[j - 1] == NEWLINE
  {
    j := i + 1;
    while j < |chunk| && chunk[j - 1] != NEWLINE
      invariant i < j <= |chunk| && forall k :: i <= k < j - 1 ==> chunk[k] != NEWLINE
    {
      j := j + 1;
    }
  }

  /** Holds the scanner and the callback; dropping it takes the callback, so that
      it fires once at most. */
  class Guard {
    const sc: Scanner
    var armed: bool
    /** Every usage the callback was given. */
    var reports: seq<Usage>

    /** Not fired yet, after reading `seen`. */
    ghost predicate Waiting(seen: Bytes)
      reads this, sc
    {
      armed && reports == [] && sc.HasRead(seen)
    }

    constructor (sc: Scanner)
      requires sc.HasRead([])
      ensures this.sc == sc && Waiting([])
    {
      this.sc := sc;
      armed, reports := true, [];
    }

    method Poll<E>(item: Result<Bytes, E>, ghost seen: Bytes)
      requires Waiting(seen)
      modifies sc
      ensures Waiting(if item.Ok? then seen + item.value else seen)
    {
      if item.Ok? { sc.Feed(item.value, seen); }
    }

    method Drop(ghost seen: Bytes)
      requires armed ==> sc.HasRead(seen)
      modifies this, sc
      ensures !armed
      ensures reports ==
        if old(armed) then old(reports) + [WholeInput(sc.readLine, sc.readBody, seen)] else old(reports)
    {
      if armed {
        armed := false;
        var u := sc.Finish(seen);
        reports := reports + [u];
      }
    }
  }

  lemma ArrivedNext<E>(items: seq<Result<Bytes, E>>, i: nat)
    requires i < |items|
    ensures var seen := Arrived(items[..i]);
      Arrived(items[..i + 1]) == if items[i].Ok? then seen + items[i].value else seen
  {
    assert items[..i + 1][..i] == items[..i];
  }

  /** `tap`, polled at most `polls` times and then dropped: the body passes through
      unchanged, and the callback fires once, with what had arrived by then. */
  method Tap<E>(items: seq<Result<Bytes, E>>, polls: nat, readLine: Reader, readBody: Reader)
    returns (forwarded: seq<Result<Bytes, E>>, reports: seq<Usage>)
    ensures forwarded == if polls < |items| then items[..polls] else items
    ensures reports == [WholeInput(readLine, readBody, Arrived(forwarded))]
  {
    var sc := new Scanner(readLine, readBody);
    var guard := new Guard(sc);
    forwarded := [];
    var i := 0;
    while i < polls && i < |items|
      invariant i <= polls && i <= |items| && forwarded == items[..i]
      invariant fresh(sc) && fresh(guard) && guard.sc == sc && guard.Waiting(Arrived(items[..i]))
    {
      ArrivedNext(items, i);
      guard.Poll(items[i], Arrived(items[..i]));
      forwarded := forwarded + [items[i]];
      i := i + 1;
    }
    assert items[..|items|] == items;
    guard.Drop(Arrived(forwarded));
    reports := guard.reports;
    assert sc.readLine == readLine && sc.readBody == readBody;
  }

  /** The bytes of the chunks that arrived, errors skipped. */
  function Arrived<E>(items: seq<Result<Bytes, E>>): Bytes {
    if items == [] then []
    else
      var before, last := Arrived(items[..|items| - 1]), items[|items| - 1];
      if last.Ok? then before + last.value else before
  }

  /** Every way of cutting a body into chunks reports the same usage. */
  method ScanChunks(chunks: seq<Bytes>, readLine: Reader, readBody: Reader) returns (u: Usage)
    ensures u == WholeInput(readLine, readBody, Joined(chunks))
  {
    var sc := new Scanner(readLine, readBody);
    var i := 0;
    while i < |chunks|
      invariant i <= |chunks|
      invariant fresh(sc) && sc.readLine == readLine && sc.readBody == readBody
      invariant sc.HasRead(Joined(chunks[..i]))
    {
      assert chunks[..i + 1][..i] == chunks[..i];
      sc.Feed(chunks[i], Joined(chunks[..i]));
      i := i + 1;
    }
    assert chunks[..i] == chunks;
    u := sc.Finish(Joined(chunks));
  }
}
