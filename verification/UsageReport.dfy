/** What the scanner reports, in terms of the bytes of the body: no merging, no
    order, only positions. */
module UsageReport {
  import opened Prelude
  import opened UsageScanner

  /** Bytes `i` to `j` are one line: it starts the body or follows a newline, and
      its only newline ends it, unless the body ends first. */
  predicate LineAt(bs: Bytes, i: nat, j: nat) {
    && i < j <= |bs| && (i == 0 || bs[i - 1] == 10)
    && (forall k :: i <= k < j - 1 ==> bs[k] != 10)
    && (j == |bs| || bs[j - 1] == 10)
  }

  ghost predicate HasLine(bs: Bytes, line: Bytes) {
    exists i: nat, j: nat :: LineAt(bs, i, j) && line == bs[i..j]
  }

  /** Where the unterminated rest starts. */
  lemma {:induction false} TailAt(bs: Bytes) returns (i: nat)
    ensures i <= |bs| && Tail(bs) == bs[i..] && (i == 0 || bs[i - 1] == 10)
    ensures forall k :: i <= k < |bs| ==> bs[k] != 10
  {
    if bs == [] || bs[|bs| - 1] == NEWLINE {
      i := |bs|;
    } else {
      i := TailAt(bs[..|bs| - 1]);
      assert bs[i..] == bs[..|bs| - 1][i..] + [bs[|bs| - 1]];
    }
  }

  predicate Terminated(bs: Bytes, i: nat, j: nat) { LineAt(bs, i, j) && bs[j - 1] == 10 }

  ghost predicate HasTerminated(bs: Bytes, line: Bytes) {
    exists i: nat, j: nat :: Terminated(bs, i, j) && line == bs[i..j]
  }

  lemma ShorterTerminated(bs: Bytes, i: nat, j: nat)
    requires bs != [] && j < |bs|
    ensures Terminated(bs, i, j) <==> Terminated(bs[..|bs| - 1], i, j)
    ensures i <= j ==> bs[i..j] == bs[..|bs| - 1][i..j]
  {
  }

  /** One more byte adds the line it ends, if it is a newline. */
  lemma OneMoreByte(front: Bytes, b: Byte, s: nat, line: Bytes)
    requires s <= |front| && Tail(front) == front[s..] && (s == 0 || front[s - 1] == 10)
    requires forall k :: s <= k < |front| ==> front[k] != 10
    ensures HasTerminated(front + [b], line) <==>
      HasTerminated(front, line) || (b == 10 && line == Tail(front) + [NEWLINE])
  {
    var bs, n := front + [b], |front| + 1;
    assert bs[..n - 1] == front;
    if i: nat, j: nat :| Terminated(front, i, j) && line == front[i..j] {
      ShorterTerminated(bs, i, j);
      assert Terminated(bs, i, j) && line == bs[i..j];
    }
    if b == 10 {
      assert Terminated(bs, s, n) && bs[s..n] == Tail(front) + [NEWLINE];
    }
    if i: nat, j: nat :| Terminated(bs, i, j) && line == bs[i..j] {
      if j < n {
        ShorterTerminated(bs, i, j);
        assert Terminated(front, i, j) && line == front[i..j];
      } else {
        assert i == s;
      }
    }
  }

  /** `Lines` lists exactly the terminated lines. */
  lemma {:induction false} LinesAre(bs: Bytes, line: Bytes)
    ensures line in Lines(bs) <==> HasTerminated(bs, line)
  {
    if bs != [] {
      var front, b := bs[..|bs| - 1], bs[|bs| - 1];
      LinesAre(front, line);
      var s := TailAt(front);
      OneMoreByte(front, b, s, line);
      assert front + [b] == bs;
    }
  }

  lemma UnterminatedIsTail(bs: Bytes, i: nat, s: nat)
    requires LineAt(bs, i, |bs|) && bs[|bs| - 1] != 10 && s <= |bs| && (s == 0 || bs[s - 1] == 10)
    requires forall k :: s <= k < |bs| ==> bs[k] != 10
    ensures i == s
  {
  }

  lemma TailIsLine(bs: Bytes, i: nat)
    requires i < |bs| && (i == 0 || bs[i - 1] == 10) && Tail(bs) == bs[i..] && forall k :: i <= k < |bs| ==> bs[k] != 10
    ensures HasLine(bs, Tail(bs))
  {
    assert LineAt(bs, i, |bs|) && bs[i..] == bs[i..|bs|];
  }

  /** The scanner's lines are the lines of the body, the last one with or without
      its newline. */
  lemma AllLinesAre(bs: Bytes, line: Bytes)
    ensures line in AllLines(bs) <==> HasLine(bs, line)
  {
    LinesAre(bs, line);
    var s := TailAt(bs);
    if HasTerminated(bs, line) {
      var i: nat, j: nat :| Terminated(bs, i, j) && line == bs[i..j];
      assert LineAt(bs, i, j);
    }
    if Tail(bs) != [] { TailIsLine(bs, s); }
    if HasLine(bs, line) {
      var i: nat, j: nat :| LineAt(bs, i, j) && line == bs[i..j];
      if bs[j - 1] == 10 {
        assert Terminated(bs, i, j);
      } else {
        UnterminatedIsTail(bs, i, s);
      }
    }
  }

  // ---- the report

  datatype Field = Input | Output | Cached

  function Of(u: Usage, f: Field): int {
    match f case Input => u.input case Output => u.output case Cached => u.cached
  }

  /** Some line of at most a megabyte reads as `u`. */
  ghost predicate Reads(read: Reader, bs: Bytes, u: Usage) {
    exists line :: HasLine(bs, line) && |line| <= 1_048_576 && read(line) == Some(u)
  }

  /** `x` is 0 or what some line says, and no line says more. */
  ghost predicate Largest(read: Reader, bs: Bytes, f: Field, x: int) {
    && x >= 0
    && (forall u :: Reads(read, bs, u) ==> x >= Of(u, f))
    && (x == 0 || exists u :: Reads(read, bs, u) && x == Of(u, f))
  }

  ghost predicate Listed(read: Reader, lines: seq<Bytes>, u: Usage) {
    exists k :: 0 <= k < |lines| && |lines[k]| <= 1_048_576 && read(lines[k]) == Some(u)
  }

  lemma ListedSnoc(read: Reader, lines: seq<Bytes>, u: Usage)
    requires lines != []
    ensures var last := lines[|lines| - 1];
      Listed(read, lines, u) <==>
        Listed(read, lines[..|lines| - 1], u) || (|last| <= 1_048_576 && read(last) == Some(u))
  {
  }

  lemma {:induction false} BestIs(read: Reader, lines: seq<Bytes>, f: Field)
    ensures var x := Of(Best(read, lines), f);
      && x >= 0
      && (forall u :: Listed(read, lines, u) ==> x >= Of(u, f))
      && (x == 0 || exists u :: Listed(read, lines, u) && x == Of(u, f))
    ensures AnyUsage(read, lines) <==> exists u :: Listed(read, lines, u)
  {
    if lines != [] {
      var front, last := lines[..|lines| - 1], lines[|lines| - 1];
      BestIs(read, front, f);
      forall u ensures Listed(read, lines, u) <==>
        Listed(read, front, u) || (|last| <= 1_048_576 && read(last) == Some(u))
      {
        ListedSnoc(read, lines, u);
      }
      if LineUsage(read, last).Some? { assert Listed(read, lines, LineUsage(read, last).value); }
      if u :| Listed(read, front, u) && Of(Best(read, front), f) == Of(u, f) { assert Listed(read, lines, u); }
    }
  }

  lemma ListedIsRead(read: Reader, bs: Bytes, u: Usage)
    ensures Listed(read, AllLines(bs), u) <==> Reads(read, bs, u)
  {
    if Listed(read, AllLines(bs), u) {
      var k :| 0 <= k < |AllLines(bs)| && |AllLines(bs)[k]| <= 1_048_576 && read(AllLines(bs)[k]) == Some(u);
      AllLinesAre(bs, AllLines(bs)[k]);
    }
    if Reads(read, bs, u) {
      var line :| HasLine(bs, line) && |line| <= 1_048_576 && read(line) == Some(u);
      AllLinesAre(bs, line);
    }
  }

  /** Every field of the report is the largest any line gives it; without such a
      line, what the body gives as a whole if it is at most four megabytes; and
      never less than 0. */
  lemma ReportIs(readLine: Reader, readBody: Reader, bs: Bytes, f: Field)
    ensures var x := Of(WholeInput(readLine, readBody, bs), f);
      if exists u :: Reads(readLine, bs, u) then Largest(readLine, bs, f, x)
      else if |bs| <= 4_194_304 && readBody(bs).Some? then
        x == (if Of(readBody(bs).value, f) > 0 then Of(readBody(bs).value, f) else 0)
      else x == 0
  {
    BestIs(readLine, AllLines(bs), f);
    forall u ensures Listed(readLine, AllLines(bs), u) <==> Reads(readLine, bs, u) { ListedIsRead(readLine, bs, u); }
  }

  lemma LargestIsOne(readLine: Reader, bs: Bytes, cs: Bytes, f: Field, x: int, y: int)
    requires forall u :: Reads(readLine, bs, u) <==> Reads(readLine, cs, u)
    requires Largest(readLine, bs, f, x) && Largest(readLine, cs, f, y)
    ensures x == y
  {
  }

  /** Neither the order of the lines nor how often one comes matters. */
  lemma OrderIsInvisible(readLine: Reader, readBody: Reader, bs: Bytes, cs: Bytes)
    requires forall line :: HasLine(bs, line) <==> HasLine(cs, line)
    requires exists u :: Reads(readLine, bs, u)
    ensures WholeInput(readLine, readBody, bs) == WholeInput(readLine, readBody, cs)
  {
    var u :| Reads(readLine, bs, u);
    assert forall v :: Reads(readLine, bs, v) <==> Reads(readLine, cs, v);
    var r, t := WholeInput(readLine, readBody, bs), WholeInput(readLine, readBody, cs);
    forall f ensures Of(r, f) == Of(t, f) {
      ReportIs(readLine, readBody, bs, f);
      ReportIs(readLine, readBody, cs, f);
      LargestIsOne(readLine, bs, cs, f, Of(r, f), Of(t, f));
    }
    assert Of(r, Input) == Of(t, Input) && Of(r, Output) == Of(t, Output) && Of(r, Cached) == Of(t, Cached);
  }
}
