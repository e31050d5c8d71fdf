/** The string operations the source uses, on sequences of characters. */
module Text {

  predicate IsSpace(c: char) {
    || '\U{0009}' <= c <= '\U{000D}' || c == ' ' || c == '\U{0085}' || c == '\U{00A0}' || c == '\U{1680}'
    || '\U{2000}' <= c <= '\U{200A}' || c == '\U{2028}' || c == '\U{2029}' || c == '\U{202F}' || c == '\U{205F}'
    || c == '\U{3000}'
  }

  function TrimStart(s: string): string { if s != [] && IsSpace(s[0]) then TrimStart(s[1..]) else s }

  function TrimEnd(s: string): string { if s != [] && IsSpace(s[|s| - 1]) then TrimEnd(s[..|s| - 1]) else s }

  function Trim(s: string): string { TrimEnd(TrimStart(s)) }

  predicate Blank(s: string) { forall i :: 0 <= i < |s| ==> IsSpace(s[i]) }

  lemma {:induction false} TrimStartBlank(s: string)
    ensures TrimStart(s) == [] <==> Blank(s)
    ensures TrimStart(s) != [] ==> !IsSpace(TrimStart(s)[0])
  {
    if s != [] && IsSpace(s[0]) {
      TrimStartBlank(s[1..]);
      assert Blank(s) <==> Blank(s[1..]) by {
        if Blank(s[1..]) {
          forall i | 0 <= i < |s| ensures IsSpace(s[i]) { if i > 0 { assert s[i] == s[1..][i - 1]; } }
        }
      }
    }
  }

  lemma {:induction false} TrimEndKeepsHead(s: string)
    requires s != [] && !IsSpace(s[0])
    ensures TrimEnd(s) != []
  {
    if IsSpace(s[|s| - 1]) { TrimEndKeepsHead(s[..|s| - 1]); }
  }

  lemma {:induction false} TrimEndIs(s: string)
    ensures TrimEnd(s) <= s && Blank(s[|TrimEnd(s)|..])
    ensures TrimEnd(s) != [] ==> !IsSpace(TrimEnd(s)[|TrimEnd(s)| - 1])
  {
    if s != [] && IsSpace(s[|s| - 1]) {
      TrimEndIs(s[..|s| - 1]);
      var t := TrimEnd(s);
      forall i | |t| <= i < |s| ensures IsSpace(s[i]) {
        if i < |s| - 1 { assert s[..|s| - 1][|t|..][i - |t|] == s[i]; }
      }
    }
  }

  lemma {:induction false} TrimStartIs(s: string) returns (a: nat)
    ensures a <= |s| && TrimStart(s) == s[a..] && Blank(s[..a])
  {
    if s != [] && IsSpace(s[0]) {
      a := TrimStartIs(s[1..]);
      a := a + 1;
      forall i | 0 <= i < a ensures IsSpace(s[i]) { if i > 0 { assert s[1..][..a - 1][i - 1] == s[i]; } }
    } else {
      a := 0;
    }
  }

  /** Trimming cuts blanks off both ends and leaves none there. */
  lemma TrimIs(s: string) returns (a: nat, b: nat)
    ensures a <= b <= |s| && Trim(s) == s[a..b] && Blank(s[..a]) && Blank(s[b..])
    ensures Trim(s) != [] ==> !IsSpace(s[a]) && !IsSpace(s[b - 1])
  {
    a := TrimStartIs(s);
    TrimStartBlank(s);
    TrimEndIs(TrimStart(s));
    b := a + |Trim(s)|;
    assert Trim(s) == s[a..][..|Trim(s)|] == s[a..b];
    assert s[b..] == s[a..][|Trim(s)|..];
    assert Trim(s) != [] ==> Trim(s)[0] == s[a] && Trim(s)[|Trim(s)| - 1] == s[b - 1];
  }

  lemma TrimmedAway(s: string)
    ensures Trim(s) == [] <==> Blank(s)
  {
    TrimStartBlank(s);
    if TrimStart(s) != [] { TrimEndKeepsHead(TrimStart(s)); }
  }

  /** Folds the ASCII capitals, and nothing else. */
  function Lower(s: string): (r: string)
    ensures |r| == |s|
    ensures forall i :: 0 <= i < |s| ==> !('A' <= r[i] <= 'Z')
    ensures forall i :: 0 <= i < |s| && r[i] != s[i] ==> 'A' <= s[i] <= 'Z' && r[i] as int == s[i] as int + 32
  {
    seq(|s|, i requires 0 <= i < |s| => if 'A' <= s[i] <= 'Z' then ((s[i] as int) + 32) as char else s[i])
  }

  predicate Contains(s: string, part: string) {
    |part| <= |s| && (s[..|part|] == part || (s != [] && Contains(s[1..], part)))
  }

  predicate OccursAt(s: string, part: string, i: nat) { i + |part| <= |s| && s[i..i + |part|] == part }

  lemma OccursLater(s: string, part: string, i: nat)
    requires s != [] && i > 0
    ensures OccursAt(s, part, i) <==> OccursAt(s[1..], part, i - 1)
  {
    if i + |part| <= |s| { assert s[1..][i - 1..i - 1 + |part|] == s[i..i + |part|]; }
  }

  lemma {:induction false} ContainsMeans(s: string, part: string)
    ensures Contains(s, part) <==> exists i: nat :: OccursAt(s, part, i)
  {
    if |part| <= |s| && s[..|part|] == part { assert OccursAt(s, part, 0); }
    if s != [] {
      ContainsMeans(s[1..], part);
      if i: nat :| OccursAt(s[1..], part, i) {
        OccursLater(s, part, i + 1);
        assert OccursAt(s, part, i + 1);
      }
      if i: nat :| OccursAt(s, part, i) && i > 0 {
        OccursLater(s, part, i);
        assert OccursAt(s[1..], part, i - 1);
      }
    }
  }

  predicate StartsWith(s: string, prefix: string) { |prefix| <= |s| && s[..|prefix|] == prefix }

  predicate EndsWith(s: string, suffix: string) { |suffix| <= |s| && s[|s| - |suffix|..] == suffix }

  predicate IsControl(c: char) { c < ' ' || '\U{007F}' <= c <= '\U{009F}' }

  /** Length in bytes of the UTF-8 encoding. */
  function Utf8Length(s: string): nat {
    if s == [] then 0
    else Utf8Length(s[..|s| - 1]) +
         var c := s[|s| - 1];
         if c < '\U{0080}' then 1 else if c < '\U{0800}' then 2 else if c < '\U{10000}' then 3 else 4
  }
}
