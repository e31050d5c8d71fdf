/** Which candidates a request gets, and in which order: stable priority order,
    rotated by a cursor that moves on every `sticky_limit` selections. */
module RoundRobin {
  import opened Prelude

  const U32: nat := 0x1_0000_0000

  // ---- stable sorting by priority

  datatype Member = Member(providerId: string, modelOverride: Option<string>, priority: int)

  function Insert(m: Member, sorted: seq<Member>): (r: seq<Member>)
    ensures |r| == |sorted| + 1
  {
    if sorted == [] || m.priority < sorted[0].priority then [m] + sorted
    else [sorted[0]] + Insert(m, sorted[1..])
  }

  /** `sort_by_key(|m| m.priority)`, which is stable. */
  function SortByPriority(ms: seq<Member>): (r: seq<Member>)
    ensures |r| == |ms|
  {
    if ms == [] then [] else Insert(ms[|ms| - 1], SortByPriority(ms[..|ms| - 1]))
  }

  predicate Sorted(ms: seq<Member>) {
    forall i, j :: 0 <= i < j < |ms| ==> ms[i].priority <= ms[j].priority
  }

  /** The members of one priority, in list order. */
  function OfPriority(ms: seq<Member>, p: int): seq<Member> {
    if ms == [] then [] else (if ms[0].priority == p then [ms[0]] else []) + OfPriority(ms[1..], p)
  }

  lemma {:induction false} InsertPermutes(m: Member, sorted: seq<Member>)
    ensures multiset(Insert(m, sorted)) == multiset(sorted) + multiset{m}
    decreases |sorted|
  {
    if sorted != [] && m.priority >= sorted[0].priority {
      InsertPermutes(m, sorted[1..]);
      assert sorted == [sorted[0]] + sorted[1..];
    }
  }

  lemma {:induction false} InsertSorts(m: Member, sorted: seq<Member>)
    requires Sorted(sorted)
    ensures Sorted(Insert(m, sorted))
    ensures Insert(m, sorted)[0] == m || (sorted != [] && Insert(m, sorted)[0] == sorted[0])
    decreases |sorted|
  {
    if sorted != [] && m.priority >= sorted[0].priority {
      var tail := Insert(m, sorted[1..]);
      InsertSorts(m, sorted[1..]);
      assert tail[0].priority >= sorted[0].priority;
      assert Insert(m, sorted) == [sorted[0]] + tail;
    }
  }

  lemma {:induction false} InsertIsStable(m: Member, sorted: seq<Member>, p: int)
    requires Sorted(sorted)
    ensures OfPriority(Insert(m, sorted), p) == OfPriority(sorted, p) + if m.priority == p then [m] else []
    decreases |sorted|
  {
    var r := Insert(m, sorted);
    if sorted == [] || m.priority < sorted[0].priority {
      assert r[1..] == sorted;
      if m.priority == p { NoneOfPriority(sorted, p); }
    } else {
      assert r[1..] == Insert(m, sorted[1..]);
      InsertIsStable(m, sorted[1..], p);
    }
  }

  lemma {:induction false} NoneOfPriority(ms: seq<Member>, p: int)
    requires forall i :: 0 <= i < |ms| ==> ms[i].priority > p
    ensures OfPriority(ms, p) == []
  {
    if ms != [] { NoneOfPriority(ms[1..], p); }
  }

  lemma {:induction false} OfPrioritySnoc(ms: seq<Member>, m: Member, p: int)
    ensures OfPriority(ms + [m], p) == OfPriority(ms, p) + if m.priority == p then [m] else []
  {
    if ms == [] {
      assert (ms + [m])[1..] == [];
    } else {
      assert (ms + [m])[0] == ms[0] && (ms + [m])[1..] == ms[1..] + [m];
      OfPrioritySnoc(ms[1..], m, p);
      Assoc(if ms[0].priority == p then [ms[0]] else [], OfPriority(ms[1..], p), if m.priority == p then [m] else []);
    }
  }

  lemma {:induction false} SortSorts(ms: seq<Member>)
    ensures Sorted(SortByPriority(ms))
  {
    if ms != [] {
      SortSorts(ms[..|ms| - 1]);
      InsertSorts(ms[|ms| - 1], SortByPriority(ms[..|ms| - 1]));
    }
  }

  lemma MultisetSnoc(ms: seq<Member>)
    requires ms != []
    ensures multiset(ms) == multiset(ms[..|ms| - 1]) + multiset{ms[|ms| - 1]}
  {
    assert ms == ms[..|ms| - 1] + [ms[|ms| - 1]];
  }

  lemma {:induction false} SortPermutes(ms: seq<Member>)
    ensures multiset(SortByPriority(ms)) == multiset(ms)
  {
    if ms != [] {
      SortPermutes(ms[..|ms| - 1]);
      InsertPermutes(ms[|ms| - 1], SortByPriority(ms[..|ms| - 1]));
      MultisetSnoc(ms);
    }
  }

  /** Members of equal priority keep their order. */
  lemma {:induction false} SortIsStable(ms: seq<Member>, p: int)
    ensures OfPriority(SortByPriority(ms), p) == OfPriority(ms, p)
  {
    if ms != [] {
      var front, m := ms[..|ms| - 1], ms[|ms| - 1];
      SortIsStable(front, p);
      SortSorts(front);
      InsertIsStable(m, SortByPriority(front), p);
      assert ms == front + [m];
      OfPrioritySnoc(front, m, p);
    }
  }

  // ---- the cursor

  function Rotated<T>(ms: seq<T>, head: nat): (r: seq<T>)
    requires head <= |ms|
    ensures |r| == |ms|
  {
    ms[head..] + ms[..head]
  }

  lemma RotationPermutes(ms: seq<Member>, head: nat)
    requires head <= |ms|
    ensures multiset(Rotated(ms, head)) == multiset(ms)
  {
    assert ms == ms[..head] + ms[head..];
  }

  lemma WrapOnce(a: nat, n: nat)
    requires 0 < n && a < 2 * n
    ensures a % n == if a < n then a else a - n
  {
    if a >= n { assert a == n * 1 + (a - n); }
  }

  lemma RotatedAt<T>(ms: seq<T>, head: nat, i: nat)
    requires head < |ms| && i < |ms|
    ensures Rotated(ms, head)[i] == ms[(head + i) % |ms|]
  {
    WrapOnce(head + i, |ms|);
  }

  /** The tail behind the head keeps its priority order only when the head is
      the first or the last member. */
  lemma TailInPriorityOrder(n: nat, head: nat)
    requires head < n
    ensures var order := Rotated(seq(n, i => i), head);
      Ascending(order[1..]) <==> head == 0 || head == n - 1
  {
    var order := Rotated(seq(n, i => i), head);
    forall i | 0 <= i < n ensures order[i] == if head + i < n then head + i else head + i - n {}
    if 0 < head < n - 1 {
      var tail := order[1..];
      assert tail[n - 2] == order[n - 1] == head - 1 && tail[0] == order[1] == head + 1;
    }
  }

  /** `n as u32` for a positive limit, else 1. */
  function NormalizeStickyLimit(limit: Option<int>): nat {
    if limit.Some? && limit.value > 0 then limit.value % U32 else 1
  }

  /** How many selections in a row a member really heads. */
  function EffectiveLimit(limit: Option<int>): (k: nat)
    ensures k >= 1
  {
    if NormalizeStickyLimit(limit) == 0 then 1 else NormalizeStickyLimit(limit)
  }

  /** A configured limit is honoured exactly when it is positive and fits 32 bits. */
  lemma LimitHonoured(limit: int)
    ensures EffectiveLimit(Some(limit)) == limit <==> 1 <= limit < U32
  {
    if limit >= U32 { assert limit % U32 < U32; }
  }

  /** Any other limit comes to 1, as does none; one too large, to what 32 bits
      leave of it. */
  lemma OtherLimits(limit: int)
    ensures EffectiveLimit(None) == 1
    ensures limit <= 0 ==> EffectiveLimit(Some(limit)) == 1
    ensures limit > 0 && limit % 0x1_0000_0000 == 0 ==> EffectiveLimit(Some(limit)) == 1
    ensures limit > 0 && limit % 0x1_0000_0000 != 0 ==> EffectiveLimit(Some(limit)) == limit % 0x1_0000_0000
  {
  }

  class Cursor {
    var index: nat
    var consecutiveUses: nat

    /** `consecutive_uses + 1` fits a `u32`. */
    ghost predicate Valid()
      reads this
    {
      consecutiveUses + 1 < U32
    }

    constructor ()
      ensures Valid() && index == 0 && consecutiveUses == 0
    {
      index, consecutiveUses := 0, 0;
    }

    /** A cursor as it was stored. */
    constructor At(index: nat, uses: nat)
      requires uses + 1 < U32
      ensures Valid() && this.index == index && consecutiveUses == uses
    {
      this.index, consecutiveUses := index, uses;
    }

    method Rotate(members: seq<Member>, limit: Option<int>) returns (r: seq<Member>)
      requires Valid() && members != []
      modifies this
      ensures Valid()
      ensures r == Rotated(members, old(index) % |members|)
      ensures (index, consecutiveUses) == CursorNext(old(index), old(consecutiveUses), |members|, limit)
    {
      var len := |members|;
      var sticky := NormalizeStickyLimit(limit);
      var head := index % len;
      r := members[head..] + members[..head];
      if consecutiveUses + 1 >= sticky {
        index := (head + 1) % len;
        consecutiveUses := 0;
      } else {
        index := head;
        consecutiveUses := consecutiveUses + 1;
      }
    }

    /** The candidate order of one selection from a round-robin pool. */
    method SelectOrder(members: seq<Member>, limit: Option<int>) returns (r: seq<Member>)
      requires Valid()
      modifies this
      ensures Valid()
      ensures r == OrderFrom(members, old(index))
      ensures (index, consecutiveUses) == CursorStep((old(index), old(consecutiveUses)), |members|, limit)
      ensures multiset(r) == multiset(members)
    {
      SortPermutes(members);
      r := SortByPriority(members);
      if |r| > 1 {
        RotationPermutes(r, index % |r|);
        r := Rotate(r, limit);
      } else if |members| == 1 {
        assert members[..0] == [];
      }
    }
  }

  /** The stable priority order, rotated when there is something to rotate. */
  function OrderFrom(members: seq<Member>, index: nat): seq<Member> {
    if |members| > 1 then Rotated(SortByPriority(members), index % |members|) else members
  }

  /** A pool of one member or none does not move its cursor. */
  function CursorStep(cursor: (nat, nat), n: nat, limit: Option<int>): (nat, nat) {
    if n > 1 then CursorNext(cursor.0, cursor.1, n, limit) else cursor
  }

  /** The cursor after one selection among `n` members. */
  function CursorNext(index: nat, uses: nat, n: nat, limit: Option<int>): (nat, nat)
    requires n > 0
  {
    if uses + 1 >= NormalizeStickyLimit(limit) then ((index % n + 1) % n, 0) else (index % n, uses + 1)
  }

  // ---- a fixed pool, selection by selection

  /** The fresh cursor after `m` selections. */
  function CursorAfter(n: nat, limit: Option<int>, m: nat): (nat, nat)
    requires n > 0
  {
    if m == 0 then (0, 0) else
    var (index, uses) := CursorAfter(n, limit, m - 1);
    CursorNext(index, uses, n, limit)
  }

  // Quotient and remainder by repeated subtraction, and a product by repeated
  // addition: the same as `/`, `%` and `*`, but friendlier to induction.

  function Quot(m: nat, k: nat): nat
    requires k > 0
  {
    if m < k then 0 else Quot(m - k, k) + 1
  }

  function Rem(m: nat, k: nat): (r: nat)
    requires k > 0
    ensures r < k
  {
    if m < k then m else Rem(m - k, k)
  }

  function Times(n: nat, k: nat): nat { if n == 0 then 0 else Times(n - 1, k) + k }

  lemma {:induction false} TimesIsProduct(n: nat, k: nat)
    ensures Times(n, k) == n * k
  {
    if n > 0 { TimesIsProduct(n - 1, k); }
  }

  lemma {:induction false} QuotRemSum(m: nat, k: nat)
    requires k > 0
    ensures m == Quot(m, k) * k + Rem(m, k)
  {
    if m >= k { QuotRemSum(m - k, k); }
  }

  lemma AtLeastOnce(a: int, k: nat)
    requires a >= 1
    ensures a * k >= k
  {
    assert a * k == (a - 1) * k + k;
  }

  lemma {:induction false} QuotIsDiv(m: nat, k: nat)
    requires k > 0
    ensures Quot(m, k) == m / k && Rem(m, k) == m % k
  {
    QuotRemSum(m, k);
    var a, b, r, t := Quot(m, k), m / k, Rem(m, k), m % k;
    assert a * k + r == b * k + t;
    assert (a - b) * k == t - r;
    if a > b { AtLeastOnce(a - b, k); } else if b > a {
      assert (b - a) * k == r - t;
      AtLeastOnce(b - a, k);
    }
  }

  lemma {:induction false} QuotNext(m: nat, k: nat)
    requires k > 0
    ensures Rem(m + 1, k) == (if Rem(m, k) == k - 1 then 0 else Rem(m, k) + 1)
    ensures Quot(m + 1, k) == (if Rem(m, k) == k - 1 then Quot(m, k) + 1 else Quot(m, k))
  {
    if m >= k { QuotNext(m - k, k); }
  }

  lemma {:induction false} QuotAddTimes(m: nat, n: nat, k: nat)
    requires k > 0
    ensures Quot(m + Times(n, k), k) == Quot(m, k) + n && Rem(m + Times(n, k), k) == Rem(m, k)
  {
    if n > 0 { QuotAddTimes(m, n - 1, k); }
  }

  lemma SmallMod(x: nat, n: nat)
    requires x < n
    ensures x % n == x && (x + 1) % n == if x + 1 == n then 0 else x + 1
  {
  }

  lemma {:induction false} CursorIs(n: nat, limit: Option<int>, m: nat)
    requires n > 0
    ensures var k := EffectiveLimit(limit); CursorAfter(n, limit, m) == (Rem(Quot(m, k), n), Rem(m, k))
  {
    if m > 0 {
      var k := EffectiveLimit(limit);
      CursorIs(n, limit, m - 1);
      QuotNext(m - 1, k);
      QuotNext(Quot(m - 1, k), n);
      SmallMod(Rem(Quot(m - 1, k), n), n);
    }
  }

  /** Before selection `m` the cursor stands at member (m / k) mod n with m mod k
      uses, where k is the limit in effect. */
  lemma {:induction false} ClosedForm(n: nat, limit: Option<int>, m: nat)
    requires n > 0
    ensures var k := EffectiveLimit(limit); CursorAfter(n, limit, m) == ((m / k) % n, m % k)
  {
    var k := EffectiveLimit(limit);
    CursorIs(n, limit, m);
    QuotIsDiv(m, k);
    QuotIsDiv(Quot(m, k), n);
  }

  /** The member heading selection `m`. */
  function Head(n: nat, limit: Option<int>, m: nat): nat
    requires n > 0
  {
    CursorAfter(n, limit, m).0 % n
  }

  /** How many of the selections `from`, ..., `from + len - 1` member `i` heads. */
  function Turns(n: nat, limit: Option<int>, from: nat, len: nat, i: nat): nat
    requires n > 0
  {
    if len == 0 then 0 else
    Turns(n, limit, from, len - 1, i) + if Head(n, limit, from + len - 1) == i then 1 else 0
  }

  lemma HeadIs(n: nat, limit: Option<int>, m: nat)
    requires n > 0
    ensures Head(n, limit, m) == Rem(Quot(m, EffectiveLimit(limit)), n)
  {
    CursorIs(n, limit, m);
    SmallMod(Rem(Quot(m, EffectiveLimit(limit)), n), n);
  }

  lemma {:induction false} TurnsFromFront(n: nat, limit: Option<int>, from: nat, len: nat, i: nat)
    requires n > 0
    ensures Turns(n, limit, from, len + 1, i)
         == (if Head(n, limit, from) == i then 1 else 0) + Turns(n, limit, from + 1, len, i)
  {
    if len > 0 { TurnsFromFront(n, limit, from, len - 1, i); }
  }

  /** Moving the window one selection on. */
  lemma WindowMoves(n: nat, limit: Option<int>, from: nat, len: nat, i: nat)
    requires n > 0
    ensures Turns(n, limit, from, len, i) + (if Head(n, limit, from + len) == i then 1 else 0)
         == (if Head(n, limit, from) == i then 1 else 0) + Turns(n, limit, from + 1, len, i)
  {
    TurnsFromFront(n, limit, from, len, i);
  }

  lemma HeadPeriodic(n: nat, limit: Option<int>, m: nat)
    requires n > 0
    ensures Head(n, limit, m + Times(n, EffectiveLimit(limit))) == Head(n, limit, m)
  {
    var k := EffectiveLimit(limit);
    HeadIs(n, limit, m);
    HeadIs(n, limit, m + Times(n, k));
    QuotAddTimes(m, n, k);
  }

  /** The selections of block `b` are headed by member `b`. */
  lemma {:induction false} BlockTurns(n: nat, limit: Option<int>, b: nat, len: nat, i: nat)
    requires b < n && i < n && len <= EffectiveLimit(limit)
    ensures Turns(n, limit, Times(b, EffectiveLimit(limit)), len, i) == if b == i then len else 0
  {
    if len > 0 {
      var k := EffectiveLimit(limit);
      BlockTurns(n, limit, b, len - 1, i);
      HeadIs(n, limit, Times(b, k) + len - 1);
      QuotAddTimes(len - 1, b, k);
    }
  }

  lemma {:induction false} TurnsSplit(n: nat, limit: Option<int>, from: nat, a: nat, b: nat, i: nat)
    requires n > 0
    ensures Turns(n, limit, from, a + b, i) == Turns(n, limit, from, a, i) + Turns(n, limit, from + a, b, i)
  {
    if b > 0 { TurnsSplit(n, limit, from, a, b - 1, i); }
  }

  /** Over the first `blocks` blocks, member `i` heads `k` selections if its
      block is among them. */
  lemma {:induction false} FirstBlocks(n: nat, limit: Option<int>, blocks: nat, i: nat)
    requires blocks <= n && i < n
    ensures var k := EffectiveLimit(limit); Turns(n, limit, 0, Times(blocks, k), i) == if i < blocks then k else 0
  {
    if blocks > 0 {
      var k := EffectiveLimit(limit);
      FirstBlocks(n, limit, blocks - 1, i);
      TurnsSplit(n, limit, 0, Times(blocks - 1, k), k, i);
      BlockTurns(n, limit, blocks - 1, k, i);
    }
  }

  lemma {:induction false} FairFrom(n: nat, limit: Option<int>, from: nat, i: nat)
    requires i < n
    ensures var k := EffectiveLimit(limit); Turns(n, limit, from, Times(n, k), i) == k
  {
    var k := EffectiveLimit(limit);
    if from == 0 {
      FirstBlocks(n, limit, n, i);
    } else {
      FairFrom(n, limit, from - 1, i);
      WindowMoves(n, limit, from - 1, Times(n, k), i);
      HeadPeriodic(n, limit, from - 1);
    }
  }

  /** Any n * k consecutive selections make each of the n members head exactly k
      times, wherever they start. */
  lemma {:induction false} Fairness(n: nat, limit: Option<int>, from: nat, i: nat)
    requires i < n
    ensures var k := EffectiveLimit(limit); Turns(n, limit, from, n * k, i) == k
  {
    TimesIsProduct(n, EffectiveLimit(limit));
    FairFrom(n, limit, from, i);
  }
}
