/** The per-(provider, model) circuit breaker. Times are nanoseconds. */
module Runtime {
  import opened Prelude

  const SECOND: nat := 1_000_000_000
  const MISCONFIGURED_RETRY_AFTER: nat := 300 * SECOND
  const MAX_BACKOFF_LEVEL: nat := 15
  /** Unit separator, between the provider id and the model of a key. */
  const SEPARATOR: char := '\U{001F}'

  datatype ProviderStatus = Healthy | Cooling | Misconfigured

  datatype Entry = Entry(level: nat, until: Option<nat>, status: ProviderStatus, lastError: Option<string>)
  {
    predicate IsAvailable(now: nat) {
      until.Some? ==> now >= until.value
    }

    /** Time left before the entry is tried again; `None` when available. */
    function RetryIn(now: nat): Option<nat> {
      if until.Some? && until.value >= now then Some(until.value - now) else None
    }

    function RecordSuccess(): Entry { Entry(0, None, Healthy, None) }

    function ResetToHealthy(): Entry { Entry(0, None, Healthy, None) }

    function RecordRetryable(cooldown: nat, now: nat): Entry {
      Entry(if level < 255 then level + 1 else 255, Some(now + cooldown), Cooling, lastError)
    }

    function MarkMisconfigured(now: nat): Entry {
      this.(status := Misconfigured, until := Some(now + MISCONFIGURED_RETRY_AFTER))
    }

    function NoteError(msg: string): Entry { this.(lastError := Some(msg)) }

    /** Everything routing looks at. */
    function Routing(): (nat, Option<nat>, ProviderStatus) { (level, until, status) }

    /** What every sequence of transitions keeps. */
    predicate Consistent() {
      && level <= 255
      && (status == Healthy <==> until == None)
      && (status == Healthy ==> level == 0)
    }
  }

  const DEFAULT := Entry(0, None, Healthy, None)

  // ---- backoff

  function Pow2(n: nat): (r: nat)
    ensures r >= 1
  {
    if n == 0 then 1 else 2 * Pow2(n - 1)
  }

  function Min(a: nat, b: nat): (r: nat)
    ensures r <= a && r <= b && (r == a || r == b)
  {
    if a < b then a else b
  }

  /** `backoff::cooldown_for`, in seconds, of a `u8` level. */
  function CooldownSeconds(level: nat): nat {
    var l := if level < 1 then 1 else level;
    Min(2 * Pow2(Min(l - 1, MAX_BACKOFF_LEVEL)), 300)
  }

  lemma {:induction false} Pow2Grows(a: nat, b: nat)
    requires a <= b
    ensures Pow2(a) <= Pow2(b)
  {
    if a < b { Pow2Grows(a, b - 1); }
  }

  lemma NinthPower()
    ensures Pow2(9) == 512
  {
    assert Pow2(4) == 16;
    assert Pow2(7) == 128;
  }

  lemma CooldownClosedForm(level: nat)
    requires level >= 1
    ensures CooldownSeconds(level) == Min(300, Pow2(level))
  {
    if level > MAX_BACKOFF_LEVEL + 1 {
      Pow2Grows(9, level);
      Pow2Grows(9, MAX_BACKOFF_LEVEL + 1);
      NinthPower();
    }
  }

  /** The whole table: 2, 4, 8, ... seconds, at most five minutes. */
  lemma CooldownTable(level: nat)
    ensures CooldownSeconds(level) ==
      if level <= 1 then 2 else if level == 2 then 4 else if level == 3 then 8 else if level == 4 then 16
      else if level == 5 then 32 else if level == 6 then 64 else if level == 7 then 128
      else if level == 8 then 256 else 300
  {
    assert Pow2(0) == 1 && Pow2(3) == 8;
    if level > 8 {
      CooldownClosedForm(level);
      Pow2Grows(9, level);
      NinthPower();
    } else if level > 3 {
      assert Pow2(level - 1) == 8 * Pow2(level - 4);
    }
  }

  /** The cooldown a failure asks for: `backoff_level + 1` is a `u8` sum, which
      wraps in a release build. */
  function BackoffSeconds(e: Entry): nat { CooldownSeconds((e.level + 1) % 256) }

  /** One retryable failure on the escalating path. */
  function Fail(e: Entry, now: nat): Entry { e.RecordRetryable(BackoffSeconds(e) * SECOND, now) }

  lemma BackoffAt(e: Entry)
    requires e.level <= 255
    ensures BackoffSeconds(e) == if e.level < 255 then Min(300, Pow2(e.level + 1)) else 2
  {
    if e.level < 255 {
      CooldownClosedForm(e.level + 1);
    } else {
      assert Pow2(0) == 1;
    }
  }

  // ---- keys

  function RuntimeKey(provider: string, model: string): string { provider + [SEPARATOR] + model }

  function RuntimeKeyPrefix(provider: string): string { provider + [SEPARATOR] }

  /** A key belongs to a provider when it starts with the provider's prefix. */
  predicate Belongs(key: string, provider: string) { RuntimeKeyPrefix(provider) <= key }

  predicate PlainId(provider: string) { SEPARATOR !in provider }

  /** A key under another provider's prefix: one id extends the other past a
      separator. */
  lemma PrefixesNest(p: string, m: string, q: string)
    requires Belongs(RuntimeKey(p, m), q)
    ensures p == q || Belongs(p, q) || Belongs(q, p)
  {
    var key := RuntimeKey(p, m);
    assert key[..|p| + 1] == RuntimeKeyPrefix(p) && key[|p|] == SEPARATOR;
    assert key[..|q| + 1] == RuntimeKeyPrefix(q);
    if |q| < |p| {
      assert p[..|q| + 1] == key[..|q| + 1];
    } else if |p| < |q| {
      assert q == key[..|q|] && q[..|p| + 1] == key[..|p| + 1];
    } else {
      assert p == key[..|p|] == q;
    }
  }

  lemma Extends(p: string, q: string)
    requires Belongs(p, q)
    ensures RuntimeKey(q, p[|q| + 1..] + [SEPARATOR]) == RuntimeKey(p, "")
  {
    assert p == RuntimeKeyPrefix(q) + p[|q| + 1..];
  }

  /** Two providers share a key, for some models, exactly when they are the same or
      one id extends the other past a separator. */
  lemma KeysCollide(p: string, q: string)
    ensures (exists m, n :: RuntimeKey(p, m) == RuntimeKey(q, n)) <==> p == q || Belongs(p, q) || Belongs(q, p)
  {
    if m, n :| RuntimeKey(p, m) == RuntimeKey(q, n) {
      assert RuntimeKey(q, n)[..|q| + 1] == RuntimeKeyPrefix(q);
      PrefixesNest(p, m, q);
    }
    if p == q { assert RuntimeKey(p, "") == RuntimeKey(q, ""); }
    if Belongs(p, q) { Extends(p, q); }
    if Belongs(q, p) { Extends(q, p); }
  }

  /** And exactly then a provider's prefix matches some key of the other. */
  lemma PrefixMatches(p: string, q: string)
    ensures (exists m :: Belongs(RuntimeKey(p, m), q)) <==> p == q || Belongs(p, q) || Belongs(q, p)
  {
    if m :| Belongs(RuntimeKey(p, m), q) { PrefixesNest(p, m, q); }
    if p == q || Belongs(p, q) || Belongs(q, p) {
      KeysCollide(p, q);
      var m, n :| RuntimeKey(p, m) == RuntimeKey(q, n);
      assert RuntimeKey(q, n)[..|q| + 1] == RuntimeKeyPrefix(q);
      assert Belongs(RuntimeKey(p, m), q);
    }
  }

  lemma NestedIdIsNotPlain(p: string, q: string)
    requires Belongs(p, q)
    ensures !PlainId(p)
  {
    assert p[|q|] == SEPARATOR;
  }

  lemma PlainDoNotNest(p: string, q: string)
    requires PlainId(p) && PlainId(q)
    ensures !Belongs(p, q) && !Belongs(q, p)
  {
    if Belongs(p, q) { NestedIdIsNotPlain(p, q); } else if Belongs(q, p) { NestedIdIsNotPlain(q, p); }
  }

  /** Two ids that nest, and the key they share. */
  lemma SeparatorInIdCollides()
    ensures RuntimeKey("a" + [SEPARATOR] + "b", "c") == RuntimeKey("a", "b" + [SEPARATOR] + "c")
  {
    assert "a" + [SEPARATOR] + "b" + [SEPARATOR] + "c" == "a" + [SEPARATOR] + ("b" + [SEPARATOR] + "c");
  }

  /** Without the separator in provider ids, a prefix matches exactly the
      provider's own keys. */
  lemma SeparatorSplits(p: string, m: string, q: string)
    requires PlainId(p) && PlainId(q)
    ensures Belongs(RuntimeKey(p, m), q) <==> p == q
  {
    if Belongs(RuntimeKey(p, m), q) {
      PrefixesNest(p, m, q);
      PlainDoNotNest(p, q);
    }
    assert RuntimeKey(p, m)[..|p| + 1] == RuntimeKeyPrefix(p);
  }

  /** And `runtime_key` is injective. */
  lemma RuntimeKeyInjective(p: string, m: string, q: string, n: string)
    requires PlainId(p) && PlainId(q)
    ensures RuntimeKey(p, m) == RuntimeKey(q, n) <==> p == q && m == n
  {
    if RuntimeKey(p, m) == RuntimeKey(q, n) {
      KeysCollide(p, q);
      PlainDoNotNest(p, q);
      assert m == RuntimeKey(p, m)[|p| + 1..];
      assert n == RuntimeKey(q, n)[|q| + 1..];
    }
  }

  // ---- the map

  type RuntimeMap = map<string, Entry>

  function Lookup(m: RuntimeMap, key: string): Entry { if key in m then m[key] else DEFAULT }

  predicate Available(m: RuntimeMap, key: string, now: nat) { Lookup(m, key).IsAvailable(now) }

  predicate KeepEntry(e: Entry, now: nat, retention: nat) {
    e.until.Some? && now < e.until.value + retention
  }

  /** What the source's calls on the map amount to. */
  datatype Op =
    | Success(key: string)
    | Retryable(key: string, cooldown: nat, at: nat)
    | Misconfigure(key: string, at: nat)
    | Note(key: string, msg: string)
    | ResetProvider(provider: string)
    | MarkProvider(provider: string, at: nat)
    | Prune(at: nat, retention: nat)

  function Pruned(m: RuntimeMap, now: nat, retention: nat): RuntimeMap {
    map k | k in m && KeepEntry(m[k], now, retention) :: m[k]
  }

  function Apply(m: RuntimeMap, op: Op): RuntimeMap {
    match op
    case Success(k) => m[k := Lookup(m, k).RecordSuccess()]
    case Retryable(k, cooldown, at) => m[k := Lookup(m, k).RecordRetryable(cooldown, at)]
    case Misconfigure(k, at) => m[k := Lookup(m, k).MarkMisconfigured(at)]
    case Note(k, msg) => if k in m then m[k := m[k].NoteError(msg)] else m
    case ResetProvider(p) => map k | k in m :: if Belongs(k, p) then m[k].ResetToHealthy() else m[k]
    case MarkProvider(p, at) => map k | k in m :: if Belongs(k, p) then m[k].MarkMisconfigured(at) else m[k]
    case Prune(at, retention) => Pruned(m, at, retention)
  }

  function ApplyAll(m: RuntimeMap, ops: seq<Op>): RuntimeMap {
    if ops == [] then m else Apply(ApplyAll(m, ops[..|ops| - 1]), ops[|ops| - 1])
  }

  predicate AllConsistent(m: RuntimeMap) {
    forall k :: k in m ==> m[k].Consistent()
  }

  lemma {:induction false} RunsStayConsistent(ops: seq<Op>)
    ensures AllConsistent(ApplyAll(map[], ops))
  {
    if ops != [] { RunsStayConsistent(ops[..|ops| - 1]); }
  }

  /** After any run, pruning at `now` changes no key's availability from then
      on; it forgets only what a missing entry says anyway, or a cooldown that
      ended at least `retention` ago. */
  lemma {:induction false} PruningIsInvisible(ops: seq<Op>, now: nat, retention: nat, key: string, t: nat)
    requires t >= now
    ensures var m := ApplyAll(map[], ops);
      var p := Pruned(m, now, retention);
      && Available(p, key, t) == Available(m, key, t)
      && (!Available(m, key, now) ==> Lookup(p, key) == Lookup(m, key))
      && (Lookup(p, key).Routing() != Lookup(m, key).Routing() ==>
            m[key].until.Some? && m[key].until.value + retention <= now)
  {
    RunsStayConsistent(ops);
  }

  /** Pruning forgets exactly the keys that are healthy or whose cooldown ended at
      least `retention` ago, and leaves the others as they are. */
  lemma {:induction false} PruneForgets(ops: seq<Op>, now: nat, retention: nat, key: string)
    requires key in ApplyAll(map[], ops)
    ensures var m := ApplyAll(map[], ops);
      var p := Apply(m, Prune(now, retention));
      && (key !in p <==>
            m[key].status == Healthy || exists end: nat :: m[key].until == Some(end) && end + retention <= now)
      && (key in p ==> p[key] == m[key])
  {
    RunsStayConsistent(ops);
    var m := ApplyAll(map[], ops);
    if m[key].until.Some? { assert m[key].until == Some(m[key].until.value); }
  }

  /** The two maps say the same of `key`. */
  predicate SameAt(m: RuntimeMap, n: RuntimeMap, key: string) {
    (key in m <==> key in n) && (key in m ==> m[key].Routing() == n[key].Routing())
  }

  lemma ApplySameAt(m: RuntimeMap, n: RuntimeMap, op: Op, key: string)
    requires SameAt(m, n, key)
    ensures SameAt(Apply(m, op), Apply(n, op), key)
  {
  }

  lemma {:induction false} ApplyAllSameAt(m: RuntimeMap, n: RuntimeMap, ops: seq<Op>, key: string)
    requires SameAt(m, n, key)
    ensures SameAt(ApplyAll(m, ops), ApplyAll(n, ops), key)
  {
    if ops != [] {
      ApplyAllSameAt(m, n, ops[..|ops| - 1], key);
      ApplySameAt(ApplyAll(m, ops[..|ops| - 1]), ApplyAll(n, ops[..|ops| - 1]), ops[|ops| - 1], key);
    }
  }

  /** The retryable failures of `key` since it was last healed, reset or pruned. */
  function Streak(ops: seq<Op>, key: string): nat {
    if ops == [] then 0
    else
      var front := ops[..|ops| - 1];
      match ops[|ops| - 1]
      case Success(k) => if k == key then 0 else Streak(front, key)
      case Retryable(k, _, _) => if k == key then Streak(front, key) + 1 else Streak(front, key)
      case ResetProvider(p) => if Belongs(key, p) then 0 else Streak(front, key)
      case Prune(at, retention) =>
        if key in Pruned(ApplyAll(map[], front), at, retention) then Streak(front, key) else 0
      case _ => Streak(front, key)
  }

  lemma {:induction false} LevelIsStreak(ops: seq<Op>, key: string)
    ensures Lookup(ApplyAll(map[], ops), key).level == Min(255, Streak(ops, key))
  {
    if ops != [] { LevelIsStreak(ops[..|ops| - 1], key); }
  }

  /** After any run, the next escalating failure is the n-th in its streak and cools
      min(300, 2^n) seconds up to the 255th; from the 256th on the level sum wraps
      and it cools two. Other keys, notes, marks and cooldowns that upstream named
      may come in between. */
  lemma {:induction false} NthCooldown(ops: seq<Op>, key: string, at: nat)
    ensures var m, n := ApplyAll(map[], ops), Streak(ops, key) + 1;
      var op := Retryable(key, BackoffSeconds(Lookup(m, key)) * SECOND, at);
      var seconds := if n <= 255 then Min(300, Pow2(n)) else 2;
      && Streak(ops + [op], key) == n
      && Lookup(ApplyAll(map[], ops + [op]), key).until == Some(at + seconds * SECOND)
  {
    var e := Lookup(ApplyAll(map[], ops), key);
    LevelIsStreak(ops, key);
    NextSeconds(e, Streak(ops, key));
    OneMore(ops, key, BackoffSeconds(e) * SECOND, at);
  }

  lemma NextSeconds(e: Entry, streak: nat)
    requires e.level == Min(255, streak)
    ensures BackoffSeconds(e) == if streak + 1 <= 255 then Min(300, Pow2(streak + 1)) else 2
  {
    BackoffAt(e);
  }

  lemma OneMore(ops: seq<Op>, key: string, cooldown: nat, at: nat)
    ensures var op := Retryable(key, cooldown, at);
      && Streak(ops + [op], key) == Streak(ops, key) + 1
      && Lookup(ApplyAll(map[], ops + [op]), key).until == Some(at + cooldown)
  {
    var op := Retryable(key, cooldown, at);
    assert (ops + [op])[..|ops|] == ops;
  }

  // ---- the map updated in place

  class RuntimeStates {
    var entries: RuntimeMap

    constructor () ensures entries == map[] { entries := map[]; }

    /** How many entries `prune_idle` removed. */
    method PruneIdle(now: nat, retention: nat) returns (removed: nat)
      modifies this
      ensures entries == Pruned(old(entries), now, retention)
      ensures removed == |old(entries)| - |entries|
    {
      var before := entries;
      entries := map k | k in before && KeepEntry(before[k], now, retention) :: before[k];
      SmallerMap(before, entries);
      removed := |before| - |entries|;
    }

    method ResetProviderToHealthy(provider: string)
      modifies this
      ensures entries == Apply(old(entries), Op.ResetProvider(provider))
    {
      var todo := entries.Keys;
      ghost var before := entries;
      while todo != {}
        invariant todo <= before.Keys && entries.Keys == before.Keys
        invariant forall k :: k in before ==>
          entries[k] == if k !in todo && Belongs(k, provider) then before[k].ResetToHealthy() else before[k]
        decreases todo
      {
        var k :| k in todo;
        if Belongs(k, provider) { entries := entries[k := entries[k].ResetToHealthy()]; }
        todo := todo - {k};
      }
    }

    method MarkProviderMisconfigured(provider: string, now: nat)
      modifies this
      ensures entries == Apply(old(entries), Op.MarkProvider(provider, now))
    {
      var todo := entries.Keys;
      ghost var before := entries;
      while todo != {}
        invariant todo <= before.Keys && entries.Keys == before.Keys
        invariant forall k :: k in before ==>
          entries[k] == if k !in todo && Belongs(k, provider) then before[k].MarkMisconfigured(now) else before[k]
        decreases todo
      {
        var k :| k in todo;
        if Belongs(k, provider) { entries := entries[k := entries[k].MarkMisconfigured(now)]; }
        todo := todo - {k};
      }
    }
  }

  lemma SmallerMap(m: RuntimeMap, n: RuntimeMap)
    requires n.Keys <= m.Keys
    ensures |n| <= |m|
  {
    var rest := m.Keys - n.Keys;
    assert m.Keys == n.Keys + rest && n.Keys !! rest;
    assert |n.Keys| == |n| && |m.Keys| == |m|;
  }

  /** Reset and mark touch exactly the provider's own entries. */
  lemma OnlyOwnEntriesTouched(m: RuntimeMap, provider: string, other: string, model: string, at: nat)
    requires PlainId(provider) && PlainId(other) && RuntimeKey(other, model) in m
    ensures var k := RuntimeKey(other, model);
      && Apply(m, ResetProvider(provider))[k] == (if other == provider then DEFAULT else m[k])
      && Apply(m, MarkProvider(provider, at))[k] == (if other == provider then m[k].MarkMisconfigured(at) else m[k])
  {
    SeparatorSplits(other, model, provider);
  }

  // ---- the worst state of a provider

  function Rank(s: ProviderStatus): nat {
    match s case Healthy => 0 case Cooling => 1 case Misconfigured => 2
  }

  /** `a` is in no better shape than `b`: status first, then level. */
  predicate AtLeastAsBad(a: Entry, b: Entry) {
    Rank(a.status) > Rank(b.status) || (a.status == b.status && a.level >= b.level)
  }

  /** Whatever order the map is walked in, the result is one of the provider's
      entries and no other is worse. */
  method WorstProviderState(m: RuntimeMap, order: seq<string>, provider: string) returns (worst: Option<Entry>)
    requires forall k :: k in order <==> k in m
    ensures worst.None? <==> forall k :: k in m ==> !Belongs(k, provider)
    ensures worst.Some? ==> exists k :: k in m && Belongs(k, provider) && m[k] == worst.value
    ensures worst.Some? ==> forall k :: k in m && Belongs(k, provider) ==> AtLeastAsBad(worst.value, m[k])
    ensures worst.Some? ==>
      && (worst.value.status == Misconfigured <==>
            exists k :: k in m && Belongs(k, provider) && m[k].status == Misconfigured)
      && (worst.value.status == Healthy <==> forall k :: k in m && Belongs(k, provider) ==> m[k].status == Healthy)
  {
    worst := None;
    var i := 0;
    while i < |order|
      invariant i <= |order|
      invariant worst.None? <==> forall j :: 0 <= j < i ==> !Belongs(order[j], provider)
      invariant worst.Some? ==> exists k :: k in m && Belongs(k, provider) && m[k] == worst.value
      invariant worst.Some? ==> forall j :: 0 <= j < i && Belongs(order[j], provider) ==>
        order[j] in m && AtLeastAsBad(worst.value, m[order[j]])
    {
      var k := order[i];
      assert k in order;
      if Belongs(k, provider) {
        var candidate := m[k];
        if worst.None?
           || Rank(candidate.status) > Rank(worst.value.status)
           || (Rank(candidate.status) == Rank(worst.value.status) && candidate.level > worst.value.level) {
          worst := Some(candidate);
        }
      }
      i := i + 1;
    }
    forall k | k in m ensures exists j :: 0 <= j < |order| && order[j] == k { assert k in order; }
  }
}
