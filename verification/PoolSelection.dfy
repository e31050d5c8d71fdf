/** Which candidates a request name resolves to: a pool's members in rotated
    priority order, or one directly addressed provider. */
module PoolSelection {
  import opened Prelude
  import opened Text
  import C = Catalog
  import R = RoundRobin

  datatype Pool = Pool(modality: C.Modality, strategy: C.Strategy, stickyLimit: Option<int>, members: seq<R.Member>)

  datatype Snapshot = Snapshot(pools: map<string, Pool>, providers: map<string, C.Provider>)

  datatype Candidate = Candidate(provider: string, model: string)

  /** `pool` is `None` for a directly addressed provider. */
  datatype Selection = Selection(pool: Option<string>, candidates: seq<Candidate>)

  datatype Request = Request(modality: C.Modality, name: string)

  /** Rotation index and consecutive uses by pool. */
  type Cursors = map<string, (nat, nat)>

  function CursorOf(cursors: Cursors, pool: string): (nat, nat) { if pool in cursors then cursors[pool] else (0, 0) }

  function UsesOf(cursors: Cursors, pool: string): nat { CursorOf(cursors, pool).1 }

  /** `consecutive_uses + 1` fits a `u32`, for every pool. */
  ghost predicate UsesFit(cursors: Cursors) { forall pool :: UsesOf(cursors, pool) + 1 < R.U32 }

  // ---- members

  predicate Eligible(s: Snapshot, m: R.Member) {
    && m.providerId in s.providers && s.providers[m.providerId].kind == C.OauthCodex
    && m.modelOverride.Some? && C.IsImageModel(m.modelOverride.value)
  }

  function EligibleOf(s: Snapshot, ms: seq<R.Member>): (r: seq<R.Member>)
    ensures forall i :: 0 <= i < |r| ==> Eligible(s, r[i])
  {
    if ms == [] then [] else EligibleOf(s, ms[..|ms| - 1]) + if Eligible(s, ms[|ms| - 1]) then [ms[|ms| - 1]] else []
  }

  /** The members a request of this kind may use; image pools re-check theirs. */
  function Members(s: Snapshot, modality: C.Modality, pool: Pool): seq<R.Member> {
    if modality == C.ImageModality then EligibleOf(s, pool.members) else pool.members
  }

  predicate Rotates(s: Snapshot, modality: C.Modality, pool: Pool) {
    pool.strategy == C.RoundRobin && |Members(s, modality, pool)| > 1
  }

  /** The members in the order they are to be tried. */
  function Order(s: Snapshot, modality: C.Modality, pool: Pool, cursor: (nat, nat)): seq<R.Member> {
    var sorted := R.SortByPriority(Members(s, modality, pool));
    if Rotates(s, modality, pool) then R.Rotated(sorted, cursor.0 % |sorted|) else sorted
  }

  function CandidatesOf(s: Snapshot, ms: seq<R.Member>): seq<Candidate> {
    if ms == [] then []
    else
      var m := ms[|ms| - 1];
      CandidatesOf(s, ms[..|ms| - 1]) +
        if m.providerId in s.providers
        then [Candidate(m.providerId, m.modelOverride.GetOr(s.providers[m.providerId].model))] else []
  }

  // ---- direct addressing

  /** Splits at the first `/`. */
  function SplitOnce(name: string): Option<(string, string)> {
    if name == "" then None
    else if name[0] == '/' then Some(("", name[1..]))
    else
      match SplitOnce(name[1..])
      case Some((a, b)) => Some(([name[0]] + a, b))
      case None => None
  }

  predicate PlainModel(model: string) {
    && model != "" && Utf8Length(model) <= C.MAX_DIRECT_MODEL_LEN
    && forall k :: 0 <= k < |model| ==> !IsControl(model[k]) && !IsSpace(model[k])
  }

  function Direct(s: Snapshot, r: Request): Option<Selection> {
    match SplitOnce(r.name)
    case None => None
    case Some((provider, model)) =>
      if provider !in s.providers then None
      else if r.modality == C.Chat then
        if PlainModel(model) then Some(Selection(None, [Candidate(provider, model)])) else None
      else if C.IsImageModel(model) && s.providers[provider].kind == C.OauthCodex then
        Some(Selection(None, [Candidate(provider, model)]))
      else None
  }

  // ---- one selection

  predicate Serves(s: Snapshot, r: Request) { r.name in s.pools && s.pools[r.name].modality == r.modality }

  function Selected(s: Snapshot, cursors: Cursors, r: Request): Option<Selection> {
    if r.name !in s.pools then Direct(s, r)
    else if !Serves(s, r) then None
    else
      var order := Order(s, r.modality, s.pools[r.name], CursorOf(cursors, r.name));
      Some(Selection(Some(r.name), CandidatesOf(s, order)))
  }

  /** Only a served round-robin pool's own cursor moves. */
  function Advanced(s: Snapshot, cursors: Cursors, r: Request): Cursors {
    if Serves(s, r) && Rotates(s, r.modality, s.pools[r.name]) then
      var pool, cursor := s.pools[r.name], CursorOf(cursors, r.name);
      cursors[r.name := R.CursorNext(cursor.0, cursor.1, |Members(s, r.modality, pool)|, pool.stickyLimit)]
    else cursors
  }

  class Rotation {
    var cursors: Cursors

    ghost predicate Valid()
      reads this
    {
      UsesFit(cursors)
    }

    constructor ()
      ensures Valid() && cursors == map[]
    {
      cursors := map[];
    }

    method RotateFromCursor(name: string, stickyLimit: Option<int>, members: seq<R.Member>) returns (r: seq<R.Member>)
      requires Valid() && members != []
      modifies this
      ensures Valid()
      ensures var cursor := CursorOf(old(cursors), name);
        && r == R.Rotated(members, cursor.0 % |members|)
        && cursors == old(cursors)[name := R.CursorNext(cursor.0, cursor.1, |members|, stickyLimit)]
    {
      var (index, uses) := CursorOf(cursors, name);
      assert UsesOf(cursors, name) + 1 < R.U32;
      var cursor := new R.Cursor.At(index, uses);
      r := cursor.Rotate(members, stickyLimit);
      ghost var before := cursors;
      cursors := cursors[name := (cursor.index, cursor.consecutiveUses)];
      forall pool ensures UsesOf(cursors, pool) + 1 < R.U32 { assert UsesOf(before, pool) + 1 < R.U32; }
    }

    /** `select` and `select_image`. */
    method Select(s: Snapshot, r: Request) returns (selection: Option<Selection>)
      requires Valid()
      modifies this
      ensures Valid()
      ensures selection == Selected(s, old(cursors), r)
      ensures cursors == Advanced(s, old(cursors), r)
    {
      if r.name in s.pools {
        var pool := s.pools[r.name];
        if pool.modality != r.modality { return None; }
        var members := pool.members;
        if r.modality == C.ImageModality { members := KeepEligible(s, members); }
        var order := R.SortByPriority(members);
        if pool.strategy == C.RoundRobin && |order| > 1 { order := RotateFromCursor(r.name, pool.stickyLimit, order); }
        var candidates := Resolve(s, order);
        return Some(Selection(Some(r.name), candidates));
      }
      return Direct(s, r);
    }
  }

  method KeepEligible(s: Snapshot, members: seq<R.Member>) returns (kept: seq<R.Member>)
    ensures kept == EligibleOf(s, members)
  {
    kept := [];
    for i := 0 to |members|
      invariant kept == EligibleOf(s, members[..i])
    {
      assert members[..i + 1][..i] == members[..i];
      if Eligible(s, members[i]) { kept := kept + [members[i]]; }
    }
    assert members[..|members|] == members;
  }

  method Resolve(s: Snapshot, members: seq<R.Member>) returns (candidates: seq<Candidate>)
    ensures candidates == CandidatesOf(s, members)
  {
    candidates := [];
    for i := 0 to |members|
      invariant candidates == CandidatesOf(s, members[..i])
    {
      assert members[..i + 1][..i] == members[..i];
      var m := members[i];
      if m.providerId in s.providers {
        candidates := candidates + [Candidate(m.providerId, m.modelOverride.GetOr(s.providers[m.providerId].model))];
      }
    }
    assert members[..|members|] == members;
  }

  // ---- what selections promise

  /** An image request only ever gets Codex providers under image models, even
      from tables an import filled without checks. */
  lemma {:induction false} ImageCandidates(s: Snapshot, ms: seq<R.Member>, i: nat)
    requires i < |CandidatesOf(s, ms)| && forall k :: 0 <= k < |ms| ==> Eligible(s, ms[k])
    ensures var c := CandidatesOf(s, ms)[i];
      c.provider in s.providers && s.providers[c.provider].kind == C.OauthCodex && C.IsImageModel(c.model)
  {
    var front := CandidatesOf(s, ms[..|ms| - 1]);
    if i < |front| { ImageCandidates(s, ms[..|ms| - 1], i); }
  }

  lemma {:induction false} InsertKeepsEligible(s: Snapshot, m: R.Member, ms: seq<R.Member>)
    requires Eligible(s, m) && forall k :: 0 <= k < |ms| ==> Eligible(s, ms[k])
    ensures forall k :: 0 <= k < |R.Insert(m, ms)| ==> Eligible(s, R.Insert(m, ms)[k])
    decreases |ms|
  {
    if ms != [] && m.priority >= ms[0].priority { InsertKeepsEligible(s, m, ms[1..]); }
  }

  lemma {:induction false} SortKeepsEligible(s: Snapshot, ms: seq<R.Member>)
    requires forall k :: 0 <= k < |ms| ==> Eligible(s, ms[k])
    ensures forall k :: 0 <= k < |R.SortByPriority(ms)| ==> Eligible(s, R.SortByPriority(ms)[k])
  {
    if ms != [] {
      SortKeepsEligible(s, ms[..|ms| - 1]);
      InsertKeepsEligible(s, ms[|ms| - 1], R.SortByPriority(ms[..|ms| - 1]));
    }
  }

  lemma ImageRequestsGetImageModels(s: Snapshot, cursors: Cursors, name: string, i: nat)
    requires var sel := Selected(s, cursors, Request(C.ImageModality, name)); sel.Some? && i < |sel.value.candidates|
    ensures var c := Selected(s, cursors, Request(C.ImageModality, name)).value.candidates[i];
      c.provider in s.providers && s.providers[c.provider].kind == C.OauthCodex && C.IsImageModel(c.model)
  {
    if name in s.pools {
      var order := Order(s, C.ImageModality, s.pools[name], CursorOf(cursors, name));
      SortKeepsEligible(s, EligibleOf(s, s.pools[name].members));
      assert forall k :: 0 <= k < |order| ==> Eligible(s, order[k]);
      ImageCandidates(s, order, i);
    }
  }

  /** Direct addresses split back into what they were made of. */
  lemma {:induction false} AddressRoundTrip(provider: string, model: string)
    requires '/' !in provider
    ensures SplitOnce(provider + "/" + model) == Some((provider, model))
  {
    var name := provider + "/" + model;
    if provider == "" {
      assert name[1..] == model;
    } else {
      assert name[0] == provider[0] && name[1..] == provider[1..] + "/" + model;
      AddressRoundTrip(provider[1..], model);
      assert [provider[0]] + provider[1..] == provider;
    }
  }

  /** Pool names without `/` are never mistaken for direct addresses, nor the
      other way round. */
  lemma {:induction false} PlainNamesAreNoAddresses(name: string)
    ensures SplitOnce(name).Some? <==> '/' in name
  {
    if name != "" && name[0] != '/' {
      PlainNamesAreNoAddresses(name[1..]);
      assert name == [name[0]] + name[1..];
    }
  }

  // ---- runs, the configuration changing at will between requests

  type Step = (Snapshot, Request)

  function CursorsAfter(steps: seq<Step>): Cursors {
    if steps == [] then map[]
    else Advanced(steps[|steps| - 1].0, CursorsAfter(steps[..|steps| - 1]), steps[|steps| - 1].1)
  }

  lemma NextUsesFit(index: nat, uses: nat, n: nat, limit: Option<int>)
    requires n > 0 && uses + 1 < R.U32
    ensures R.CursorNext(index, uses, n, limit).1 + 1 < R.U32
  {
  }

  /** No use counter ever overflows. */
  lemma {:induction false} CountersNeverOverflow(steps: seq<Step>)
    ensures UsesFit(CursorsAfter(steps))
  {
    if steps != [] {
      var before := CursorsAfter(steps[..|steps| - 1]);
      var (s, r) := steps[|steps| - 1];
      CountersNeverOverflow(steps[..|steps| - 1]);
      if Serves(s, r) && Rotates(s, r.modality, s.pools[r.name]) {
        var (index, uses) := CursorOf(before, r.name);
        assert UsesOf(before, r.name) + 1 < R.U32;
        NextUsesFit(index, uses, |Members(s, r.modality, s.pools[r.name])|, s.pools[r.name].stickyLimit);
      }
      forall pool ensures UsesOf(CursorsAfter(steps), pool) + 1 < R.U32 {
        assert UsesOf(before, pool) + 1 < R.U32;
      }
    }
  }

  /** Whatever happened before, a pool's candidates are tried in a rotation of the
      stable priority order of its usable members, none missing and none twice. */
  lemma OrderIsRotation(s: Snapshot, modality: C.Modality, pool: Pool, steps: seq<Step>, name: string)
    ensures var ms := Members(s, modality, pool);
      var order := Order(s, modality, pool, CursorOf(CursorsAfter(steps), name));
      && multiset(order) == multiset(ms)
      && exists head: nat :: head <= |ms| && order == R.Rotated(R.SortByPriority(ms), head)
  {
    var ms := Members(s, modality, pool);
    var sorted := R.SortByPriority(ms);
    var cursor := CursorOf(CursorsAfter(steps), name);
    R.SortPermutes(ms);
    if Rotates(s, modality, pool) {
      R.RotationPermutes(sorted, cursor.0 % |sorted|);
    } else {
      assert sorted == R.Rotated(sorted, 0);
    }
  }

  /** How many of the requests the pool served. */
  function ServedCount(steps: seq<Step>, pool: string): nat {
    if steps == [] then 0
    else
      var (s, r) := steps[|steps| - 1];
      ServedCount(steps[..|steps| - 1], pool) + if r.name == pool && Serves(s, r) then 1 else 0
  }

  /** This pool and its usable members stay; everything else may change. */
  ghost predicate Stays(steps: seq<Step>, name: string, pool: Pool, ms: seq<R.Member>) {
    forall i :: 0 <= i < |steps| ==>
      name in steps[i].0.pools && steps[i].0.pools[name] == pool && Members(steps[i].0, pool.modality, pool) == ms
  }

  /** Whatever else is requested or reconfigured in between - other pools, the
      wrong modality, direct addresses - a pool's cursor is the one its own
      selections give. */
  lemma {:induction false} CursorsAreIndependent(steps: seq<Step>, name: string, pool: Pool, ms: seq<R.Member>)
    requires Stays(steps, name, pool, ms) && pool.strategy == C.RoundRobin && |ms| > 1
    ensures CursorOf(CursorsAfter(steps), name) == R.CursorAfter(|ms|, pool.stickyLimit, ServedCount(steps, name))
  {
    if steps != [] {
      var front := steps[..|steps| - 1];
      assert forall i :: 0 <= i < |front| ==> front[i] == steps[i];
      CursorsAreIndependent(front, name, pool, ms);
    }
  }

  /** So fairness survives interleaving: the pool's next head is member
      (m / k) mod n after it has served m requests, whatever came between. */
  lemma {:induction false} InterleavedHead(steps: seq<Step>, s: Snapshot, name: string, pool: Pool, ms: seq<R.Member>)
    requires Stays(steps, name, pool, ms) && pool.strategy == C.RoundRobin && |ms| > 1
    requires Members(s, pool.modality, pool) == ms
    ensures var sorted := R.SortByPriority(ms);
      var m := ServedCount(steps, name);
      Order(s, pool.modality, pool, CursorOf(CursorsAfter(steps), name))[0]
        == sorted[(m / R.EffectiveLimit(pool.stickyLimit)) % |sorted|]
  {
    CursorsAreIndependent(steps, name, pool, ms);
    HeadOfRotation(R.SortByPriority(ms), pool.stickyLimit, ServedCount(steps, name));
  }

  lemma HeadOfRotation(sorted: seq<R.Member>, limit: Option<int>, m: nat)
    requires sorted != []
    ensures var head := R.CursorAfter(|sorted|, limit, m).0 % |sorted|;
      R.Rotated(sorted, head)[0] == sorted[(m / R.EffectiveLimit(limit)) % |sorted|]
  {
    R.ClosedForm(|sorted|, limit, m);
    R.SmallMod(R.CursorAfter(|sorted|, limit, m).0, |sorted|);
  }
}
