/** The candidates a caller gets, member by member: which provider and model each
    one is, and in what order they come. */
module PoolCandidates {
  import opened Prelude
  import opened Text
  import opened PoolSelection
  import C = Catalog
  import R = RoundRobin

  /** Candidate `c` is member `m`: its provider, under the model it overrides or
      else the provider's own. */
  predicate Is(s: Snapshot, c: Candidate, m: R.Member) {
    && m.providerId in s.providers && c.provider == m.providerId
    && (if m.modelOverride.Some? then c.model == m.modelOverride.value
        else c.model == s.providers[m.providerId].model)
  }

  /** The members whose provider exists, at their positions in the list. */
  function Known(s: Snapshot, ms: seq<R.Member>): (r: seq<nat>)
    ensures forall i :: 0 <= i < |r| ==> r[i] < |ms|
  {
    if ms == [] then []
    else Known(s, ms[..|ms| - 1]) + if ms[|ms| - 1].providerId in s.providers then [|ms| - 1] else []
  }

  lemma {:induction false} KnownAre(s: Snapshot, ms: seq<R.Member>)
    ensures forall p: nat :: p in Known(s, ms) <==> p < |ms| && ms[p].providerId in s.providers
  {
    if ms != [] { KnownAre(s, ms[..|ms| - 1]); }
  }

  lemma {:induction false} KnownInOrder(s: Snapshot, ms: seq<R.Member>)
    ensures Ascending(Known(s, ms))
  {
    if ms != [] { KnownInOrder(s, ms[..|ms| - 1]); }
  }

  predicate AllKnown(s: Snapshot, ms: seq<R.Member>) {
    forall p :: 0 <= p < |ms| ==> ms[p].providerId in s.providers
  }

  lemma {:induction false} KnownAll(s: Snapshot, ms: seq<R.Member>)
    requires AllKnown(s, ms)
    ensures |Known(s, ms)| == |ms| && forall i :: 0 <= i < |ms| ==> Known(s, ms)[i] == i
  {
    if ms != [] { KnownAll(s, ms[..|ms| - 1]); }
  }

  lemma {:induction false} CandidatesAre(s: Snapshot, ms: seq<R.Member>)
    ensures |CandidatesOf(s, ms)| == |Known(s, ms)|
    ensures forall i :: 0 <= i < |Known(s, ms)| ==>
      Is(s, CandidatesOf(s, ms)[i], ms[Known(s, ms)[i]])
  {
    if ms != [] { CandidatesAre(s, ms[..|ms| - 1]); }
  }

  // ---- what a served request gets

  function OrderFor(s: Snapshot, cursors: Cursors, r: Request): seq<R.Member>
    requires Serves(s, r)
  {
    Order(s, r.modality, s.pools[r.name], CursorOf(cursors, r.name))
  }

  /** The candidates are the members with a provider, in the order of the pool;
      with no provider missing, candidate `i` is member `i`. */
  lemma {:induction false} SelectedAre(s: Snapshot, cursors: Cursors, r: Request)
    requires Serves(s, r)
    ensures var order, selection := OrderFor(s, cursors, r), Selected(s, cursors, r);
      var places := Known(s, order);
      && selection.Some? && selection.value.pool == Some(r.name) && |selection.value.candidates| == |places|
      && Ascending(places) && (forall p: nat :: p in places <==> p < |order| && order[p].providerId in s.providers)
      && (forall i :: 0 <= i < |places| ==> Is(s, selection.value.candidates[i], order[places[i]]))
      && (AllKnown(s, order) ==> |places| == |order| && forall i :: 0 <= i < |order| ==> places[i] == i)
  {
    var order := OrderFor(s, cursors, r);
    KnownAre(s, order);
    KnownInOrder(s, order);
    CandidatesAre(s, order);
    if AllKnown(s, order) { KnownAll(s, order); }
  }

  lemma SameProviders(s: Snapshot, ms: seq<R.Member>, order: seq<R.Member>)
    requires AllKnown(s, ms) && multiset(order) == multiset(ms)
    ensures AllKnown(s, order)
  {
    forall p | 0 <= p < |order| ensures order[p].providerId in s.providers {
      assert order[p] in multiset(order);
      assert order[p] in ms;
    }
  }

  /** A round-robin pool that kept its members while it served m requests answers
      the next one with member (m / k) mod n of its priority order first, where k is
      its limit in effect, whatever came in between. */
  lemma {:induction false} ServedFirst(steps: seq<Step>, s: Snapshot, name: string, pool: Pool, ms: seq<R.Member>)
    requires Stays(steps, name, pool, ms) && pool.strategy == C.RoundRobin && |ms| > 1
    requires name in s.pools && s.pools[name] == pool && Members(s, pool.modality, pool) == ms && AllKnown(s, ms)
    ensures var selection := Selected(s, CursorsAfter(steps), Request(pool.modality, name));
      var sorted, m := R.SortByPriority(ms), ServedCount(steps, name);
      && selection.Some? && |selection.value.candidates| == |ms|
      && Is(s, selection.value.candidates[0], sorted[(m / R.EffectiveLimit(pool.stickyLimit)) % |ms|])
  {
    var r, cursors := Request(pool.modality, name), CursorsAfter(steps);
    OrderIsRotation(s, pool.modality, pool, steps, name);
    SameProviders(s, ms, OrderFor(s, cursors, r));
    SelectedAre(s, cursors, r);
    InterleavedHead(steps, s, name, pool, ms);
  }

  /** In a pool by priority the candidates never come by falling priority. */
  lemma {:induction false} ServedByPriority(s: Snapshot, cursors: Cursors, r: Request)
    requires Serves(s, r) && s.pools[r.name].strategy == C.Priority
    ensures var order, places := OrderFor(s, cursors, r), Known(s, OrderFor(s, cursors, r));
      forall i, j :: 0 <= i < j < |places| ==> order[places[i]].priority <= order[places[j]].priority
  {
    R.SortSorts(Members(s, r.modality, s.pools[r.name]));
    SelectedAre(s, cursors, r);
  }

  // ---- image pools

  /** The usable members of an image pool, at their positions. */
  function Usable(s: Snapshot, ms: seq<R.Member>): (r: seq<nat>)
    ensures forall i :: 0 <= i < |r| ==> r[i] < |ms|
  {
    if ms == [] then []
    else Usable(s, ms[..|ms| - 1]) + if ImageMember(s, ms[|ms| - 1]) then [|ms| - 1] else []
  }

  /** A Codex provider under an image model. */
  predicate ImageMember(s: Snapshot, m: R.Member) {
    && m.providerId in s.providers && s.providers[m.providerId].kind == C.OauthCodex
    && m.modelOverride.Some? && C.IsImageModel(m.modelOverride.value)
  }

  /** An image request sees exactly the usable members, in list order. */
  lemma {:induction false} UsableAre(s: Snapshot, ms: seq<R.Member>)
    ensures var places := Usable(s, ms);
      && |EligibleOf(s, ms)| == |places| && Ascending(places)
      && (forall p: nat :: p in places <==> p < |ms| && ImageMember(s, ms[p]))
      && (forall i :: 0 <= i < |places| ==> EligibleOf(s, ms)[i] == ms[places[i]])
  {
    if ms != [] { UsableAre(s, ms[..|ms| - 1]); }
  }

  // ---- direct addresses

  /** `provider/model` is that provider under that model, and nothing else, when
      the provider exists and the model is acceptable; a name without `/` that is
      no pool gets nothing. */
  lemma {:induction false} DirectAddress(s: Snapshot, cursors: Cursors, modality: C.Modality, provider: string,
                                              model: string)
    requires '/' !in provider && provider + "/" + model !in s.pools
    ensures var ok := provider in s.providers &&
        (if modality == C.Chat then PlainModel(model)
         else s.providers[provider].kind == C.OauthCodex && C.IsImageModel(model));
      Selected(s, cursors, Request(modality, provider + "/" + model))
        == if ok then Some(Selection(None, [Candidate(provider, model)])) else None
  {
    AddressRoundTrip(provider, model);
  }

  lemma NoSlashNoAddress(s: Snapshot, cursors: Cursors, r: Request)
    requires r.name !in s.pools && '/' !in r.name
    ensures Selected(s, cursors, r) == None
  {
    PlainNamesAreNoAddresses(r.name);
  }
}
