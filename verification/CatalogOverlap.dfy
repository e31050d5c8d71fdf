/** Edits that overlap: a provider edit checks first and writes later, and other
    edits may come in between. When that still leaves every effort supported. */
module CatalogOverlap {
  import opened Prelude
  import opened Text
  import opened Catalog

  /** The check before the write; name conflicts only show at the write. */
  ghost predicate CheckPasses(t: Tables, id: string, patch: Patch, now: nat) {
    var refusal := Refusal(t, UpdateProvider(id, patch, now));
    refusal == None || refusal == Some(Conflict)
  }

  /** The row after the `UPDATE`, which sets neither kind nor creation time. */
  function WrittenRow(live: Provider, q: Provider): Provider { q.(kind := live.kind, createdAt := live.createdAt) }

  ghost function Written(t: Tables, id: string, q: Provider): Tables {
    if id !in t.providers || !NameFree(t, id, q.name) then t
    else t.(providers := t.providers[id := WrittenRow(t.providers[id], q)])
  }

  /** Some edit in the run stores (or is refused to store) this member. */
  predicate UpsertedIn(ops: seq<Op>, k: MemberKey) {
    ops != [] && (UpsertedIn(ops[..|ops| - 1], k) || (ops[|ops| - 1].UpsertMember? && ops[|ops| - 1].key == k))
  }

  predicate DeletedIn(ops: seq<Op>, id: string) {
    ops != [] && (DeletedIn(ops[..|ops| - 1], id) || ops[|ops| - 1] == DeleteProvider(id))
  }

  // ---- what other edits leave alone

  lemma StepKeepsMember(t: Tables, op: Op, k: MemberKey)
    requires Sound(t) && k in Step(t, op).members && !(op.UpsertMember? && op.key == k)
    ensures k in t.members && Step(t, op).members[k] == t.members[k]
    ensures k.provider in t.providers && op != DeleteProvider(k.provider)
  {
    StepKeepsReferential(t, op);
  }

  lemma StepKeepsKind(t: Tables, op: Op, id: string)
    requires id in t.providers && op != DeleteProvider(id)
    ensures id in Step(t, op).providers && Step(t, op).providers[id].kind == t.providers[id].kind
  {
  }

  lemma {:induction false} KindKept(t: Tables, ops: seq<Op>, id: string)
    requires id in t.providers && !DeletedIn(ops, id)
    ensures id in RunOps(t, ops).providers && RunOps(t, ops).providers[id].kind == t.providers[id].kind
  {
    if ops != [] {
      KindKept(t, ops[..|ops| - 1], id);
      StepKeepsKind(RunOps(t, ops[..|ops| - 1]), ops[|ops| - 1], id);
    }
  }

  /** A member nobody stored in between is as it was, and its provider was not
      deleted in between. */
  lemma {:induction false} UntouchedMember(t: Tables, ops: seq<Op>, k: MemberKey)
    requires Sound(t) && k in RunOps(t, ops).members && !UpsertedIn(ops, k)
    ensures k in t.members && RunOps(t, ops).members[k] == t.members[k] && !DeletedIn(ops, k.provider)
  {
    if ops != [] {
      var front := ops[..|ops| - 1];
      SoundnessStays(t, front);
      StepKeepsMember(RunOps(t, front), ops[|ops| - 1], k);
      UntouchedMember(t, front, k);
    }
  }

  // ---- the late write

  /** The members stored in between are all carried by the row. */
  ghost predicate NewcomersFit(t: Tables, ops: seq<Op>, id: string, r: Provider) {
    forall k :: k in t.members && k.provider == id && UpsertedIn(ops, k) ==> MemberEffortOk(r, k.model, t.members[k])
  }

  lemma OldMemberFits(t: Tables, ops: seq<Op>, id: string, patch: Patch, now: nat, k: MemberKey)
    requires Sound(t) && CheckPasses(t, id, patch, now)
    requires var u := RunOps(t, ops); id in u.providers && k in u.members && k.provider == id && !UpsertedIn(ops, k)
    ensures var u := RunOps(t, ops);
      MemberEffortOk(WrittenRow(u.providers[id], Patched(t.providers[id], patch, now)), k.model, u.members[k])
  {
    UntouchedMember(t, ops, k);
    KindKept(t, ops, id);
    assert OverridesSurvive(t, id, Patched(t.providers[id], patch, now));
    assert MemberEffortOk(Patched(t.providers[id], patch, now), k.model, t.members[k]);
  }

  /** An edit checked at `t` and written after any other edits keeps every effort
      supported exactly when its row carries the efforts of the members stored in
      between - and its own, which can only fail if the provider was deleted and
      stored anew in between. */
  lemma {:induction false} LateWriteKeepsEfforts(t: Tables, ops: seq<Op>, id: string, patch: Patch, now: nat)
    requires Sound(t) && CheckPasses(t, id, patch, now)
    requires var u := RunOps(t, ops); id in u.providers && NameFree(u, id, Patched(t.providers[id], patch, now).name)
    ensures var u, q := RunOps(t, ops), Patched(t.providers[id], patch, now);
      var r := WrittenRow(u.providers[id], q);
      && (EffortsSupported(Written(u, id, q)) <==> ProviderEffortOk(r) && NewcomersFit(u, ops, id, r))
      && (!DeletedIn(ops, id) ==> ProviderEffortOk(r))
  {
    var u, q := RunOps(t, ops), Patched(t.providers[id], patch, now);
    var r := WrittenRow(u.providers[id], q);
    SoundnessStays(t, ops);
    if !DeletedIn(ops, id) { KindKept(t, ops, id); }
    if EffortsSupported(Written(u, id, q)) { WrittenRowFits(u, id, q); }
    if ProviderEffortOk(r) && NewcomersFit(u, ops, id, r) {
      forall k | k in u.members && k.provider == id ensures MemberEffortOk(r, k.model, u.members[k]) {
        if !UpsertedIn(ops, k) { OldMemberFits(t, ops, id, patch, now, k); }
      }
      OtherProvidersFit(u, id, q);
    }
  }

  lemma WrittenRowFits(u: Tables, id: string, q: Provider)
    requires id in u.providers && NameFree(u, id, q.name) && EffortsSupported(Written(u, id, q))
    ensures ProviderEffortOk(WrittenRow(u.providers[id], q))
    ensures forall k :: k in u.members && k.provider == id ==>
      MemberEffortOk(WrittenRow(u.providers[id], q), k.model, u.members[k])
  {
    var w := Written(u, id, q);
    assert w.providers[id] == WrittenRow(u.providers[id], q);
    forall k | k in u.members && k.provider == id ensures MemberEffortOk(w.providers[id], k.model, u.members[k]) {
      assert k in w.members;
    }
  }

  lemma OtherProvidersFit(u: Tables, id: string, q: Provider)
    requires EffortsSupported(u) && id in u.providers && NameFree(u, id, q.name)
    requires var r := WrittenRow(u.providers[id], q);
      ProviderEffortOk(r) && forall k :: k in u.members && k.provider == id ==> MemberEffortOk(r, k.model, u.members[k])
    ensures EffortsSupported(Written(u, id, q))
  {
    var w := Written(u, id, q);
    forall k | k in w.members && k.provider in w.providers
      ensures MemberEffortOk(w.providers[k.provider], k.model, w.members[k])
    {
      if k.provider != id { assert k.provider in u.providers; }
    }
  }

  // ---- the late member

  ghost function MemberWritten(t: Tables, key: MemberKey, m: Member): Tables {
    if key.pool in t.pools && key.provider in t.providers then t.(members := t.members[key := m]) else t
  }

  predicate EditedIn(ops: seq<Op>, id: string) {
    ops != [] &&
      (EditedIn(ops[..|ops| - 1], id) || ops[|ops| - 1] == DeleteProvider(id)
       || (ops[|ops| - 1].UpdateProvider? && ops[|ops| - 1].id == id))
  }

  lemma {:induction false} ProviderKept(t: Tables, ops: seq<Op>, id: string)
    requires id in t.providers && !EditedIn(ops, id)
    ensures id in RunOps(t, ops).providers && RunOps(t, ops).providers[id] == t.providers[id]
  {
    if ops != [] { ProviderKept(t, ops[..|ops| - 1], id); }
  }

  /** The check before the write; that the provider exists may only show at the
      write, as a foreign key. */
  ghost predicate MemberCheckPasses(t: Tables, key: MemberKey, m: Member) {
    var refusal := Refusal(t, UpsertMember(key, m));
    refusal == None || (refusal == Some(BadRequest) && key.provider !in t.providers)
  }

  /** A member checked at `t` and written after any other edits, its keys still
      resolving, keeps every effort supported exactly when the provider's row at the
      write carries its effort - as it does if that provider was not edited. */
  lemma {:induction false} LateMemberKeepsEfforts(t: Tables, ops: seq<Op>, key: MemberKey, m: Member)
    requires Sound(t) && MemberCheckPasses(t, key, m)
    requires var u := RunOps(t, ops); key.pool in u.pools && key.provider in u.providers
    ensures var u := RunOps(t, ops);
      var fits := MemberEffortOk(u.providers[key.provider], key.model, m);
      && (EffortsSupported(MemberWritten(u, key, m)) <==> fits)
      && (!EditedIn(ops, key.provider) ==> fits)
  {
    var u := RunOps(t, ops);
    var w := MemberWritten(u, key, m);
    SoundnessStays(t, ops);
    if key.provider in t.providers && !EditedIn(ops, key.provider) { ProviderKept(t, ops, key.provider); }
    if EffortsSupported(w) { assert key in w.members && w.members[key] == m; }
  }

  // ---- an instance

  lemma GptFiveIsNotM(p: Provider)
    requires p.kind == Passthrough && p.wire == OpenAi
    ensures Carries(p, "gpt-5") && !Carries(p, "m") && Trim("m") == "m"
  {
    assert Lower("gpt-5") == "gpt-5" && Lower("m") == "m";
    assert StartsWith("gpt-5", "gpt-5") && !StartsWith("m", "gpt-5");
    assert TrimStart("m") == "m" && TrimEnd("m") == "m";
  }

  /** The condition can fail: a member is stored between check and write whose
      effort the new model does not carry. */
  lemma OverlappingEditsCanStrand()
    returns (t: Tables, patch: Patch, key: MemberKey, m: Member)
    ensures Sound(t) && CheckPasses(t, key.provider, patch, 0) && Refusal(t, UpsertMember(key, m)).None?
    ensures var u, q := RunOps(t, [UpsertMember(key, m)]), Patched(t.providers[key.provider], patch, 0);
      && key.provider in u.providers && NameFree(u, key.provider, q.name)
      && !NewcomersFit(u, [UpsertMember(key, m)], key.provider, WrittenRow(u.providers[key.provider], q))
      && !EffortsSupported(Written(u, key.provider, q))
  {
    var p := Provider("n", OpenAi, Passthrough, None, None, "gpt-5", false, None, 0, 0);
    t := Tables(map["p" := p], map["q" := Pool(ServesOpenAi, 0, Priority, None, Chat)], map[]);
    patch := Patch(None, None, None, Some("m"), None, None, None);
    key, m := MemberKey("q", "p", ""), Member(0, None, Some(High));
    GptFiveIsNotM(p);
    var q := Patched(p, patch, 0);
    GptFiveIsNotM(q);
    var ops := [UpsertMember(key, m)];
    assert ops[..0] == [];
    var u := RunOps(t, ops);
    assert Refusal(t, ops[0]).None?;
    assert RunOps(t, []) == t && u == Step(t, ops[0]);
    assert key in u.members && u.members[key] == m && UpsertedIn(ops, key);
    LateWriteKeepsEfforts(t, ops, "p", patch, 0);
  }
}
