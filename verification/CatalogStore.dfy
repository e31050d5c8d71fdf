/** The admin edits as the program runs them, one statement after another. */
module CatalogStore {
  import opened Prelude
  import opened Text
  import opened Catalog
  import opened CatalogOverlap

  class Store {
    var providers: map<string, Provider>
    var pools: map<string, Pool>
    var members: map<MemberKey, Member>

    constructor ()
      ensures State() == Tables(map[], map[], map[])
    {
      providers, pools, members := map[], map[], map[];
    }

    ghost function State(): Tables
      reads this
    {
      Tables(providers, pools, members)
    }

    method InsertProvider(id: string, row: Provider) returns (err: Option<Error>)
      modifies `providers
      ensures err == Refusal(old(State()), Op.InsertProvider(id, row))
      ensures State() == Step(old(State()), Op.InsertProvider(id, row))
    {
      if !ProviderEffortOk(row) { return Some(BadRequest); }
      if id in providers { return Some(Conflict); }
      if exists other :: other in providers && other != id && providers[other].name == row.name {
        return Some(Conflict);
      }
      providers := providers[id := row];
      return None;
    }

    /** Looks at every member row of the provider that carries an override. */
    method CheckMemberReasoningOverrides(id: string, p: Provider) returns (ok: bool)
      ensures ok <==> OverridesSurvive(State(), id, p)
    {
      var rows := set k | k in members && k.provider == id && members[k].effort.Some?;
      var left := rows;
      while left != {}
        invariant left <= rows
        invariant forall k :: k in rows && k !in left ==> MemberEffortOk(p, k.model, members[k])
        decreases left
      {
        var k :| k in left;
        var effective := if k.model == "" then p.model else k.model;
        if !Carries(p, effective) {
          assert !MemberEffortOk(p, k.model, members[k]);
          return false;
        }
        left := left - {k};
      }
      forall k | k in members && k.provider == id ensures MemberEffortOk(p, k.model, members[k]) {
        if members[k].effort.Some? { assert k in rows; }
      }
      return true;
    }

    /** The edited row, or why the patch itself is malformed. */
    method ApplyPatch(p: Provider, patch: Patch, now: nat) returns (r: Result<Provider, Error>)
      ensures r == if PatchOk(p, patch) then Ok(Patched(p, patch, now)) else Err(BadRequest)
    {
      var q := p.(updatedAt := now);
      if patch.name.Some? {
        q := q.(name := Trim(patch.name.value));
        if q.name == "" { return Err(BadRequest); }
      }
      var isCodex := q.kind == OauthCodex;
      if patch.baseUrl.Some? && !isCodex {
        q := q.(baseUrl := CleanEndpoint(patch.baseUrl.value));
        if !ValidEndpoint(q.baseUrl) { return Err(BadRequest); }
      }
      if patch.apiKey.Some? && !isCodex { q := q.(apiKey := CleanOpt(patch.apiKey.value)); }
      if patch.model.Some? {
        q := q.(model := Trim(patch.model.value));
        if q.model == "" { return Err(BadRequest); }
      }
      if patch.datasetLogging.Some? { q := q.(datasetLogging := patch.datasetLogging.value); }
      if patch.effort.Some? { q := q.(effort := patch.effort.value); }
      if patch.wire.Some? { q := q.(wire := patch.wire.value); }
      return Ok(q);
    }

    /** Everything `update_provider` looks at before it writes. */
    method CheckUpdate(id: string, patch: Patch, now: nat) returns (r: Result<Provider, Error>)
      ensures r.Ok? <==> CheckPasses(State(), id, patch, now)
      ensures r.Ok? ==> r.value == Patched(providers[id], patch, now)
      ensures r.Err? ==> Refusal(State(), Op.UpdateProvider(id, patch, now)) == Some(r.error)
    {
      if id !in providers { return Err(NotFound); }
      var p := providers[id];
      r := ApplyPatch(p, patch, now);
      if r.Err? { return; }
      var q := r.value;
      if q.wire != p.wire && p.kind == Passthrough {
        if exists k :: k in members && k.provider == id && k.pool in pools && pools[k.pool].wire != PoolSpeaks(q.wire) {
          return Err(BadRequest);
        }
      }
      if !ProviderEffortOk(q) { return Err(BadRequest); }
      var survive := CheckMemberReasoningOverrides(id, q);
      if !survive { return Err(BadRequest); }
    }

    /** The `UPDATE` itself; a row gone meanwhile is no error. */
    method WriteProvider(id: string, q: Provider) returns (err: Option<Error>)
      modifies `providers
      ensures State() == Written(old(State()), id, q)
      ensures err == if id in old(providers) && !NameFree(old(State()), id, q.name) then Some(Conflict) else None
    {
      if id !in providers { return None; }
      if exists other :: other in providers && other != id && providers[other].name == q.name { return Some(Conflict); }
      providers := providers[id := WrittenRow(providers[id], q)];
      return None;
    }

    method UpdateProvider(id: string, patch: Patch, now: nat) returns (err: Option<Error>)
      modifies `providers
      ensures err == Refusal(old(State()), Op.UpdateProvider(id, patch, now))
      ensures State() == Step(old(State()), Op.UpdateProvider(id, patch, now))
    {
      var checked := CheckUpdate(id, patch, now);
      if checked.Err? { return Some(checked.error); }
      err := WriteProvider(id, checked.value);
    }

    method DeleteProvider(id: string) returns (err: Option<Error>)
      modifies `providers, `members
      ensures err == Refusal(old(State()), Op.DeleteProvider(id))
      ensures State() == Step(old(State()), Op.DeleteProvider(id))
    {
      if id !in providers { return Some(NotFound); }
      providers := providers - {id};
      members := map k | k in members && k.provider != id :: members[k];
      return None;
    }

    method InsertPool(id: string, pool: Pool) returns (err: Option<Error>)
      modifies `pools
      ensures err == Refusal(old(State()), Op.InsertPool(id, pool))
      ensures State() == Step(old(State()), Op.InsertPool(id, pool))
    {
      if id in pools { return Some(Conflict); }
      pools := pools[id := pool];
      return None;
    }

    method UpdatePoolStrategy(id: string, strategy: Strategy, stickyLimit: Option<int>) returns (err: Option<Error>)
      modifies `pools
      ensures err == Refusal(old(State()), UpdateStrategy(id, strategy, stickyLimit))
      ensures State() == Step(old(State()), UpdateStrategy(id, strategy, stickyLimit))
    {
      if id !in pools { return Some(NotFound); }
      pools := pools[id := pools[id].(strategy := strategy, stickyLimit := stickyLimit)];
      return None;
    }

    method DeletePool(id: string) returns (err: Option<Error>)
      modifies `pools, `members
      ensures err == Refusal(old(State()), Op.DeletePool(id))
      ensures State() == Step(old(State()), Op.DeletePool(id))
    {
      if id !in pools { return Some(NotFound); }
      pools := pools - {id};
      members := map k | k in members && k.pool != id :: members[k];
      return None;
    }

    /** Everything `upsert_member` looks at before it writes. */
    method CheckMember(key: MemberKey, m: Member) returns (err: Option<Error>)
      ensures err.None? <==> MemberCheckPasses(State(), key, m)
      ensures err.Some? ==> err == Refusal(State(), Op.UpsertMember(key, m))
    {
      if key.pool !in pools { return Some(NotFound); }
      if pools[key.pool].modality == ImageModality {
        if key.provider !in providers { return Some(NotFound); }
        if providers[key.provider].kind != OauthCodex { return Some(BadRequest); }
        if key.model == "" || !IsImageModel(key.model) { return Some(BadRequest); }
      }
      if m.effort.Some? {
        if key.provider !in providers { return Some(NotFound); }
        var effective := if key.model != "" then key.model else providers[key.provider].model;
        if !Carries(providers[key.provider], effective) { return Some(BadRequest); }
      }
      return None;
    }

    /** The `INSERT` itself, which the foreign keys may refuse. */
    method WriteMember(key: MemberKey, m: Member) returns (err: Option<Error>)
      modifies `members
      ensures State() == MemberWritten(old(State()), key, m)
      ensures err == if key.pool in pools && key.provider in providers then None else Some(BadRequest)
    {
      if key.pool !in pools || key.provider !in providers { return Some(BadRequest); }
      members := members[key := m];
      return None;
    }

    /** An empty override is no override. */
    method UpsertMember(pool: string, provider: string, modelOverride: Option<string>, m: Member)
      returns (err: Option<Error>)
      modifies `members
      ensures err == Refusal(old(State()), Op.UpsertMember(MemberKey(pool, provider, modelOverride.GetOr("")), m))
      ensures State() == Step(old(State()), Op.UpsertMember(MemberKey(pool, provider, modelOverride.GetOr("")), m))
    {
      var model := if modelOverride.Some? && modelOverride.value != "" then modelOverride else None;
      var key := MemberKey(pool, provider, model.GetOr(""));
      err := CheckMember(key, m);
      if err.None? { err := WriteMember(key, m); }
    }

    method DeleteMember(pool: string, provider: string, model: Option<string>) returns (err: Option<Error>)
      modifies `members
      ensures err == Refusal(old(State()), Op.DeleteMember(pool, provider, model))
      ensures State() == Step(old(State()), Op.DeleteMember(pool, provider, model))
    {
      var kept := map k | k in members && !Names(k, pool, provider, model) :: members[k];
      if forall k :: k in members ==> k in kept { return Some(NotFound); }
      members := kept;
      return None;
    }
  }
}
