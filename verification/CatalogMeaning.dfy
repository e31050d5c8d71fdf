/** Which models carry an effort or draw pictures, read off their names, and that the
    admin checks refuse no more than they have to. */
module CatalogMeaning {
  import opened Prelude
  import opened Text
  import opened Catalog

  predicate SpellsClaude(model: string, i: nat) { OccursAt(Lower(model), "claude", i) }

  predicate Begins(model: string, family: string) { family <= Lower(model) }

  lemma LowerTwice(s: string)
    ensures Lower(Lower(s)) == Lower(s)
  {
  }

  lemma ClaudeMeans(model: string)
    ensures Contains(Lower(model), "claude") <==> exists i: nat :: SpellsClaude(model, i)
  {
    ContainsMeans(Lower(model), "claude");
    if i: nat :| OccursAt(Lower(model), "claude", i) { assert SpellsClaude(model, i); }
  }

  /** Capitals aside: Codex always takes an effort; Command Code a thinking budget
      for models with "claude" in their names; a plain OpenAI endpoint an effort for
      gpt-5 models, a plain Anthropic one a budget for the three Claude families. */
  lemma CapabilityMeans(kind: Kind, wire: Wire, model: string)
    ensures CapabilityFor(kind, wire, model) == OpenAiEffort <==>
      kind == OauthCodex || (kind == Passthrough && wire == OpenAi && Begins(model, "gpt-5"))
    ensures CapabilityFor(kind, wire, model) == AnthropicThinkingBudget <==>
      || (kind == OauthCommandCode && exists i: nat :: SpellsClaude(model, i))
      || (kind == Passthrough && wire == Anthropic
          && (Begins(model, "claude-sonnet-") || Begins(model, "claude-opus-") || Begins(model, "claude-haiku-")))
  {
    LowerTwice(model);
    ClaudeMeans(model);
  }

  lemma PrefixMeans(s: string, prefix: string)
    ensures StartsWith(s, prefix) && |s| > |prefix| <==> exists x :: x != "" && s == prefix + x
  {
    if StartsWith(s, prefix) && |s| > |prefix| { assert s[|prefix|..] != "" && s == prefix + s[|prefix|..]; }
  }

  lemma SuffixMeans(s: string, suffix: string)
    ensures EndsWith(s, suffix) && |s| > |suffix| <==> exists x :: x != "" && s == x + suffix
  {
    var n := |s| - |suffix|;
    if EndsWith(s, suffix) && |s| > |suffix| { assert s[..n] != "" && s == s[..n] + suffix; }
  }

  /** Image models are named `gpt-image-` and something, or something and `-image`. */
  lemma ImageModelMeans(model: string)
    ensures IsImageModel(model) <==>
      && Utf8Length(model) <= 200
      && (forall k :: 0 <= k < |model| ==> !IsControl(model[k]) && !IsSpace(model[k]))
      && ((exists x :: x != "" && model == "gpt-image-" + x) || (exists x :: x != "" && model == x + "-image"))
  {
    PrefixMeans(model, "gpt-image-");
    SuffixMeans(model, "-image");
  }

  // ---- the checks are exact

  function WithProvider(t: Tables, id: string, p: Provider): Tables { t.(providers := t.providers[id := p]) }

  function WithMember(t: Tables, key: MemberKey, m: Member): Tables { t.(members := t.members[key := m]) }

  /** A well-formed edit of a provider, its name free and its pools on its format, is
      accepted if and only if every effort is still supported after it. */
  lemma UpdateCheckIsExact(t: Tables, id: string, patch: Patch, now: nat)
    requires Sound(t) && id in t.providers && PatchOk(t.providers[id], patch)
    requires var p, q := t.providers[id], Patched(t.providers[id], patch, now);
      NameFree(t, id, q.name) && (q.wire == p.wire || p.kind != Passthrough || !Stranded(t, id, q.wire))
    ensures var q := Patched(t.providers[id], patch, now);
      Refusal(t, UpdateProvider(id, patch, now)).None? <==> EffortsSupported(WithProvider(t, id, q))
  {
    var q := Patched(t.providers[id], patch, now);
    var u := WithProvider(t, id, q);
    if EffortsSupported(u) {
      assert u.providers[id] == q;
      forall k | k in t.members && k.provider == id ensures MemberEffortOk(q, k.model, t.members[k]) {
        assert k in u.members && k.provider in u.providers;
      }
    }
    if Refusal(t, UpdateProvider(id, patch, now)).None? { StepKeepsEfforts(t, UpdateProvider(id, patch, now)); }
  }

  /** A new provider with a free id and name, likewise. */
  lemma InsertCheckIsExact(t: Tables, id: string, row: Provider)
    requires Sound(t) && id !in t.providers && NameFree(t, id, row.name)
    ensures Refusal(t, InsertProvider(id, row)).None? <==> EffortsSupported(WithProvider(t, id, row))
  {
    var u := WithProvider(t, id, row);
    if EffortsSupported(u) { assert u.providers[id] == row; }
    if Refusal(t, InsertProvider(id, row)).None? { StepKeepsEfforts(t, InsertProvider(id, row)); }
  }

  /** A member whose keys resolve, likewise; an image pool also keeps out misfits. */
  lemma MemberCheckIsExact(t: Tables, key: MemberKey, m: Member)
    requires Sound(t) && key.pool in t.pools && key.provider in t.providers
    ensures var u := WithMember(t, key, m);
      Refusal(t, UpsertMember(key, m)).None? <==> EffortsSupported(u) && ImagePoolsFit(u)
  {
    var u := WithMember(t, key, m);
    assert key in u.members && u.members[key] == m;
    if Refusal(t, UpsertMember(key, m)).None? {
      StepKeepsEfforts(t, UpsertMember(key, m));
      StepKeepsImagePools(t, UpsertMember(key, m));
    }
  }

  // ---- patches

  /** A patch changes what it names, and nothing else: never a provider's kind or
      creation time, and not the endpoint or key of a Codex provider. */
  lemma PatchMeans(p: Provider, patch: Patch, now: nat)
    ensures var q := Patched(p, patch, now);
      && q.kind == p.kind && q.createdAt == p.createdAt && q.updatedAt == now
      && (patch.name.None? ==> q.name == p.name)
      && (patch.model.None? ==> q.model == p.model)
      && (patch.baseUrl.None? || p.kind == OauthCodex ==> q.baseUrl == p.baseUrl)
      && (patch.apiKey.None? || p.kind == OauthCodex ==> q.apiKey == p.apiKey)
      && q.wire == (if patch.wire.Some? then patch.wire.value else p.wire)
      && q.datasetLogging == (if patch.datasetLogging.Some? then patch.datasetLogging.value else p.datasetLogging)
      && q.effort == (if patch.effort.Some? then patch.effort.value else p.effort)
  {
  }

  /** A blank key or endpoint clears it. */
  lemma BlankClears(p: Provider, patch: Patch, now: nat)
    requires p.kind != OauthCodex
    ensures patch.apiKey.Some? && (patch.apiKey.value.None? || Blank(patch.apiKey.value.value)) <==>
      patch.apiKey.Some? && Patched(p, patch, now).apiKey.None?
  {
    if patch.apiKey.Some? && patch.apiKey.value.Some? { TrimmedAway(patch.apiKey.value.value); }
  }

  // ---- deletions

  /** A deletion takes exactly what it names and the members that hang on it; a member
      deletion without a model takes all of the provider's members in that pool. */
  lemma DeletionsTake(t: Tables, op: Op, k: MemberKey)
    requires Refusal(t, op).None? && (op.DeleteProvider? || op.DeletePool? || op.DeleteMember?)
    ensures var u := Step(t, op);
      && u.providers == (if op.DeleteProvider? then t.providers - {op.id} else t.providers)
      && u.pools == (if op.DeletePool? then t.pools - {op.id} else t.pools)
      && (k in u.members ==> k in t.members && u.members[k] == t.members[k])
      && (k in t.members ==>
            (k !in u.members <==>
              || (op.DeleteProvider? && k.provider == op.id)
              || (op.DeletePool? && k.pool == op.id)
              || (op.DeleteMember? && k.pool == op.poolId && k.provider == op.provider
                  && (op.model.None? || op.model == Some(k.model)))))
  {
  }
}
