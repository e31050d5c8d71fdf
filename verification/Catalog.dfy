/** The configuration tables: providers, pools and pool members, as the admin
    API edits them, and the validity of stored reasoning efforts. */
module Catalog {
  import opened Prelude
  import opened Text

  datatype Wire = OpenAi | Anthropic
  datatype PoolWire = ServesOpenAi | ServesAnthropic | ServesAny
  datatype Kind = Passthrough | OauthCodex | OauthCommandCode
  datatype Effort = Low | Medium | High
  datatype Modality = Chat | ImageModality
  datatype Strategy = Priority | RoundRobin

  datatype Provider = Provider(
    name: string, wire: Wire, kind: Kind, baseUrl: Option<string>, apiKey: Option<string>, model: string,
    datasetLogging: bool, effort: Option<Effort>, createdAt: nat, updatedAt: nat)

  datatype Pool = Pool(wire: PoolWire, createdAt: nat, strategy: Strategy, stickyLimit: Option<int>, modality: Modality)

  /** A member's identity; `model` is `""` when the provider's own model is used. */
  datatype MemberKey = MemberKey(pool: string, provider: string, model: string)

  datatype Member = Member(priority: int, datasetLogging: Option<bool>, effort: Option<Effort>)

  datatype Error = BadRequest | NotFound | Conflict

  datatype Tables = Tables(providers: map<string, Provider>, pools: map<string, Pool>, members: map<MemberKey, Member>)

  // ---- capability

  datatype Capability = Unsupported | OpenAiEffort | AnthropicThinkingBudget

  predicate WantsMessagesShape(model: string) { Contains(Lower(model), "claude") }

  function CapabilityFor(kind: Kind, wire: Wire, model: string): Capability {
    var m := Lower(model);
    match kind
    case OauthCodex => OpenAiEffort
    case OauthCommandCode => if WantsMessagesShape(m) then AnthropicThinkingBudget else Unsupported
    case Passthrough =>
      if wire == OpenAi && StartsWith(m, "gpt-5") then OpenAiEffort
      else if wire == Anthropic &&
        (StartsWith(m, "claude-sonnet-") || StartsWith(m, "claude-opus-") || StartsWith(m, "claude-haiku-"))
      then AnthropicThinkingBudget
      else Unsupported
  }

  predicate Carries(p: Provider, model: string) { CapabilityFor(p.kind, p.wire, model) != Unsupported }

  const MAX_DIRECT_MODEL_LEN: nat := 200

  predicate IsImageModel(model: string) {
    && model != [] && Utf8Length(model) <= MAX_DIRECT_MODEL_LEN
    && (forall k :: 0 <= k < |model| ==> !IsControl(model[k]) && !IsSpace(model[k]))
    && ((StartsWith(model, "gpt-image-") && |model| > 10) || (EndsWith(model, "-image") && |model| > 6))
  }

  /** The model a member's requests go to. */
  function Effective(p: Provider, model: string): string { if model == "" then p.model else model }

  // ---- what the tables always satisfy

  predicate ProviderEffortOk(p: Provider) { p.effort.Some? ==> Carries(p, p.model) }

  predicate MemberEffortOk(p: Provider, model: string, m: Member) { m.effort.Some? ==> Carries(p, Effective(p, model)) }

  /** Every stored effort is one its effective model carries. */
  ghost predicate EffortsSupported(t: Tables) {
    && (forall id :: id in t.providers ==> ProviderEffortOk(t.providers[id]))
    && (forall k :: k in t.members && k.provider in t.providers ==>
          MemberEffortOk(t.providers[k.provider], k.model, t.members[k]))
  }

  /** Foreign keys resolve and provider names are unique. */
  ghost predicate Referential(t: Tables) {
    && (forall k :: k in t.members ==> k.pool in t.pools && k.provider in t.providers)
    && (forall a, b :: a in t.providers && b in t.providers && t.providers[a].name == t.providers[b].name ==> a == b)
  }

  /** Image pools hold only Codex providers under an image model. */
  ghost predicate ImagePoolsFit(t: Tables) {
    forall k ::
      k in t.members && k.pool in t.pools && k.provider in t.providers && t.pools[k.pool].modality == ImageModality ==>
      t.providers[k.provider].kind == OauthCodex && IsImageModel(k.model)
  }

  ghost predicate Sound(t: Tables) { EffortsSupported(t) && Referential(t) && ImagePoolsFit(t) }

  // ---- patches

  /** `None`: leave the column alone. */
  datatype Patch = Patch(name: Option<string>, baseUrl: Option<Option<string>>, apiKey: Option<Option<string>>,
                         model: Option<string>, wire: Option<Wire>, datasetLogging: Option<bool>,
                         effort: Option<Option<Effort>>)

  function CleanOpt(v: Option<string>): Option<string> {
    if v.Some? && Trim(v.value) != "" then Some(Trim(v.value)) else None
  }

  function TrimSlashes(s: string): string { if s != "" && s[|s| - 1] == '/' then TrimSlashes(s[..|s| - 1]) else s }

  function CleanEndpoint(v: Option<string>): Option<string> {
    var c := CleanOpt(v);
    if c.Some? then Some(TrimSlashes(c.value)) else None
  }

  predicate ValidEndpoint(url: Option<string>) {
    url.Some? ==> StartsWith(url.value, "http://") || StartsWith(url.value, "https://")
  }

  /** The edited row, before it is checked against the tables. */
  function Patched(p: Provider, patch: Patch, now: nat): Provider {
    var codex := p.kind == OauthCodex;
    p.(name := if patch.name.Some? then Trim(patch.name.value) else p.name,
       baseUrl := if patch.baseUrl.Some? && !codex then CleanEndpoint(patch.baseUrl.value) else p.baseUrl,
       apiKey := if patch.apiKey.Some? && !codex then CleanOpt(patch.apiKey.value) else p.apiKey,
       model := if patch.model.Some? then Trim(patch.model.value) else p.model,
       wire := patch.wire.GetOr(p.wire),
       datasetLogging := patch.datasetLogging.GetOr(p.datasetLogging),
       effort := patch.effort.GetOr(p.effort),
       updatedAt := now)
  }

  /** The patch's own values are well formed. */
  predicate PatchOk(p: Provider, patch: Patch) {
    && (patch.name.Some? ==> Trim(patch.name.value) != "")
    && (patch.baseUrl.Some? && p.kind != OauthCodex ==> ValidEndpoint(CleanEndpoint(patch.baseUrl.value)))
    && (patch.model.Some? ==> Trim(patch.model.value) != "")
  }

  function PoolSpeaks(w: Wire): PoolWire { if w == OpenAi then ServesOpenAi else ServesAnthropic }

  /** Some pool of the provider has another wire format. The comparison is on
      the stored value, so a pool that serves any format counts as another. */
  ghost predicate Stranded(t: Tables, id: string, w: Wire) {
    exists k :: k in t.members && k.provider == id && k.pool in t.pools && t.pools[k.pool].wire != PoolSpeaks(w)
  }

  /** The member overrides that hang on the provider stay supported. */
  ghost predicate OverridesSurvive(t: Tables, id: string, p: Provider) {
    forall k :: k in t.members && k.provider == id ==> MemberEffortOk(p, k.model, t.members[k])
  }

  ghost predicate NameFree(t: Tables, id: string, name: string) {
    forall other :: other in t.providers && other != id ==> t.providers[other].name != name
  }

  // ---- the operations, on values

  datatype Op =
    | InsertProvider(id: string, row: Provider)
    | UpdateProvider(id: string, patch: Patch, now: nat)
    | DeleteProvider(id: string)
    | InsertPool(id: string, pool: Pool)
    | UpdateStrategy(id: string, strategy: Strategy, stickyLimit: Option<int>)
    | DeletePool(id: string)
    | UpsertMember(key: MemberKey, member: Member)
    | DeleteMember(poolId: string, provider: string, model: Option<string>)

  /** Why an operation is refused, if it is. */
  ghost function Refusal(t: Tables, op: Op): Option<Error> {
    match op
    case InsertProvider(id, row) =>
      if !ProviderEffortOk(row) then Some(BadRequest)
      else if id in t.providers || !NameFree(t, id, row.name) then Some(Conflict)
      else None
    case UpdateProvider(id, patch, now) =>
      if id !in t.providers then Some(NotFound)
      else
        var p := t.providers[id];
        var q := Patched(p, patch, now);
        if !PatchOk(p, patch) || (q.wire != p.wire && p.kind == Passthrough && Stranded(t, id, q.wire))
           || !ProviderEffortOk(q) || !OverridesSurvive(t, id, q) then Some(BadRequest)
        else if !NameFree(t, id, q.name) then Some(Conflict)
        else None
    case DeleteProvider(id) => if id in t.providers then None else Some(NotFound)
    case InsertPool(id, _) => if id in t.pools then Some(Conflict) else None
    case UpdateStrategy(id, _, _) => if id in t.pools then None else Some(NotFound)
    case DeletePool(id) => if id in t.pools then None else Some(NotFound)
    case UpsertMember(key, member) =>
      if key.pool !in t.pools then Some(NotFound)
      else
        var image := t.pools[key.pool].modality == ImageModality;
        if key.provider !in t.providers then Some(if image || member.effort.Some? then NotFound else BadRequest)
        else
          var p := t.providers[key.provider];
          if (image && !(p.kind == OauthCodex && IsImageModel(key.model))) || !MemberEffortOk(p, key.model, member)
          then Some(BadRequest)
          else None
    case DeleteMember(pool, provider, model) =>
      if exists k :: k in t.members && Names(k, pool, provider, model) then None else Some(NotFound)
  }

  predicate Names(k: MemberKey, pool: string, provider: string, model: Option<string>) {
    k.pool == pool && k.provider == provider && (model.Some? ==> k.model == model.value)
  }

  /** What an accepted operation leaves; deletes cascade to members. */
  ghost function Applied(t: Tables, op: Op): Tables
    requires Refusal(t, op).None?
  {
    match op
    case InsertProvider(id, row) => t.(providers := t.providers[id := row])
    case UpdateProvider(id, patch, now) => t.(providers := t.providers[id := Patched(t.providers[id], patch, now)])
    case DeleteProvider(id) =>
      t.(providers := t.providers - {id}, members := map k | k in t.members && k.provider != id :: t.members[k])
    case InsertPool(id, pool) => t.(pools := t.pools[id := pool])
    case UpdateStrategy(id, strategy, limit) =>
      t.(pools := t.pools[id := t.pools[id].(strategy := strategy, stickyLimit := limit)])
    case DeletePool(id) =>
      t.(pools := t.pools - {id}, members := map k | k in t.members && k.pool != id :: t.members[k])
    case UpsertMember(key, member) => t.(members := t.members[key := member])
    case DeleteMember(pool, provider, model) =>
      t.(members := map k | k in t.members && !Names(k, pool, provider, model) :: t.members[k])
  }

  ghost function Step(t: Tables, op: Op): Tables { if Refusal(t, op).None? then Applied(t, op) else t }

  ghost function RunOps(t: Tables, ops: seq<Op>): Tables {
    if ops == [] then t else Step(RunOps(t, ops[..|ops| - 1]), ops[|ops| - 1])
  }

  lemma StepKeepsEfforts(t: Tables, op: Op)
    requires Sound(t)
    ensures EffortsSupported(Step(t, op))
  {
    var u := Step(t, op);
    forall k | k in u.members && k.provider in u.providers
      ensures MemberEffortOk(u.providers[k.provider], k.model, u.members[k])
    {
      if k in t.members {
        assert k.provider in t.providers;
        if op.UpdateProvider? && Refusal(t, op).None? && k.provider == op.id {
          assert OverridesSurvive(t, op.id, Patched(t.providers[op.id], op.patch, op.now));
        }
      }
    }
  }

  lemma StepKeepsReferential(t: Tables, op: Op)
    requires Sound(t)
    ensures Referential(Step(t, op))
  {
  }

  lemma StepKeepsImagePools(t: Tables, op: Op)
    requires Sound(t)
    ensures ImagePoolsFit(Step(t, op))
  {
  }

  lemma {:induction false} SoundnessStays(t: Tables, ops: seq<Op>)
    requires Sound(t)
    ensures Sound(RunOps(t, ops))
  {
    if ops != [] {
      var before, op := RunOps(t, ops[..|ops| - 1]), ops[|ops| - 1];
      SoundnessStays(t, ops[..|ops| - 1]);
      StepKeepsEfforts(before, op);
      StepKeepsReferential(before, op);
      StepKeepsImagePools(before, op);
    }
  }

  /** Over every run of admin edits, whatever is refused on the way. */
  lemma {:induction false} EffortsStaySupported(ops: seq<Op>)
    ensures Sound(RunOps(Tables(map[], map[], map[]), ops))
  {
    SoundnessStays(Tables(map[], map[], map[]), ops);
  }

  // ---- the wire-format guard

  predicate Accepts(pool: PoolWire, w: Wire) { pool == ServesAny || pool == PoolSpeaks(w) }

  /** Every pool of the provider serves clients of this format. */
  ghost predicate PoolsAccept(t: Tables, id: string, w: Wire) {
    forall k :: k in t.members && k.provider == id && k.pool in t.pools ==> Accepts(t.pools[k.pool].wire, w)
  }

  ghost predicate InAnyPool(t: Tables, id: string) {
    exists k :: k in t.members && k.provider == id && k.pool in t.pools && t.pools[k.pool].wire == ServesAny
  }

  /** When all the provider's pools serve the format, the guard refuses it exactly
      when one of them serves any format. */
  lemma GuardRefusesServed(t: Tables, id: string, w: Wire)
    requires PoolsAccept(t, id, w)
    ensures Stranded(t, id, w) <==> InAnyPool(t, id)
  {
  }

  /** Such an edit: the provider's only pool serves any format. */
  lemma AnyPoolBlocksFlip(id: string, pool: string, p: Provider) returns (t: Tables, patch: Patch)
    requires p.kind == Passthrough && p.wire == OpenAi && p.effort.None?
    ensures Sound(t) && PoolsAccept(t, id, Anthropic) && t.providers == map[id := p]
    ensures patch.wire == Some(Anthropic) && PatchOk(p, patch) && ProviderEffortOk(Patched(p, patch, p.updatedAt))
    ensures Refusal(t, UpdateProvider(id, patch, p.updatedAt)) == Some(BadRequest)
  {
    var key := MemberKey(pool, id, "");
    t := Tables(map[id := p], map[pool := Pool(ServesAny, 0, Priority, None, Chat)], map[key := Member(0, None, None)]);
    patch := Patch(None, None, None, None, Some(Anthropic), None, None);
    assert key in t.members && t.pools[key.pool].wire == ServesAny;
    assert InAnyPool(t, id);
    GuardRefusesServed(t, id, Anthropic);
  }
}
