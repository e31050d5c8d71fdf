/** What an upstream answer does to the circuit breaker and what the caller gets,
    told by the answer alone. */
module FailoverEffects {
  import opened Prelude
  import opened Runtime
  import opened Failover
  import FailoverRun

  // ---- which answer decides

  /** The first answer led to a second request: a token was refreshed, or the
      provider asked for its other transport. */
  predicate Asked(s: Script) {
    && s.first.Answered? && s.rebuilds
    && (if s.first.class_.AuthExpired? then s.canRefresh && s.refresh == Refreshed
        else s.first.class_.Retryable? && s.upgrade)
  }

  /** The answer that decides about a candidate that was contacted, and when it
      came. */
  function Deciding(s: Script): (Answer, nat) { if Asked(s) then (s.second, s.secondAt) else (s.first, s.firstAt) }

  predicate Contacted(s: Script) { s.ready && s.builds }

  predicate Succeeds(s: Script) { Contacted(s) && Deciding(s).0.Answered? && Deciding(s).0.class_.Success? }

  /** A 401 that nothing cures, or a refresh token upstream no longer knows. */
  predicate Unauthorized(s: Script) {
    && Contacted(s) && Deciding(s).0.Answered? && Deciding(s).0.class_.AuthExpired?
    && (Asked(s) || !s.canRefresh || s.refresh == InvalidGrant)
  }

  /** The upstream's own wait: its Retry-After, or the usage limit a first 429
      names; a transport retry looks at neither. */
  function NamedWait(s: Script): Option<nat> {
    match Deciding(s).0
    case Answered(status, Retryable(after), _) =>
      if Asked(s) && !s.first.class_.AuthExpired? then None
      else if after.Some? then after
      else if !Asked(s) && status == 429 then s.usageLimit
      else None
    case _ => None
  }

  /** The failures whose cooldown escalates: nothing came back, the refresh failed
      for now, an overloaded or broken upstream, or any failed transport retry. */
  predicate Escalates(s: Script) {
    Contacted(s) &&
    match Deciding(s).0
    case SendError => true
    case Answered(_, AuthExpired, _) => !Asked(s) && s.canRefresh && s.refresh == TransientFailure
    case Answered(status, Retryable(_), _) =>
      && (!Asked(s) ==> !s.upgrade)
      && NamedWait(s).None?
      && ((Asked(s) && !s.first.class_.AuthExpired?) || status == 429 || status == 408 || 500 <= status <= 599)
    case _ => false
  }

  /** Any other retryable answer that is not followed up. */
  predicate RetryableAnswer(s: Script) {
    Contacted(s) && Deciding(s).0.Answered? && Deciding(s).0.class_.Retryable? && (!Asked(s) ==> !s.upgrade)
  }

  // ---- the entry before and after

  /** The candidate's entry as its answer finds it. */
  function Met(m: RuntimeMap, s: Script): Entry { Lookup(ApplyAll(AtTurn(m, s), s.during), s.key) }

  function Left(m: RuntimeMap, s: Script): Entry { Lookup(AfterTurn(m, s, VerdictOf(s)), s.key) }

  predicate CoolsFor(e: Entry, r: Entry, at: nat, wait: nat) {
    r.status == Cooling && r.until == Some(at + wait) && r.level == if e.level < 255 then e.level + 1 else 255
  }

  /** A success heals the entry, whatever it was. */
  lemma SuccessHeals(m: RuntimeMap, s: Script)
    requires Succeeds(s)
    ensures Left(m, s).status == Healthy && Left(m, s).level == 0 && Left(m, s).until == None
  {
  }

  /** Unauthorized for five minutes, at the level it had. */
  lemma UnauthorizedMisconfigures(m: RuntimeMap, s: Script)
    requires Unauthorized(s)
    ensures var r := Left(m, s);
      r.status == Misconfigured && r.until == Some(Deciding(s).1 + 300_000_000_000) && r.level == Met(m, s).level
  {
  }

  /** A wait the upstream names is kept, to the nanosecond. */
  lemma NamedWaitIsKept(m: RuntimeMap, s: Script)
    requires RetryableAnswer(s) && NamedWait(s).Some?
    ensures CoolsFor(Met(m, s), Left(m, s), Deciding(s).1, NamedWait(s).value)
  {
  }

  lemma EscalationTakes(s: Script)
    requires Escalates(s)
    ensures EffectOf(s) == BacksOff(Deciding(s).1) && !VerdictOf(s).Skipped?
  {
  }

  lemma LeftAfter(m: RuntimeMap, s: Script)
    requires !VerdictOf(s).Skipped?
    ensures Left(m, s) == ApplyEffect(Met(m, s), EffectOf(s))
  {
  }

  function EscalatedSeconds(level: nat): nat {
    var n := level + 1;
    if n > 255 then 2 else if Pow2(n) < 300 then Pow2(n) else 300
  }

  lemma FailCools(e: Entry, at: nat)
    requires e.level <= 255
    ensures CoolsFor(e, Fail(e, at), at, EscalatedSeconds(e.level) * 1_000_000_000)
  {
    BackoffAt(e);
  }

  /** Escalating failures cool min(300, 2^(level + 1)) seconds, up to the 255th. */
  lemma FailuresEscalate(m: RuntimeMap, s: Script)
    requires Escalates(s) && Met(m, s).level <= 255
    ensures var e := Met(m, s);
      CoolsFor(e, Left(m, s), Deciding(s).1, EscalatedSeconds(e.level) * 1_000_000_000)
  {
    var e, r, at := Met(m, s), Left(m, s), Deciding(s).1;
    assert r == Fail(e, at) by {
      EscalationTakes(s);
      LeftAfter(m, s);
    }
    FailCools(e, at);
  }

  /** Every other retryable answer cools half a minute. */
  lemma OthersCoolHalfAMinute(m: RuntimeMap, s: Script)
    requires RetryableAnswer(s) && NamedWait(s).None? && !Escalates(s)
    ensures CoolsFor(Met(m, s), Left(m, s), Deciding(s).1, 30_000_000_000)
  {
  }

  /** Nothing else moves the entry: it heals only on success, is marked only when
      unauthorized, and its level grows only with a failure named above. */
  lemma {:induction false} EntriesMoveOnlyFor(m: RuntimeMap, s: Script)
    ensures !Succeeds(s) && !Unauthorized(s) && !Escalates(s) && !RetryableAnswer(s) ==>
      Left(m, s).Routing() == Met(m, s).Routing()
    ensures Met(m, s).status != Healthy ==> (Left(m, s).status == Healthy <==> Succeeds(s))
    ensures Met(m, s).status != Misconfigured ==> (Left(m, s).status == Misconfigured <==> Unauthorized(s))
    ensures Met(m, s).level < 255 ==> (Left(m, s).level > Met(m, s).level <==> Escalates(s) || RetryableAnswer(s))
  {
    LeftAfter(m, s);
  }

  /** A candidate is skipped exactly while its entry's cooldown has not ended. */
  lemma SkippedWhileCooling(m: RuntimeMap, scripts: seq<Script>, verdicts: seq<Verdict>)
    requires |verdicts| < |scripts|
    ensures var e := FailoverRun.EntryAtTurn(m, scripts, verdicts);
      FailoverRun.Expected(m, scripts, verdicts).Skipped? <==>
        e.until.Some? && scripts[|verdicts|].seenAt < e.until.value
  {
  }

  // ---- what the caller gets

  /** The upstream's own answer is relayed exactly on a usable success; a success
      that hides an error becomes that error; the first answer is passed through
      when it rejects the request or is a 401 without a refresh. */
  lemma AnswersAreRelayed(s: Script)
    ensures forall status: nat :: VerdictOf(s) == Relayed(status) <==>
      Succeeds(s) && Deciding(s).0.transform == Good && Deciding(s).0.status == status
    ensures forall status: nat :: VerdictOf(s) == WireError(status) <==>
      Succeeds(s) && Deciding(s).0.transform == EmbeddedStatus(status)
    ensures forall status: nat :: VerdictOf(s) == Passthrough(status) <==>
      && Contacted(s) && !Asked(s) && s.first.Answered? && s.first.status == status
      && (s.first.class_.NonRetryable? || (s.first.class_.AuthExpired? && !s.canRefresh))
    ensures VerdictOf(s) == Unconfigured <==> !s.ready
  {
  }

  /** The log shows the deciding answer's status, and otherwise 401 exactly when a
      refresh failed. */
  lemma StatusesAreLogged(s: Script)
    ensures Asked(s) || Succeeds(s) || (s.first.Answered? && s.first.class_.NonRetryable?) ==>
      StatusLogged(s) == if Deciding(s).0.Answered? then Some(Deciding(s).0.status) else None
    ensures s.first == SendError ==> StatusLogged(s) == None
    ensures s.first.Answered? && s.first.class_.AuthExpired? && !Asked(s) ==>
      StatusLogged(s) ==
        if !s.canRefresh then Some(s.first.status) else if s.refresh == Refreshed then None else Some(401)
    ensures s.first.Answered? && s.first.class_.Retryable? && !Asked(s) ==>
      StatusLogged(s) == if s.upgrade then None else Some(s.first.status)
  {
  }

  /** After a request that relayed an upstream success, the entry of the candidate
      that served it is healthy, whatever this or other requests did before. */
  lemma RelayLeavesHealthy(m: RuntimeMap, now: RuntimeMap, scripts: seq<Script>, verdicts: seq<Verdict>)
    requires 0 < |verdicts| <= |scripts| && verdicts[|verdicts| - 1].Relayed?
    requires FailoverRun.VerdictsFollow(m, scripts, verdicts) && FailoverRun.EntriesAre(m, now, scripts, verdicts)
    ensures var e := Lookup(now, scripts[|verdicts| - 1].key);
      e.status == Healthy && e.level == 0 && e.until == None
  {
    var n := |verdicts| - 1;
    var s, before := scripts[n], FailoverRun.RuntimeAfter(m, scripts, verdicts[..n]);
    assert verdicts[n] == FailoverRun.Expected(m, scripts, verdicts[..n]) == VerdictOf(s);
    AnswersAreRelayed(s);
    SuccessHeals(before, s);
    assert FailoverRun.RuntimeAfter(m, scripts, verdicts) == AfterTurn(before, s, verdicts[n]);
    assert s.key in now;
  }
}
