/** What a member's reply does to its circuit breaker and what the client gets for it,
    told by the reply alone. */
module ImageEffects {
  import opened Prelude
  import opened Runtime
  import opened ImageFailover
  import Failover
  import F = FailoverEffects
  import S = ImageStream

  // ---- the reply that decides

  /** The reply of the host models' round, the refreshed one's after a refresh. */
  function Final(s: Script, hostIdx: nat): Reply {
    if Renewed(s, hostIdx) then HostReply(s.second, s.hostSecond.GetOr(s.hostFirst.GetOr(hostIdx)))
    else HostReply(s.first, s.hostFirst.GetOr(hostIdx))
  }

  predicate Renewed(s: Script, hostIdx: nat) {
    var first := HostReply(s.first, s.hostFirst.GetOr(hostIdx));
    first.Status? && first.status == 401 && s.canRefresh && s.refresh == Failover.Refreshed
  }

  /** A first 401 whose refresh failed for now. */
  predicate RefreshFails(s: Script, hostIdx: nat) {
    && Final(s, hostIdx).Status? && Final(s, hostIdx).status == 401 && !Renewed(s, hostIdx)
    && s.canRefresh && s.refresh == Failover.TransientFailure
  }

  predicate Draws(r: Reply) { r.Sse? && S.OutcomeOf(r.events).Image? }

  predicate LimitReached(r: Reply) {
    r.Sse? && S.OutcomeOf(r.events).Failed? && S.OutcomeOf(r.events).kind.UsageLimit?
  }

  /** The account is not set up for pictures: unauthorized, forbidden, no host model
      supported, no request to build, or a stream that ends without a word. */
  predicate Unfit(r: Reply) {
    || r.BuildFailed? || (r.Sse? && S.OutcomeOf(r.events).NoImage?)
    || (r.Status? && (r.status == 401 || r.status == 403 || (r.status == 400 && r.unsupported)))
  }

  /** The wait a 429 or a usage limit names, the header before the body. */
  function NamedWait(r: Reply): Option<nat> {
    match r
    case Status(status, retryAfter, _, wait) =>
      if status != 429 then None else if retryAfter.Some? then retryAfter else wait
    case Sse(events) => if LimitReached(r) then S.OutcomeOf(events).kind.wait else None
    case _ => None
  }

  /** Nothing came back in time or in full, or an overloaded or broken upstream. */
  predicate Overloaded(r: Reply) {
    || r.SendFailed? || r.ReadFailed? || r.TimedOut? || (LimitReached(r) && NamedWait(r).None?)
    || (r.Status? && (r.status == 408 || 500 <= r.status <= 599 || (r.status == 429 && NamedWait(r).None?)))
  }

  /** The upstream turned the request down or finished it without a picture. */
  predicate TurnedDown(r: Reply) {
    || (r.Status? && ((r.status == 400 && !r.unsupported) || r.status == 413 || r.status == 422))
    || (r.Sse? && !Draws(r) && !LimitReached(r) && !S.OutcomeOf(r.events).NoImage?)
  }

  // ---- the member's entry

  function Met(m: RuntimeMap, s: Script): Entry { Lookup(ApplyAll(AtTurn(m, s), s.during), s.key) }

  function Left(m: RuntimeMap, s: Script, hostIdx: nat): Entry {
    Lookup(AfterTurn(m, s, PassedOver, JudgeScript(s, hostIdx).effect), s.key)
  }

  lemma LeftAfter(m: RuntimeMap, s: Script, hostIdx: nat)
    ensures Left(m, s, hostIdx) == Failover.ApplyEffect(Met(m, s), JudgeScript(s, hostIdx).effect)
  {
  }

  /** What the reply does to the entry `e` it meets, leaving `left`. */
  predicate Moves(e: Entry, left: Entry, r: Reply, at: nat, refreshFails: bool) {
    if refreshFails then F.CoolsFor(e, left, at, F.EscalatedSeconds(e.level) * 1_000_000_000)
    else if Draws(r) then left.status == Healthy && left.level == 0 && left.until == None
    else if Unfit(r) then
      && left.status == ProviderStatus.Misconfigured && left.until == Some(at + 300_000_000_000)
      && left.level == e.level
    else if NamedWait(r).Some? then F.CoolsFor(e, left, at, NamedWait(r).value)
    else if Overloaded(r) then F.CoolsFor(e, left, at, F.EscalatedSeconds(e.level) * 1_000_000_000)
    else if TurnedDown(r) then left == e
    else F.CoolsFor(e, left, at, 30_000_000_000)
  }

  lemma ReplyMoves(e: Entry, r: Reply, at: nat)
    requires e.level <= 255
    ensures Moves(e, Failover.ApplyEffect(e, Judge(r, at).effect), r, at, false)
  {
    F.FailCools(e, at);
  }

  lemma FinalDecides(s: Script, hostIdx: nat)
    requires !(Final(s, hostIdx).Status? && Final(s, hostIdx).status == 401) || Renewed(s, hostIdx)
    ensures JudgeScript(s, hostIdx) == Judge(Final(s, hostIdx), s.markAt)
  {
  }

  /** A picture heals the entry; an unfit account, a 401 without a new token
      included, is set aside for five minutes; a named wait is kept; overload and a
      refresh that failed for now escalate; what was turned down moves nothing; and
      any other status costs half a minute. */
  lemma {:induction false} RepliesMoveEntries(m: RuntimeMap, s: Script, hostIdx: nat)
    requires Met(m, s).level <= 255
    ensures Moves(Met(m, s), Left(m, s, hostIdx), Final(s, hostIdx), s.markAt, RefreshFails(s, hostIdx))
  {
    LeftAfter(m, s, hostIdx);
    if Final(s, hostIdx).Status? && Final(s, hostIdx).status == 401 && !Renewed(s, hostIdx) {
      F.FailCools(Met(m, s), s.markAt);
    } else {
      FinalDecides(s, hostIdx);
      ReplyMoves(Met(m, s), Final(s, hostIdx), s.markAt);
    }
  }

  // ---- the answer

  predicate AboutThePrompt(r: Reply)
    requires r.Sse?
  {
    var outcome := S.OutcomeOf(r.events);
    outcome.Refused? || (outcome.Failed? && outcome.kind.Rejected?)
  }

  /** The client gets the picture, the upstream's own rejection, 400 for a prompt that
      was rejected or talked about, 502 for a stream that failed or broke off, 504
      after the time limit; everything else is tried elsewhere. */
  lemma AnswersToClient(r: Reply, at: nat)
    ensures var answer := Judge(r, at).answer;
      && (Draws(r) <==> answer.Some? && answer.value.Picture?)
      && (Draws(r) ==> answer.value.image == S.OutcomeOf(r.events).image)
      && (r.Status? && TurnedDown(r) ==> answer == Some(RelayedStatus(r.status)))
      && (r.Sse? && TurnedDown(r) ==>
            answer.Some? && answer.value.Problem? && answer.value.status == (if AboutThePrompt(r) then 400 else 502))
      && (r.ReadFailed? ==> answer.Some? && answer.value.Problem? && answer.value.status == 502)
      && (r.TimedOut? ==> answer.Some? && answer.value.Problem? && answer.value.status == 504)
      && (answer.None? <==> !Draws(r) && !TurnedDown(r) && !r.ReadFailed? && !r.TimedOut?)
  {
  }

  /** What is logged: the upstream's status; 429 for a usage limit, 400 or 502 for a
      failed stream, 200 for one that came through; none when nothing came back. */
  lemma StatusesAreLogged(r: Reply, at: nat)
    ensures r.Status? ==> Judge(r, at).status == Some(r.status)
    ensures LimitReached(r) ==> Judge(r, at).status == Some(429)
    ensures Draws(r) || r.ReadFailed? ==> Judge(r, at).status == Some(200)
    ensures r.BuildFailed? || r.SendFailed? || r.TimedOut? ==> Judge(r, at).status == None
  {
  }

  // ---- the remembered host model

  /** Host model `h`, not the first asked, generated after those before it were not
      supported. */
  predicate Reached(replies: seq<Reply>, hostIdx: nat, h: nat) {
    var start := if hostIdx < |replies| then hostIdx else if replies == [] then 0 else |replies| - 1;
    && start < h < |replies| && replies[h].Sse?
    && forall k :: start <= k < h ==> replies[k].Status? && replies[k].status == 400 && replies[k].unsupported
  }

  /** The remembered host model changes exactly to such a one. */
  lemma HostMoves(replies: seq<Reply>, hostIdx: nat)
    ensures NextHost(replies, hostIdx) != hostIdx ==> Reached(replies, hostIdx, NextHost(replies, hostIdx))
    ensures forall h: nat :: Reached(replies, hostIdx, h) ==> NextHost(replies, hostIdx) == h
  {
  }
}
