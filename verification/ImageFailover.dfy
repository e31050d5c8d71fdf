/** The image member loop: which members and host models are called, when the
    request stops, and how each attempt is logged, even when the client leaves
    in the middle. */
module ImageFailover {
  import opened Prelude
  import opened Runtime
  import Failover
  import FailoverRun
  import S = ImageStream

  /** What one call to one host model comes back with. `unsupported` says a 400
      body names the host model as unsupported; `wait` is a usage-limit wait
      found in the body. */
  datatype Reply =
    | Sse(events: seq<S.Event>)
    | Status(status: nat, retryAfter: Option<nat>, unsupported: bool, wait: Option<nat>)
    | BuildFailed
    | SendFailed
    | ReadFailed
    | TimedOut

  datatype PreStream = AuthExpired | Retryable(cooldown: Option<nat>) | Misconfigured | Relay

  function ClassifyStatus(status: nat, retryAfter: Option<nat>, unsupported: bool, wait: Option<nat>): PreStream {
    if status == 401 then AuthExpired
    else if status == 403 then PreStream.Misconfigured
    else if status == 429 then PreStream.Retryable(if retryAfter.Some? then retryAfter else wait)
    else if status == 400 && unsupported then PreStream.Misconfigured
    else if status == 400 || status == 413 || status == 422 then Relay
    else if status == 408 || 500 <= status <= 599 then PreStream.Retryable(None)
    else PreStream.Retryable(Some(30 * SECOND))
  }

  datatype Answer =
    | Picture(image: S.GeneratedImage)
    | RelayedStatus(status: nat)
    | Problem(status: nat, code: string)

  /** A member's part: its runtime key, the reply each host model would give to
      its first and (after a token refresh) second round, and clock readings.
      Other requests may write to the shared runtime entries before the member's
      turn and `during` it, and store another host index before either round. */
  datatype Script = Script(
    key: string, seenAt: nat, first: seq<Reply>, canRefresh: bool, refresh: Failover.Refresh,
    second: seq<Reply>, markAt: nat,
    before: seq<Op>, during: seq<Op>, hostFirst: Option<nat>, hostSecond: Option<nat>)

  datatype LogRow = LogRow(member: nat, status: Option<nat>, success: bool, units: Option<nat>)

  /** A call to a host model, built or not; no reply when the client left meanwhile. */
  datatype Call = Call(member: nat, host: nat, reply: Option<Reply>)

  /** The replies the source treats as not generated: after them another account
      may be tried without, as it takes it, paying for the same picture twice. */
  predicate Idle(r: Reply) {
    match r
    case Sse(events) =>
      var outcome := S.OutcomeOf(events);
      outcome.NoImage? || (outcome.Failed? && outcome.kind.UsageLimit?)
    case Status(_, _, _, _) => true
    case BuildFailed => true
    case SendFailed => true
    case ReadFailed => false
    case TimedOut => false
  }

  ghost predicate AllIdle(calls: seq<Call>) {
    forall k :: 0 <= k < |calls| ==> calls[k].reply.Some? && Idle(calls[k].reply.value)
  }

  /** Nothing is called any more once a call may have generated something. */
  ghost predicate Frugal(calls: seq<Call>) { calls != [] ==> AllIdle(calls[..|calls| - 1]) }

  // ---- host models

  predicate Unsupported(r: Reply) { r.Status? && r.status == 400 && r.unsupported }

  /** The first host model from `i` on whose reply is not "unsupported". */
  function Serving(replies: seq<Reply>, i: nat): (j: nat)
    requires i <= |replies|
    ensures i <= j <= |replies|
    ensures forall k :: i <= k < j ==> Unsupported(replies[k])
    ensures j < |replies| ==> !Unsupported(replies[j])
    decreases |replies| - i
  {
    if i < |replies| && Unsupported(replies[i]) then Serving(replies, i + 1) else i
  }

  const NO_HOST_LEFT := Status(400, None, true, None)

  function StartHost(hostIdx: nat, hosts: nat): nat { Min(hostIdx, if hosts == 0 then 0 else hosts - 1) }

  /** What a round over the host models comes to. */
  function HostReply(replies: seq<Reply>, hostIdx: nat): Reply {
    var j := Serving(replies, StartHost(hostIdx, |replies|));
    if replies == [] then BuildFailed else if j < |replies| then replies[j] else NO_HOST_LEFT
  }

  /** The host model remembered afterwards. */
  function NextHost(replies: seq<Reply>, hostIdx: nat): nat {
    var start := StartHost(hostIdx, |replies|);
    var j := Serving(replies, start);
    if j < |replies| && j != start && replies[j].Sse? then j else hostIdx
  }

  // ---- judging a member

  /** No answer: the next member is tried. */
  datatype Judgement = Judgement(answer: Option<Answer>, effect: Failover.Effect, status: Option<nat>)

  function WaitOrBackOff(wait: Option<nat>, at: nat): Failover.Effect {
    if wait.Some? then Failover.Cools(wait.value, at) else Failover.BacksOff(at)
  }

  function JudgeStream(outcome: S.StreamOutcome, at: nat): Judgement {
    match outcome
    case Image(image) => Judgement(Some(Picture(image)), Failover.Heals, Some(200))
    case Failed(kind, code, message) =>
      (match kind
       case UsageLimit(wait) => Judgement(None, WaitOrBackOff(wait, at), Some(429))
       case Rejected => Judgement(Some(Problem(400, code)), Failover.Unchanged, Some(400))
       case Unknown => Judgement(Some(Problem(502, code)), Failover.Unchanged, Some(502)))
    case Refused(text) => Judgement(Some(Problem(400, "image_generation_refused")), Failover.Unchanged, Some(400))
    case NoImage => Judgement(None, Failover.Misconfigures(at), Some(200))
    case Incomplete => Judgement(Some(Problem(502, "upstream_stream_incomplete")), Failover.Unchanged, Some(200))
  }

  function Judge(r: Reply, at: nat): Judgement {
    match r
    case BuildFailed => Judgement(None, Failover.Misconfigures(at), None)
    case SendFailed => Judgement(None, Failover.BacksOff(at), None)
    case TimedOut => Judgement(Some(Problem(504, "upstream_timeout")), Failover.BacksOff(at), None)
    case ReadFailed => Judgement(Some(Problem(502, "upstream_stream_incomplete")), Failover.BacksOff(at), Some(200))
    case Status(status, retryAfter, unsupported, wait) =>
      (match ClassifyStatus(status, retryAfter, unsupported, wait)
       case AuthExpired => Judgement(None, Failover.Misconfigures(at), Some(status))
       case Misconfigured => Judgement(None, Failover.Misconfigures(at), Some(status))
       case Retryable(cooldown) => Judgement(None, WaitOrBackOff(cooldown, at), Some(status))
       case Relay => Judgement(Some(RelayedStatus(status)), Failover.Unchanged, Some(status)))
    case Sse(events) => JudgeStream(S.OutcomeOf(events), at)
  }

  function JudgeScript(s: Script, hostIdx: nat): Judgement {
    var host := s.hostFirst.GetOr(hostIdx);
    var first := HostReply(s.first, host);
    if !(first.Status? && first.status == 401) then Judge(first, s.markAt)
    else if !s.canRefresh then Judgement(None, Failover.Misconfigures(s.markAt), Some(401))
    else match s.refresh
      case Refreshed => Judge(HostReply(s.second, s.hostSecond.GetOr(host)), s.markAt)
      case InvalidGrant => Judgement(None, Failover.Misconfigures(s.markAt), Some(401))
      case TransientFailure => Judgement(None, Failover.BacksOff(s.markAt), Some(401))
  }

  /** A member is passed over only after a reply treated as not generated,
      and an idle reply ends the request only by relaying a client error. */
  lemma PassedOverMeansIdle(r: Reply, at: nat)
    ensures Judge(r, at).answer.None? ==> Idle(r)
    ensures Idle(r) && Judge(r, at).answer.Some? ==>
      r.Status? && Judge(r, at).answer == Some(RelayedStatus(r.status)) && r.status in {400, 413, 422}
    ensures Judge(r, at).effect == Failover.Heals <==> r.Sse? && S.OutcomeOf(r.events).Image?
    ensures Judge(r, at).answer.Some? && Judge(r, at).answer.value.Picture? <==> r.Sse? && S.OutcomeOf(r.events).Image?
  {
  }

  // ---- the log of one attempt

  /** Logs one member attempt exactly once: by `Finish`, or on `Drop` when the
      handler is dropped first. */
  class AttemptLog {
    const member: nat
    var pending: bool

    constructor (member: nat)
      ensures this.member == member && pending
    {
      this.member := member;
      pending := true;
    }

    method Finish(request: ImageRequest, status: Option<nat>, success: bool)
      requires pending
      modifies this, request`log
      ensures !pending
      ensures request.log == old(request.log) + [LogRow(member, status, success, if success then Some(1) else None)]
    {
      if pending {
        pending := false;
        request.log := request.log + [LogRow(member, status, success, if success then Some(1) else None)];
      }
    }

    method Drop(request: ImageRequest)
      modifies this, request`log
      ensures !pending
      ensures request.log ==
        if old(pending) then old(request.log) + [LogRow(member, None, false, None)] else old(request.log)
    {
      if pending {
        pending := false;
        request.log := request.log + [LogRow(member, None, false, None)];
      }
    }
  }

  datatype Verdict = Skipped | PassedOver | Answered(answer: Answer) | Gone

  class ImageRequest {
    var runtime: RuntimeMap
    var hostIdx: nat
    var calls: seq<Call>
    var log: seq<LogRow>
    var tried: seq<nat>
    var skipped: seq<Failover.SkippedMember>
    /** How many more awaits the client stays for. */
    var patience: nat

    constructor (runtime: RuntimeMap, hostIdx: nat, patience: nat)
      ensures this.runtime == runtime && this.hostIdx == hostIdx && this.patience == patience
      ensures calls == [] && log == [] && tried == [] && skipped == []
    {
      this.runtime, this.hostIdx, this.patience := runtime, hostIdx, patience;
      calls, log, tried, skipped := [], [], [], [];
    }

    /** An await point: the handler is dropped there, or goes on. */
    method Await() returns (gone: bool)
      modifies `patience
      ensures gone <==> old(patience) == 0
      ensures !gone ==> patience == old(patience) - 1
      ensures gone ==> patience == 0
    {
      gone := patience == 0;
      if !gone { patience := patience - 1; }
    }

    method Mark(key: string, effect: Failover.Effect)
      modifies `runtime
      ensures runtime == Failover.Touched(old(runtime), key, effect)
    {
      if !effect.Unchanged? { runtime := runtime[key := Failover.ApplyEffect(Lookup(runtime, key), effect)]; }
    }

    /** What other requests do to the shared entries, and to the host index. */
    method Others(ops: seq<Op>)
      modifies `runtime
      ensures runtime == ApplyAll(old(runtime), ops)
    {
      runtime := ApplyAll(runtime, ops);
    }

    method OthersStoreHost(host: Option<nat>)
      modifies `hostIdx
      ensures hostIdx == host.GetOr(old(hostIdx))
    {
      if host.Some? { hostIdx := host.value; }
    }

    /** One call to one host model; a request that cannot be built goes nowhere. */
    method Ask(i: nat, h: nat, reply: Reply) returns (gone: bool)
      requires AllIdle(calls)
      modifies `calls, `patience
      ensures calls == old(calls) + [Call(i, h, if gone then None else Some(reply))]
      ensures gone ==> patience == 0
      ensures Frugal(calls) && (!gone && Idle(reply) ==> AllIdle(calls))
    {
      gone := false;
      if !reply.BuildFailed? { gone := Await(); }
      calls := calls + [Call(i, h, if gone then None else Some(reply))];
      assert calls[..|calls| - 1] == old(calls);
    }

    /** One round over the host models, from the remembered one on. */
    method AttemptHosts(i: nat, replies: seq<Reply>) returns (r: Option<Reply>)
      requires AllIdle(calls)
      modifies `hostIdx, `calls, `patience
      ensures r.None? ==> patience == 0 && hostIdx == old(hostIdx)
      ensures r.Some? ==> r.value == HostReply(replies, old(hostIdx)) && hostIdx == NextHost(replies, old(hostIdx))
      ensures Frugal(calls) && (r.Some? && Idle(r.value) ==> AllIdle(calls))
      ensures old(calls) <= calls && forall k :: |old(calls)| <= k < |calls| ==> calls[k].member == i
      ensures r.Some? ==> forall k :: |old(calls)| <= k < |calls| ==>
        calls[k].host == StartHost(old(hostIdx), |replies|) + k - |old(calls)| < |replies|
        && calls[k].reply == Some(replies[calls[k].host])
      ensures r.Some? && replies != [] ==> |calls| > |old(calls)|
    {
      var start := StartHost(hostIdx, |replies|);
      var h := start;
      while h < |replies|
        invariant start <= h <= |replies| && (h == |replies| ==> replies == [])
        invariant forall k :: start <= k < h ==> Unsupported(replies[k])
        invariant Serving(replies, start) == Serving(replies, h)
        invariant hostIdx == old(hostIdx) && old(calls) <= calls && |calls| == |old(calls)| + h - start
        invariant AllIdle(calls)
        invariant forall k :: |old(calls)| <= k < |calls| ==>
          calls[k] == Call(i, start + k - |old(calls)|, Some(replies[start + k - |old(calls)|]))
      {
        var gone := Ask(i, h, replies[h]);
        if gone { return None; }
        if Unsupported(replies[h]) {
          if h + 1 < |replies| {
            h := h + 1;
            continue;
          }
          assert Serving(replies, h) == h + 1;
          return Some(NO_HOST_LEFT);
        }
        if h != start && replies[h].Sse? { hostIdx := h; }
        return Some(replies[h]);
      }
      return Some(BuildFailed);
    }

    /** The member's reply after, at most, one token refresh; `None` with
        `settled` set when the refresh itself decides. */
    method FinalReply(i: nat, s: Script, log: AttemptLog) returns (r: Option<Reply>, settled: bool)
      requires AllIdle(calls) && log.pending && log.member == i
      modifies this, log
      ensures tried == old(tried) && skipped == old(skipped) && old(calls) <= calls && Frugal(calls)
      ensures forall k :: |old(calls)| <= k < |calls| ==> calls[k].member == i
      ensures settled ==> r.None? && AllIdle(calls) && !log.pending && JudgeScript(s, old(hostIdx)).answer.None?
      ensures settled ==> this.log == old(this.log) + [LogRow(i, JudgeScript(s, old(hostIdx)).status, false, None)]
      ensures settled ==> runtime == Failover.Touched(old(runtime), s.key, JudgeScript(s, old(hostIdx)).effect)
      ensures !settled ==> runtime == old(runtime) && this.log == old(this.log) && log.pending
      ensures !settled && r.None? ==> patience == 0
      ensures r.Some? ==> JudgeScript(s, old(hostIdx)) == Judge(r.value, s.markAt) && (Idle(r.value) ==> AllIdle(calls))
    {
      var gone := Await();
      if gone { return None, false; }
      OthersStoreHost(s.hostFirst);
      ghost var host := hostIdx;
      r := AttemptHosts(i, s.first);
      if r.None? { return None, false; }
      if !(r.value.Status? && r.value.status == 401) { return r, false; }
      HostUnmoved(s.first, host);
      if !s.canRefresh {
        Mark(s.key, Failover.Misconfigures(s.markAt));
        log.Finish(this, Some(401), false);
        return None, true;
      }
      gone := Await();
      if gone { return None, false; }
      match s.refresh {
        case Refreshed =>
          OthersStoreHost(s.hostSecond);
          r := AttemptHosts(i, s.second);
          return r, false;
        case InvalidGrant =>
          Mark(s.key, Failover.Misconfigures(s.markAt));
        case TransientFailure =>
          Mark(s.key, Failover.BacksOff(s.markAt));
      }
      log.Finish(this, Some(401), false);
      return None, true;
    }

    /** Acts on the member's reply: its entry, its log row, the answer if any. */
    method Act(i: nat, s: Script, r: Reply, log: AttemptLog) returns (answer: Option<Answer>)
      requires log.pending && log.member == i
      modifies `runtime, `log, log
      ensures answer == Judge(r, s.markAt).answer && !log.pending
      ensures var units := if IsPicture(answer) then Some(1) else None;
        this.log == old(this.log) + [LogRow(i, Judge(r, s.markAt).status, IsPicture(answer), units)]
      ensures runtime == Failover.Touched(old(runtime), s.key, Judge(r, s.markAt).effect)
    {
      answer := None;
      match r {
        case BuildFailed =>
          Mark(s.key, Failover.Misconfigures(s.markAt));
          log.Finish(this, None, false);
        case SendFailed =>
          Mark(s.key, Failover.BacksOff(s.markAt));
          log.Finish(this, None, false);
        case TimedOut =>
          Mark(s.key, Failover.BacksOff(s.markAt));
          log.Finish(this, None, false);
          answer := Some(Problem(504, "upstream_timeout"));
        case ReadFailed =>
          Mark(s.key, Failover.BacksOff(s.markAt));
          log.Finish(this, Some(200), false);
          answer := Some(Problem(502, "upstream_stream_incomplete"));
        case Status(status, retryAfter, unsupported, wait) =>
          log.Finish(this, Some(status), false);
          match ClassifyStatus(status, retryAfter, unsupported, wait) {
            case AuthExpired => Mark(s.key, Failover.Misconfigures(s.markAt));
            case Misconfigured => Mark(s.key, Failover.Misconfigures(s.markAt));
            case Retryable(cooldown) =>
              if cooldown.Some? {
                Mark(s.key, Failover.Cools(cooldown.value, s.markAt));
              } else {
                Mark(s.key, Failover.BacksOff(s.markAt));
              }
            case Relay => answer := Some(RelayedStatus(status));
          }
        case Sse(events) =>
          var outcome := S.ParseStream(events);
          answer := ActOnStream(i, s, outcome, log);
      }
    }

    /** One pass of the loop: member `i`'s turn. */
    method Attempt(i: nat, s: Script) returns (v: Verdict)
      requires AllIdle(calls)
      modifies this
      ensures v.Skipped? <==> !Available(AtTurn(old(runtime), s), s.key, s.seenAt)
      ensures v.Skipped? ==> calls == old(calls) && log == old(log) && tried == old(tried)
      ensures skipped == if v.Skipped? then old(skipped) + [SkipAt(old(runtime), s, i)] else old(skipped)
      ensures !v.Skipped? ==> tried == old(tried) + [i]
      ensures v.Gone? ==> log == old(log) + [RowOf(i, None, v)]
      ensures v.PassedOver? || v.Answered? ==> var j := JudgeScript(s, old(hostIdx));
        j.answer == AnswerOf(v) && log == old(log) + [RowOf(i, j.status, v)]
      ensures v.Gone? ==> patience == 0
      ensures Frugal(calls) && (v.Skipped? || v.PassedOver? ==> AllIdle(calls))
      ensures old(calls) <= calls && forall k :: |old(calls)| <= k < |calls| ==> calls[k].member == i
      ensures runtime == AfterTurn(old(runtime), s, v, JudgeScript(s, old(hostIdx)).effect)
    {
      Others(s.before);
      if s.key in runtime && !runtime[s.key].IsAvailable(s.seenAt) {
        skipped := skipped + [Failover.SkippedMember(i, runtime[s.key].RetryIn(s.seenAt).GetOr(0))];
        return Skipped;
      }
      tried := tried + [i];
      var log := new AttemptLog(i);
      Others(s.during);
      var r, settled := FinalReply(i, s, log);
      if settled {
        v := PassedOver;
      } else if r.None? {
        v := Gone;
      } else {
        var answer := Act(i, s, r.value, log);
        PassedOverMeansIdle(r.value, s.markAt);
        v := if answer.Some? then Answered(answer.value) else PassedOver;
      }
      log.Drop(this);
    }

    method ActOnStream(i: nat, s: Script, outcome: S.StreamOutcome, log: AttemptLog) returns (answer: Option<Answer>)
      requires log.pending && log.member == i
      modifies `runtime, `log, log
      ensures answer == JudgeStream(outcome, s.markAt).answer && !log.pending
      ensures var units := if IsPicture(answer) then Some(1) else None;
        this.log == old(this.log) + [LogRow(i, JudgeStream(outcome, s.markAt).status, IsPicture(answer), units)]
      ensures runtime == Failover.Touched(old(runtime), s.key, JudgeStream(outcome, s.markAt).effect)
    {
      answer := None;
      match outcome {
        case Image(image) =>
          Mark(s.key, Failover.Heals);
          log.Finish(this, Some(200), true);
          answer := Some(Picture(image));
        case Failed(kind, code, message) =>
          match kind {
            case UsageLimit(wait) =>
              if wait.Some? {
                Mark(s.key, Failover.Cools(wait.value, s.markAt));
              } else {
                Mark(s.key, Failover.BacksOff(s.markAt));
              }
              log.Finish(this, Some(429), false);
            case Rejected =>
              log.Finish(this, Some(400), false);
              answer := Some(Problem(400, code));
            case Unknown =>
              log.Finish(this, Some(502), false);
              answer := Some(Problem(502, code));
          }
        case Refused(text) =>
          log.Finish(this, Some(400), false);
          answer := Some(Problem(400, "image_generation_refused"));
        case NoImage =>
          Mark(s.key, Failover.Misconfigures(s.markAt));
          log.Finish(this, Some(200), false);
        case Incomplete =>
          log.Finish(this, Some(200), false);
          answer := Some(Problem(502, "upstream_stream_incomplete"));
      }
    }
  }

  /** The shared entries when the member's turn comes. */
  function AtTurn(m: RuntimeMap, s: Script): RuntimeMap { ApplyAll(m, s.before) }

  function SkipAt(m: RuntimeMap, s: Script, i: nat): Failover.SkippedMember {
    Failover.SkippedMember(i, Lookup(AtTurn(m, s), s.key).RetryIn(s.seenAt).GetOr(0))
  }

  /** And when it is over: a judged member has had its effect. */
  function AfterTurn(m: RuntimeMap, s: Script, v: Verdict, effect: Failover.Effect): RuntimeMap {
    if v.Skipped? then AtTurn(m, s)
    else Failover.Touched(ApplyAll(AtTurn(m, s), s.during), s.key, if v.Gone? then Failover.Unchanged else effect)
  }

  function AnswerOf(v: Verdict): Option<Answer> { if v.Answered? then Some(v.answer) else None }

  /** The one log row of a member that was tried: a unit is spent exactly on a
      picture. */
  function RowOf(i: nat, status: Option<nat>, v: Verdict): LogRow {
    var picture := IsPicture(AnswerOf(v));
    LogRow(i, status, picture, if picture then Some(1) else None)
  }

  predicate IsPicture(answer: Option<Answer>) { answer.Some? && answer.value.Picture? }

  /** Only a stream moves the remembered host model. */
  lemma HostUnmoved(replies: seq<Reply>, hostIdx: nat)
    requires HostReply(replies, hostIdx).Status?
    ensures NextHost(replies, hostIdx) == hostIdx
  {
  }

  // ---- the whole request

  datatype Outcome = Reply(member: nat, answer: Answer) | Unavailable(retryAfter: Option<nat>) | Dropped

  /** One log row for each member tried, in order, and none else. */
  ghost predicate LoggedOnce(tried: seq<nat>, log: seq<LogRow>, verdicts: seq<Verdict>) {
    && |log| == |tried|
    && (forall k :: 0 <= k < |tried| ==> tried[k] < |verdicts| && !verdicts[tried[k]].Skipped?)
    && (forall k :: 0 <= k < |tried| ==> log[k] == RowOf(tried[k], log[k].status, verdicts[tried[k]]))
    && (forall k, l :: 0 <= k < l < |tried| ==> tried[k] < tried[l])
    && (forall j :: 0 <= j < |verdicts| && !verdicts[j].Skipped? ==> j in tried)
  }

  lemma OneMoreLogged(tried: seq<nat>, log: seq<LogRow>, tried': seq<nat>, log': seq<LogRow>, verdicts: seq<Verdict>,
                      v: Verdict)
    requires LoggedOnce(tried, log, verdicts)
    requires v.Skipped? ==> tried' == tried && log' == log
    requires !v.Skipped? ==>
      tried' == tried + [|verdicts|] && |log'| == |log| + 1 && log' == log + [RowOf(|verdicts|, log'[|log|].status, v)]
    ensures LoggedOnce(tried', log', verdicts + [v])
  {
    forall j | 0 <= j < |verdicts| && !verdicts[j].Skipped? ensures j in tried' { assert j in tried; }
    if !v.Skipped? { assert tried'[|tried|] == |verdicts|; }
  }

  /** The skipped members, in order, and none else. */
  ghost predicate SkippedOnce(skipped: seq<Failover.SkippedMember>, verdicts: seq<Verdict>) {
    && (forall k :: 0 <= k < |skipped| ==> skipped[k].member < |verdicts| && verdicts[skipped[k].member].Skipped?)
    && (forall k, l :: 0 <= k < l < |skipped| ==> skipped[k].member < skipped[l].member)
    && (forall j :: 0 <= j < |verdicts| && verdicts[j].Skipped? ==> FailoverRun.Found(skipped, j))
  }

  lemma OneMoreSkipped(skipped: seq<Failover.SkippedMember>, more: seq<Failover.SkippedMember>,
                       verdicts: seq<Verdict>, v: Verdict)
    requires SkippedOnce(skipped, verdicts)
    requires !v.Skipped? ==> more == skipped
    requires v.Skipped? ==>
      |more| == |skipped| + 1 && more[..|skipped|] == skipped && more[|skipped|].member == |verdicts|
    ensures SkippedOnce(more, verdicts + [v])
  {
    assert skipped <= more;
    forall j | 0 <= j < |verdicts + [v]| && (verdicts + [v])[j].Skipped? ensures FailoverRun.Found(more, j) {
      if j < |verdicts| {
        FailoverRun.FoundStays(skipped, more, j);
      } else {
        assert more[|skipped|].member == j;
      }
    }
  }

  /** The shared entries as other requests alone would have left them. */
  function OthersAlone(m: RuntimeMap, scripts: seq<Script>, verdicts: seq<Verdict>): RuntimeMap
    requires |verdicts| <= |scripts|
  {
    if verdicts == [] then m
    else
      var n := |verdicts| - 1;
      var turn := AtTurn(OthersAlone(m, scripts, verdicts[..n]), scripts[n]);
      if verdicts[n].Skipped? then turn else ApplyAll(turn, scripts[n].during)
  }

  /** This request moves only the entries of members it tried. */
  ghost predicate OnlyTriedMoved(m: RuntimeMap, now: RuntimeMap, scripts: seq<Script>, verdicts: seq<Verdict>)
    requires |verdicts| <= |scripts|
  {
    forall key :: (forall j :: 0 <= j < |verdicts| && !verdicts[j].Skipped? ==> scripts[j].key != key) ==>
      SameAt(now, OthersAlone(m, scripts, verdicts), key)
  }

  lemma OneMoreMoved(m: RuntimeMap, before: RuntimeMap, now: RuntimeMap, scripts: seq<Script>,
                     verdicts: seq<Verdict>, v: Verdict, effect: Failover.Effect)
    requires |verdicts| < |scripts| && OnlyTriedMoved(m, before, scripts, verdicts)
    requires now == AfterTurn(before, scripts[|verdicts|], v, effect)
    ensures OnlyTriedMoved(m, now, scripts, verdicts + [v])
  {
    var all, s := verdicts + [v], scripts[|verdicts|];
    assert all[..|verdicts|] == verdicts;
    forall key | forall j :: 0 <= j < |all| && !all[j].Skipped? ==> scripts[j].key != key
      ensures SameAt(now, OthersAlone(m, scripts, all), key)
    {
      assert all[|verdicts|] == v;
      assert forall j :: 0 <= j < |verdicts| ==> all[j] == verdicts[j];
      var alone := OthersAlone(m, scripts, verdicts);
      ApplyAllSameAt(before, alone, s.before, key);
      ApplyAllSameAt(AtTurn(before, s), AtTurn(alone, s), s.during, key);
    }
  }

  ghost predicate CalledWithin(r: ImageRequest, n: nat)
    reads r
  {
    forall k :: 0 <= k < |r.calls| ==> r.calls[k].member < n
  }

  predicate MovesOn(v: Verdict) { v.Skipped? || v.PassedOver? }

  ghost predicate ShortestWait(skipped: seq<Failover.SkippedMember>, wait: nat) {
    && (exists k :: 0 <= k < |skipped| && skipped[k].retryIn == wait)
    && (forall k :: 0 <= k < |skipped| ==> wait <= skipped[k].retryIn)
  }

  /** The 503's header: set exactly when nothing was tried and something skipped,
      and then it covers the shortest wait. */
  ghost predicate HeaderIs(header: Option<nat>, tried: seq<nat>, skipped: seq<Failover.SkippedMember>) {
    && (header.Some? <==> tried == [] && skipped != [])
    && (header.Some? ==>
      exists wait: nat :: ShortestWait(skipped, wait) && header == Some(FailoverRun.RetryAfterSeconds(wait)))
  }

  method RetryAfter(tried: seq<nat>, skipped: seq<Failover.SkippedMember>) returns (header: Option<nat>)
    ensures HeaderIs(header, tried, skipped)
  {
    header := None;
    if tried == [] {
      var best := FailoverRun.ShortestWait(skipped);
      if best.Some? {
        header := Some(FailoverRun.RetryAfterSeconds(best.value.retryIn));
        assert ShortestWait(skipped, best.value.retryIn);
      }
    }
  }

  method Generate(runtime: RuntimeMap, hostIdx: nat, patience: nat, scripts: seq<Script>)
    returns (outcome: Outcome, r: ImageRequest, verdicts: seq<Verdict>)
    ensures |verdicts| <= |scripts|
    ensures Frugal(r.calls) && CalledWithin(r, |verdicts|)
    ensures LoggedOnce(r.tried, r.log, verdicts) && SkippedOnce(r.skipped, verdicts)
    ensures OnlyTriedMoved(runtime, r.runtime, scripts, verdicts)
    ensures forall j :: 0 <= j < |verdicts| - 1 ==> MovesOn(verdicts[j])
    ensures outcome.Unavailable? <==> |verdicts| == |scripts| && (verdicts != [] ==> MovesOn(verdicts[|verdicts| - 1]))
    ensures outcome.Reply? ==> outcome.member == |verdicts| - 1 && verdicts[outcome.member] == Answered(outcome.answer)
    ensures outcome.Dropped? ==> r.patience == 0 && verdicts != [] && verdicts[|verdicts| - 1].Gone?
    ensures outcome.Unavailable? ==> AllIdle(r.calls) && HeaderIs(outcome.retryAfter, r.tried, r.skipped)
  {
    r := new ImageRequest(runtime, hostIdx, patience);
    verdicts := [];
    var i := 0;
    while i < |scripts|
      invariant |verdicts| == i <= |scripts| && fresh(r)
      invariant AllIdle(r.calls) && CalledWithin(r, i)
      invariant LoggedOnce(r.tried, r.log, verdicts) && SkippedOnce(r.skipped, verdicts)
      invariant OnlyTriedMoved(runtime, r.runtime, scripts, verdicts)
      invariant forall j :: 0 <= j < i ==> MovesOn(verdicts[j])
    {
      var v := Turn(r, runtime, scripts, i, verdicts);
      verdicts := verdicts + [v];
      if v.Gone? { return Dropped, r, verdicts; }
      if v.Answered? { return Reply(i, v.answer), r, verdicts; }
      i := i + 1;
    }
    var header := RetryAfter(r.tried, r.skipped);
    outcome := Unavailable(header);
  }

  /** One pass keeps what the loop keeps. */
  method Turn(r: ImageRequest, ghost m: RuntimeMap, scripts: seq<Script>, i: nat, ghost verdicts: seq<Verdict>)
    returns (v: Verdict)
    requires |verdicts| == i < |scripts|
    requires AllIdle(r.calls) && CalledWithin(r, i)
    requires LoggedOnce(r.tried, r.log, verdicts) && SkippedOnce(r.skipped, verdicts)
    requires OnlyTriedMoved(m, r.runtime, scripts, verdicts)
    modifies r
    ensures Frugal(r.calls) && (MovesOn(v) ==> AllIdle(r.calls)) && CalledWithin(r, i + 1)
    ensures LoggedOnce(r.tried, r.log, verdicts + [v]) && SkippedOnce(r.skipped, verdicts + [v])
    ensures OnlyTriedMoved(m, r.runtime, scripts, verdicts + [v])
    ensures v.Gone? ==> r.patience == 0
  {
    ghost var tried, log, skipped, before, calls, host := r.tried, r.log, r.skipped, r.runtime, r.calls, r.hostIdx;
    v := r.Attempt(i, scripts[i]);
    assert CalledWithin(r, i + 1) by {
      forall k | 0 <= k < |calls| ensures r.calls[k].member < i { assert r.calls[k] == calls[k]; }
    }
    OneMoreLogged(tried, log, r.tried, r.log, verdicts, v);
    OneMoreSkipped(skipped, r.skipped, verdicts, v);
    OneMoreMoved(m, before, r.runtime, scripts, verdicts, v, JudgeScript(scripts[i], host).effect);
  }
}
