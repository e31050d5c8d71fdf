/** The failover loop: candidates in order, each skipped while it cools, tried,
    perhaps retried once, and then relayed, answered or passed over. What the
    outside world does to each candidate is given as a script. */
module Failover {
  import opened Prelude
  import opened Runtime

  /** `ErrorClass`. */
  datatype Class = Success | Retryable(after: Option<nat>) | NonRetryable | AuthExpired

  /** What `transform_response` makes of a successful reply: a response, an
      embedded error with a known status, or some other failure. */
  datatype Transform = Good | EmbeddedStatus(status: nat) | Broken

  datatype Answer = SendError | Answered(status: nat, class_: Class, transform: Transform)

  datatype Refresh = Refreshed | InvalidGrant | TransientFailure

  /** Everything one candidate meets: readiness, whether requests can be built,
      the answers to its first and second request, and the clock readings.
      `upgrade` is the Command Code case: a retryable answer from the provider
      transport that asks for the generate transport. Other requests may write to
      the shared runtime entries before the candidate's turn and `during` it. */
  datatype Script = Script(
    key: string, ready: bool, builds: bool, first: Answer,
    canRefresh: bool, refresh: Refresh, upgrade: bool, usageLimit: Option<nat>,
    rebuilds: bool, second: Answer,
    seenAt: nat, firstAt: nat, secondAt: nat, firstError: string, secondError: string,
    before: seq<Op>, during: seq<Op>)

  datatype Verdict =
    | Skipped                      // still cooling
    | Unconfigured
    | FailedOver
    | Relayed(status: nat)         // an upstream success
    | Passthrough(status: nat)     // an upstream rejection, relayed
    | WireError(status: nat)       // an embedded error with a known status
  {
    predicate Ends() { Relayed? || Passthrough? || WireError? }
  }

  /** What a candidate's attempt does to its runtime entry. */
  datatype Effect = Unchanged | Heals | Misconfigures(at: nat) | Cools(cooldown: nat, at: nat) | BacksOff(at: nat)

  /** One request-log entry of candidate `member`. */
  datatype LogRow = LogRow(member: nat, status: Option<nat>, success: bool)

  datatype SkippedMember = SkippedMember(member: nat, retryIn: nat)

  function ApplyEffect(e: Entry, effect: Effect): Entry {
    match effect
    case Unchanged => e
    case Heals => e.RecordSuccess()
    case Misconfigures(at) => e.MarkMisconfigured(at)
    case Cools(cooldown, at) => e.RecordRetryable(cooldown, at)
    case BacksOff(at) => Fail(e, at)
  }

  // ---- what one attempt must come to

  /** Which request's answer decides about the candidate, if any. */
  predicate Retries(s: Script) {
    && s.first.Answered? && s.rebuilds
    && ((s.first.class_.AuthExpired? && s.canRefresh && s.refresh.Refreshed?)
        || (s.first.class_.Retryable? && s.upgrade))
  }

  predicate EscalatingStatus(status: nat) { 500 <= status < 600 || status == 429 || status == 408 }

  /** The runtime effect of a failed refresh. */
  function RefreshEffect(s: Script): Effect {
    match s.refresh
    case Refreshed => Unchanged
    case InvalidGrant => Misconfigures(s.firstAt)
    case TransientFailure => BacksOff(s.firstAt)
  }

  /** A retryable answer: the upstream's own wait, else escalating backoff for
      server errors, 429 and 408, else 30 seconds. */
  function CoolEffect(status: nat, wait: Option<nat>, at: nat): Effect {
    if wait.Some? then Cools(wait.value, at)
    else if EscalatingStatus(status) then BacksOff(at)
    else Cools(30 * SECOND, at)
  }

  function FirstEffect(s: Script): Effect {
    match s.first
    case SendError => BacksOff(s.firstAt)
    case Answered(status, class_, _) =>
      match class_
      case Success => Heals
      case NonRetryable => Unchanged
      case AuthExpired => if s.canRefresh then RefreshEffect(s) else Misconfigures(s.firstAt)
      case Retryable(after) =>
        if s.upgrade then Unchanged
        else CoolEffect(status, if after.Some? then after else if status == 429 then s.usageLimit else None, s.firstAt)
  }

  function SecondEffect(s: Script): Effect {
    match s.second
    case SendError => BacksOff(s.secondAt)
    case Answered(status, class_, _) =>
      match class_
      case Success => Heals
      case NonRetryable => Unchanged
      case AuthExpired => Misconfigures(s.secondAt)
      case Retryable(after) =>
        if s.first.Answered? && s.first.class_.AuthExpired? then CoolEffect(status, after, s.secondAt)
        else BacksOff(s.secondAt)
  }

  function EffectOf(s: Script): Effect {
    if !s.ready || !s.builds then Unchanged
    else if Retries(s) then SecondEffect(s)
    else FirstEffect(s)
  }

  function SuccessVerdict(a: Answer): Verdict
    requires a.Answered?
  {
    match a.transform
    case Good => Relayed(a.status)
    case EmbeddedStatus(status) => WireError(status)
    case Broken => FailedOver
  }

  /** The verdict on a candidate that is not cooling. */
  function VerdictOf(s: Script): Verdict {
    if !s.ready then Unconfigured
    else if !s.builds then FailedOver
    else if Retries(s) then
      if s.second.Answered? && s.second.class_.Success? then SuccessVerdict(s.second) else FailedOver
    else if s.first.Answered? && s.first.class_.Success? then SuccessVerdict(s.first)
    else if s.first.Answered? && (s.first.class_.NonRetryable? || (s.first.class_.AuthExpired? && !s.canRefresh)) then
      Passthrough(s.first.status)
    else FailedOver
  }

  function CallsOf(s: Script): nat {
    if !s.ready || !s.builds then 0 else if Retries(s) then 2 else 1
  }

  /** The status a contacted candidate's log entry shows: the last answer's, 401
      when a refresh failed, none when nothing came back or was asked again. */
  function StatusLogged(s: Script): Option<nat> {
    if Retries(s) then (if s.second.Answered? then Some(s.second.status) else None)
    else
      match s.first
      case SendError => None
      case Answered(status, class_, _) =>
        if class_.AuthExpired? && s.canRefresh then (if s.refresh.Refreshed? then None else Some(401))
        else if class_.Retryable? && s.upgrade then None
        else Some(status)
  }

  function LogsOf(s: Script): nat { if s.ready && s.builds then 1 else 0 }

  function Repeat<T>(x: T, n: nat): (r: seq<T>)
    ensures |r| == n && forall i :: 0 <= i < n ==> r[i] == x
  {
    seq(n, _ => x)
  }

  // ---- the gateway state a request works on

  const NO_RESPONSE: string := "no provider produced a response"
  const NOT_CONFIGURED: string := "provider is not configured yet"

  class Request {
    var runtime: RuntimeMap
    /** The candidate of each proxied upstream call, in order. */
    var calls: seq<nat>
    var log: seq<LogRow>
    var tried: seq<nat>
    var skipped: seq<SkippedMember>
    var lastError: string
    var prevKey: Option<string>
    var seenError: string

    constructor (runtime: RuntimeMap)
      ensures this.runtime == runtime && calls == [] && log == [] && tried == [] && skipped == []
    {
      this.runtime := runtime;
      calls, log, tried, skipped := [], [], [], [];
      lastError, seenError, prevKey := NO_RESPONSE, NO_RESPONSE, None;
    }

    /** Pins the failure text gained since the last check on the entry that
        caused it; routing never looks at that text. */
    method AttributeError()
      modifies `runtime, `prevKey, `seenError
      ensures runtime ==
        if lastError != old(seenError) && old(prevKey).Some? then Noted(old(runtime), old(prevKey).value, lastError)
        else old(runtime)
      ensures prevKey == if lastError != old(seenError) then None else old(prevKey)
      ensures seenError == lastError
      ensures SameRouting(old(runtime), runtime)
    {
      if lastError != seenError {
        if prevKey.Some? {
          var key := prevKey.value;
          prevKey := None;
          if key in runtime { runtime := runtime[key := runtime[key].NoteError(lastError)]; }
        }
        seenError := lastError;
      }
    }

    /** What other requests do to the shared entries. */
    method Others(ops: seq<Op>)
      modifies `runtime
      ensures runtime == ApplyAll(old(runtime), ops)
    {
      runtime := ApplyAll(runtime, ops);
    }

    method Touch(key: string, effect: Effect)
      requires !effect.Unchanged?
      modifies `runtime
      ensures runtime == Touched(old(runtime), key, effect)
    {
      runtime := runtime[key := ApplyEffect(Lookup(runtime, key), effect)];
    }

    method Log(i: nat, status: Option<nat>, success: bool)
      modifies `log
      ensures log == old(log) + [LogRow(i, status, success)]
    {
      log := log + [LogRow(i, status, success)];
    }

    /** The second request to the same candidate, after a token refresh
        (`refreshed`) or a transport change. */
    method Retry(i: nat, s: Script, refreshed: bool) returns (v: Verdict)
      requires s.first.Answered? && refreshed == s.first.class_.AuthExpired?
      modifies `runtime, `calls, `log, `lastError
      ensures v ==
        if s.rebuilds && s.second.Answered? && s.second.class_.Success? then SuccessVerdict(s.second) else FailedOver
      ensures calls == if s.rebuilds then old(calls) + [i] else old(calls)
      ensures |log| == |old(log)| + 1 && log[..|old(log)|] == old(log)
      ensures log[|old(log)|] ==
        LogRow(i, if s.rebuilds && s.second.Answered? then Some(s.second.status) else None, v.Relayed?)
      ensures runtime == Touched(old(runtime), s.key, if s.rebuilds then SecondEffect(s) else Unchanged)
    {
      v := FailedOver;
      if !s.rebuilds {
        Log(i, None, false);
        lastError := s.secondError;
        return;
      }
      calls := calls + [i];
      match s.second {
        case SendError =>
          Touch(s.key, BacksOff(s.secondAt));
          Log(i, None, false);
          lastError := s.secondError;
        case Answered(status, class_, transform) =>
          match class_ {
            case Success =>
              Touch(s.key, Heals);
              match transform {
                case Good =>
                  Log(i, Some(status), true);
                  v := Relayed(status);
                case EmbeddedStatus(known) =>
                  Log(i, Some(status), false);
                  v := WireError(known);
                case Broken =>
                  Log(i, Some(status), false);
                  lastError := s.secondError;
              }
            case NonRetryable =>
              lastError := s.secondError;
              Log(i, Some(status), false);
            case AuthExpired =>
              Touch(s.key, Misconfigures(s.secondAt));
              lastError := s.secondError;
              Log(i, Some(status), false);
            case Retryable(after) =>
              if !refreshed {
                Touch(s.key, BacksOff(s.secondAt));
              } else if after.Some? {
                Touch(s.key, Cools(after.value, s.secondAt));
              } else if EscalatingStatus(status) {
                Touch(s.key, BacksOff(s.secondAt));
              } else {
                Touch(s.key, Cools(30 * SECOND, s.secondAt));
              }
              lastError := s.secondError;
              Log(i, Some(status), false);
          }
      }
    }

    /** One pass of the loop body for candidate `i`. */
    method Attempt(i: nat, s: Script) returns (v: Verdict)
      modifies this
      ensures v == if Available(AtTurn(old(runtime), s), s.key, s.seenAt) then VerdictOf(s) else Skipped
      ensures v.Skipped? ==> calls == old(calls) && log == old(log) && tried == old(tried)
      ensures v.Skipped? ==> skipped == old(skipped) + [SkippedMember(i, WaitAtTurn(old(runtime), s))]
      ensures !v.Skipped? ==> skipped == old(skipped)
      ensures !v.Skipped? ==> tried == if s.ready then old(tried) + [i] else old(tried)
      ensures !v.Skipped? ==> calls == old(calls) + Repeat<nat>(i, CallsOf(s))
      ensures !v.Skipped? ==> |log| == |old(log)| + LogsOf(s) && log[..|old(log)|] == old(log)
      ensures !v.Skipped? && LogsOf(s) == 1 ==> log[|old(log)|] == LogRow(i, StatusLogged(s), v.Relayed?)
      ensures SameRouting(AfterTurn(old(runtime), s, v), runtime)
    {
      ghost var start := runtime;
      AttributeError();
      AfterTurnSame(start, runtime, s, VerdictOf(s));
      AfterTurnSame(start, runtime, s, Skipped);
      Others(s.before);
      if s.key in runtime && !runtime[s.key].IsAvailable(s.seenAt) {
        skipped := skipped + [SkippedMember(i, runtime[s.key].RetryIn(s.seenAt).GetOr(0))];
        return Skipped;
      }
      v := Take(i, s);
    }

    /** A candidate that is not cooling. */
    method Take(i: nat, s: Script) returns (v: Verdict)
      modifies this
      ensures v == VerdictOf(s)
      ensures skipped == old(skipped)
      ensures tried == if s.ready then old(tried) + [i] else old(tried)
      ensures calls == old(calls) + Repeat<nat>(i, CallsOf(s))
      ensures |log| == |old(log)| + LogsOf(s) && log[..|old(log)|] == old(log)
      ensures LogsOf(s) == 1 ==> log[|old(log)|] == LogRow(i, StatusLogged(s), v.Relayed?)
      ensures runtime == Touched(ApplyAll(old(runtime), s.during), s.key, EffectOf(s))
    {
      prevKey := Some(s.key);
      Others(s.during);
      if !s.ready {
        if tried == [] { lastError := NOT_CONFIGURED; }
        return Unconfigured;
      }
      tried := tried + [i];
      if !s.builds {
        lastError := s.firstError;
        return FailedOver;
      }
      calls := calls + [i];
      v := FirstAnswer(i, s);
    }

    /** The first request has gone out: what its answer leads to. */
    method FirstAnswer(i: nat, s: Script) returns (v: Verdict)
      requires s.ready && s.builds
      modifies `runtime, `calls, `log, `lastError
      ensures v == VerdictOf(s)
      ensures calls == if Retries(s) then old(calls) + [i] else old(calls)
      ensures |log| == |old(log)| + 1 && log[..|old(log)|] == old(log)
      ensures log[|old(log)|] == LogRow(i, StatusLogged(s), v.Relayed?)
      ensures runtime == Touched(old(runtime), s.key, EffectOf(s))
    {
      v := FailedOver;
      match s.first {
        case SendError =>
          Touch(s.key, BacksOff(s.firstAt));
          Log(i, None, false);
          lastError := s.firstError;
        case Answered(status, class_, transform) =>
          match class_ {
            case Success =>
              Touch(s.key, Heals);
              match transform {
                case Good =>
                  Log(i, Some(status), true);
                  v := Relayed(status);
                case EmbeddedStatus(known) =>
                  Log(i, Some(status), false);
                  v := WireError(known);
                case Broken =>
                  Log(i, Some(status), false);
                  lastError := s.firstError;
              }
            case NonRetryable =>
              Log(i, Some(status), false);
              v := Passthrough(status);
            case AuthExpired =>
              if !s.canRefresh {
                Touch(s.key, Misconfigures(s.firstAt));
                Log(i, Some(status), false);
                v := Passthrough(status);
              } else {
                match s.refresh {
                  case Refreshed => v := Retry(i, s, true);
                  case InvalidGrant =>
                    Touch(s.key, Misconfigures(s.firstAt));
                    lastError := s.firstError;
                    Log(i, Some(401), false);
                  case TransientFailure =>
                    Touch(s.key, BacksOff(s.firstAt));
                    lastError := s.firstError;
                    Log(i, Some(401), false);
                }
              }
            case Retryable(after) =>
              if s.upgrade {
                v := Retry(i, s, false);
              } else {
                var wait := if after.Some? then after else if status == 429 then s.usageLimit else None;
                if wait.Some? {
                  Touch(s.key, Cools(wait.value, s.firstAt));
                } else if EscalatingStatus(status) {
                  Touch(s.key, BacksOff(s.firstAt));
                } else {
                  Touch(s.key, Cools(30 * SECOND, s.firstAt));
                }
                lastError := s.firstError;
                Log(i, Some(status), false);
              }
          }
      }
    }
  }

  /** Two maps that differ at most in error texts. */
  ghost predicate SameRouting(m: RuntimeMap, n: RuntimeMap) {
    m.Keys == n.Keys && forall k :: k in m ==> n[k].Routing() == m[k].Routing()
  }

  function Noted(m: RuntimeMap, key: string, text: string): RuntimeMap {
    if key in m then m[key := m[key].NoteError(text)] else m
  }

  function Touched(m: RuntimeMap, key: string, effect: Effect): RuntimeMap {
    if effect.Unchanged? then m else m[key := ApplyEffect(Lookup(m, key), effect)]
  }

  /** The shared entries when the candidate's turn comes. */
  function AtTurn(m: RuntimeMap, s: Script): RuntimeMap { ApplyAll(m, s.before) }

  function WaitAtTurn(m: RuntimeMap, s: Script): nat { Lookup(AtTurn(m, s), s.key).RetryIn(s.seenAt).GetOr(0) }

  /** And when it is over. */
  function AfterTurn(m: RuntimeMap, s: Script, v: Verdict): RuntimeMap {
    if v.Skipped? then AtTurn(m, s) else Touched(ApplyAll(AtTurn(m, s), s.during), s.key, EffectOf(s))
  }

  lemma ApplySame(m: RuntimeMap, n: RuntimeMap, op: Op)
    requires SameRouting(m, n)
    ensures SameRouting(Apply(m, op), Apply(n, op))
  {
  }

  lemma {:induction false} ApplyAllSame(m: RuntimeMap, n: RuntimeMap, ops: seq<Op>)
    requires SameRouting(m, n)
    ensures SameRouting(ApplyAll(m, ops), ApplyAll(n, ops))
  {
    if ops != [] {
      ApplyAllSame(m, n, ops[..|ops| - 1]);
      ApplySame(ApplyAll(m, ops[..|ops| - 1]), ApplyAll(n, ops[..|ops| - 1]), ops[|ops| - 1]);
    }
  }

  lemma TouchedSame(m: RuntimeMap, n: RuntimeMap, key: string, effect: Effect)
    requires SameRouting(m, n)
    ensures SameRouting(Touched(m, key, effect), Touched(n, key, effect))
  {
  }

  /** A turn looks at routing only. */
  lemma AfterTurnSame(m: RuntimeMap, n: RuntimeMap, s: Script, v: Verdict)
    requires SameRouting(m, n)
    ensures SameRouting(AtTurn(m, s), AtTurn(n, s)) && SameRouting(AfterTurn(m, s, v), AfterTurn(n, s, v))
  {
    ApplyAllSame(m, n, s.before);
    ApplyAllSame(AtTurn(m, s), AtTurn(n, s), s.during);
    TouchedSame(ApplyAll(AtTurn(m, s), s.during), ApplyAll(AtTurn(n, s), s.during), s.key, EffectOf(s));
  }
}
