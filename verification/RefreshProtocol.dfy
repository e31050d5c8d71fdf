/** Single-use refresh tokens (section 6 of RFC 6749) shared by many tasks. Each
    task captures credentials outside the provider's lock, takes the lock,
    re-reads the row, refreshes upstream if nobody else has, and writes the
    result back with retries. Steps of different tasks interleave freely, and
    a task's caller may be dropped at any await. */
module RefreshProtocol {
  import opened Prelude

  /** A detached refresh runs on a task of its own; an inline one runs inside its
      caller's future and is cancelled with it. */
  datatype Task = Task(id: nat, detached: bool)

  datatype Creds = Creds(access: Option<nat>, refresh: Option<nat>)

  /** `Reading`, `Calling` and `Saving` are the phases inside the lock; while
      `Saving`, upstream has answered and the answer is on its way to the row. */
  datatype Phase =
    | Captured(creds: Creds)
    | Reading(creds: Creds)
    | Calling(creds: Creds)
    | Saving(tokens: Creds, attempt: nat)
    | Done(result: Option<Creds>)
    | Cancelled

  datatype Verdict = Refused | Kept | Rotated

  /** A refresh request that reached upstream: the token it carried, the token
      upstream accepted at that moment, and what became of it. */
  datatype Request = Request(token: nat, accepted: nat, verdict: Verdict)

  /** `live` is the refresh token upstream accepts, `spent` the ones it has
      replaced, `issued` every access token it has given out. */
  datatype State = State(row: Creds, holder: Option<Task>, tasks: map<Task, Phase>, callers: set<Task>,
                         live: nat, spent: set<nat>, issued: set<nat>, sent: seq<Request>, lost: bool)

  const PERSIST_RETRIES: nat := 3

  datatype Action =
    | Capture(t: Task)
    | Acquire(t: Task)
    | Reread(t: Task)
    | RereadFails(t: Task)
    | Redeem(t: Task, access: nat, renewed: Option<nat>)
    | Refuse(t: Task)
    | Save(t: Task)
    | SaveFails(t: Task)
    | DropCaller(t: Task)

  function Start(access: Option<nat>, refresh: nat): State {
    State(Creds(access, Some(refresh)), None, map[], {}, refresh, {},
          if access.Some? then {access.value} else {}, [], false)
  }

  function Release(s: State, t: Task, result: Option<Creds>): State {
    s.(holder := None, tasks := s.tasks[t := Done(result)])
  }

  function Move(s: State, t: Task, p: Phase): State {
    s.(tasks := s.tasks[t := p])
  }

  function PhaseOf(s: State, t: Task): Option<Phase> {
    if t in s.tasks then Some(s.tasks[t]) else None
  }

  /** The caller captures the row's credentials. */
  function DoCapture(s: State, t: Task): Option<State> {
    if t !in s.tasks then Some(Move(s, t, Captured(s.row)).(callers := s.callers + {t})) else None
  }

  function DoAcquire(s: State, t: Task): Option<State> {
    match PhaseOf(s, t)
    case Some(Captured(c)) => if s.holder.None? then Some(Move(s, t, Reading(c)).(holder := Some(t))) else None
    case _ => None
  }

  /** Somebody else refreshed while we waited: reuse what they stored. */
  function DoReread(s: State, t: Task): Option<State> {
    match PhaseOf(s, t)
    case Some(Reading(c)) =>
      if s.row.access.Some? && s.row.access != c.access then Some(Release(s, t, Some(s.row)))
      else Some(Move(s, t, Calling(c)))
    case _ => None
  }

  function DoRereadFails(s: State, t: Task): Option<State> {
    match PhaseOf(s, t)
    case Some(Reading(c)) => Some(Move(s, t, Calling(c)))
    case _ => None
  }

  /** Upstream accepts the live token, and may replace it. */
  function DoRedeem(s: State, t: Task, access: nat, renewed: Option<nat>): Option<State> {
    match PhaseOf(s, t)
    case Some(Calling(c)) =>
      if && c.refresh == Some(s.live) && access !in s.issued
         && (renewed.Some? ==> renewed.value != s.live && renewed.value !in s.spent)
      then
        var refresh := if renewed.Some? then renewed else c.refresh;
        Some(Move(s, t, Saving(Creds(Some(access), refresh), 0)).(
          live := renewed.GetOr(s.live),
          spent := if renewed.Some? then s.spent + {s.live} else s.spent,
          issued := s.issued + {access},
          sent := s.sent + [Request(s.live, s.live, if renewed.Some? then Rotated else Kept)]))
      else None
    case _ => None
  }

  /** The refresh fails and spends nothing; without a refresh token it fails
      before anything is sent. */
  function DoRefuse(s: State, t: Task): Option<State> {
    match PhaseOf(s, t)
    case Some(Calling(c)) =>
      Some(Release(s, t, None).(
        sent := if c.refresh.Some? then s.sent + [Request(c.refresh.value, s.live, Refused)] else s.sent))
    case _ => None
  }

  function DoSave(s: State, t: Task): Option<State> {
    match PhaseOf(s, t)
    case Some(Saving(tokens, _)) => Some(Release(s, t, Some(tokens)).(row := tokens))
    case _ => None
  }

  /** A failed write is retried; the fourth failure gives the tokens up. */
  function DoSaveFails(s: State, t: Task): Option<State> {
    match PhaseOf(s, t)
    case Some(Saving(tokens, k)) =>
      if k < PERSIST_RETRIES then Some(Move(s, t, Saving(tokens, k + 1)))
      else Some(Release(s, t, None).(lost := s.lost || tokens.refresh != s.row.refresh))
    case _ => None
  }

  /** The caller goes away. A detached task does not notice; an inline one is
      cancelled at its await and its lock is freed. */
  function DoDropCaller(s: State, t: Task): State {
    var s' := s.(callers := s.callers - {t});
    if t.detached || t !in s.callers || t !in s.tasks then s'
    else
      match s.tasks[t]
      case Captured(_) => Move(s', t, Cancelled)
      case Reading(_) => Move(s', t, Cancelled).(holder := None)
      case Calling(_) => Move(s', t, Cancelled).(holder := None)
      case Saving(tokens, _) =>
        Move(s', t, Cancelled).(holder := None, lost := s.lost || tokens.refresh != s.row.refresh)
      case _ => s'
  }

  function Next(s: State, a: Action): Option<State> {
    match a
    case Capture(t) => DoCapture(s, t)
    case Acquire(t) => DoAcquire(s, t)
    case Reread(t) => DoReread(s, t)
    case RereadFails(t) => DoRereadFails(s, t)
    case Redeem(t, access, renewed) => DoRedeem(s, t, access, renewed)
    case Refuse(t) => DoRefuse(s, t)
    case Save(t) => DoSave(s, t)
    case SaveFails(t) => DoSaveFails(s, t)
    case DropCaller(t) => Some(DoDropCaller(s, t))
  }

  /** The state after a sequence of actions; `None` if one was not possible. */
  function Run(s: State, actions: seq<Action>): Option<State> {
    if actions == [] then Some(s)
    else
      match Run(s, actions[..|actions| - 1])
      case None => None
      case Some(s') => Next(s', actions[|actions| - 1])
  }

  lemma RunOneMore(s: State, actions: seq<Action>, a: Action, s': State)
    requires Run(s, actions) == Some(s')
    ensures Run(s, actions + [a]) == Next(s', a)
  {
    assert (actions + [a])[..|actions|] == actions;
  }

  // ---- the invariant

  predicate InLock(p: Phase) { p.Reading? || p.Calling? || p.Saving? }

  predicate HasCreds(p: Phase) { p.Captured? || p.Reading? || p.Calling? }

  /** Captured credentials are the row's, or older: then they differ from the row
      in their access token, and their refresh token is the row's or spent. */
  predicate Known(s: State, c: Creds) {
    && (c == s.row || (s.row.access.Some? && c.access != s.row.access))
    && (c.access.Some? ==> c.access.value in s.issued)
    && c.refresh.Some? && (c.refresh == s.row.refresh || c.refresh.value in s.spent)
  }

  /** Tokens upstream has just given out, not yet in the row. */
  predicate NewTokens(s: State, tokens: Creds)
    requires s.row.refresh.Some?
  {
    && tokens.refresh == Some(s.live) && tokens.access.Some? && tokens.access.value in s.issued
    && tokens.access != s.row.access
    && (tokens.refresh == s.row.refresh || s.row.refresh.value in s.spent)
    && forall t :: t in s.tasks && HasCreds(s.tasks[t]) ==> s.tasks[t].creds.access != tokens.access
  }

  /** What holds of task `t`. */
  ghost predicate TaskOk(s: State, t: Task)
    requires t in s.tasks && s.row.refresh.Some?
  {
    var p := s.tasks[t];
    && (InLock(p) <==> s.holder == Some(t))
    && (HasCreds(p) ==> Known(s, p.creds))
    && (p.Saving? ==> NewTokens(s, p.tokens) && p.attempt <= PERSIST_RETRIES)
  }

  predicate SavingNow(s: State) {
    s.holder.Some? && s.holder.value in s.tasks && s.tasks[s.holder.value].Saving?
  }

  ghost predicate Inv(s: State) {
    && s.row.refresh.Some? && (s.row.access.Some? ==> s.row.access.value in s.issued)
    && (s.holder.Some? ==> s.holder.value in s.tasks)
    && (forall t :: t in s.tasks ==> TaskOk(s, t))
    && s.live !in s.spent
    && (!s.lost && !SavingNow(s) ==> s.row.refresh == Some(s.live))
    && (s.lost ==> !SavingNow(s) && s.row.refresh.value in s.spent)
  }

  lemma OtherTaskOk(s: State, s': State, u: Task)
    requires s.row.refresh.Some? && s'.row == s.row
    requires u in s.tasks && TaskOk(s, u) && u in s'.tasks && s'.tasks[u] == s.tasks[u]
    requires s'.live == s.live && s'.spent == s.spent && s'.issued == s.issued
    requires s.holder == Some(u) <==> s'.holder == Some(u)
    requires !s.tasks[u].Saving?
    ensures TaskOk(s', u)
  {
  }

  lemma QuietStep(s: State, a: Action, s': State)
    requires Inv(s) && Next(s, a) == Some(s')
    requires a.Acquire? || a.Reread? || a.RereadFails? || a.Refuse?
    ensures Inv(s')
  {
    forall u | u in s'.tasks ensures TaskOk(s', u) {
      if u != a.t { OtherTaskOk(s, s', u); }
    }
  }

  lemma CaptureStep(s: State, t: Task, s': State)
    requires Inv(s) && DoCapture(s, t) == Some(s')
    ensures Inv(s')
  {
    forall u | u in s'.tasks ensures TaskOk(s', u) {
      if u != t && !s.tasks[u].Saving? { OtherTaskOk(s, s', u); }
    }
  }

  /** Only a task whose token is the row's can redeem it. */
  lemma RedeemStep(s: State, t: Task, access: nat, renewed: Option<nat>, s': State)
    requires Inv(s) && DoRedeem(s, t, access, renewed) == Some(s')
    ensures Inv(s') && !s.lost
  {
    assert TaskOk(s, t);
    forall u | u in s'.tasks ensures TaskOk(s', u) {
      if u != t { assert TaskOk(s, u); }
    }
  }

  lemma SaveStep(s: State, t: Task, s': State)
    requires Inv(s) && DoSave(s, t) == Some(s')
    ensures Inv(s')
  {
    assert TaskOk(s, t);
    forall u | u in s'.tasks ensures TaskOk(s', u) {
      if u != t { assert TaskOk(s, u); }
    }
  }

  lemma SaveFailsStep(s: State, t: Task, s': State)
    requires Inv(s) && DoSaveFails(s, t) == Some(s')
    ensures Inv(s')
  {
    assert TaskOk(s, t);
    forall u | u in s'.tasks ensures TaskOk(s', u) {
      if u != t { OtherTaskOk(s, s', u); }
    }
  }

  lemma DropStep(s: State, t: Task)
    requires Inv(s)
    ensures Inv(DoDropCaller(s, t))
  {
    var s' := DoDropCaller(s, t);
    if t in s.tasks { assert TaskOk(s, t); }
    if s'.tasks == s.tasks {
      forall u | u in s'.tasks ensures TaskOk(s', u) { assert TaskOk(s, u); }
    } else {
      forall u | u in s'.tasks ensures TaskOk(s', u) {
        if u != t { BystanderOk(s, t, u); }
      }
    }
  }

  lemma BystanderOk(s: State, t: Task, u: Task)
    requires Inv(s) && t in s.tasks && u in s.tasks && u != t && DoDropCaller(s, t).tasks != s.tasks
    ensures u in DoDropCaller(s, t).tasks && TaskOk(DoDropCaller(s, t), u)
  {
    assert TaskOk(s, t) && TaskOk(s, u);
  }

  lemma StepKeepsInv(s: State, a: Action, s': State)
    requires Inv(s) && Next(s, a) == Some(s')
    ensures Inv(s')
  {
    match a
    case Capture(t) => CaptureStep(s, t, s');
    case Redeem(t, access, renewed) => RedeemStep(s, t, access, renewed, s');
    case Save(t) => SaveStep(s, t, s');
    case SaveFails(t) => SaveFailsStep(s, t, s');
    case DropCaller(t) => DropStep(s, t);
    case _ => QuietStep(s, a, s');
  }

  /** `lost` is permanent: once rotated tokens were given up, it stays so. */
  lemma LostIsPermanent(s: State, a: Action, s': State)
    requires Next(s, a) == Some(s')
    ensures s.lost ==> s'.lost
  {
  }

  lemma {:induction false} ReachableInv(start: State, actions: seq<Action>, s: State)
    requires Inv(start) && Run(start, actions) == Some(s)
    ensures Inv(s)
  {
    if actions != [] {
      var s' := Run(start, actions[..|actions| - 1]).value;
      ReachableInv(start, actions[..|actions| - 1], s');
      StepKeepsInv(s', actions[|actions| - 1], s);
    }
  }

  /** Over every interleaving: at most one task is in the locked section, no task
      writes more than four times, and whenever the lock is free the row holds
      the token upstream accepts exactly when no rotated tokens were given up. */
  lemma {:induction false} RefreshSafety(access: Option<nat>, refresh: nat, actions: seq<Action>, s: State)
    requires Run(Start(access, refresh), actions) == Some(s)
    ensures s.holder.None? ==> (s.row.refresh == Some(s.live) <==> !s.lost)
    ensures forall t, u :: t in s.tasks && u in s.tasks && InLock(s.tasks[t]) && InLock(s.tasks[u]) ==> t == u
    ensures forall t :: t in s.tasks && s.tasks[t].Saving? ==> s.tasks[t].attempt <= 3
  {
    ReachableInv(Start(access, refresh), actions, s);
    forall t | t in s.tasks ensures TaskOk(s, t) {}
  }

  /** Once rotated tokens were given up, nothing is ever redeemed again. */
  lemma {:induction false} LostMeansReauth(access: Option<nat>, refresh: nat, actions: seq<Action>, s: State, a: Action)
    requires Run(Start(access, refresh), actions) == Some(s)
    requires s.lost && a.Redeem?
    ensures Next(s, a) == None
  {
    ReachableInv(Start(access, refresh), actions, s);
    if Next(s, a).Some? { RedeemStep(s, a.t, a.access, a.renewed, Next(s, a).value); }
  }
}
