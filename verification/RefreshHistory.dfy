/** What refreshing tasks send upstream: exactly when every request carries the
    token upstream accepts and no replaced token is ever sent again. */
module RefreshHistory {
  import opened Prelude
  import opened RefreshProtocol

  /** No token is ever sent again after upstream replaced it, and none is sent
      that upstream would not accept. */
  ghost predicate HistoryOk(s: State) {
    && (forall i :: 0 <= i < |s.sent| ==> s.sent[i].token == s.sent[i].accepted)
    && (forall i :: 0 <= i < |s.sent| && s.sent[i].verdict == Rotated ==> s.sent[i].token in s.spent)
    && (forall i, j :: 0 <= i < j < |s.sent| && s.sent[i].verdict == Rotated ==> s.sent[j].token != s.sent[i].token)
  }

  /** A re-read that fails for a task whose refresh token is out of date. */
  predicate StaleReadFailure(s: State, a: Action) {
    && a.RereadFails? && PhaseOf(s, a.t).Some? && PhaseOf(s, a.t).value.Reading?
    && PhaseOf(s, a.t).value.creds.refresh != s.row.refresh
  }

  /** The tasks to which that happened. */
  function StaleTasks(start: State, actions: seq<Action>): set<Task> {
    if actions == [] then {}
    else
      var before, a := actions[..|actions| - 1], actions[|actions| - 1];
      StaleTasks(start, before) +
        if Run(start, before).Some? && StaleReadFailure(Run(start, before).value, a) then {a.t} else {}
  }

  /** No re-read failed while the task's refresh token was out of date. */
  predicate ReadsReliable(start: State, actions: seq<Action>) {
    actions == [] ||
    var before := actions[..|actions| - 1];
    && ReadsReliable(start, before)
    && (Run(start, before).Some? ==> !StaleReadFailure(Run(start, before).value, actions[|actions| - 1]))
  }

  lemma {:induction false} ReliableMeans(start: State, actions: seq<Action>)
    ensures ReadsReliable(start, actions) <==> StaleTasks(start, actions) == {}
  {
    if actions != [] { ReliableMeans(start, actions[..|actions| - 1]); }
  }

  // ---- one step

  ghost predicate NoneAnswered(s: State, stale: set<Task>) {
    forall t :: t in stale && t in s.tasks ==> !s.tasks[t].Done?
  }

  /** A task about to send is one of the stale ones exactly when its token is not
      the live one; and the history is right unless one of them was answered. */
  ghost predicate Traced(s: State, stale: set<Task>) {
    && (forall t :: t in stale ==> t in s.tasks && (s.tasks[t].Calling? || s.tasks[t].Done? || s.tasks[t].Cancelled?))
    && (forall t :: t in s.tasks && s.tasks[t].Calling? ==> (t in stale <==> s.tasks[t].creds.refresh != Some(s.live)))
    && (HistoryOk(s) <==> NoneAnswered(s, stale))
  }

  lemma SendExtends(s: State, s': State, r: Request)
    requires s'.sent == s.sent + [r] && s.spent <= s'.spent
    requires r.verdict == Rotated ==> r.token in s'.spent
    requires forall i :: 0 <= i < |s.sent| && s.sent[i].verdict == Rotated && s.sent[i].token in s.spent ==>
      s.sent[i].token != r.token
    requires forall i :: 0 <= i < |s.sent| && s.sent[i].token in s'.spent && s.sent[i].verdict == Rotated ==>
      s.sent[i].token in s.spent
    ensures HistoryOk(s') <==> HistoryOk(s) && r.token == r.accepted
  {
    var n := |s.sent|;
    assert s'.sent[n] == r && forall i :: 0 <= i < n ==> s'.sent[i] == s.sent[i];
  }

  /** What was sent and rotated is spent, whatever else happened. */
  ghost predicate RotatedSpent(s: State) {
    forall i :: 0 <= i < |s.sent| && s.sent[i].verdict == Rotated ==> s.sent[i].token in s.spent
  }

  lemma RefuseTraced(s: State, t: Task, s': State, stale: set<Task>)
    requires Inv(s) && RotatedSpent(s) && !s.lost && DoRefuse(s, t) == Some(s') && Traced(s, stale)
    ensures Traced(s', stale) && RotatedSpent(s')
  {
    assert TaskOk(s, t);
    var token := s.tasks[t].creds.refresh.value;
    if token == s.live {
      SendExtends(s, s', Request(token, s.live, Refused));
    } else {
      assert s'.sent[|s.sent|] == Request(token, s.live, Refused);
      assert t in stale && s'.tasks[t].Done?;
    }
    OnlyHolderCalls(s, t);
  }

  lemma OnlyHolderCalls(s: State, t: Task)
    requires Inv(s) && t in s.tasks && InLock(s.tasks[t])
    ensures forall u :: u in s.tasks && u != t ==> !InLock(s.tasks[u])
  {
    assert TaskOk(s, t);
    forall u | u in s.tasks && u != t ensures !InLock(s.tasks[u]) { assert TaskOk(s, u); }
  }

  lemma RedeemTraced(s: State, t: Task, access: nat, renewed: Option<nat>, s': State, stale: set<Task>)
    requires Inv(s) && RotatedSpent(s) && DoRedeem(s, t, access, renewed) == Some(s') && Traced(s, stale)
    ensures Traced(s', stale) && RotatedSpent(s')
  {
    SendExtends(s, s', s'.sent[|s.sent|]);
    OnlyHolderCalls(s, t);
    assert t !in stale;
  }

  /** A step that sends nothing and reads nothing starts no call, and ends one
      only by cancelling it. */
  lemma QuietTask(s: State, a: Action, s': State, t: Task)
    requires Next(s, a) == Some(s') && !a.Refuse? && !a.Redeem? && !a.Reread? && !a.RereadFails?
    requires t in s'.tasks
    ensures s'.tasks[t].Calling? ==> t in s.tasks && s.tasks[t] == s'.tasks[t]
    ensures t in s.tasks && (s.tasks[t].Calling? || s.tasks[t].Done? || s.tasks[t].Cancelled?) ==>
      s'.tasks[t] == s.tasks[t] || s'.tasks[t].Cancelled?
    ensures t in s.tasks && s.tasks[t].Done? ==> s'.tasks[t].Done?
  {
  }

  lemma QuietState(s: State, a: Action, s': State)
    requires Next(s, a) == Some(s') && !a.Refuse? && !a.Redeem?
    ensures s'.sent == s.sent && s'.spent == s.spent && s'.live == s.live
    ensures forall t :: t in s.tasks ==> t in s'.tasks
  {
  }

  lemma QuietTraced(s: State, a: Action, s': State, stale: set<Task>)
    requires RotatedSpent(s) && Next(s, a) == Some(s') && Traced(s, stale)
    requires !a.Refuse? && !a.Redeem? && !a.Reread? && !a.RereadFails?
    ensures Traced(s', stale) && RotatedSpent(s')
  {
    QuietState(s, a, s');
    assert HistoryOk(s') <==> HistoryOk(s);
    forall t | t in s'.tasks
      ensures s'.tasks[t].Calling? ==> (t in stale <==> s'.tasks[t].creds.refresh != Some(s'.live))
      ensures t in stale ==> (s'.tasks[t].Calling? || s'.tasks[t].Done? || s'.tasks[t].Cancelled?)
      ensures t in stale ==> (s'.tasks[t].Done? <==> s.tasks[t].Done?)
    {
      QuietTask(s, a, s', t);
    }
  }

  /** The re-read: a task goes on to send, with the live token or a stale one. */
  lemma ReadTraced(s: State, a: Action, s': State, stale: set<Task>)
    requires Inv(s) && RotatedSpent(s) && !s.lost && Next(s, a) == Some(s') && Traced(s, stale)
    requires a.Reread? || a.RereadFails?
    ensures Traced(s', stale + if StaleReadFailure(s, a) then {a.t} else {}) && RotatedSpent(s')
  {
    assert TaskOk(s, a.t);
    assert s'.sent == s.sent && s'.spent == s.spent && s'.live == s.live;
    assert HistoryOk(s') <==> HistoryOk(s);
    assert s.row.refresh == Some(s.live);
  }

  lemma {:induction false} RunTraced(start: State, actions: seq<Action>, s: State)
    requires Inv(start) && start.sent == [] && start.tasks == map[]
    requires Run(start, actions) == Some(s) && !s.lost
    ensures Traced(s, StaleTasks(start, actions)) && RotatedSpent(s)
  {
    if actions != [] {
      var before, a := actions[..|actions| - 1], actions[|actions| - 1];
      var s' := Run(start, before).value;
      var stale := StaleTasks(start, before);
      LostIsPermanent(s', a, s);
      RunTraced(start, before, s');
      ReachableInv(start, before, s');
      match a
      case Refuse(t) => RefuseTraced(s', t, s, stale);
      case Redeem(t, access, renewed) => RedeemTraced(s', t, access, renewed, s, stale);
      case Reread(_) => ReadTraced(s', a, s, stale);
      case RereadFails(_) => ReadTraced(s', a, s, stale);
      case _ => QuietTraced(s', a, s, stale);
    }
  }

  // ---- over every run

  /** Over every run in which no rotated tokens were given up: all requests were
      right exactly when each out-of-date task whose re-read failed was cancelled,
      or still waits, before upstream answered it. */
  lemma {:induction false} SendsAreRight(access: Option<nat>, refresh: nat, actions: seq<Action>, s: State)
    requires Run(Start(access, refresh), actions) == Some(s) && !s.lost
    ensures HistoryOk(s) <==>
      forall t :: t in StaleTasks(Start(access, refresh), actions) ==> t in s.tasks && !s.tasks[t].Done?
  {
    RunTraced(Start(access, refresh), actions, s);
  }

  /** So with no task cancelled, and the lock free: all requests were right
      exactly when no out-of-date task's re-read failed. */
  lemma {:induction false} UncancelledSendsAreRight(access: Option<nat>, refresh: nat, actions: seq<Action>, s: State)
    requires Run(Start(access, refresh), actions) == Some(s) && !s.lost && s.holder.None?
    requires forall t :: t in s.tasks ==> !s.tasks[t].Cancelled?
    ensures HistoryOk(s) <==> ReadsReliable(Start(access, refresh), actions)
  {
    var start := Start(access, refresh);
    SendsAreRight(access, refresh, actions, s);
    ReliableMeans(start, actions);
    RunTraced(start, actions, s);
    ReachableInv(start, actions, s);
    forall t | t in StaleTasks(start, actions) ensures s.tasks[t].Done? { assert TaskOk(s, t); }
  }

  // ---- an instance

  const OLD := Creds(Some(0), Some(0))
  const NEW := Creds(Some(1), Some(1))
  const FIRST := Task(1, true)
  const SECOND := Task(2, true)

  predicate Both(s: State, p: Phase, q: Phase) {
    PhaseOf(s, FIRST) == Some(p) && PhaseOf(s, SECOND) == Some(q)
  }

  lemma FirstRotates() returns (actions: seq<Action>, s: State)
    ensures Run(Start(Some(0), 0), actions) == Some(s)
    ensures Both(s, Done(Some(NEW)), Captured(OLD)) && s.row == NEW && s.holder == None
    ensures s.live == 1 && s.sent == [Request(0, 0, Rotated)]
  {
    var s0 := Start(Some(0), 0);
    RunOneMore(s0, [], Capture(FIRST), s0);
    s := DoCapture(s0, FIRST).value;
    RunOneMore(s0, [] + [Capture(FIRST)], Capture(SECOND), s);
    actions := [] + [Capture(FIRST)] + [Capture(SECOND)];
    s := DoCapture(s, SECOND).value;
    RunOneMore(s0, actions, Acquire(FIRST), s);
    s := DoAcquire(s, FIRST).value;
    RunOneMore(s0, actions + [Acquire(FIRST)], Reread(FIRST), s);
    actions := actions + [Acquire(FIRST)] + [Reread(FIRST)];
    s := DoReread(s, FIRST).value;
    assert Both(s, Calling(OLD), Captured(OLD)) && 1 !in s.issued && 1 !in s.spent;
    RunOneMore(s0, actions, Redeem(FIRST, 1, Some(1)), s);
    s := DoRedeem(s, FIRST, 1, Some(1)).value;
    RunOneMore(s0, actions + [Redeem(FIRST, 1, Some(1))], Save(FIRST), s);
    actions := actions + [Redeem(FIRST, 1, Some(1))] + [Save(FIRST)];
    s := DoSave(s, FIRST).value;
  }

  /** Such a run exists: two tasks capture the same credentials, the first
      rotates the token, the second cannot re-read the row. */
  lemma StaleReadIsPossible() returns (actions: seq<Action>, s: State)
    ensures Run(Start(Some(0), 0), actions) == Some(s) && !HistoryOk(s)
    ensures s.sent == [Request(0, 0, Rotated), Request(0, 1, Refused)]
  {
    var s0 := Start(Some(0), 0);
    actions, s := FirstRotates();
    RunOneMore(s0, actions, Acquire(SECOND), s);
    s := DoAcquire(s, SECOND).value;
    RunOneMore(s0, actions + [Acquire(SECOND)], RereadFails(SECOND), s);
    actions := actions + [Acquire(SECOND)] + [RereadFails(SECOND)];
    s := DoRereadFails(s, SECOND).value;
    RunOneMore(s0, actions, Refuse(SECOND), s);
    s := DoRefuse(s, SECOND).value;
    actions := actions + [Refuse(SECOND)];
    assert s.sent[1] == Request(0, 1, Refused);
  }
}
