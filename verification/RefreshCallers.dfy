/** Callers that go away during a refresh: what detaching the refresh saves, and
    what an inline refresh loses. */
module RefreshCallers {
  import opened Prelude
  import opened RefreshProtocol

  /** The lock is free and the row holds a token upstream no longer accepts. */
  predicate Stranded(s: State) { s.holder.None? && s.row.refresh != Some(s.live) }

  /** Task `t` has rotated tokens that are not in the row yet. */
  predicate HoldsRotated(s: State, t: Task) {
    t in s.tasks && s.tasks[t].Saving? && s.tasks[t].tokens.refresh != s.row.refresh
  }

  /** In every reachable state with nothing lost: dropping a caller strands the
      row exactly when its refresh is inline and holds rotated tokens. */
  lemma {:induction false} DropLosesExactly(access: Option<nat>, refresh: nat, actions: seq<Action>, s: State, t: Task)
    requires Run(Start(access, refresh), actions) == Some(s) && !s.lost
    ensures Stranded(DoDropCaller(s, t)) <==> !t.detached && t in s.callers && HoldsRotated(s, t)
  {
    ReachableInv(Start(access, refresh), actions, s);
    if t in s.tasks { assert TaskOk(s, t); }
  }

  /** How many writes of task `t` have failed. */
  function FailedWrites(actions: seq<Action>, t: Task): nat {
    if actions == [] then 0
    else FailedWrites(actions[..|actions| - 1], t) + if actions[|actions| - 1] == SaveFails(t) then 1 else 0
  }

  lemma AttemptStep(s: State, a: Action, s': State, t: Task)
    requires Next(s, a) == Some(s')
    ensures t in s'.tasks && s'.tasks[t].Saving? ==>
      if a == SaveFails(t) then t in s.tasks && s.tasks[t].Saving? && s'.tasks[t].attempt == s.tasks[t].attempt + 1
      else if a.Redeem? && a.t == t then s'.tasks[t].attempt == 0 && t in s.tasks && s.tasks[t].Calling?
      else t in s.tasks && s.tasks[t] == s'.tasks[t]
    ensures t in s'.tasks && !s'.tasks[t].Saving? && !s'.tasks[t].Done? && !s'.tasks[t].Cancelled? ==>
      a != SaveFails(t) && (t in s.tasks ==> !s.tasks[t].Saving? && !s.tasks[t].Done? && !s.tasks[t].Cancelled?)
    ensures t in s.tasks ==> t in s'.tasks
    ensures a == SaveFails(t) ==> t in s.tasks
  {
  }

  /** A task that still has to write counts its own failed writes. */
  lemma {:induction false} AttemptsAreWrites(access: Option<nat>, refresh: nat, actions: seq<Action>, s: State, t: Task)
    requires Run(Start(access, refresh), actions) == Some(s)
    ensures t !in s.tasks ==> FailedWrites(actions, t) == 0
    ensures t in s.tasks && s.tasks[t].Saving? ==> FailedWrites(actions, t) == s.tasks[t].attempt
    ensures t in s.tasks && !s.tasks[t].Saving? && !s.tasks[t].Done? && !s.tasks[t].Cancelled? ==>
      FailedWrites(actions, t) == 0
  {
    if actions != [] {
      var before, a := actions[..|actions| - 1], actions[|actions| - 1];
      var s' := Run(Start(access, refresh), before).value;
      AttemptsAreWrites(access, refresh, before, s', t);
      AttemptStep(s', a, s, t);
    }
  }

  /** A step strands the row exactly when it drops such a caller, or when it is the
      fourth failed write of rotated tokens. */
  lemma {:induction false} WhatStrands(access: Option<nat>, refresh: nat, actions: seq<Action>, s: State, a: Action,
                                       s': State)
    requires Run(Start(access, refresh), actions) == Some(s) && !s.lost && Next(s, a) == Some(s')
    ensures Stranded(s') <==>
      HoldsRotated(s, a.t)
      && ((a.DropCaller? && !a.t.detached && a.t in s.callers)
          || (a.SaveFails? && FailedWrites(actions, a.t) == 3))
  {
    AttemptsAreWrites(access, refresh, actions, s, a.t);
    var start := Start(access, refresh);
    ReachableInv(start, actions, s);
    StepKeepsInv(s, a, s');
    if a.t in s.tasks { assert TaskOk(s, a.t); }
    assert s'.holder.None? ==> (Stranded(s') <==> s'.lost);
    LostOnlyBy(s, a, s');
  }

  lemma LostOnlyBy(s: State, a: Action, s': State)
    requires !s.lost && Next(s, a) == Some(s')
    ensures s'.lost ==> s'.holder.None?
    ensures s'.lost <==>
      HoldsRotated(s, a.t)
      && ((a.DropCaller? && !a.t.detached && a.t in s.callers)
          || (a.SaveFails? && s.tasks[a.t].attempt >= PERSIST_RETRIES))
  {
  }

  // ---- detached refreshes

  function WithoutDetachedDrops(actions: seq<Action>): seq<Action> {
    if actions == [] then [] else
    var before, a := WithoutDetachedDrops(actions[..|actions| - 1]), actions[|actions| - 1];
    if a.DropCaller? && a.t.detached then before else before + [a]
  }

  /** The state, but for which callers of detached refreshes still wait. */
  function Forget(s: State): State { s.(callers := set t | t in s.callers && !t.detached) }

  function ForgetAll(s: Option<State>): Option<State> {
    match s
    case Some(s) => Some(Forget(s))
    case None => None
  }

  lemma ForgetAdds(callers: set<Task>, t: Task)
    ensures var inline := set u | u in callers && !u.detached;
      && (set u | u in callers + {t} && !u.detached) == inline + (if t.detached then {} else {t})
      && (set u | u in callers - {t} && !u.detached) == inline - {t}
  {
  }

  lemma CallersDoNotMatter(s: State, a: Action)
    ensures ForgetAll(Next(Forget(s), a)) == ForgetAll(Next(s, a))
  {
    ForgetAdds(s.callers, a.t);
    ForgetAdds(Forget(s).callers, a.t);
    assert Forget(Forget(s)).callers == Forget(s).callers;
  }

  lemma SameForgotten(s: State, u: State, a: Action)
    requires Forget(s) == Forget(u)
    ensures ForgetAll(Next(s, a)) == ForgetAll(Next(u, a))
  {
    CallersDoNotMatter(s, a);
    CallersDoNotMatter(u, a);
  }

  lemma DetachedDropForgotten(s: State, t: Task)
    requires t.detached
    ensures Forget(DoDropCaller(s, t)) == Forget(s)
  {
    ForgetAdds(s.callers, t);
  }

  /** A detached refresh does not notice its caller: a run reaches exactly the
      state it reaches with no such caller dropped, inline ones cancelled alike. */
  lemma {:induction false} DroppedCallersChangeNothing(s: State, actions: seq<Action>)
    ensures ForgetAll(Run(s, actions)) == ForgetAll(Run(s, WithoutDetachedDrops(actions)))
  {
    if actions != [] {
      var before, a := actions[..|actions| - 1], actions[|actions| - 1];
      var kept := WithoutDetachedDrops(before);
      DroppedCallersChangeNothing(s, before);
      if a.DropCaller? && a.t.detached {
        if Run(s, before).Some? { DetachedDropForgotten(Run(s, before).value, a.t); }
      } else {
        assert (kept + [a])[..|kept|] == kept;
        if Run(s, before).Some? { SameForgotten(Run(s, before).value, Run(s, kept).value, a); }
      }
    }
  }

  lemma StepCancelsInline(s: State, a: Action, s': State, t: Task)
    requires Next(s, a) == Some(s') && t.detached && t in s'.tasks && s'.tasks[t].Cancelled?
    ensures t in s.tasks && s.tasks[t].Cancelled?
  {
  }

  /** Detached refreshes are never cancelled. */
  lemma {:induction false} DetachedRunOn(access: Option<nat>, refresh: nat, actions: seq<Action>, s: State, t: Task)
    requires Run(Start(access, refresh), actions) == Some(s) && t.detached && t in s.tasks
    ensures !s.tasks[t].Cancelled?
  {
    if actions != [] {
      var before, a := actions[..|actions| - 1], actions[|actions| - 1];
      var s' := Run(Start(access, refresh), before).value;
      if s.tasks[t].Cancelled? {
        StepCancelsInline(s', a, s, t);
        DetachedRunOn(access, refresh, before, s', t);
        assert false;
      }
    }
  }
}
