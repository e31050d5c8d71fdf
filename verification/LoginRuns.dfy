/** Every interleaving of login attempts: guards are taken, report at most one
    outcome each, and are dropped at any time, possibly without reporting. */
module LoginRuns {
  import opened Prelude
  import opened RateLimit

  datatype Guard = Guard(key: Address, begunAt: nat, reported: bool)

  datatype State = State(buckets: Buckets, guards: map<nat, Guard>)

  /** `BareFailure` is a wrong bearer secret: it counts against the bucket but
      holds no guard. */
  datatype Event =
    | Begin(id: nat, ip: Address, at: nat)
    | Drop(id: nat)
    | Failure(id: nat, at: nat)
    | Success(id: nat)
    | Prune(at: nat)
    | BareFailure(ip: Address, at: nat)

  const START := State(map[], map[])

  /** A task reports once, after it began, while it still holds its guard. */
  predicate Enabled(s: State, e: Event) {
    match e
    case Begin(id, _, _) => id !in s.guards
    case Drop(id) => id in s.guards
    case Failure(id, at) => id in s.guards && !s.guards[id].reported && s.guards[id].begunAt <= at
    case Success(id) => id in s.guards && !s.guards[id].reported
    case Prune(_) => true
    case BareFailure(_, _) => true
  }

  function Report(s: State, id: nat): map<nat, Guard>
    requires id in s.guards
  {
    s.guards[id := s.guards[id].(reported := true)]
  }

  function Apply(s: State, e: Event): State
    requires Enabled(s, e)
  {
    match e
    case Begin(id, ip, at) =>
      var key := LimitKey(ip);
      var guards := if Admits(s.buckets, key, at) then s.guards[id := Guard(key, at, false)] else s.guards;
      State(Begun(s.buckets, key, at), guards)
    case Drop(id) => State(Released(s.buckets, s.guards[id].key), s.guards - {id})
    case Failure(id, at) => State(Recorded(s.buckets, s.guards[id].key, at), Report(s, id))
    case Success(id) => State(Cleared(s.buckets, s.guards[id].key), Report(s, id))
    case Prune(at) => State(Pruned(s.buckets, at), s.guards)
    case BareFailure(ip, at) => State(Recorded(s.buckets, LimitKey(ip), at), s.guards)
  }

  ghost predicate Legal(es: seq<Event>)
    decreases |es|, 0
  {
    es == [] || (Legal(es[..|es| - 1]) && Enabled(After(es[..|es| - 1]), es[|es| - 1]))
  }

  ghost function After(es: seq<Event>): State
    requires Legal(es)
    decreases |es|, 1
  {
    if es == [] then START else Apply(After(es[..|es| - 1]), es[|es| - 1])
  }

  /** No wrong bearer secret counts against this bucket. */
  ghost predicate GuardedAt(es: seq<Event>, key: Address) {
    forall k :: 0 <= k < |es| && es[k].BareFailure? ==> LimitKey(es[k].ip) != key
  }

  // ---- slots

  type Guards = map<nat, Guard>

  function Live(g: Guards, key: Address): set<nat> { set id | id in g && g[id].key == key }

  function Pending(g: Guards, key: Address): set<nat> { set id | id in g && g[id].key == key && !g[id].reported }

  lemma NewGuard(g: Guards, id: nat, guard: Guard, key: Address)
    requires id !in g && !guard.reported
    ensures Live(g[id := guard], key) == Live(g, key) + if guard.key == key then {id} else {}
    ensures Pending(g[id := guard], key) == Pending(g, key) + if guard.key == key then {id} else {}
  {
  }

  lemma GuardGone(g: Guards, id: nat, key: Address)
    requires id in g
    ensures Live(g - {id}, key) == Live(g, key) - {id} && (id in Live(g, key) <==> g[id].key == key)
    ensures Pending(g - {id}, key) <= Pending(g, key)
  {
  }

  lemma GuardReported(g: Guards, id: nat, key: Address)
    requires id in g && !g[id].reported
    ensures var h := g[id := g[id].(reported := true)];
      && Live(h, key) == Live(g, key)
      && Pending(h, key) == Pending(g, key) - {id}
      && (id in Pending(g, key) <==> g[id].key == key)
  {
  }

  /** A bucket's `in_flight` is the number of guards held on it, at most five. */
  ghost predicate SlotsExact(s: State) {
    forall key :: At(s.buckets, key).inFlight == |Live(s.guards, key)| <= FAILURE_THRESHOLD
  }

  lemma RefusedSlots(s: State, id: nat, ip: Address, at: nat)
    requires SlotsExact(s) && id !in s.guards && !Admits(s.buckets, LimitKey(ip), at)
    ensures SlotsExact(Apply(s, Begin(id, ip, at)))
  {
    var t := Apply(s, Begin(id, ip, at));
    forall key ensures At(t.buckets, key).inFlight == |Live(t.guards, key)| <= FAILURE_THRESHOLD {
      assert At(t.buckets, key) == At(s.buckets, key);
      assert At(s.buckets, key).inFlight == |Live(s.guards, key)|;
    }
  }

  lemma AdmittedSlots(s: State, id: nat, ip: Address, at: nat)
    requires SlotsExact(s) && id !in s.guards && Admits(s.buckets, LimitKey(ip), at)
    ensures SlotsExact(Apply(s, Begin(id, ip, at)))
  {
    var t := Apply(s, Begin(id, ip, at));
    forall key ensures At(t.buckets, key).inFlight == |Live(t.guards, key)| <= FAILURE_THRESHOLD {
      assert At(s.buckets, key).inFlight == |Live(s.guards, key)|;
      NewGuard(s.guards, id, Guard(LimitKey(ip), at, false), key);
    }
  }

  lemma DropSlots(s: State, id: nat)
    requires SlotsExact(s) && id in s.guards
    ensures SlotsExact(Apply(s, Drop(id)))
  {
    var t := Apply(s, Drop(id));
    forall key ensures At(t.buckets, key).inFlight == |Live(t.guards, key)| <= FAILURE_THRESHOLD {
      assert At(s.buckets, key).inFlight == |Live(s.guards, key)|;
      GuardGone(s.guards, id, key);
    }
  }

  lemma OtherSlots(s: State, e: Event)
    requires SlotsExact(s) && Enabled(s, e) && !e.Begin? && !e.Drop?
    ensures SlotsExact(Apply(s, e))
  {
    var t := Apply(s, e);
    forall key ensures At(t.buckets, key).inFlight == |Live(t.guards, key)| <= FAILURE_THRESHOLD {
      assert At(s.buckets, key).inFlight == |Live(s.guards, key)|;
      assert Live(t.guards, key) == Live(s.guards, key);
    }
  }

  /** Over every interleaving, bare failures included. */
  lemma {:induction false} InFlightIsLiveGuards(es: seq<Event>)
    requires Legal(es)
    ensures SlotsExact(After(es))
  {
    if es == [] {
      forall key ensures Live(START.guards, key) == {} {}
    } else {
      InFlightIsLiveGuards(es[..|es| - 1]);
      var s := After(es[..|es| - 1]);
      match es[|es| - 1] {
        case Begin(id, ip, at) =>
          if Admits(s.buckets, LimitKey(ip), at) { AdmittedSlots(s, id, ip, at); } else { RefusedSlots(s, id, ip, at); }
        case Drop(id) => DropSlots(s, id);
        case e => OtherSlots(s, e);
      }
    }
  }

  // ---- spacing

  /** Below the threshold, failures and undecided attempts together stay within
      it; from the threshold on, at most one attempt is undecided, and it began
      when the lockout of the last failure was over. */
  ghost predicate Throttled(s: State, key: Address) {
    var b := At(s.buckets, key);
    if b.failures < FAILURE_THRESHOLD then b.failures + |Pending(s.guards, key)| <= FAILURE_THRESHOLD
    else
      && |Pending(s.guards, key)| <= 1
      && b.lastFailure.Some?
      && b.lockedUntil == Some(b.lastFailure.value + CooldownFor(b.failures - FAILURE_THRESHOLD))
      && forall id :: id in Pending(s.guards, key) ==> b.lockedUntil.value <= s.guards[id].begunAt
  }

  lemma PendingWithin(s: State, key: Address)
    requires SlotsExact(s)
    ensures |Pending(s.guards, key)| <= At(s.buckets, key).inFlight <= FAILURE_THRESHOLD
  {
    SmallerSet(Pending(s.guards, key), Live(s.guards, key));
    assert At(s.buckets, key).inFlight == |Live(s.guards, key)|;
  }

  /** An attempt refused changes nothing that counts. */
  lemma RefusedThrottled(s: State, id: nat, ip: Address, at: nat, key: Address)
    requires id !in s.guards && Throttled(s, key)
    requires key != LimitKey(ip) || !Admits(s.buckets, key, at)
    ensures Throttled(Apply(s, Begin(id, ip, at)), key)
  {
    var t := Apply(s, Begin(id, ip, at));
    assert At(t.buckets, key) == At(s.buckets, key);
    assert Pending(t.guards, key) == Pending(s.guards, key);
    assert forall i :: i in Pending(s.guards, key) ==> t.guards[i] == s.guards[i];
  }

  lemma AdmittedThrottled(s: State, id: nat, ip: Address, at: nat)
    requires SlotsExact(s) && id !in s.guards && Throttled(s, LimitKey(ip)) && Admits(s.buckets, LimitKey(ip), at)
    ensures Throttled(Apply(s, Begin(id, ip, at)), LimitKey(ip))
  {
    var key := LimitKey(ip);
    var t := Apply(s, Begin(id, ip, at));
    PendingWithin(s, key);
    assert Pending(t.guards, key) == Pending(s.guards, key) + {id};
    assert |Pending(t.guards, key)| == |Pending(s.guards, key)| + 1;
    if At(s.buckets, key).failures >= FAILURE_THRESHOLD {
      assert Pending(s.guards, key) == {};
    }
  }

  lemma FailureThrottled(s: State, e: Event, key: Address)
    requires Enabled(s, e) && Throttled(s, key) && e.Failure? && key == s.guards[e.id].key
    ensures Throttled(Apply(s, e), key)
  {
    GuardReported(s.guards, e.id, key);
    CounterStep(s, e, key);
  }

  lemma ReportThrottled(s: State, id: nat, e: Event, key: Address)
    requires SlotsExact(s) && Enabled(s, e) && Throttled(s, key)
    requires (e.Failure? || e.Success?) && e.id == id
    ensures Throttled(Apply(s, e), key)
  {
    var t := Apply(s, e);
    if key != s.guards[id].key {
      GuardReported(s.guards, id, key);
      assert forall i :: i in Pending(s.guards, key) ==> t.guards[i] == s.guards[i];
    } else if e.Failure? {
      FailureThrottled(s, e, key);
    } else {
      PendingWithin(s, key);
      GuardReported(s.guards, id, key);
    }
  }

  lemma QuietThrottled(s: State, e: Event, key: Address)
    requires SlotsExact(s) && Enabled(s, e) && Throttled(s, key)
    requires e.Drop? || e.Prune? || (e.BareFailure? && LimitKey(e.ip) != key)
    ensures Throttled(Apply(s, e), key)
  {
    var t := Apply(s, e);
    PendingWithin(s, key);
    assert Pending(t.guards, key) <= Pending(s.guards, key);
    SmallerSet(Pending(t.guards, key), Pending(s.guards, key));
  }

  lemma StepThrottled(s: State, e: Event, key: Address)
    requires SlotsExact(s) && Enabled(s, e) && Throttled(s, key)
    requires e.BareFailure? ==> LimitKey(e.ip) != key
    ensures Throttled(Apply(s, e), key)
  {
    if e.Begin? {
      if key == LimitKey(e.ip) && Admits(s.buckets, key, e.at) {
        AdmittedThrottled(s, e.id, e.ip, e.at);
      } else {
        RefusedThrottled(s, e.id, e.ip, e.at, key);
      }
    } else if e.Failure? || e.Success? {
      ReportThrottled(s, e.id, e, key);
    } else {
      QuietThrottled(s, e, key);
    }
  }

  lemma {:induction false} RunsAreThrottled(es: seq<Event>, key: Address)
    requires Legal(es) && GuardedAt(es, key)
    ensures Throttled(After(es), key)
  {
    if es == [] {
      assert Pending(START.guards, key) == {};
    } else {
      var front := es[..|es| - 1];
      RunsAreThrottled(front, key);
      InFlightIsLiveGuards(front);
      var s := After(front);
      StepThrottled(s, es[|es| - 1], key);
    }
  }

  /** The bucket an event's failure counts against, if it is one. */
  function FailsIn(s: State, e: Event, key: Address): bool
    requires Enabled(s, e)
  {
    if e.Failure? then s.guards[e.id].key == key else e.BareFailure? && LimitKey(e.ip) == key
  }

  /** The event forgets the bucket's failures. */
  function Forgets(s: State, e: Event, key: Address): bool
    requires Enabled(s, e)
  {
    if e.Success? then s.guards[e.id].key == key else e.Prune? && !At(s.buckets, key).KeptAt(e.at)
  }

  /** The failures recorded in a bucket since it was last cleared or pruned. */
  ghost function Failures(es: seq<Event>, key: Address): seq<nat>
    requires Legal(es)
  {
    if es == [] then []
    else
      var front, e := es[..|es| - 1], es[|es| - 1];
      if FailsIn(After(front), e, key) then Failures(front, key) + [e.at]
      else if Forgets(After(front), e, key) then []
      else Failures(front, key)
  }

  /** What one event does to one bucket's counters. */
  lemma CounterStep(s: State, e: Event, key: Address)
    requires Enabled(s, e)
    ensures var b := At(s.buckets, key); var c := At(Apply(s, e).buckets, key);
      if FailsIn(s, e, key) then c.failures == (b.failures + 1) % COUNT_LIMIT && c.lastFailure == Some(e.at)
      else if Forgets(s, e, key) then c.failures == 0
      else c.failures == b.failures && c.lastFailure == b.lastFailure
  {
  }

  lemma NextCount(n: nat)
    ensures (n % COUNT_LIMIT + 1) % COUNT_LIMIT == (n + 1) % COUNT_LIMIT
  {
  }

  /** The bucket's counters are those of the list of failures. */
  lemma {:induction false} CountersAreHistory(es: seq<Event>, key: Address)
    requires Legal(es)
    ensures At(After(es).buckets, key).failures == |Failures(es, key)| % COUNT_LIMIT
    ensures Failures(es, key) != [] ==>
      At(After(es).buckets, key).lastFailure == Some(Failures(es, key)[|Failures(es, key)| - 1])
  {
    if es != [] {
      var front := es[..|es| - 1];
      CountersAreHistory(front, key);
      CounterStep(After(front), es[|es| - 1], key);
      NextCount(|Failures(front, key)|);
    }
  }

  /** A guarded failure past the threshold waited out the last lockout. */
  lemma FailureWaited(s: State, e: Event, key: Address)
    requires Enabled(s, e) && e.Failure? && FailsIn(s, e, key) && Throttled(s, key)
    requires At(s.buckets, key).failures >= FAILURE_THRESHOLD
    ensures At(s.buckets, key).lastFailure.Some?
    ensures e.at >= At(s.buckets, key).lastFailure.value + CooldownFor(At(s.buckets, key).failures - FAILURE_THRESHOLD)
  {
    assert e.id in Pending(s.guards, key);
  }

  lemma GuardedBefore(es: seq<Event>, key: Address)
    requires es != [] && GuardedAt(es, key)
    ensures GuardedAt(es[..|es| - 1], key)
  {
  }

  lemma CountIs(es: seq<Event>, key: Address)
    requires Legal(es) && 0 < |Failures(es, key)| < COUNT_LIMIT
    ensures At(After(es).buckets, key).failures == |Failures(es, key)|
    ensures At(After(es).buckets, key).lastFailure == Some(Failures(es, key)[|Failures(es, key)| - 1])
  {
    CountersAreHistory(es, key);
    SmallMod(|Failures(es, key)|);
  }

  /** The newest failure of a guarded run. */
  lemma LastFailureWaited(es: seq<Event>, key: Address)
    requires Legal(es) && GuardedAt(es, key) && es != [] && FailsIn(After(es[..|es| - 1]), es[|es| - 1], key)
    requires FAILURE_THRESHOLD <= |Failures(es[..|es| - 1], key)| < COUNT_LIMIT
    ensures var times := Failures(es[..|es| - 1], key);
      es[|es| - 1].at >= times[|times| - 1] + CooldownFor(|times| - FAILURE_THRESHOLD)
  {
    var front, e := es[..|es| - 1], es[|es| - 1];
    assert Enabled(After(front), e);
    GuardedBefore(es, key);
    RunsAreThrottled(front, key);
    CountIs(front, key);
    assert e.Failure?;
    FailureWaited(After(front), e, key);
  }

  lemma SmallMod(n: nat)
    requires n < COUNT_LIMIT
    ensures n % COUNT_LIMIT == n
  {
  }

  /** A bucket no wrong bearer secret counts against: the sixth failure comes two
      seconds after the fifth or later, the next ones 2, 4, 8, ... and at last 300
      seconds after the one before, whatever the interleaving and whatever happens
      in other buckets. */
  lemma {:induction false} FailuresAreSpaced(es: seq<Event>, key: Address, i: nat)
    requires Legal(es) && GuardedAt(es, key)
    requires 5 <= i < |Failures(es, key)| < 0x1_0000_0000
    ensures Failures(es, key)[i] >= Failures(es, key)[i - 1] + LockoutSeconds(i) * 1_000_000_000
  {
    if i < |Failures(es[..|es| - 1], key)| {
      FailuresAreSpaced(es[..|es| - 1], key, i);
    } else {
      LastFailureWaited(es, key);
      CooldownIs(i - 5);
    }
  }

  // ---- buckets that bearer failures count against as well

  /** The guards of the bucket that were out when its last failure was recorded,
      and still are. */
  ghost function Overtaken(es: seq<Event>, key: Address): set<nat>
    requires Legal(es)
  {
    if es == [] then {}
    else
      var front, e := es[..|es| - 1], es[|es| - 1];
      if FailsIn(After(front), e, key) then Live(After(front).guards, key)
      else if e.Drop? then Overtaken(front, key) - {e.id}
      else Overtaken(front, key)
  }

  /** Past the threshold, an undecided attempt was overtaken by the last failure
      or began when its lockout was over. */
  ghost predicate WaitedOrOvertaken(s: State, key: Address, over: set<nat>) {
    var b := At(s.buckets, key);
    b.failures >= FAILURE_THRESHOLD ==>
      && b.lastFailure.Some?
      && b.lockedUntil == Some(b.lastFailure.value + CooldownFor(b.failures - FAILURE_THRESHOLD))
      && forall id :: id in Pending(s.guards, key) ==> id in over || b.lockedUntil.value <= s.guards[id].begunAt
  }

  lemma FailureOvertakes(s: State, e: Event, key: Address)
    requires Enabled(s, e) && FailsIn(s, e, key)
    ensures WaitedOrOvertaken(Apply(s, e), key, Live(s.guards, key))
  {
    var t := Apply(s, e);
    CounterStep(s, e, key);
    assert forall id :: id in Pending(t.guards, key) ==> id in Live(s.guards, key);
  }

  lemma OtherwiseWaited(s: State, e: Event, key: Address, over: set<nat>)
    requires Enabled(s, e) && !FailsIn(s, e, key) && WaitedOrOvertaken(s, key, over)
    ensures WaitedOrOvertaken(Apply(s, e), key, if e.Drop? then over - {e.id} else over)
  {
    var t := Apply(s, e);
    forall id | id in Pending(t.guards, key) && id in s.guards
      ensures id in Pending(s.guards, key) && t.guards[id] == s.guards[id]
    {
    }
  }

  lemma {:induction false} RunsWaitOrAreOvertaken(es: seq<Event>, key: Address)
    requires Legal(es)
    ensures WaitedOrOvertaken(After(es), key, Overtaken(es, key))
  {
    if es != [] {
      var front, e := es[..|es| - 1], es[|es| - 1];
      RunsWaitOrAreOvertaken(front, key);
      if FailsIn(After(front), e, key) {
        FailureOvertakes(After(front), e, key);
      } else {
        OtherwiseWaited(After(front), e, key, Overtaken(front, key));
      }
    }
  }

  /** In every legal run: a guarded failure past the fifth comes at least the
      lockout of the failure before it later, unless its guard was already out
      when that failure was recorded. */
  lemma {:induction false} SpacedUnlessOvertaken(es: seq<Event>, key: Address)
    requires Legal(es) && es != [] && es[|es| - 1].Failure? && FailsIn(After(es[..|es| - 1]), es[|es| - 1], key)
    requires 5 <= |Failures(es[..|es| - 1], key)| < 0x1_0000_0000
    ensures var front, e := es[..|es| - 1], es[|es| - 1];
      var times := Failures(front, key);
      e.id in Overtaken(front, key) || e.at >= times[|times| - 1] + LockoutSeconds(|times|) * 1_000_000_000
  {
    var front := es[..|es| - 1];
    CooldownIs(|Failures(front, key)| - 5);
    RunsWaitOrAreOvertaken(front, key);
    CountersAreHistory(front, key);
    SmallMod(|Failures(front, key)|);
    assert es[|es| - 1].id in Pending(After(front).guards, key);
  }

  /** And exactly so at the guard: every failure an undecided attempt may still
      report is spaced if and only if the attempt began after the lockout. */
  lemma SpacedExactlyWhenWaited(s: State, id: nat)
    requires id in s.guards && !s.guards[id].reported && At(s.buckets, s.guards[id].key).lockedUntil.Some?
    ensures var until := At(s.buckets, s.guards[id].key).lockedUntil.value;
      (forall at: nat :: Enabled(s, Failure(id, at)) ==> at >= until) <==> s.guards[id].begunAt >= until
  {
    assert Enabled(s, Failure(id, s.guards[id].begunAt));
  }

  // ---- nobody is kept out longer than that

  /** Every failure so far lies five minutes back or more. */
  predicate FiveMinutesAgo(es: seq<Event>, now: nat) {
    forall k :: 0 <= k < |es| && (es[k].Failure? || es[k].BareFailure?) ==> es[k].at + 300_000_000_000 <= now
  }

  lemma StepLocks(s: State, e: Event, key: Address, now: nat)
    requires Enabled(s, e) && ((e.Failure? || e.BareFailure?) ==> e.at + 300_000_000_000 <= now)
    requires At(s.buckets, key).lockedUntil.GetOr(0) <= now
    ensures At(Apply(s, e).buckets, key).lockedUntil.GetOr(0) <= now
  {
    if FailsIn(s, e, key) {
      var n := (At(s.buckets, key).failures + 1) % COUNT_LIMIT;
      if n >= 5 { CooldownIs(n - 5); }
    }
  }

  lemma {:induction false} LocksEnd(es: seq<Event>, key: Address, now: nat)
    requires Legal(es) && FiveMinutesAgo(es, now)
    ensures At(After(es).buckets, key).lockedUntil.GetOr(0) <= now
  {
    if es != [] {
      var front := es[..|es| - 1];
      assert forall k :: 0 <= k < |front| ==> front[k] == es[k];
      LocksEnd(front, key, now);
      StepLocks(After(front), es[|es| - 1], key, now);
    }
  }

  /** After every legal run an attempt is admitted exactly when its bucket's lockout
      is over and there is room: none else undecided once five failures are recorded,
      else failures and attempts in flight below five. */
  lemma {:induction false} AdmittedExactly(es: seq<Event>, key: Address, now: nat)
    requires Legal(es) && |Failures(es, key)| < 0x1_0000_0000
    ensures var s := After(es);
      var live, failed := |Live(s.guards, key)|, |Failures(es, key)|;
      Admits(s.buckets, key, now) <==>
        At(s.buckets, key).lockedUntil.GetOr(0) <= now && (if failed >= 5 then live == 0 else failed + live < 5)
  {
    InFlightIsLiveGuards(es);
    CountersAreHistory(es, key);
    SmallMod(|Failures(es, key)|);
    assert At(After(es).buckets, key).inFlight == |Live(After(es).guards, key)|;
  }

  /** So whoever waits five minutes with no attempt of its bucket in flight is let in
      again, whatever came before. */
  lemma {:induction false} WaitersAreAdmitted(es: seq<Event>, key: Address, now: nat)
    requires Legal(es) && FiveMinutesAgo(es, now) && Live(After(es).guards, key) == {}
    requires |Failures(es, key)| < 0x1_0000_0000
    ensures Admits(After(es).buckets, key, now)
  {
    LocksEnd(es, key, now);
    AdmittedExactly(es, key, now);
  }

  // ---- an instance

  lemma Extend(es: seq<Event>, e: Event, key: Address)
    requires Legal(es) && Enabled(After(es), e)
    ensures Legal(es + [e]) && After(es + [e]) == Apply(After(es), e)
    ensures FailsIn(After(es), e, key) ==> Failures(es + [e], key) == Failures(es, key) + [e.at]
    ensures !FailsIn(After(es), e, key) && !Forgets(After(es), e, key) ==> Failures(es + [e], key) == Failures(es, key)
  {
    assert (es + [e])[..|es|] == es;
  }

  lemma FirstGuard(ip: Address, t: nat)
    ensures Legal([Begin(0, ip, t)]) && Failures([Begin(0, ip, t)], LimitKey(ip)) == []
    ensures After([Begin(0, ip, t)]).guards == map[0 := Guard(LimitKey(ip), t, false)]
  {
    assert Legal([]);
    Extend([], Begin(0, ip, t), LimitKey(ip));
    assert [] + [Begin(0, ip, t)] == [Begin(0, ip, t)];
  }

  lemma OneMoreBare(es: seq<Event>, ip: Address, t: nat)
    requires Legal(es)
    ensures Legal(es + [BareFailure(ip, t)]) && After(es + [BareFailure(ip, t)]).guards == After(es).guards
    ensures Failures(es + [BareFailure(ip, t)], LimitKey(ip)) == Failures(es, LimitKey(ip)) + [t]
  {
    Extend(es, BareFailure(ip, t), LimitKey(ip));
  }

  /** One attempt in flight at `t`, then `n` wrong bearer secrets at `t`. */
  lemma {:induction false} BareRun(ip: Address, t: nat, n: nat) returns (es: seq<Event>)
    ensures Legal(es) && After(es).guards == map[0 := Guard(LimitKey(ip), t, false)]
    ensures |Failures(es, LimitKey(ip))| == n && forall i :: 0 <= i < n ==> Failures(es, LimitKey(ip))[i] == t
  {
    if n == 0 {
      FirstGuard(ip, t);
      es := [Begin(0, ip, t)];
    } else {
      es := BareRun(ip, t, n - 1);
      OneMoreBare(es, ip, t);
      es := es + [BareFailure(ip, t)];
    }
  }

  /** The guards are what spaces them: wrong bearer secrets can spend the
      threshold while a guarded attempt is out, which then fails unspaced. */
  lemma BareFailuresBreakSpacing(ip: Address, t: nat) returns (es: seq<Event>)
    ensures Legal(es) && |Failures(es, LimitKey(ip))| == 6
    ensures Failures(es, LimitKey(ip))[5] < Failures(es, LimitKey(ip))[4] + 2_000_000_000
  {
    es := BareRun(ip, t, 5);
    Extend(es, Failure(0, t), LimitKey(ip));
    es := es + [Failure(0, t)];
  }
}
