/** A whole request through the failover loop: who is contacted, what the client
    gets, and what each candidate's runtime entry is left with. */
module FailoverRun {
  import opened Prelude
  import opened Runtime
  import opened Failover

  datatype Outcome = Answer(member: nat, verdict: Verdict) | Unavailable(retryAfter: Option<nat>)

  // ---- accounting

  function CountCalls(calls: seq<nat>, i: nat): nat {
    if calls == [] then 0
    else CountCalls(calls[..|calls| - 1], i) + if calls[|calls| - 1] == i then 1 else 0
  }

  function CountLogs(log: seq<LogRow>, i: nat): nat {
    if log == [] then 0
    else CountLogs(log[..|log| - 1], i) + if log[|log| - 1].member == i then 1 else 0
  }

  lemma {:induction false} CountRepeat(calls: seq<nat>, i: nat, n: nat, j: nat)
    ensures CountCalls(calls + Repeat<nat>(i, n), j) == CountCalls(calls, j) + if i == j then n else 0
  {
    if n == 0 {
      assert calls + Repeat<nat>(i, 0) == calls;
    } else {
      CountRepeat(calls, i, n - 1, j);
      var all := calls + Repeat<nat>(i, n);
      assert all[..|all| - 1] == calls + Repeat<nat>(i, n - 1);
    }
  }

  /** The calls candidate `j` was due, given the verdicts so far. */
  function DueCalls(scripts: seq<Script>, verdicts: seq<Verdict>, j: nat): nat
    requires |verdicts| <= |scripts|
  {
    if j < |verdicts| && !verdicts[j].Skipped? then CallsOf(scripts[j]) else 0
  }

  function DueLogs(scripts: seq<Script>, verdicts: seq<Verdict>, j: nat): nat
    requires |verdicts| <= |scripts|
  {
    if j < |verdicts| && !verdicts[j].Skipped? then LogsOf(scripts[j]) else 0
  }

  /** Each candidate got the calls and log entries it was due, and no other. */
  ghost predicate CallsAndLogs(calls: seq<nat>, log: seq<LogRow>, scripts: seq<Script>, verdicts: seq<Verdict>)
    requires |verdicts| <= |scripts|
  {
    && (forall j: nat :: CountCalls(calls, j) == DueCalls(scripts, verdicts, j))
    && (forall j: nat :: CountLogs(log, j) == DueLogs(scripts, verdicts, j))
  }

  /** A log entry says "success" exactly when its candidate's reply was relayed,
      and shows the status that candidate came to. */
  ghost predicate LogsTruthful(log: seq<LogRow>, scripts: seq<Script>, verdicts: seq<Verdict>)
    requires |verdicts| <= |scripts|
  {
    forall k :: 0 <= k < |log| ==>
      var j := log[k].member;
      j < |verdicts| && log[k] == LogRow(j, StatusLogged(scripts[j]), verdicts[j].Relayed?)
  }

  ghost predicate TriedAre(tried: seq<nat>, scripts: seq<Script>, verdicts: seq<Verdict>)
    requires |verdicts| <= |scripts|
  {
    forall j: nat :: j in tried <==> (j < |verdicts| && !verdicts[j].Skipped? && scripts[j].ready)
  }

  // ---- the runtime entries

  /** The shared entries after the turns so far, other requests' writes included. */
  function RuntimeAfter(m: RuntimeMap, scripts: seq<Script>, verdicts: seq<Verdict>): RuntimeMap
    requires |verdicts| <= |scripts|
  {
    if verdicts == [] then m
    else
      var n := |verdicts| - 1;
      AfterTurn(RuntimeAfter(m, scripts, verdicts[..n]), scripts[n], verdicts[n])
  }

  /** The same without this request's own effects. */
  function OthersAlone(m: RuntimeMap, scripts: seq<Script>, verdicts: seq<Verdict>): RuntimeMap
    requires |verdicts| <= |scripts|
  {
    if verdicts == [] then m
    else
      var n := |verdicts| - 1;
      var turn := AtTurn(OthersAlone(m, scripts, verdicts[..n]), scripts[n]);
      if verdicts[n].Skipped? then turn else ApplyAll(turn, scripts[n].during)
  }

  ghost predicate EntriesAre(m: RuntimeMap, now: RuntimeMap, scripts: seq<Script>, verdicts: seq<Verdict>)
    requires |verdicts| <= |scripts|
  {
    SameRouting(RuntimeAfter(m, scripts, verdicts), now)
  }

  lemma StepEntries(m: RuntimeMap, before: RuntimeMap, now: RuntimeMap, scripts: seq<Script>, verdicts: seq<Verdict>,
                    v: Verdict)
    requires |verdicts| < |scripts|
    requires EntriesAre(m, before, scripts, verdicts)
    requires SameRouting(AfterTurn(before, scripts[|verdicts|], v), now)
    ensures EntriesAre(m, now, scripts, verdicts + [v])
  {
    assert (verdicts + [v])[..|verdicts|] == verdicts;
    AfterTurnSame(RuntimeAfter(m, scripts, verdicts), before, scripts[|verdicts|], v);
  }

  /** No candidate under `key` that was not skipped has any effect on its entry. */
  ghost predicate NoEffectOn(scripts: seq<Script>, verdicts: seq<Verdict>, key: string)
    requires |verdicts| <= |scripts|
  {
    forall j :: 0 <= j < |verdicts| && !verdicts[j].Skipped? && scripts[j].key == key ==>
      EffectOf(scripts[j]).Unchanged?
  }

  lemma {:induction false} UntouchedEntry(m: RuntimeMap, scripts: seq<Script>, verdicts: seq<Verdict>, key: string)
    requires |verdicts| <= |scripts| && NoEffectOn(scripts, verdicts, key)
    ensures SameAt(RuntimeAfter(m, scripts, verdicts), OthersAlone(m, scripts, verdicts), key)
  {
    if verdicts != [] {
      var n := |verdicts| - 1;
      var with, without := RuntimeAfter(m, scripts, verdicts[..n]), OthersAlone(m, scripts, verdicts[..n]);
      UntouchedEntry(m, scripts, verdicts[..n], key);
      ApplyAllSameAt(with, without, scripts[n].before, key);
      ApplyAllSameAt(AtTurn(with, scripts[n]), AtTurn(without, scripts[n]), scripts[n].during, key);
    }
  }

  /** The answer a contacted candidate is judged by: its last one. */
  function LastAnswer(s: Script): Failover.Answer { if Retries(s) then s.second else s.first }

  /** Exactly these answers stop the failover: a usable success, a success that
      hides an error with a known status, and, on the first request only, a
      rejection or a 401 that no refresh can cure. */
  lemma WhatEndsARequest(s: Script)
    ensures VerdictOf(s).Ends() <==>
      s.ready && s.builds && LastAnswer(s).Answered?
      && ((LastAnswer(s).class_.Success? && !LastAnswer(s).transform.Broken?)
          || (CallsOf(s) == 1 && s.first.class_.NonRetryable?)
          || (CallsOf(s) == 1 && s.first.class_.AuthExpired? && !s.canRefresh))
    ensures CallsOf(s) == 2 ==> s.first.Answered? && (s.first.class_.AuthExpired? || s.first.class_.Retryable?)
    ensures CallsOf(s) <= 2 && LogsOf(s) <= 1 && (CallsOf(s) > 0 <==> LogsOf(s) == 1)
  {
  }

  /** This request moves an entry only if a candidate under its key was contacted
      and not merely rejected; otherwise the entry is what others make of it. */
  lemma OnlyContactedEntriesMove(m: RuntimeMap, now: RuntimeMap, scripts: seq<Script>, verdicts: seq<Verdict>,
                                 key: string)
    requires |verdicts| <= |scripts| && EntriesAre(m, now, scripts, verdicts)
    requires forall j ::
      0 <= j < |verdicts| && !verdicts[j].Skipped? && scripts[j].key == key && CallsOf(scripts[j]) > 0 ==>
      LastAnswer(scripts[j]).Answered? && LastAnswer(scripts[j]).class_.NonRetryable?
    ensures SameAt(now, OthersAlone(m, scripts, verdicts), key)
  {
    UntouchedEntry(m, scripts, verdicts, key);
  }

  // ---- Retry-After

  /** The header's seconds for a wait in nanoseconds. */
  function RetryAfterSeconds(wait: nat): nat {
    var whole := wait / SECOND;
    (if whole < 1 then 1 else whole) + if wait % SECOND > 0 then 1 else 0
  }

  lemma RetryAfterCovers(wait: nat)
    ensures wait <= RetryAfterSeconds(wait) * SECOND < wait + 2 * SECOND
  {
  }

  method ShortestWait(skipped: seq<SkippedMember>) returns (best: Option<SkippedMember>)
    ensures best.None? <==> skipped == []
    ensures best.Some? ==> best.value in skipped && forall k :: 0 <= k < |skipped| ==>
      best.value.retryIn <= skipped[k].retryIn
  {
    best := None;
    var i := 0;
    while i < |skipped|
      invariant i <= |skipped| && (best.None? <==> i == 0)
      invariant best.Some? ==> best.value in skipped[..i] && forall k :: 0 <= k < i ==>
        best.value.retryIn <= skipped[k].retryIn
    {
      if best.None? || skipped[i].retryIn < best.value.retryIn { best := Some(skipped[i]); }
      assert skipped[i] in skipped[..i + 1];
      i := i + 1;
    }
  }

  /** The entry of the candidate after `verdicts`, when its turn comes. */
  function EntryAtTurn(m: RuntimeMap, scripts: seq<Script>, verdicts: seq<Verdict>): Entry
    requires |verdicts| < |scripts|
  {
    var s := scripts[|verdicts|];
    Lookup(AtTurn(RuntimeAfter(m, scripts, verdicts), s), s.key)
  }

  /** How long candidate `j` still cooled at its turn. */
  function WaitOf(m: RuntimeMap, scripts: seq<Script>, verdicts: seq<Verdict>, j: nat): nat
    requires j < |verdicts| <= |scripts|
  {
    EntryAtTurn(m, scripts, verdicts[..j]).RetryIn(scripts[j].seenAt).GetOr(0)
  }

  /** The skipped candidates are exactly the recorded ones, each with its wait. */
  ghost predicate SkipsRecorded(skipped: seq<SkippedMember>, m: RuntimeMap, scripts: seq<Script>,
                                verdicts: seq<Verdict>)
    requires |verdicts| <= |scripts|
  {
    && (forall k :: 0 <= k < |skipped| ==> SkipIs(skipped[k], m, scripts, verdicts))
    && (forall j :: 0 <= j < |verdicts| && verdicts[j].Skipped? ==> Found(skipped, j))
  }

  ghost predicate Found(skipped: seq<SkippedMember>, j: nat) {
    exists k :: 0 <= k < |skipped| && skipped[k].member == j
  }

  ghost predicate SkipIs(x: SkippedMember, m: RuntimeMap, scripts: seq<Script>, verdicts: seq<Verdict>)
    requires |verdicts| <= |scripts|
  {
    && x.member < |verdicts| && verdicts[x.member].Skipped?
    && x.retryIn == WaitOf(m, scripts, verdicts, x.member)
  }

  // ---- the whole request

  /** The verdict due to the candidate after `verdicts`: skipped exactly when its
      entry cools at its turn, else what its script decides. */
  function Expected(m: RuntimeMap, scripts: seq<Script>, verdicts: seq<Verdict>): Verdict
    requires |verdicts| < |scripts|
  {
    var s := scripts[|verdicts|];
    if EntryAtTurn(m, scripts, verdicts).IsAvailable(s.seenAt) then VerdictOf(s) else Skipped
  }

  ghost predicate VerdictsFollow(m: RuntimeMap, scripts: seq<Script>, verdicts: seq<Verdict>)
    requires |verdicts| <= |scripts|
  {
    forall j :: 0 <= j < |verdicts| ==> verdicts[j] == Expected(m, scripts, verdicts[..j])
  }

  ghost predicate NoneEnds(verdicts: seq<Verdict>) { forall j :: 0 <= j < |verdicts| ==> !verdicts[j].Ends() }

  /** Everything the loop keeps. */
  ghost predicate Progress(r: Request, m: RuntimeMap, scripts: seq<Script>, verdicts: seq<Verdict>)
    requires |verdicts| <= |scripts|
    reads r
  {
    && CallsAndLogs(r.calls, r.log, scripts, verdicts) && LogsTruthful(r.log, scripts, verdicts)
    && TriedAre(r.tried, scripts, verdicts) && SkipsRecorded(r.skipped, m, scripts, verdicts)
    && EntriesAre(m, r.runtime, scripts, verdicts) && VerdictsFollow(m, scripts, verdicts)
  }

  predicate Shortest(m: RuntimeMap, scripts: seq<Script>, verdicts: seq<Verdict>, j: nat)
    requires j < |verdicts| <= |scripts|
  {
    && verdicts[j].Skipped?
    && forall i :: 0 <= i < |verdicts| && verdicts[i].Skipped? ==>
      WaitOf(m, scripts, verdicts, j) <= WaitOf(m, scripts, verdicts, i)
  }

  /** The entry of candidate `j` still cools as it did at its turn. */
  predicate Stands(now: RuntimeMap, m: RuntimeMap, scripts: seq<Script>, verdicts: seq<Verdict>, j: nat)
    requires j < |verdicts| <= |scripts|
  {
    Lookup(now, scripts[j].key).until == EntryAtTurn(m, scripts, verdicts[..j]).until
  }

  /** The candidate is free once it has waited the seconds from its turn on. */
  ghost predicate FreeAfter(now: RuntimeMap, s: Script, secs: nat) {
    forall t: nat :: t >= s.seenAt + secs * SECOND ==> Available(now, s.key, t)
  }

  /** And it is not free two seconds before that. */
  ghost predicate BusyUntil(now: RuntimeMap, s: Script, secs: nat) {
    forall t: nat :: t + 2 * SECOND <= s.seenAt + secs * SECOND ==> !Available(now, s.key, t)
  }

  /** Unless its entry changes meanwhile: waiting the suggested seconds frees the
      candidate with the shortest wait, and no skipped one is free much earlier. */
  ghost predicate WaitIsSound(now: RuntimeMap, m: RuntimeMap, scripts: seq<Script>, verdicts: seq<Verdict>, secs: nat)
    requires |verdicts| <= |scripts|
  {
    && (exists j: nat :: j < |verdicts| && Shortest(m, scripts, verdicts, j))
    && (forall j: nat :: j < |verdicts| && Shortest(m, scripts, verdicts, j) && Stands(now, m, scripts, verdicts, j) ==>
          FreeAfter(now, scripts[j], secs))
    && (forall j: nat :: j < |verdicts| && verdicts[j].Skipped? && Stands(now, m, scripts, verdicts, j) ==>
          BusyUntil(now, scripts[j], secs))
  }

  // ---- one pass of the loop keeps it all

  lemma DueStep(scripts: seq<Script>, verdicts: seq<Verdict>, v: Verdict, j: nat)
    requires |verdicts| < |scripts|
    ensures var (calls, logs) :=
        if j == |verdicts| && !v.Skipped? then (CallsOf(scripts[j]), LogsOf(scripts[j])) else (0, 0);
      && DueCalls(scripts, verdicts + [v], j) == DueCalls(scripts, verdicts, j) + calls
      && DueLogs(scripts, verdicts + [v], j) == DueLogs(scripts, verdicts, j) + logs
  {
  }

  lemma CountOneMore(log: seq<LogRow>, more: seq<LogRow>, i: nat)
    requires |more| == |log| + 1 && more[..|log|] == log
    ensures CountLogs(more, i) == CountLogs(log, i) + if more[|log|].member == i then 1 else 0
  {
  }

  lemma StepCallsAndLogs(calls: seq<nat>, moreCalls: seq<nat>, log: seq<LogRow>, moreLog: seq<LogRow>,
                         scripts: seq<Script>, verdicts: seq<Verdict>, v: Verdict)
    requires |verdicts| < |scripts| && CallsAndLogs(calls, log, scripts, verdicts)
    requires v.Skipped? ==> moreCalls == calls && moreLog == log
    requires !v.Skipped? ==> moreCalls == calls + Repeat<nat>(|verdicts|, CallsOf(scripts[|verdicts|]))
    requires !v.Skipped? ==> |moreLog| == |log| + LogsOf(scripts[|verdicts|]) && moreLog[..|log|] == log
    requires |moreLog| > |log| ==> moreLog[|log|].member == |verdicts|
    ensures CallsAndLogs(moreCalls, moreLog, scripts, verdicts + [v])
  {
    forall j: nat ensures CountCalls(moreCalls, j) == DueCalls(scripts, verdicts + [v], j) {
      assert CountCalls(calls, j) == DueCalls(scripts, verdicts, j);
      DueStep(scripts, verdicts, v, j);
      if !v.Skipped? { CountRepeat(calls, |verdicts|, CallsOf(scripts[|verdicts|]), j); }
    }
    forall j: nat ensures CountLogs(moreLog, j) == DueLogs(scripts, verdicts + [v], j) {
      assert CountLogs(log, j) == DueLogs(scripts, verdicts, j);
      DueStep(scripts, verdicts, v, j);
      if |moreLog| == |log| + 1 {
        CountOneMore(log, moreLog, j);
      } else {
        assert moreLog == log;
      }
    }
  }

  lemma StepLogsTruthful(log: seq<LogRow>, more: seq<LogRow>, scripts: seq<Script>, verdicts: seq<Verdict>, v: Verdict)
    requires |verdicts| < |scripts| && LogsTruthful(log, scripts, verdicts)
    requires |log| <= |more| <= |log| + 1 && more[..|log|] == log
    requires |more| > |log| ==>
      more[|log|] == LogRow(|verdicts|, StatusLogged(scripts[|verdicts|]), v.Relayed?)
    ensures LogsTruthful(more, scripts, verdicts + [v])
  {
    forall k | 0 <= k < |more|
      ensures var j := more[k].member;
        j <= |verdicts| && more[k] == LogRow(j, StatusLogged(scripts[j]), (verdicts + [v])[j].Relayed?)
    {
      if k < |log| { assert more[..|log|][k] == more[k]; }
    }
  }

  lemma StepTried(tried: seq<nat>, more: seq<nat>, scripts: seq<Script>, verdicts: seq<Verdict>, v: Verdict)
    requires |verdicts| < |scripts| && TriedAre(tried, scripts, verdicts)
    requires more == if !v.Skipped? && scripts[|verdicts|].ready then tried + [|verdicts|] else tried
    ensures TriedAre(more, scripts, verdicts + [v])
  {
  }

  /** What the real map shows at a turn is what the computed one shows. */
  lemma SeenAtTurn(m: RuntimeMap, now: RuntimeMap, scripts: seq<Script>, verdicts: seq<Verdict>)
    requires |verdicts| < |scripts| && EntriesAre(m, now, scripts, verdicts)
    ensures var s := scripts[|verdicts|];
      Lookup(AtTurn(now, s), s.key).Routing() == EntryAtTurn(m, scripts, verdicts).Routing()
  {
    var s := scripts[|verdicts|];
    AfterTurnSame(RuntimeAfter(m, scripts, verdicts), now, s, Skipped);
    if s.key in AtTurn(now, s) {}
  }

  lemma StepVerdicts(m: RuntimeMap, now: RuntimeMap, scripts: seq<Script>, verdicts: seq<Verdict>, v: Verdict)
    requires |verdicts| < |scripts| && VerdictsFollow(m, scripts, verdicts) && EntriesAre(m, now, scripts, verdicts)
    requires var s := scripts[|verdicts|];
      v == (if Available(AtTurn(now, s), s.key, s.seenAt) then VerdictOf(s) else Skipped)
    ensures VerdictsFollow(m, scripts, verdicts + [v])
  {
    var all := verdicts + [v];
    SeenAtTurn(m, now, scripts, verdicts);
    forall j | 0 <= j < |all| ensures all[j] == Expected(m, scripts, all[..j]) {
      assert all[..j] == verdicts[..j];
      if j == |verdicts| { assert verdicts[..j] == verdicts; }
    }
  }

  lemma SkipStays(x: SkippedMember, m: RuntimeMap, scripts: seq<Script>, verdicts: seq<Verdict>, v: Verdict)
    requires |verdicts| < |scripts| && SkipIs(x, m, scripts, verdicts)
    ensures SkipIs(x, m, scripts, verdicts + [v])
  {
    assert (verdicts + [v])[..x.member] == verdicts[..x.member];
  }

  lemma NewSkip(m: RuntimeMap, now: RuntimeMap, scripts: seq<Script>, verdicts: seq<Verdict>)
    requires |verdicts| < |scripts| && EntriesAre(m, now, scripts, verdicts)
    ensures SkipIs(SkippedMember(|verdicts|, WaitAtTurn(now, scripts[|verdicts|])), m, scripts, verdicts + [Skipped])
  {
    assert (verdicts + [Skipped])[..|verdicts|] == verdicts;
    SeenAtTurn(m, now, scripts, verdicts);
  }

  lemma StepSkipIs(skipped: seq<SkippedMember>, more: seq<SkippedMember>, m: RuntimeMap,
                   scripts: seq<Script>, verdicts: seq<Verdict>, v: Verdict)
    requires |verdicts| < |scripts|
    requires forall k :: 0 <= k < |skipped| ==> SkipIs(skipped[k], m, scripts, verdicts)
    requires |skipped| <= |more| <= |skipped| + 1 && more[..|skipped|] == skipped
    requires |more| > |skipped| ==> SkipIs(more[|skipped|], m, scripts, verdicts + [v])
    ensures forall k :: 0 <= k < |more| ==> SkipIs(more[k], m, scripts, verdicts + [v])
  {
    forall k | 0 <= k < |more| ensures SkipIs(more[k], m, scripts, verdicts + [v]) {
      if k < |skipped| {
        assert more[..|skipped|][k] == more[k];
        SkipStays(skipped[k], m, scripts, verdicts, v);
      }
    }
  }

  lemma FoundStays(skipped: seq<SkippedMember>, more: seq<SkippedMember>, j: nat)
    requires skipped <= more && Found(skipped, j)
    ensures Found(more, j)
  {
    var k :| 0 <= k < |skipped| && skipped[k].member == j;
    assert more[k] == skipped[k];
  }

  lemma StepSkipFound(skipped: seq<SkippedMember>, more: seq<SkippedMember>, verdicts: seq<Verdict>, v: Verdict)
    requires forall j :: 0 <= j < |verdicts| && verdicts[j].Skipped? ==> Found(skipped, j)
    requires skipped <= more
    requires v.Skipped? ==> |more| == |skipped| + 1 && more[|skipped|].member == |verdicts|
    ensures forall j :: 0 <= j < |verdicts + [v]| && (verdicts + [v])[j].Skipped? ==> Found(more, j)
  {
    forall j | 0 <= j < |verdicts + [v]| && (verdicts + [v])[j].Skipped? ensures Found(more, j) {
      if j < |verdicts| {
        FoundStays(skipped, more, j);
      } else {
        assert more[|skipped|].member == j;
      }
    }
  }

  lemma StepSkips(skipped: seq<SkippedMember>, more: seq<SkippedMember>, m: RuntimeMap,
                  scripts: seq<Script>, verdicts: seq<Verdict>, v: Verdict)
    requires |verdicts| < |scripts| && SkipsRecorded(skipped, m, scripts, verdicts)
    requires !v.Skipped? ==> more == skipped
    requires v.Skipped? ==> |more| == |skipped| + 1 && more[..|skipped|] == skipped
    requires v.Skipped? ==> more[|skipped|].member == |verdicts| && SkipIs(more[|skipped|], m, scripts, verdicts + [v])
    ensures SkipsRecorded(more, m, scripts, verdicts + [v])
  {
    assert more[..|skipped|] == skipped;
    StepSkipIs(skipped, more, m, scripts, verdicts, v);
    StepSkipFound(skipped, more, verdicts, v);
  }

  lemma SkippedUntil(m: RuntimeMap, scripts: seq<Script>, verdicts: seq<Verdict>, j: nat)
    requires j < |verdicts| <= |scripts| && VerdictsFollow(m, scripts, verdicts) && verdicts[j].Skipped?
    ensures EntryAtTurn(m, scripts, verdicts[..j]).until == Some(scripts[j].seenAt + WaitOf(m, scripts, verdicts, j))
  {
    assert verdicts[j] == Expected(m, scripts, verdicts[..j]);
  }

  lemma RecordedWait(skipped: seq<SkippedMember>, m: RuntimeMap, scripts: seq<Script>, verdicts: seq<Verdict>,
                     wait: nat, j: nat)
    requires |verdicts| <= |scripts| && SkipsRecorded(skipped, m, scripts, verdicts)
    requires forall k :: 0 <= k < |skipped| ==> wait <= skipped[k].retryIn
    requires j < |verdicts| && verdicts[j].Skipped?
    ensures wait <= WaitOf(m, scripts, verdicts, j)
  {
    var k :| 0 <= k < |skipped| && skipped[k].member == j;
    assert SkipIs(skipped[k], m, scripts, verdicts);
  }

  lemma Covers(now: RuntimeMap, m: RuntimeMap, scripts: seq<Script>, verdicts: seq<Verdict>, wait: nat, j: nat)
    requires j < |verdicts| <= |scripts| && VerdictsFollow(m, scripts, verdicts) && verdicts[j].Skipped?
    requires wait <= WaitOf(m, scripts, verdicts, j) && Stands(now, m, scripts, verdicts, j)
    ensures BusyUntil(now, scripts[j], RetryAfterSeconds(wait))
    ensures WaitOf(m, scripts, verdicts, j) == wait ==> FreeAfter(now, scripts[j], RetryAfterSeconds(wait))
  {
    SkippedUntil(m, scripts, verdicts, j);
    RetryAfterCovers(wait);
  }

  /** The shortest recorded wait is the one the header has to cover. */
  lemma ShortestIsSound(skipped: seq<SkippedMember>, now: RuntimeMap, m: RuntimeMap, scripts: seq<Script>,
                        verdicts: seq<Verdict>, best: SkippedMember)
    requires |verdicts| <= |scripts| && VerdictsFollow(m, scripts, verdicts)
    requires SkipsRecorded(skipped, m, scripts, verdicts)
    requires best in skipped && forall k :: 0 <= k < |skipped| ==> best.retryIn <= skipped[k].retryIn
    ensures WaitIsSound(now, m, scripts, verdicts, RetryAfterSeconds(best.retryIn))
  {
    var b :| 0 <= b < |skipped| && skipped[b] == best;
    assert SkipIs(skipped[b], m, scripts, verdicts);
    forall j: nat | j < |verdicts| && verdicts[j].Skipped?
      ensures best.retryIn <= WaitOf(m, scripts, verdicts, j)
      ensures Stands(now, m, scripts, verdicts, j) ==> BusyUntil(now, scripts[j], RetryAfterSeconds(best.retryIn))
      ensures Shortest(m, scripts, verdicts, j) && Stands(now, m, scripts, verdicts, j) ==>
        FreeAfter(now, scripts[j], RetryAfterSeconds(best.retryIn))
    {
      RecordedWait(skipped, m, scripts, verdicts, best.retryIn, j);
      if Stands(now, m, scripts, verdicts, j) { Covers(now, m, scripts, verdicts, best.retryIn, j); }
    }
    assert Shortest(m, scripts, verdicts, best.member);
  }

  predicate Alone(scripts: seq<Script>) {
    forall j :: 0 <= j < |scripts| ==> scripts[j].before == [] && scripts[j].during == []
  }

  lemma {:induction false} NothingMoves(m: RuntimeMap, scripts: seq<Script>, verdicts: seq<Verdict>)
    requires |verdicts| <= |scripts| && Alone(scripts)
    requires forall j: nat :: j < |verdicts| && !verdicts[j].Skipped? ==> !scripts[j].ready
    ensures RuntimeAfter(m, scripts, verdicts) == m
  {
    if verdicts != [] { NothingMoves(m, scripts, verdicts[..|verdicts| - 1]); }
  }

  /** With nothing tried and no other request writing, every entry stands, so the
      suggested wait really frees a candidate. */
  lemma NothingTriedStands(tried: seq<nat>, now: RuntimeMap, m: RuntimeMap, scripts: seq<Script>,
                           verdicts: seq<Verdict>, j: nat)
    requires j < |verdicts| <= |scripts| && Alone(scripts) && tried == []
    requires TriedAre(tried, scripts, verdicts) && EntriesAre(m, now, scripts, verdicts)
    ensures Stands(now, m, scripts, verdicts, j)
  {
    forall i: nat | i < |verdicts| && !verdicts[i].Skipped? ensures !scripts[i].ready { assert i !in tried; }
    NothingMoves(m, scripts, verdicts);
    NothingMoves(m, scripts, verdicts[..j]);
    if scripts[j].key in now {}
  }

  /** One pass of the loop. */
  method Pass(r: Request, ghost m: RuntimeMap, scripts: seq<Script>, i: nat, ghost verdicts: seq<Verdict>)
    returns (v: Verdict)
    requires |verdicts| == i < |scripts| && Progress(r, m, scripts, verdicts)
    modifies r
    ensures Progress(r, m, scripts, verdicts + [v])
  {
    ghost var before, calls, log, tried, skipped := r.runtime, r.calls, r.log, r.tried, r.skipped;
    v := r.Attempt(i, scripts[i]);
    StepCallsAndLogs(calls, r.calls, log, r.log, scripts, verdicts, v);
    StepLogsTruthful(log, r.log, scripts, verdicts, v);
    StepTried(tried, r.tried, scripts, verdicts, v);
    StepVerdicts(m, before, scripts, verdicts, v);
    StepEntries(m, before, r.runtime, scripts, verdicts, v);
    if v.Skipped? { NewSkip(m, before, scripts, verdicts); }
    StepSkips(skipped, r.skipped, m, scripts, verdicts, v);
  }

  /** Every candidate was passed over: the answer's Retry-After, if any. */
  method RetryAfter(r: Request, ghost m: RuntimeMap, scripts: seq<Script>, ghost verdicts: seq<Verdict>)
    returns (header: Option<nat>)
    requires |verdicts| == |scripts| && Progress(r, m, scripts, verdicts)
    modifies r
    ensures Progress(r, m, scripts, verdicts)
    ensures header.Some? <==> r.tried == [] && exists j :: 0 <= j < |verdicts| && verdicts[j].Skipped?
    ensures header.Some? ==> WaitIsSound(r.runtime, m, scripts, verdicts, header.value)
  {
    ghost var before := r.runtime;
    r.AttributeError();
    assert SameRouting(before, r.runtime);
    header := None;
    if r.tried == [] {
      var best := ShortestWait(r.skipped);
      if best.Some? {
        header := Some(RetryAfterSeconds(best.value.retryIn));
        ShortestIsSound(r.skipped, r.runtime, m, scripts, verdicts, best.value);
      }
    }
  }

  lemma NothingYet(r: Request, m: RuntimeMap, scripts: seq<Script>)
    requires r.runtime == m && r.calls == [] && r.log == [] && r.tried == [] && r.skipped == []
    ensures Progress(r, m, scripts, [])
  {
  }

  /** The last candidate asked, and none before it, ends the request. */
  predicate LastEnds(verdicts: seq<Verdict>) {
    verdicts != [] && verdicts[|verdicts| - 1].Ends() && forall j :: 0 <= j < |verdicts| - 1 ==> !verdicts[j].Ends()
  }

  /** The loop over the candidates. */
  method TryAll(r: Request, ghost m: RuntimeMap, scripts: seq<Script>) returns (ended: bool, verdicts: seq<Verdict>)
    requires Progress(r, m, scripts, [])
    modifies r
    ensures |verdicts| <= |scripts| && Progress(r, m, scripts, verdicts)
    ensures if ended then LastEnds(verdicts) else |verdicts| == |scripts| && NoneEnds(verdicts)
  {
    verdicts := [];
    var i := 0;
    while i < |scripts|
      invariant |verdicts| == i <= |scripts|
      invariant Progress(r, m, scripts, verdicts) && NoneEnds(verdicts)
    {
      var v := Pass(r, m, scripts, i, verdicts);
      verdicts := verdicts + [v];
      if v.Ends() { return true, verdicts; }
      i := i + 1;
    }
    ended := false;
  }

  method HandleProxy(runtime: RuntimeMap, scripts: seq<Script>)
    returns (outcome: Outcome, r: Request, verdicts: seq<Verdict>)
    ensures |verdicts| <= |scripts| && Progress(r, runtime, scripts, verdicts)
    ensures outcome.Unavailable? <==> |verdicts| == |scripts| && NoneEnds(verdicts)
    ensures outcome.Answer? ==> LastEnds(verdicts) && outcome == Answer(|verdicts| - 1, verdicts[|verdicts| - 1])
    ensures outcome.Unavailable? ==>
      (outcome.retryAfter.Some? <==> r.tried == [] && exists j :: 0 <= j < |verdicts| && verdicts[j].Skipped?)
    ensures outcome.Unavailable? && outcome.retryAfter.Some? ==>
      WaitIsSound(r.runtime, runtime, scripts, verdicts, outcome.retryAfter.value)
  {
    r := new Request(runtime);
    NothingYet(r, runtime, scripts);
    var ended;
    ended, verdicts := TryAll(r, runtime, scripts);
    if ended { return Answer(|verdicts| - 1, verdicts[|verdicts| - 1]), r, verdicts; }
    var header := RetryAfter(r, runtime, scripts, verdicts);
    outcome := Unavailable(header);
  }
}
