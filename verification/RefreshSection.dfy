/** The locked section as the source runs it, with the row updated in place and
    the write retried in a loop. Each call is one stretch of the protocol. */
module RefreshSection {
  import opened Prelude
  import opened RefreshProtocol

  /** The provider's token row. */
  class TokenRow {
    var creds: Creds
    constructor (c: Creds) ensures creds == c { creds := c; }
  }

  /** What upstream answers to a refresh request. */
  datatype Upstream = Tokens(access: nat, renewed: Option<nat>) | Failure

  /** Upstream gives tokens only for the one it accepts, and only new ones. */
  predicate MayAnswer(s: State, sent: Creds, u: Upstream) {
    u.Tokens? ==>
      && sent.refresh == Some(s.live) && u.access !in s.issued
      && (u.renewed.Some? ==> u.renewed.value != s.live && u.renewed.value !in s.spent)
  }

  /** The write loop: `writeFails` writes fail before one succeeds. */
  method Persist(row: TokenRow, tokens: Creds, writeFails: nat, ghost t: Task, ghost start: State,
                 ghost before: seq<Action>, ghost s: State)
    returns (result: Option<Creds>, writes: nat, ghost actions: seq<Action>, ghost s': State)
    requires Run(start, before) == Some(s) && PhaseOf(s, t) == Some(Saving(tokens, 0)) && s.row == row.creds && !s.lost
    modifies row
    ensures Run(start, actions) == Some(s') && s'.row == row.creds && PhaseOf(s', t) == Some(Done(result))
    ensures before <= actions
    ensures s'.live == s.live && s'.sent == s.sent
    ensures writeFails <= 3 ==>
      result == Some(tokens) && row.creds == tokens && writes == writeFails + 1 && !s'.lost
    ensures writeFails > 3 ==>
      result == None && row.creds == old(row.creds) && writes == 4
      && (s'.lost <==> tokens.refresh != row.creds.refresh)
  {
    actions, s', writes := before, s, 0;
    var attempt := 0;
    while true
      invariant attempt <= PERSIST_RETRIES && attempt <= writeFails && writes == attempt
      invariant row.creds == old(row.creds) == s'.row && !s'.lost && s'.live == s.live && s'.sent == s.sent
      invariant Run(start, actions) == Some(s') && PhaseOf(s', t) == Some(Saving(tokens, attempt)) && before <= actions
      decreases PERSIST_RETRIES - attempt
    {
      writes := writes + 1;
      if attempt == writeFails {
        row.creds := tokens;
        RunOneMore(start, actions, Save(t), s');
        actions, s' := actions + [Save(t)], DoSave(s', t).value;
        return Some(tokens), writes, actions, s';
      }
      RunOneMore(start, actions, SaveFails(t), s');
      actions, s' := actions + [SaveFails(t)], DoSaveFails(s', t).value;
      if attempt >= PERSIST_RETRIES { return None, writes, actions, s'; }
      attempt := attempt + 1;
    }
  }

  /** `refresh_and_persist` of task `t` at protocol state `s`. `readFails` says that
      the re-read finds no row or ends in an error. The ghost results are the
      protocol actions it amounts to and the state they lead to. */
  method RefreshAndPersist(row: TokenRow, captured: Creds, readFails: bool, upstream: Upstream, writeFails: nat,
                           ghost t: Task, ghost s: State)
    returns (result: Option<Creds>, writes: nat, ghost actions: seq<Action>, ghost s': State)
    requires Inv(s) && PhaseOf(s, t) == Some(Reading(captured)) && s.row == row.creds
    requires MayAnswer(s, captured, upstream)
    modifies row
    ensures Run(s, actions) == Some(s') && s'.row == row.creds && PhaseOf(s', t) == Some(Done(result))
    ensures actions != [] && actions[0] == if readFails then RereadFails(t) else Reread(t)
    ensures var r := old(row.creds);
      if !readFails && r.access.Some? && r.access != captured.access then
        result == Some(r) && row.creds == r && writes == 0 && s'.sent == s.sent
      else if upstream.Failure? then
        result == None && row.creds == r && writes == 0
        && s'.sent == s.sent + [Request(captured.refresh.value, s.live, Refused)]
      else if writeFails <= 3 then
        result == Some(row.creds) && row.creds.access == Some(upstream.access)
        && row.creds.refresh == Some(s'.live) && writes == writeFails + 1
      else
        result == None && row.creds == r && writes == 4
        && (s'.lost <==> upstream.renewed.Some?)
  {
    writes := 0;
    assert TaskOk(s, t);
    ghost var read := if readFails then RereadFails(t) else Reread(t);
    RunOneMore(s, [], read, s);
    actions, s' := [] + [read], Next(s, read).value;
    if !readFails {
      if row.creds.access.Some? && row.creds.access != captured.access {
        return Some(row.creds), 0, actions, s';
      }
    }
    if upstream.Failure? {
      RunOneMore(s, actions, Refuse(t), s');
      actions, s' := actions + [Refuse(t)], DoRefuse(s', t).value;
      return None, 0, actions, s';
    }
    var refresh := if upstream.renewed.Some? then upstream.renewed else captured.refresh;
    RunOneMore(s, actions, Redeem(t, upstream.access, upstream.renewed), s');
    actions := actions + [Redeem(t, upstream.access, upstream.renewed)];
    s' := DoRedeem(s', t, upstream.access, upstream.renewed).value;
    assert !s.lost && captured.refresh == row.creds.refresh;
    result, writes, actions, s' := Persist(row, Creds(Some(upstream.access), refresh), writeFails, t, s, actions, s');
  }
}
