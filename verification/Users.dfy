/** Issued credentials: the users table, and what every run of creations,
    revocations, rotations, imports and use keeps true of it. */
module Users {
  import opened Prelude
  import opened Text

  const MAX_NAME_LEN: nat := 64
  const DISPLAY_PREFIX_LEN: nat := 10
  const ADMIN_USER_ID: string := "admin"
  /** In milliseconds, as all times here. */
  const LAST_USED_RESOLUTION: nat := 60_000

  datatype User = User(name: string, keyPrefix: string, keyHash: string, createdAt: nat,
                       lastUsedAt: Option<nat>, revokedAt: Option<nat>)

  type UserTable = map<string, User>

  datatype Error = BadRequest | NotFound | Conflict | Database

  predicate ValidId(id: string) {
    && Trim(id) != "" && '/' !in id && Trim(id) == id
    && Lower(id) != ADMIN_USER_ID && Lower(id) != "anonymous"
  }

  function DisplayPrefix(raw: string): string { if |raw| <= DISPLAY_PREFIX_LEN then raw else raw[..DISPLAY_PREFIX_LEN] }

  /** The `UNIQUE` column. */
  predicate HashTaken(t: UserTable, hash: string) { exists id :: id in t && t[id].keyHash == hash }

  ghost predicate UniqueHashes(t: UserTable) {
    forall a, b :: a in t && b in t && t[a].keyHash == t[b].keyHash ==> a == b
  }

  function NewUser(id: string, name: Option<string>, raw: string, hash: string, now: nat): User {
    var trimmed := Trim(name.GetOr(""));
    User(if trimmed == "" then id else trimmed, DisplayPrefix(raw), hash, now, None, None)
  }

  function Created(t: UserTable, id: string, name: Option<string>, raw: string, hash: string,
                   now: nat): Result<UserTable, Error> {
    if !ValidId(id) || |Trim(name.GetOr(""))| > MAX_NAME_LEN then Err(BadRequest)
    else if id in t || HashTaken(t, hash) then Err(Conflict)
    else Ok(t[id := NewUser(id, name, raw, hash, now)])
  }

  function Revoked(t: UserTable, id: string, now: nat): UserTable {
    if id in t && t[id].revokedAt.None? then t[id := t[id].(revokedAt := Some(now))] else t
  }

  /** The rotation's `UPDATE`, which re-checks that the user is not revoked. */
  function Rotated(t: UserTable, id: string, raw: string, hash: string): Result<UserTable, Error> {
    if id !in t || t[id].revokedAt.Some? then Ok(t)
    else if exists other :: other in t && other != id && t[other].keyHash == hash then Err(Database)
    else Ok(t[id := t[id].(keyHash := hash, keyPrefix := DisplayPrefix(raw), lastUsedAt := None)])
  }

  function Touched(t: UserTable, id: string, now: nat): UserTable {
    if id in t && (t[id].lastUsedAt.None? || t[id].lastUsedAt.value + LAST_USED_RESOLUTION < now)
    then t[id := t[id].(lastUsedAt := Some(now))] else t
  }

  /** The user a key hash belongs to: found and not revoked. */
  predicate Authenticates(t: UserTable, hash: string, id: string) {
    id in t && t[id].keyHash == hash && t[id].revokedAt.None?
  }

  /** The users table as the program keeps it. `hash` is SHA-256, in hex. */
  class UserStore {
    var users: UserTable

    constructor ()
      ensures users == map[]
    {
      users := map[];
    }

    method CreateUser(id: string, name: Option<string>, raw: string, hash: string -> string, now: nat)
      returns (r: Result<User, Error>)
      modifies this
      ensures var c := Created(old(users), id, name, raw, hash(raw), now);
        if c.Ok? then users == c.value && r == Ok(users[id]) else users == old(users) && r == Err(c.error)
    {
      if Trim(id) == "" || '/' in id { return Err(BadRequest); }
      if id != Trim(id) { return Err(BadRequest); }
      if Lower(id) == ADMIN_USER_ID || Lower(id) == "anonymous" { return Err(BadRequest); }
      var trimmed := Trim(name.GetOr(""));
      if |trimmed| > MAX_NAME_LEN { return Err(BadRequest); }
      var user := User(if trimmed == "" then id else trimmed, DisplayPrefix(raw), hash(raw), now, None, None);
      if id in users || HashTaken(users, user.keyHash) { return Err(Conflict); }
      users := users[id := user];
      return Ok(user);
    }

    method RevokeUser(id: string, now: nat) returns (r: Result<User, Error>)
      modifies this
      ensures users == Revoked(old(users), id, now)
      ensures r == if id in users then Ok(users[id]) else Err(NotFound)
    {
      if id in users && users[id].revokedAt.None? { users := users[id := users[id].(revokedAt := Some(now))]; }
      if id !in users { return Err(NotFound); }
      return Ok(users[id]);
    }

    method RotateUserKey(id: string, raw: string, hash: string -> string) returns (r: Result<User, Error>)
      modifies this
      ensures r.Ok? ==> Rotated(old(users), id, raw, hash(raw)) == Ok(users)
      ensures r.Ok? ==> id in users && r == Ok(users[id]) && users[id].keyHash == hash(raw)
      ensures r.Err? ==> users == old(users)
      ensures id !in old(users) <==> r == Err(NotFound)
      ensures id in old(users) && old(users)[id].revokedAt.Some? <==> r == Err(Conflict)
    {
      if id !in users { return Err(NotFound); }
      var current := users[id];
      if current.revokedAt.Some? { return Err(Conflict); }
      if exists other :: other in users && other != id && users[other].keyHash == hash(raw) { return Err(Database); }
      users := users[id := current.(keyHash := hash(raw), keyPrefix := DisplayPrefix(raw), lastUsedAt := None)];
      return Ok(users[id]);
    }

    method Authenticate(raw: string, hash: string -> string) returns (caller: Option<string>)
      ensures caller.Some? ==> Authenticates(users, hash(raw), caller.value)
      ensures caller.None? ==> forall id :: !Authenticates(users, hash(raw), id)
    {
      if exists id :: id in users && users[id].keyHash == hash(raw) && users[id].revokedAt.None? {
        var id :| id in users && users[id].keyHash == hash(raw) && users[id].revokedAt.None?;
        return Some(id);
      }
      return None;
    }

    method TouchLastUsed(id: string, now: nat)
      modifies this
      ensures users == Touched(old(users), id, now)
    {
      if id in users && (users[id].lastUsedAt.None? || users[id].lastUsedAt.value + LAST_USED_RESOLUTION < now) {
        users := users[id := users[id].(lastUsedAt := Some(now))];
      }
    }
  }

  // ---- imports

  datatype UserExport = UserExport(id: string, user: User)

  /** A live row keeps its key; the import may rename it and may revoke it. */
  function MergedUser(live: Option<User>, row: UserExport): User {
    match live
    case None => row.user
    case Some(u) =>
      var revokedAt := if u.revokedAt.Some? then u.revokedAt else row.user.revokedAt;
      u.(name := row.user.name, revokedAt := revokedAt)
  }

  predicate UserRowFits(t: UserTable, row: UserExport) { row.id in t || !HashTaken(t, row.user.keyHash) }

  /** The whole list, or `None` when some row breaks a constraint. */
  function ImportedUsers(t: UserTable, rows: seq<UserExport>): Option<UserTable> {
    if rows == [] then Some(t)
    else
      var front := ImportedUsers(t, rows[..|rows| - 1]);
      var row := rows[|rows| - 1];
      if front.None? || !UserRowFits(front.value, row) then None
      else
        var live := if row.id in front.value then Some(front.value[row.id]) else None;
        Some(front.value[row.id := MergedUser(live, row)])
  }

  // ---- runs

  /** Statements in the order the database takes them; a rotation's check may
      lie before other statements, its `UPDATE` is what counts. */
  datatype Event =
    | Create(id: string, name: Option<string>, raw: string, hash: string, at: nat)
    | Revoke(id: string, at: nat)
    | Rotate(id: string, raw: string, hash: string)
    | Import(rows: seq<UserExport>)
    | Touch(id: string, at: nat)

  function Apply(t: UserTable, e: Event): UserTable {
    match e
    case Create(id, name, raw, hash, at) => (match Created(t, id, name, raw, hash, at) case Ok(u) => u case Err(_) => t)
    case Revoke(id, at) => Revoked(t, id, at)
    case Rotate(id, raw, hash) => (match Rotated(t, id, raw, hash) case Ok(u) => u case Err(_) => t)
    case Import(rows) => ImportedUsers(t, rows).GetOr(t)
    case Touch(id, at) => Touched(t, id, at)
  }

  function After(t: UserTable, es: seq<Event>): UserTable {
    if es == [] then t else Apply(After(t, es[..|es| - 1]), es[|es| - 1])
  }

  /** A user stays, with its creation time, and a revocation stays as it was. */
  predicate Persists(t: UserTable, u: UserTable, id: string) {
    id in t ==>
      && id in u
      && u[id].createdAt == t[id].createdAt
      && (t[id].revokedAt.Some? ==> u[id].revokedAt == t[id].revokedAt)
  }

  /** Only a rotation, to its own new hash, replaces a user's key. */
  predicate KeyKept(t: UserTable, u: UserTable, id: string) {
    id in t ==> id in u && u[id].keyHash == t[id].keyHash
  }

  lemma {:induction false} ImportKeeps(t: UserTable, rows: seq<UserExport>, id: string)
    requires ImportedUsers(t, rows).Some? && id in t
    ensures Persists(t, ImportedUsers(t, rows).value, id) && KeyKept(t, ImportedUsers(t, rows).value, id)
  {
    if rows != [] { ImportKeeps(t, rows[..|rows| - 1], id); }
  }

  lemma {:induction false} ImportUnique(t: UserTable, rows: seq<UserExport>)
    requires ImportedUsers(t, rows).Some? && UniqueHashes(t)
    ensures UniqueHashes(ImportedUsers(t, rows).value)
  {
    if rows != [] { ImportUnique(t, rows[..|rows| - 1]); }
  }

  lemma StepKeeps(t: UserTable, e: Event, id: string)
    ensures Persists(t, Apply(t, e), id)
    ensures id in t && Apply(t, e)[id].keyHash != t[id].keyHash ==>
      e.Rotate? && e.id == id && Apply(t, e)[id].keyHash == e.hash
  {
    if e.Import? && ImportedUsers(t, e.rows).Some? && id in t { ImportKeeps(t, e.rows, id); }
  }

  lemma {:induction false} HashesStayUnique(t: UserTable, es: seq<Event>)
    requires UniqueHashes(t)
    ensures UniqueHashes(After(t, es))
  {
    if es != [] {
      var front, e := After(t, es[..|es| - 1]), es[|es| - 1];
      HashesStayUnique(t, es[..|es| - 1]);
      if e.Import? && ImportedUsers(front, e.rows).Some? { ImportUnique(front, e.rows); }
    }
  }

  /** A key finds at most one user. */
  lemma OneCallerPerKey(t: UserTable, es: seq<Event>, hash: string, a: string, b: string)
    requires UniqueHashes(t) && Authenticates(After(t, es), hash, a) && Authenticates(After(t, es), hash, b)
    ensures a == b
  {
    HashesStayUnique(t, es);
  }

  /** A revoked user stays revoked, and no key authenticates as it any more,
      whatever is rotated or imported later. */
  lemma {:induction false} RevokedStaysRevoked(t: UserTable, es: seq<Event>, later: seq<Event>, id: string,
                                               hash: string)
    requires id in After(t, es) && After(t, es)[id].revokedAt.Some?
    ensures id in After(t, es + later) && After(t, es + later)[id].revokedAt == After(t, es)[id].revokedAt
    ensures !Authenticates(After(t, es + later), hash, id)
  {
    if later == [] {
      assert es + later == es;
    } else {
      var all := es + later;
      assert all[..|all| - 1] == es + later[..|later| - 1];
      RevokedStaysRevoked(t, es, later[..|later| - 1], id, hash);
      StepKeeps(After(t, all[..|all| - 1]), all[|all| - 1], id);
    }
  }

  /** Every hash some row has held so far. */
  ghost function EverHeld(t: UserTable, es: seq<Event>): set<string> {
    (if es == [] then {} else EverHeld(t, es[..|es| - 1])) + set id | id in After(t, es) :: After(t, es)[id].keyHash
  }

  /** Rotations draw keys whose hash was never in the table before. */
  ghost predicate FreshKeys(t: UserTable, es: seq<Event>) {
    es != [] ==>
      && FreshKeys(t, es[..|es| - 1])
      && (es[|es| - 1].Rotate? ==> es[|es| - 1].hash !in EverHeld(t, es[..|es| - 1]))
  }

  lemma {:induction false} HeldStaysHeld(t: UserTable, es: seq<Event>, later: seq<Event>)
    ensures EverHeld(t, es) <= EverHeld(t, es + later)
  {
    if later == [] {
      assert es + later == es;
    } else {
      var all := es + later;
      assert all[..|all| - 1] == es + later[..|later| - 1];
      HeldStaysHeld(t, es, later[..|later| - 1]);
    }
  }

  lemma HeldNow(t: UserTable, es: seq<Event>, id: string)
    requires id in After(t, es)
    ensures After(t, es)[id].keyHash in EverHeld(t, es)
  {
  }

  lemma StaysOut(t: UserTable, front: seq<Event>, e: Event, id: string, hash: string)
    requires FreshKeys(t, front + [e]) && hash in EverHeld(t, front)
    requires id in After(t, front) && After(t, front)[id].keyHash != hash
    ensures id in After(t, front + [e]) && After(t, front + [e])[id].keyHash != hash
  {
    assert (front + [e])[..|front|] == front;
    StepKeeps(After(t, front), e, id);
  }

  lemma {:induction false} StaysOutAlong(t: UserTable, es: seq<Event>, later: seq<Event>, id: string, hash: string)
    requires FreshKeys(t, es + later) && hash in EverHeld(t, es)
    requires id in After(t, es) && After(t, es)[id].keyHash != hash
    ensures id in After(t, es + later) && After(t, es + later)[id].keyHash != hash
  {
    if later == [] {
      assert es + later == es;
    } else {
      var front, e := es + later[..|later| - 1], later[|later| - 1];
      assert es + later == front + [e];
      FreshBefore(t, front, e);
      StaysOutAlong(t, es, later[..|later| - 1], id, hash);
      HeldStaysHeld(t, es, later[..|later| - 1]);
      StaysOut(t, front, e, id, hash);
    }
  }

  lemma FreshBefore(t: UserTable, front: seq<Event>, e: Event)
    requires FreshKeys(t, front + [e])
    ensures FreshKeys(t, front)
  {
    assert (front + [e])[..|front|] == front;
  }

  /** Once a key of `id` has been replaced it never works for `id` again: no
      later rotation and no import, however old, brings it back. */
  lemma RotatedOutStaysOut(t: UserTable, es: seq<Event>, mid: seq<Event>, later: seq<Event>, id: string)
    requires FreshKeys(t, es + mid + later)
    requires id in After(t, es) && id in After(t, es + mid)
    requires After(t, es + mid)[id].keyHash != After(t, es)[id].keyHash
    ensures !Authenticates(After(t, es + mid + later), After(t, es)[id].keyHash, id)
  {
    HeldNow(t, es, id);
    HeldStaysHeld(t, es, mid);
    StaysOutAlong(t, es + mid, later, id, After(t, es)[id].keyHash);
  }

  // ---- what each statement is for

  /** A new user can use its key from then on; its name is never empty, and of the
      key at most ten characters are kept. */
  lemma CreatedKeyWorks(t: UserTable, id: string, name: Option<string>, raw: string, hash: string, now: nat)
    requires Created(t, id, name, raw, hash, now).Ok?
    ensures var u := Created(t, id, name, raw, hash, now).value;
      && id !in t && Authenticates(u, hash, id)
      && u[id].name != "" && u[id].keyPrefix <= raw && |u[id].keyPrefix| == (if |raw| < 10 then |raw| else 10)
      && u - {id} == t
  {
    TrimmedAway(id);
  }

  /** A rotation puts the new key in place of the old one, which is then nobody's. */
  lemma RotatedKeyWorks(t: UserTable, id: string, raw: string, hash: string, other: string)
    requires UniqueHashes(t) && Rotated(t, id, raw, hash).Ok? && id in t && t[id].revokedAt.None?
    ensures var u := Rotated(t, id, raw, hash).value;
      && Authenticates(u, hash, id) && u[id].keyPrefix <= raw
      && (hash != t[id].keyHash ==> !Authenticates(u, t[id].keyHash, other))
      && u - {id} == t - {id}
  {
  }

  /** A revoked user's key is refused at once; the date is that of the first call. */
  lemma RevokedKeyFails(t: UserTable, id: string, hash: string, now: nat)
    requires id in t
    ensures var u := Revoked(t, id, now);
      && !Authenticates(u, hash, id)
      && u[id].revokedAt == (if t[id].revokedAt.Some? then t[id].revokedAt else Some(now))
      && u - {id} == t - {id}
  {
  }

  /** The use date is never more than a minute behind the last use, and is written
      at most once a minute. */
  lemma UseDateIsCoarse(t: UserTable, id: string, now: nat)
    requires id in t
    ensures var before, after := t[id].lastUsedAt, Touched(t, id, now)[id].lastUsedAt;
      && after.Some? && now <= after.value + 60_000
      && (after != before ==> after == Some(now) && (before.Some? ==> before.value + 60_000 < now))
  {
  }
}
