/** The config import: four tables upserted row by row in one transaction. */
module ConfigImport {
  import opened Prelude
  import C = Catalog
  import S = CatalogStore
  import U = Users

  datatype Dump = Dump(providers: seq<(string, C.Provider)>, pools: seq<(string, C.Pool)>,
                       members: seq<(C.MemberKey, C.Member)>, users: seq<U.UserExport>)

  /** What the import writes to. */
  datatype Config = Config(providers: map<string, C.Provider>, pools: map<string, C.Pool>,
                           members: map<C.MemberKey, C.Member>, users: U.UserTable)

  // ---- upserting a list of rows into one table

  function Get<K, V>(t: map<K, V>, k: K): Option<V> { if k in t then Some(t[k]) else None }

  /** Rows merged in order; `None` as soon as one does not fit. */
  function Upserts<K, V>(t: map<K, V>, rows: seq<(K, V)>, merge: (Option<V>, V) -> V,
                         fits: (map<K, V>, K, V) -> bool): Option<map<K, V>> {
    if rows == [] then Some(t)
    else
      var front := Upserts(t, rows[..|rows| - 1], merge, fits);
      var (k, v) := rows[|rows| - 1];
      if front.None? || !fits(front.value, k, v) then None else Some(front.value[k := merge(Get(front.value, k), v)])
  }

  ghost predicate Distinct<K, V>(rows: seq<(K, V)>) {
    forall i, j :: 0 <= i < j < |rows| ==> rows[i].0 != rows[j].0
  }

  /** Merging the same row twice is merging it once. */
  ghost predicate Stable<V(!new)>(merge: (Option<V>, V) -> V) {
    forall o, v :: merge(Some(merge(o, v)), v) == merge(o, v)
  }

  /** Every row is in the table and merging it again would change nothing. */
  ghost predicate Settled<K, V>(t: map<K, V>, rows: seq<(K, V)>, merge: (Option<V>, V) -> V) {
    forall i :: 0 <= i < |rows| ==> rows[i].0 in t && merge(Some(t[rows[i].0]), rows[i].1) == t[rows[i].0]
  }

  lemma {:induction false} UpsertsSettle<K, V(!new)>(t: map<K, V>, rows: seq<(K, V)>, merge: (Option<V>, V) -> V,
      fits: (map<K, V>, K, V) -> bool)
    requires Distinct(rows) && Stable(merge) && Upserts(t, rows, merge, fits).Some?
    ensures Settled(Upserts(t, rows, merge, fits).value, rows, merge)
    ensures forall k :: k in t ==> k in Upserts(t, rows, merge, fits).value
  {
    if rows != [] {
      var front := rows[..|rows| - 1];
      UpsertsSettle(t, front, merge, fits);
      var before := Upserts(t, front, merge, fits).value;
      var after := Upserts(t, rows, merge, fits).value;
      forall i | 0 <= i < |rows|
        ensures rows[i].0 in after && merge(Some(after[rows[i].0]), rows[i].1) == after[rows[i].0]
      {
        if i < |front| { assert front[i] == rows[i]; }
      }
    }
  }

  // ---- importing again

  /** The rows of one key, in order. */
  function RowsOf<K(==), V>(rows: seq<(K, V)>, k: K): seq<V> {
    if rows == [] then []
    else RowsOf(rows[..|rows| - 1], k) + if rows[|rows| - 1].0 == k then [rows[|rows| - 1].1] else []
  }

  /** What the rows of one key make of its row in the table. */
  function Folded<V>(live: Option<V>, vs: seq<V>, merge: (Option<V>, V) -> V): Option<V> {
    if vs == [] then live else Some(merge(Folded(live, vs[..|vs| - 1], merge), vs[|vs| - 1]))
  }

  lemma FoldedSnoc<V>(live: Option<V>, vs: seq<V>, v: V, merge: (Option<V>, V) -> V)
    ensures Folded(live, vs + [v], merge) == Some(merge(Folded(live, vs, merge), v))
  {
    assert (vs + [v])[..|vs|] == vs;
  }

  lemma {:induction false} UpsertsAt<K, V>(t: map<K, V>, rows: seq<(K, V)>, merge: (Option<V>, V) -> V,
                                           fits: (map<K, V>, K, V) -> bool, k: K)
    requires Upserts(t, rows, merge, fits).Some?
    ensures Get(Upserts(t, rows, merge, fits).value, k) == Folded(Get(t, k), RowsOf(rows, k), merge)
  {
    if rows != [] {
      var front, last := rows[..|rows| - 1], rows[|rows| - 1];
      UpsertsAt(t, front, merge, fits, k);
      if last.0 == k {
        FoldedSnoc(Get(t, k), RowsOf(front, k), last.1, merge);
      } else {
        assert RowsOf(rows, k) == RowsOf(front, k);
      }
    }
  }

  /** Folding the same rows in again changes nothing. */
  ghost predicate Refolds<V(!new)>(merge: (Option<V>, V) -> V) {
    forall live, vs :: Folded(Folded(live, vs, merge), vs, merge) == Folded(live, vs, merge)
  }

  /** If the second import of the same rows passes, it changes nothing. */
  lemma UpsertsAgain<K(!new), V(!new)>(t: map<K, V>, rows: seq<(K, V)>, merge: (Option<V>, V) -> V,
                                       fits: (map<K, V>, K, V) -> bool)
    requires Refolds(merge) && Upserts(t, rows, merge, fits).Some?
    requires Upserts(Upserts(t, rows, merge, fits).value, rows, merge, fits).Some?
    ensures var u := Upserts(t, rows, merge, fits).value; Upserts(u, rows, merge, fits) == Some(u)
  {
    var u := Upserts(t, rows, merge, fits).value;
    var w := Upserts(u, rows, merge, fits).value;
    forall k ensures k in w <==> k in u
      ensures k in u ==> w[k] == u[k]
    {
      UpsertsAt(t, rows, merge, fits, k);
      UpsertsAt(u, rows, merge, fits, k);
      assert Get(w, k) == Get(u, k);
    }
    assert w.Keys == u.Keys;
    assert forall k :: k in u ==> w[k] == u[k];
    assert w == u;
  }

  // ---- the four tables

  function MergeProvider(live: Option<C.Provider>, row: C.Provider): C.Provider {
    if live.Some? then row.(createdAt := live.value.createdAt) else row
  }

  /** Provider names are unique. */
  predicate ProviderFits(t: map<string, C.Provider>, id: string, row: C.Provider) {
    forall other :: other in t && other != id ==> t[other].name != row.name
  }

  function MergePool(live: Option<C.Pool>, row: C.Pool): C.Pool {
    if live.Some? then row.(createdAt := live.value.createdAt) else row
  }

  function MergeMember(live: Option<C.Member>, row: C.Member): C.Member { row }

  function MergeUser(live: Option<U.User>, row: U.User): U.User { U.MergedUser(live, U.UserExport("", row)) }

  /** Key hashes are unique; an id already there is merged, not inserted. */
  predicate UserFits(t: U.UserTable, id: string, row: U.User) { id in t || !U.HashTaken(t, row.keyHash) }

  function UserRows(rows: seq<U.UserExport>): seq<(string, U.User)> {
    seq(|rows|, i requires 0 <= i < |rows| => (rows[i].id, rows[i].user))
  }

  /** The user rows go through the same upsert as the runs of `Users` see. */
  lemma {:induction false} UsersAreUpserts(t: U.UserTable, rows: seq<U.UserExport>)
    ensures U.ImportedUsers(t, rows) == Upserts(t, UserRows(rows), MergeUser, UserFits)
  {
    if rows != [] {
      UsersAreUpserts(t, rows[..|rows| - 1]);
      assert UserRows(rows)[..|rows| - 1] == UserRows(rows[..|rows| - 1]);
    }
  }

  function Free<K, V>(t: map<K, V>, k: K, v: V): bool { true }

  /** Foreign keys, checked row by row against the tables written before. */
  function MemberFits(providers: map<string, C.Provider>, pools: map<string, C.Pool>):
    (map<C.MemberKey, C.Member>, C.MemberKey, C.Member) -> bool
  {
    (t, k: C.MemberKey, m) => k.pool in pools && k.provider in providers
  }

  /** What a whole import leaves; `None` when it is rolled back. */
  function Imported(c: Config, d: Dump): Option<Config> {
    var providers := Upserts(c.providers, d.providers, MergeProvider, ProviderFits);
    var pools := Upserts(c.pools, d.pools, MergePool, Free);
    if providers.None? || pools.None? then None
    else
      var members := Upserts(c.members, d.members, MergeMember, MemberFits(providers.value, pools.value));
      var users := Upserts(c.users, UserRows(d.users), MergeUser, UserFits);
      if members.None? || users.None? then None
      else Some(Config(providers.value, pools.value, members.value, users.value))
  }

  // ---- each table's rows, folded in twice

  lemma {:induction false} FoldedProviders(live: Option<C.Provider>, vs: seq<C.Provider>)
    requires vs != []
    ensures var created := (if live.Some? then live.value else vs[0]).createdAt;
      Folded(live, vs, MergeProvider) == Some(vs[|vs| - 1].(createdAt := created))
  {
    if |vs| > 1 { FoldedProviders(live, vs[..|vs| - 1]); }
  }

  lemma ProvidersRefold()
    ensures Refolds(MergeProvider)
  {
    forall live, vs
      ensures Folded(Folded(live, vs, MergeProvider), vs, MergeProvider) == Folded(live, vs, MergeProvider)
    {
      if vs != [] {
        FoldedProviders(live, vs);
        FoldedProviders(Folded(live, vs, MergeProvider), vs);
      }
    }
  }

  lemma {:induction false} FoldedPools(live: Option<C.Pool>, vs: seq<C.Pool>)
    requires vs != []
    ensures var created := (if live.Some? then live.value else vs[0]).createdAt;
      Folded(live, vs, MergePool) == Some(vs[|vs| - 1].(createdAt := created))
  {
    if |vs| > 1 { FoldedPools(live, vs[..|vs| - 1]); }
  }

  lemma PoolsRefold()
    ensures Refolds(MergePool)
  {
    forall live, vs ensures Folded(Folded(live, vs, MergePool), vs, MergePool) == Folded(live, vs, MergePool) {
      if vs != [] {
        FoldedPools(live, vs);
        FoldedPools(Folded(live, vs, MergePool), vs);
      }
    }
  }

  lemma MembersRefold()
    ensures Refolds(MergeMember)
  {
    forall live, vs ensures Folded(Folded(live, vs, MergeMember), vs, MergeMember) == Folded(live, vs, MergeMember) {}
  }

  function FirstRevoked(before: Option<nat>, vs: seq<U.User>): Option<nat> {
    if vs == [] then before
    else
      var front := FirstRevoked(before, vs[..|vs| - 1]);
      if front.Some? then front else vs[|vs| - 1].revokedAt
  }

  lemma {:induction false} FirstRevokedAgain(before: Option<nat>, vs: seq<U.User>)
    ensures FirstRevoked(FirstRevoked(before, vs), vs) == FirstRevoked(before, vs)
    ensures before.Some? ==> FirstRevoked(before, vs) == before
    ensures FirstRevoked(before, vs).None? ==> FirstRevoked(None, vs).None?
  {
    if vs != [] {
      FirstRevokedAgain(before, vs[..|vs| - 1]);
      if FirstRevoked(before, vs).Some? { RevokedStays(FirstRevoked(before, vs), vs); }
    }
  }

  lemma {:induction false} RevokedStays(before: Option<nat>, vs: seq<U.User>)
    requires before.Some?
    ensures FirstRevoked(before, vs) == before
  {
    if vs != [] { RevokedStays(before, vs[..|vs| - 1]); }
  }

  lemma {:induction false} FoldedUsers(live: Option<U.User>, vs: seq<U.User>)
    requires vs != []
    ensures var first := if live.Some? then live.value else vs[0];
      Folded(live, vs, MergeUser) == Some(first.(name := vs[|vs| - 1].name,
        revokedAt := FirstRevoked(if live.Some? then live.value.revokedAt else None, vs)))
  {
    if |vs| > 1 { FoldedUsers(live, vs[..|vs| - 1]); }
  }

  lemma UsersRefold()
    ensures Refolds(MergeUser)
  {
    forall live, vs ensures Folded(Folded(live, vs, MergeUser), vs, MergeUser) == Folded(live, vs, MergeUser) {
      if vs != [] {
        FoldedUsers(live, vs);
        FoldedUsers(Folded(live, vs, MergeUser), vs);
        FirstRevokedAgain(if live.Some? then live.value.revokedAt else None, vs);
      }
    }
  }

  // ---- when the second import passes

  lemma {:induction false} KeysStay<K, V>(t: map<K, V>, rows: seq<(K, V)>, merge: (Option<V>, V) -> V,
                                          fits: (map<K, V>, K, V) -> bool)
    requires Upserts(t, rows, merge, fits).Some?
    ensures forall k :: k in t ==> k in Upserts(t, rows, merge, fits).value
    ensures forall i :: 0 <= i < |rows| ==> rows[i].0 in Upserts(t, rows, merge, fits).value
  {
    if rows != [] { KeysStay(t, rows[..|rows| - 1], merge, fits); }
  }

  /** Rows that always fit once their key is there pass again. */
  lemma {:induction false} PassesOver<K(!new), V(!new)>(u: map<K, V>, rows: seq<(K, V)>, merge: (Option<V>, V) -> V,
      fits: (map<K, V>, K, V) -> bool)
    requires forall i :: 0 <= i < |rows| ==> rows[i].0 in u
    requires forall w, i :: 0 <= i < |rows| && rows[i].0 in w ==> fits(w, rows[i].0, rows[i].1)
    ensures Upserts(u, rows, merge, fits).Some?
  {
    if rows != [] {
      var front := rows[..|rows| - 1];
      assert forall i :: 0 <= i < |front| ==> front[i] == rows[i];
      PassesOver(u, front, merge, fits);
      KeysStay(u, front, merge, fits);
      var w, n := Upserts(u, front, merge, fits).value, |rows| - 1;
      assert rows[n].0 in u;
      assert rows[n].0 in w;
      assert fits(w, rows[n].0, rows[n].1);
    }
  }

  lemma PoolsTwice(t: map<string, C.Pool>, rows: seq<(string, C.Pool)>)
    requires Upserts(t, rows, MergePool, Free).Some?
    ensures var u := Upserts(t, rows, MergePool, Free).value; Upserts(u, rows, MergePool, Free) == Some(u)
  {
    KeysStay(t, rows, MergePool, Free);
    PassesOver(Upserts(t, rows, MergePool, Free).value, rows, MergePool, Free);
    PoolsRefold();
    UpsertsAgain(t, rows, MergePool, Free);
  }

  lemma {:induction false} MembersResolve(t: map<C.MemberKey, C.Member>, rows: seq<(C.MemberKey, C.Member)>,
                                          fits: (map<C.MemberKey, C.Member>, C.MemberKey, C.Member) -> bool,
                                          providers: map<string, C.Provider>, pools: map<string, C.Pool>, i: nat)
    requires fits == MemberFits(providers, pools) && Upserts(t, rows, MergeMember, fits).Some? && i < |rows|
    ensures rows[i].0.pool in pools && rows[i].0.provider in providers
  {
    if i < |rows| - 1 { MembersResolve(t, rows[..|rows| - 1], fits, providers, pools, i); }
  }

  lemma MembersTwice(t: map<C.MemberKey, C.Member>, rows: seq<(C.MemberKey, C.Member)>,
                     providers: map<string, C.Provider>, pools: map<string, C.Pool>)
    requires Upserts(t, rows, MergeMember, MemberFits(providers, pools)).Some?
    ensures var fits := MemberFits(providers, pools);
      var u := Upserts(t, rows, MergeMember, fits).value;
      Upserts(u, rows, MergeMember, fits) == Some(u)
  {
    var fits := MemberFits(providers, pools);
    var u := Upserts(t, rows, MergeMember, fits).value;
    forall w, i | 0 <= i < |rows| && rows[i].0 in w ensures fits(w, rows[i].0, rows[i].1) {
      MembersResolve(t, rows, fits, providers, pools, i);
    }
    KeysStay(t, rows, MergeMember, fits);
    PassesOver(u, rows, MergeMember, fits);
    MembersRefold();
    UpsertsAgain(t, rows, MergeMember, fits);
  }

  lemma UsersTwice(t: U.UserTable, rows: seq<(string, U.User)>)
    requires Upserts(t, rows, MergeUser, UserFits).Some?
    ensures var u := Upserts(t, rows, MergeUser, UserFits).value; Upserts(u, rows, MergeUser, UserFits) == Some(u)
  {
    KeysStay(t, rows, MergeUser, UserFits);
    PassesOver(Upserts(t, rows, MergeUser, UserFits).value, rows, MergeUser, UserFits);
    UsersRefold();
    UpsertsAgain(t, rows, MergeUser, UserFits);
  }

  // ---- providers, whose names are unique

  /** A row takes the name under which a provider that first comes later in the
      dump ends up. */
  ghost predicate NameClash(rows: seq<(string, C.Provider)>) {
    exists i, j :: 0 <= i < j < |rows| && ClashAt(rows, i, j)
  }

  ghost predicate ClashAt(rows: seq<(string, C.Provider)>, i: nat, j: nat)
    requires i < j < |rows|
  {
    && rows[j].1.name == rows[i].1.name
    && (forall m :: 0 <= m <= i ==> rows[m].0 != rows[j].0)
    && (forall m :: j < m < |rows| ==> rows[m].0 != rows[j].0)
  }

  /** Row `i` of the second pass meets `k`, which no row so far has touched. */
  ghost predicate Blocked(u: map<string, C.Provider>, rows: seq<(string, C.Provider)>, i: nat, k: string)
    requires i < |rows|
  {
    k in u && k != rows[i].0 && u[k].name == rows[i].1.name && forall m :: 0 <= m < i ==> rows[m].0 != k
  }

  lemma {:induction false} RowsOfNone<V>(rows: seq<(string, V)>, k: string)
    ensures RowsOf(rows, k) == [] <==> forall m :: 0 <= m < |rows| ==> rows[m].0 != k
  {
    if rows != [] {
      RowsOfNone(rows[..|rows| - 1], k);
      assert forall m :: 0 <= m < |rows| - 1 ==> rows[..|rows| - 1][m] == rows[m];
    }
  }

  /** A prefix of the second pass: touched rows are as in the first pass, the
      others as that pass left them. */
  lemma SecondPassAt(t: map<string, C.Provider>, rows: seq<(string, C.Provider)>, i: nat, k: string)
    requires i <= |rows| && Upserts(t, rows, MergeProvider, ProviderFits).Some?
    requires Upserts(t, rows[..i], MergeProvider, ProviderFits).Some?
    requires Upserts(Upserts(t, rows, MergeProvider, ProviderFits).value, rows[..i], MergeProvider, ProviderFits).Some?
    ensures var u := Upserts(t, rows, MergeProvider, ProviderFits).value;
      var first := Get(Upserts(t, rows[..i], MergeProvider, ProviderFits).value, k);
      var second := Get(Upserts(u, rows[..i], MergeProvider, ProviderFits).value, k);
      if forall m :: 0 <= m < i ==> rows[m].0 != k then second == Get(u, k)
      else first.Some? && second.Some? && second.value.name == first.value.name
  {
    var u := Upserts(t, rows, MergeProvider, ProviderFits).value;
    UpsertsAt(t, rows[..i], MergeProvider, ProviderFits, k);
    UpsertsAt(u, rows[..i], MergeProvider, ProviderFits, k);
    RowsOfNone(rows[..i], k);
    assert forall m :: 0 <= m < i ==> rows[..i][m] == rows[m];
    var vs := RowsOf(rows[..i], k);
    if vs != [] {
      FoldedProviders(Get(t, k), vs);
      FoldedProviders(Get(u, k), vs);
    }
  }

  lemma {:induction false} PrefixPasses<K, V>(t: map<K, V>, rows: seq<(K, V)>, merge: (Option<V>, V) -> V,
                                              fits: (map<K, V>, K, V) -> bool, i: nat)
    requires i <= |rows| && Upserts(t, rows, merge, fits).Some?
    ensures Upserts(t, rows[..i], merge, fits).Some?
    ensures i < |rows| ==> fits(Upserts(t, rows[..i], merge, fits).value, rows[i].0, rows[i].1)
  {
    if i < |rows| {
      if Upserts(t, rows[..i + 1], merge, fits).None? { NeverAfter(t, rows, i + 1, merge, fits); }
      OneMore(t, rows, i, merge, fits);
    } else {
      assert rows[..i] == rows;
    }
  }

  ghost predicate RowBlocked(u: map<string, C.Provider>, rows: seq<(string, C.Provider)>, i: nat)
    requires i < |rows|
  {
    exists k :: Blocked(u, rows, i, k)
  }

  ghost predicate NoneBlocked(u: map<string, C.Provider>, rows: seq<(string, C.Provider)>, i: nat)
    requires i <= |rows|
  {
    i == 0 || (NoneBlocked(u, rows, i - 1) && !RowBlocked(u, rows, i - 1))
  }

  /** Row `i` passes again exactly when no untouched provider has its name. */
  lemma RowPassesAgain(t: map<string, C.Provider>, rows: seq<(string, C.Provider)>, i: nat)
    requires i < |rows| && Upserts(t, rows, MergeProvider, ProviderFits).Some?
    requires Upserts(Upserts(t, rows, MergeProvider, ProviderFits).value, rows[..i], MergeProvider, ProviderFits).Some?
    ensures var u := Upserts(t, rows, MergeProvider, ProviderFits).value;
      var w := Upserts(u, rows[..i], MergeProvider, ProviderFits).value;
      ProviderFits(w, rows[i].0, rows[i].1) <==> !RowBlocked(u, rows, i)
  {
    var u := Upserts(t, rows, MergeProvider, ProviderFits).value;
    var w := Upserts(u, rows[..i], MergeProvider, ProviderFits).value;
    PrefixPasses(t, rows, MergeProvider, ProviderFits, i);
    forall k | k != rows[i].0 ensures k in w && w[k].name == rows[i].1.name <==> Blocked(u, rows, i, k) {
      SecondPassAt(t, rows, i, k);
    }
  }

  lemma OneMorePasses(u: map<string, C.Provider>, rows: seq<(string, C.Provider)>, i: nat)
    requires i < |rows|
    ensures var front := Upserts(u, rows[..i], MergeProvider, ProviderFits);
      Upserts(u, rows[..i + 1], MergeProvider, ProviderFits).Some? <==>
        front.Some? && ProviderFits(front.value, rows[i].0, rows[i].1)
  {
    OneMore(u, rows, i, MergeProvider, ProviderFits);
  }

  lemma SecondStep(t: map<string, C.Provider>, rows: seq<(string, C.Provider)>, i: nat)
    requires i < |rows| && Upserts(t, rows, MergeProvider, ProviderFits).Some?
    ensures var u := Upserts(t, rows, MergeProvider, ProviderFits).value;
      Upserts(u, rows[..i + 1], MergeProvider, ProviderFits).Some? <==>
        Upserts(u, rows[..i], MergeProvider, ProviderFits).Some? && !RowBlocked(u, rows, i)
  {
    var u := Upserts(t, rows, MergeProvider, ProviderFits).value;
    OneMorePasses(u, rows, i);
    if Upserts(u, rows[..i], MergeProvider, ProviderFits).Some? { RowPassesAgain(t, rows, i); }
  }

  lemma {:induction false} SecondPass(t: map<string, C.Provider>, rows: seq<(string, C.Provider)>, i: nat)
    requires i <= |rows| && Upserts(t, rows, MergeProvider, ProviderFits).Some?
    ensures var u := Upserts(t, rows, MergeProvider, ProviderFits).value;
      Upserts(u, rows[..i], MergeProvider, ProviderFits).Some? <==> NoneBlocked(u, rows, i)
  {
    if i > 0 {
      SecondPass(t, rows, i - 1);
      SecondStep(t, rows, i - 1);
    }
  }

  lemma LastRowOf(rows: seq<(string, C.Provider)>, k: string) returns (j: nat)
    requires RowsOf(rows, k) != []
    ensures j < |rows| && rows[j].0 == k && (forall m :: j < m < |rows| ==> rows[m].0 != k)
    ensures rows[j].1 == RowsOf(rows, k)[|RowsOf(rows, k)| - 1]
  {
    if rows[|rows| - 1].0 == k {
      j := |rows| - 1;
    } else {
      j := LastRowOf(rows[..|rows| - 1], k);
    }
  }

  lemma {:induction false} LastOfRows(rows: seq<(string, C.Provider)>, j: nat)
    requires j < |rows| && forall m :: j < m < |rows| ==> rows[m].0 != rows[j].0
    ensures var vs := RowsOf(rows, rows[j].0); vs != [] && vs[|vs| - 1] == rows[j].1
  {
    if j < |rows| - 1 {
      assert rows[..|rows| - 1][j] == rows[j];
      LastOfRows(rows[..|rows| - 1], j);
    }
  }

  /** What blocks the second pass can be read off the dump. */
  lemma BlockedIsClash(t: map<string, C.Provider>, rows: seq<(string, C.Provider)>, i: nat)
    requires i < |rows| && Upserts(t, rows, MergeProvider, ProviderFits).Some?
    ensures var u := Upserts(t, rows, MergeProvider, ProviderFits).value;
      RowBlocked(u, rows, i) <==> exists j: nat :: i < j < |rows| && ClashAt(rows, i, j)
  {
    var u := Upserts(t, rows, MergeProvider, ProviderFits).value;
    if k :| Blocked(u, rows, i, k) {
      UpsertsAt(t, rows, MergeProvider, ProviderFits, k);
      if RowsOf(rows, k) == [] {
        Untouched(t, rows, i, k);
        assert false;
      } else {
        FoldedProviders(Get(t, k), RowsOf(rows, k));
        var j := LastRowOf(rows, k);
        assert ClashAt(rows, i, j);
      }
    }
    if j: nat :| i < j < |rows| && ClashAt(rows, i, j) {
      UpsertsAt(t, rows, MergeProvider, ProviderFits, rows[j].0);
      LastOfRows(rows, j);
      FoldedProviders(Get(t, rows[j].0), RowsOf(rows, rows[j].0));
      assert Blocked(u, rows, i, rows[j].0);
    }
  }

  /** A provider the dump does not mention cannot block: it would have blocked the
      first pass. */
  lemma Untouched(t: map<string, C.Provider>, rows: seq<(string, C.Provider)>, i: nat, k: string)
    requires i < |rows| && Upserts(t, rows, MergeProvider, ProviderFits).Some? && RowsOf(rows, k) == []
    ensures !Blocked(Upserts(t, rows, MergeProvider, ProviderFits).value, rows, i, k)
  {
    PrefixPasses(t, rows, MergeProvider, ProviderFits, i);
    UpsertsAt(t, rows, MergeProvider, ProviderFits, k);
    UpsertsAt(t, rows[..i], MergeProvider, ProviderFits, k);
    RowsOfNone(rows, k);
    RowsOfNone(rows[..i], k);
  }

  lemma {:induction false} NoneBlockedMeans(t: map<string, C.Provider>, rows: seq<(string, C.Provider)>, n: nat)
    requires n <= |rows| && Upserts(t, rows, MergeProvider, ProviderFits).Some?
    ensures NoneBlocked(Upserts(t, rows, MergeProvider, ProviderFits).value, rows, n)
       <==> !exists i, j :: 0 <= i < n && i < j < |rows| && ClashAt(rows, i, j)
  {
    if n > 0 {
      NoneBlockedMeans(t, rows, n - 1);
      BlockedIsClash(t, rows, n - 1);
    }
  }

  lemma ProvidersTwice(t: map<string, C.Provider>, rows: seq<(string, C.Provider)>)
    requires Upserts(t, rows, MergeProvider, ProviderFits).Some?
    ensures var u := Upserts(t, rows, MergeProvider, ProviderFits).value;
      && (Upserts(u, rows, MergeProvider, ProviderFits) == Some(u) <==> !NameClash(rows))
      && (Upserts(u, rows, MergeProvider, ProviderFits).None? <==> NameClash(rows))
  {
    var u := Upserts(t, rows, MergeProvider, ProviderFits).value;
    SecondPass(t, rows, |rows|);
    assert rows[..|rows|] == rows;
    NoneBlockedMeans(t, rows, |rows|);
    ProvidersRefold();
    if Upserts(u, rows, MergeProvider, ProviderFits).Some? { UpsertsAgain(t, rows, MergeProvider, ProviderFits); }
  }

  /** Importing an accepted dump again changes nothing, repeated ids included,
      exactly when no provider row takes a name that a provider first coming later
      ends up with; otherwise the second import is refused. */
  lemma {:induction false} ImportIsIdempotent(c: Config, d: Dump)
    requires Imported(c, d).Some?
    ensures Imported(Imported(c, d).value, d) == Imported(c, d) <==> !NameClash(d.providers)
    ensures Imported(Imported(c, d).value, d).None? <==> NameClash(d.providers)
  {
    ProvidersTwice(c.providers, d.providers);
    PoolsTwice(c.pools, d.pools);
    MembersTwice(c.members, d.members, Imported(c, d).value.providers, Imported(c, d).value.pools);
    UsersTwice(c.users, UserRows(d.users));
  }

  predicate LastOf<V>(rows: seq<(string, V)>, id: string, j: nat) {
    j < |rows| && rows[j].0 == id && forall m :: j < m < |rows| ==> rows[m].0 != id
  }

  /** A provider's last row in the dump is what it is afterwards, but for the creation
      time, which a provider that was there keeps; one the dump does not name is left
      alone. */
  lemma LastRowWins(c: Config, d: Dump, id: string)
    requires Imported(c, d).Some?
    ensures var after := Imported(c, d).value.providers;
      && (forall j: nat :: LastOf(d.providers, id, j) ==>
            id in after && after[id] == d.providers[j].1.(createdAt := after[id].createdAt))
      && (id in c.providers ==> id in after && after[id].createdAt == c.providers[id].createdAt)
      && ((forall j :: 0 <= j < |d.providers| ==> d.providers[j].0 != id) ==> Get(after, id) == Get(c.providers, id))
  {
    var rows := d.providers;
    UpsertsAt(c.providers, rows, MergeProvider, ProviderFits, id);
    RowsOfNone(rows, id);
    if RowsOf(rows, id) != [] {
      FoldedProviders(Get(c.providers, id), RowsOf(rows, id));
      forall j: nat | LastOf(rows, id, j)
        ensures rows[j].1 == RowsOf(rows, id)[|RowsOf(rows, id)| - 1]
      {
        LastOfRows(rows, j);
      }
    }
  }

  /** So every accepted dump without repeated provider ids imports again. */
  lemma DistinctIdsImportAgain(c: Config, d: Dump)
    requires Imported(c, d).Some? && Distinct(d.providers)
    ensures Imported(Imported(c, d).value, d) == Imported(c, d)
  {
    ImportIsIdempotent(c, d);
    if NameClash(d.providers) {
      var i, j :| 0 <= i < j < |d.providers| && ClashAt(d.providers, i, j);
      NoClashAt(c.providers, d.providers, i, j);
    }
  }

  lemma NoClashAt(t: map<string, C.Provider>, rows: seq<(string, C.Provider)>, i: nat, j: nat)
    requires Distinct(rows) && Upserts(t, rows, MergeProvider, ProviderFits).Some? && i < j < |rows|
    ensures !ClashAt(rows, i, j)
  {
    PrefixPasses(t, rows, MergeProvider, ProviderFits, j);
    UpsertsSettle(t, rows[..j], MergeProvider, ProviderFits);
    assert rows[..j][i] == rows[i];
  }

  /** A dump the second import refuses: two rows of one provider, the first under
      the name another provider takes over. */
  lemma RepeatedIdsCanClash(a: string, b: string, x: C.Provider, y: C.Provider)
    requires a != b && x.name != y.name
    ensures var d := Dump([(a, x), (a, y), (b, x)], [], [], []);
      var c := Config(map[], map[], map[], map[]);
      Imported(c, d).Some? && Imported(Imported(c, d).value, d).None?
  {
    var rows := [(a, x), (a, y), (b, x)];
    var empty: map<string, C.Provider> := map[];
    ThreeRows(empty, rows, MergeProvider, ProviderFits);
    assert ClashAt(rows, 0, 2);
    ImportIsIdempotent(Config(map[], map[], map[], map[]), Dump(rows, [], [], []));
  }

  lemma ThreeRows<K, V>(t: map<K, V>, rows: seq<(K, V)>, merge: (Option<V>, V) -> V, fits: (map<K, V>, K, V) -> bool)
    requires |rows| == 3 && fits(t, rows[0].0, rows[0].1)
    requires var t1 := t[rows[0].0 := merge(Get(t, rows[0].0), rows[0].1)];
      fits(t1, rows[1].0, rows[1].1)
      && var t2 := t1[rows[1].0 := merge(Get(t1, rows[1].0), rows[1].1)];
         fits(t2, rows[2].0, rows[2].1)
    ensures var t1 := t[rows[0].0 := merge(Get(t, rows[0].0), rows[0].1)];
      var t2 := t1[rows[1].0 := merge(Get(t1, rows[1].0), rows[1].1)];
      Upserts(t, rows, merge, fits) == Some(t2[rows[2].0 := merge(Get(t2, rows[2].0), rows[2].1)])
  {
    OneMore(t, rows, 0, merge, fits);
    OneMore(t, rows, 1, merge, fits);
    OneMore(t, rows, 2, merge, fits);
    assert rows[..3] == rows;
  }

  // ---- the import as the program runs it

  lemma OneMore<K, V>(t: map<K, V>, rows: seq<(K, V)>, i: nat, merge: (Option<V>, V) -> V,
                      fits: (map<K, V>, K, V) -> bool)
    requires i < |rows|
    ensures var front := Upserts(t, rows[..i], merge, fits); var (k, v) := rows[i];
      Upserts(t, rows[..i + 1], merge, fits) ==
        if front.None? || !fits(front.value, k, v) then None else Some(front.value[k := merge(Get(front.value, k), v)])
    ensures Upserts(t, rows[..0], merge, fits) == Some(t)
  {
    assert rows[..i + 1][..i] == rows[..i];
  }

  lemma {:induction false} NeverAfter<K, V>(t: map<K, V>, rows: seq<(K, V)>, i: nat, merge: (Option<V>, V) -> V,
                                            fits: (map<K, V>, K, V) -> bool)
    requires i <= |rows| && Upserts(t, rows[..i], merge, fits).None?
    ensures Upserts(t, rows, merge, fits).None?
  {
    if i == |rows| {
      assert rows[..i] == rows;
    } else {
      assert rows[..|rows| - 1][..i] == rows[..i];
      NeverAfter(t, rows[..|rows| - 1], i, merge, fits);
    }
  }

  method ImportProviders(t: map<string, C.Provider>, rows: seq<(string, C.Provider)>)
    returns (r: Option<map<string, C.Provider>>)
    ensures r == Upserts(t, rows, MergeProvider, ProviderFits)
  {
    var u := t;
    for i := 0 to |rows|
      invariant Upserts(t, rows[..i], MergeProvider, ProviderFits) == Some(u)
    {
      OneMore(t, rows, i, MergeProvider, ProviderFits);
      var (id, row) := rows[i];
      if exists other :: other in u && other != id && u[other].name == row.name {
        NeverAfter(t, rows, i + 1, MergeProvider, ProviderFits);
        return None;
      }
      u := u[id := if id in u then row.(createdAt := u[id].createdAt) else row];
    }
    assert rows[..|rows|] == rows;
    return Some(u);
  }

  method ImportPools(t: map<string, C.Pool>, rows: seq<(string, C.Pool)>) returns (r: Option<map<string, C.Pool>>)
    ensures r == Upserts(t, rows, MergePool, Free)
  {
    var u := t;
    for i := 0 to |rows|
      invariant Upserts(t, rows[..i], MergePool, Free) == Some(u)
    {
      OneMore(t, rows, i, MergePool, Free);
      var (id, row) := rows[i];
      u := u[id := if id in u then row.(createdAt := u[id].createdAt) else row];
    }
    assert rows[..|rows|] == rows;
    return Some(u);
  }

  method ImportMembers(t: map<C.MemberKey, C.Member>, rows: seq<(C.MemberKey, C.Member)>,
                       providers: map<string, C.Provider>, pools: map<string, C.Pool>)
    returns (r: Option<map<C.MemberKey, C.Member>>)
    ensures r == Upserts(t, rows, MergeMember, MemberFits(providers, pools))
  {
    var u := t;
    ghost var fits := MemberFits(providers, pools);
    for i := 0 to |rows|
      invariant Upserts(t, rows[..i], MergeMember, fits) == Some(u)
    {
      OneMore(t, rows, i, MergeMember, fits);
      var (id, row) := rows[i];
      if id.pool !in pools || id.provider !in providers {
        NeverAfter(t, rows, i + 1, MergeMember, fits);
        return None;
      }
      u := u[id := row];
    }
    assert rows[..|rows|] == rows;
    return Some(u);
  }

  method ImportUsers(t: U.UserTable, rows: seq<(string, U.User)>) returns (r: Option<U.UserTable>)
    ensures r == Upserts(t, rows, MergeUser, UserFits)
  {
    var u := t;
    for i := 0 to |rows|
      invariant Upserts(t, rows[..i], MergeUser, UserFits) == Some(u)
    {
      OneMore(t, rows, i, MergeUser, UserFits);
      var (id, row) := rows[i];
      if id !in u && U.HashTaken(u, row.keyHash) {
        NeverAfter(t, rows, i + 1, MergeUser, UserFits);
        return None;
      }
      if id in u {
        var live := u[id];
        var revokedAt := if live.revokedAt.Some? then live.revokedAt else row.revokedAt;
        u := u[id := live.(name := row.name, revokedAt := revokedAt)];
      } else {
        u := u[id := row];
      }
    }
    assert rows[..|rows|] == rows;
    return Some(u);
  }

  /** Nothing is written unless every row of every table was accepted. */
  method ImportConfig(store: S.Store, users: U.UserStore, dump: Dump) returns (ok: bool)
    modifies store, users
    ensures var c := Config(old(store.providers), old(store.pools), old(store.members), old(users.users));
      var now := Config(store.providers, store.pools, store.members, users.users);
      if Imported(c, dump).Some? then ok && now == Imported(c, dump).value else !ok && now == c
  {
    var providers := ImportProviders(store.providers, dump.providers);
    if providers.None? { return false; }
    var pools := ImportPools(store.pools, dump.pools);
    if pools.None? { return false; }
    var members := ImportMembers(store.members, dump.members, providers.value, pools.value);
    if members.None? { return false; }
    var userRows := ImportUsers(users.users, UserRows(dump.users));
    if userRows.None? { return false; }
    store.providers, store.pools, store.members := providers.value, pools.value, members.value;
    users.users := userRows.value;
    return true;
  }
}
