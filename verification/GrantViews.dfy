/**
 The batched and memoised join of stored grants to role names and usernames,
 against the row-by-row join it must agree with.
 */
module GrantViews {
  import opened Common

  type Id = nat

  datatype Scope = Global | Gateway | Other

  datatype Binding = Binding(id: Id, role: Id, user: Id, gateway: Option<Id>, scope: Scope)

  datatype View = View(grant: Binding, roleName: string, username: string)

  datatype Entity = Role | User

  datatype Request = Request(entity: Entity, ids: seq<Id>)

  datatype Error = Capacity | LookupFailed | InvalidScope | UnresolvedRole

  type Names = map<Id, string>

  const MAX_GRANTS: nat := 10000
  const BATCH: nat := 100

  /** A row that is not stored has the empty name. */
  function Name(table: Names, id: Id): string {
    if id in table then table[id] else ""
  }

  predicate ScopeOk(row: Binding) {
    (row.scope == Global && row.gateway == None) || (row.scope == Gateway && row.gateway.Some?)
  }

  /* ---------- the row-by-row join ---------- */

  function JoinRow(row: Binding, roles: Names, users: Names): Result<View, Error> {
    if !ScopeOk(row) then Err(InvalidScope)
    else if Name(roles, row.role) == "" then Err(UnresolvedRole)
    else Ok(View(row, Name(roles, row.role), Name(users, row.user)))
  }

  /** The views in row order, or the error of the first bad row. */
  function Join(rows: seq<Binding>, roles: Names, users: Names): Result<seq<View>, Error> {
    if rows == [] then Ok([])
    else
      var n := |rows| - 1;
      var before := Join(rows[..n], roles, users);
      if before.Err? then before
      else
        var last := JoinRow(rows[n], roles, users);
        if last.Err? then Err(last.error) else Ok(before.value + [last.value])
  }

  lemma {:induction false} JoinFailsEarly(rows: seq<Binding>, roles: Names, users: Names, n: nat)
    requires n <= |rows| && Join(rows[..n], roles, users).Err?
    ensures Join(rows, roles, users) == Join(rows[..n], roles, users)
    decreases |rows|
  {
    hide JoinRow;
    if n < |rows| {
      var init := rows[..|rows| - 1];
      assert init[..n] == rows[..n];
      JoinFailsEarly(init, roles, users, n);
    } else {
      assert rows[..n] == rows;
    }
  }

  lemma JoinNext(rows: seq<Binding>, roles: Names, users: Names, i: nat)
    requires i < |rows| && Join(rows[..i], roles, users).Ok?
    ensures var before, row := Join(rows[..i], roles, users).value, JoinRow(rows[i], roles, users);
            Join(rows[..i + 1], roles, users) == if row.Err? then Err(row.error) else Ok(before + [row.value])
  {
    hide JoinRow;
    assert rows[..i + 1][..i] == rows[..i];
  }

  /** What a successful join says of every row, and when it succeeds. */
  lemma {:induction false} JoinMeaning(rows: seq<Binding>, roles: Names, users: Names)
    ensures Join(rows, roles, users).Ok? <==> forall i :: 0 <= i < |rows| ==> ScopeOk(rows[i]) && Name(roles, rows[i].role) != ""
    ensures Join(rows, roles, users).Ok? ==>
              var views := Join(rows, roles, users).value;
              && |views| == |rows|
              && forall i :: 0 <= i < |rows| ==> views[i] == View(rows[i], roles[rows[i].role], Name(users, rows[i].user))
    decreases |rows|
  {
    if rows != [] {
      JoinMeaning(rows[..|rows| - 1], roles, users);
    }
  }

  /* ---------- lookups ---------- */

  /** The rows a lookup returns, entered over the placeholders. */
  function Resolved(memo: Names, ids: seq<Id>, table: Names): Names {
    if ids == [] then memo
    else
      var n := |ids| - 1;
      var before := Resolved(memo, ids[..n], table);
      if ids[n] in table then before[ids[n] := table[ids[n]]] else before
  }

  method Resolve(memo: Names, ids: seq<Id>, table: Names) returns (names: Names)
    ensures names == Resolved(memo, ids, table)
  {
    names := memo;
    for i := 0 to |ids|
      invariant names == Resolved(memo, ids[..i], table)
    {
      if ids[i] in table {
        names := names[ids[i] := table[ids[i]]];
      }
      assert ids[..i + 1][..i] == ids[..i];
    }
    assert ids[..|ids|] == ids;
  }

  /** Every memoised name is the stored one, or the placeholder of an id that is still to be looked up. */
  ghost predicate MemoOk(memo: Names, table: Names, pending: seq<Id>) {
    && (forall id :: id in memo ==> memo[id] == Name(table, id) || (id in pending && memo[id] == ""))
    && (forall id :: id in pending ==> id in memo)
  }

  lemma {:induction false} ResolvedAt(memo: Names, ids: seq<Id>, table: Names)
    requires forall id :: id in ids ==> id in memo
    ensures forall id :: id in Resolved(memo, ids, table) <==> id in memo
    ensures forall id :: id in memo ==> Resolved(memo, ids, table)[id] == if id in ids && id in table then table[id] else memo[id]
    decreases |ids|
  {
    if ids != [] {
      var n := |ids| - 1;
      assert ids == ids[..n] + [ids[n]];
      ResolvedAt(memo, ids[..n], table);
    }
  }

  lemma ResolvedIsExact(memo: Names, ids: seq<Id>, table: Names)
    requires MemoOk(memo, table, ids)
    ensures MemoOk(Resolved(memo, ids, table), table, [])
    ensures forall id :: id in Resolved(memo, ids, table) <==> id in memo
  {
    ResolvedAt(memo, ids, table);
    hide Resolved;
  }

  /* ---------- what is asked of storage ---------- */

  /** Every id asked for so far, in order. */
  function Asked(requests: seq<Request>, entity: Entity): seq<Id> {
    if requests == [] then []
    else
      var n := |requests| - 1;
      var before := Asked(requests[..n], entity);
      if requests[n].entity == entity then before + requests[n].ids else before
  }

  predicate Distinct(ids: seq<Id>) {
    forall i, j :: 0 <= i < j < |ids| ==> ids[i] != ids[j]
  }

  /** Bounded lookups, and no id of an entity asked for twice. */
  predicate RequestsOk(requests: seq<Request>) {
    && (forall k :: 0 <= k < |requests| ==> 1 <= |requests[k].ids| <= BATCH)
    && Distinct(Asked(requests, Role)) && Distinct(Asked(requests, User))
  }

  lemma AskedNext(requests: seq<Request>, r: Request, entity: Entity)
    ensures Asked(requests + [r], entity) == if r.entity == entity then Asked(requests, entity) + r.ids else Asked(requests, entity)
  {
    assert (requests + [r])[..|requests|] == requests;
  }

  /** The memo holds exactly the ids asked for. */
  ghost predicate Matches(memo: Names, asked: seq<Id>) {
    Distinct(asked) && forall id :: id in memo <==> id in asked
  }

  method Collect(batch: seq<Binding>, roleNames: Names, usernames: Names)
    returns (roleIDs: seq<Id>, userIDs: seq<Id>, roleMemo: Names, userMemo: Names)
    requires |batch| <= BATCH
    ensures |roleIDs| <= BATCH && |userIDs| <= BATCH
    ensures Placed(roleNames, roleIDs, roleMemo) && Placed(usernames, userIDs, userMemo)
    ensures forall i :: 0 <= i < |batch| ==> batch[i].role in roleMemo && batch[i].user in userMemo
    ensures forall id :: id in roleIDs ==> exists i :: 0 <= i < |batch| && batch[i].role == id
    ensures forall id :: id in userIDs ==> exists i :: 0 <= i < |batch| && batch[i].user == id
  {
    roleIDs, userIDs, roleMemo, userMemo := [], [], roleNames, usernames;
    for i := 0 to |batch|
      invariant |roleIDs| <= i && |userIDs| <= i
      invariant Placed(roleNames, roleIDs, roleMemo) && Placed(usernames, userIDs, userMemo)
      invariant forall j :: 0 <= j < i ==> batch[j].role in roleMemo && batch[j].user in userMemo
      invariant forall id :: id in roleIDs ==> exists j :: 0 <= j < i && batch[j].role == id
      invariant forall id :: id in userIDs ==> exists j :: 0 <= j < i && batch[j].user == id
    {
      var row := batch[i];
      if row.role !in roleMemo {
        PlacedNext(roleNames, roleIDs, roleMemo, row.role);
        roleIDs := roleIDs + [row.role];
        roleMemo := roleMemo[row.role := ""];
      }
      if row.user !in userMemo {
        PlacedNext(usernames, userIDs, userMemo, row.user);
        userIDs := userIDs + [row.user];
        userMemo := userMemo[row.user := ""];
      }
    }
  }

  /** New ids enter the memo once each, as placeholders. */
  ghost predicate Placed(memo: Names, ids: seq<Id>, after: Names) {
    && Distinct(ids)
    && (forall id :: id in ids ==> id !in memo)
    && (forall id :: id in after <==> id in memo || id in ids)
    && (forall id :: id in memo ==> after[id] == memo[id])
    && (forall id :: id in ids ==> after[id] == "")
  }

  lemma PlacedNext(memo: Names, ids: seq<Id>, after: Names, id: Id)
    requires Placed(memo, ids, after) && id !in after
    ensures Placed(memo, ids + [id], after[id := ""])
  {}

  /** The memo after one entity's lookup, with the request that filled it, if any was needed. */
  method Lookup(entity: Entity, ids: seq<Id>, memo: Names, table: Names, failing: set<nat>, requests: seq<Request>)
    returns (names: Names, failed: bool, asked: seq<Request>)
    ensures asked == if ids == [] then requests else requests + [Request(entity, ids)]
    ensures failed <==> ids != [] && |requests| in failing
    ensures !failed ==> names == Resolved(memo, ids, table)
  {
    names, failed, asked := memo, false, requests;
    if |ids| > 0 {
      asked := requests + [Request(entity, ids)];
      if |requests| in failing {
        failed := true;
        return;
      }
      names := Resolve(memo, ids, table);
    } else {
      assert Resolved(memo, [], table) == memo;
    }
  }

  /** A complete memo of everything asked for about one entity. */
  ghost predicate Complete(memo: Names, table: Names, requests: seq<Request>, entity: Entity) {
    MemoOk(memo, table, []) && Matches(memo, Asked(requests, entity))
  }

  lemma DistinctConcat(a: seq<Id>, b: seq<Id>)
    requires Distinct(a) && Distinct(b) && forall id :: id in b ==> id !in a
    ensures Distinct(a + b)
  {
    forall i, j | 0 <= i < j < |a + b|
      ensures (a + b)[i] != (a + b)[j]
    {
      if i < |a| <= j {
        assert b[j - |a|] in b && a[i] in a;
      }
    }
  }

  lemma MatchesPlaced(memo: Names, ids: seq<Id>, placed: Names, asked: seq<Id>)
    requires Matches(memo, asked) && Placed(memo, ids, placed)
    ensures Matches(placed, asked + ids)
  {
    DistinctConcat(asked, ids);
    hide Distinct;
  }

  lemma PlacedMemoOk(memo: Names, ids: seq<Id>, placed: Names, table: Names)
    requires MemoOk(memo, table, []) && Placed(memo, ids, placed)
    ensures MemoOk(placed, table, ids)
  {
    hide Name, Distinct;
  }

  /** Asking for the new ids of a batch keeps the memo complete and asks for none of them again. */
  lemma LookupCompletes(memo: Names, ids: seq<Id>, placed: Names, table: Names, requests: seq<Request>, entity: Entity)
    requires Complete(memo, table, requests, entity) && Placed(memo, ids, placed)
    ensures var after := if ids == [] then requests else requests + [Request(entity, ids)];
            && Matches(placed, Asked(after, entity))
            && Complete(Resolved(placed, ids, table), table, after, entity)
  {
    AskedNext(requests, Request(entity, ids), entity);
    MatchesPlaced(memo, ids, placed, Asked(requests, entity));
    PlacedMemoOk(memo, ids, placed, table);
    ResolvedIsExact(placed, ids, table);
    if ids == [] {
      assert Asked(requests, entity) + ids == Asked(requests, entity);
    }
    hide Resolved, Asked, Distinct, Placed, MemoOk;
  }

  /**
   `failing` numbers the storage requests that fail. Unless one of those made did,
   the result is the row-by-row join of every grant list within the capacity.
   */
  method ProjectGrants(rows: seq<Binding>, roles: Names, users: Names, failing: set<nat>)
    returns (result: Result<seq<View>, Error>, requests: seq<Request>)
    ensures RequestsOk(requests)
    ensures |rows| > MAX_GRANTS ==> result == Err(Capacity) && requests == []
    ensures |rows| <= MAX_GRANTS && result != Err(LookupFailed) ==>
              && result == Join(rows, roles, users)
              && forall k :: 0 <= k < |requests| ==> k !in failing
    ensures result == Err(LookupFailed) ==> requests != [] && |requests| - 1 in failing
    ensures result.Ok? ==> forall row :: row in rows ==> row.role in Asked(requests, Role) && row.user in Asked(requests, User)
    ensures forall id :: id in Asked(requests, Role) ==> exists i :: 0 <= i < |rows| && rows[i].role == id
    ensures forall id :: id in Asked(requests, User) ==> exists i :: 0 <= i < |rows| && rows[i].user == id
  {
    hide Join, Asked, Complete, Distinct, Name;
    requests := [];
    NothingAsked();
    if |rows| > MAX_GRANTS {
      return Err(Capacity), [];
    }
    var views: seq<View> := [];
    var roleNames: Names, usernames: Names := map[], map[];
    var start := 0;
    EmptyJoin(rows, roles, users);
    while start < |rows|
      invariant start <= |rows|
      invariant RequestsOk(requests) && forall k :: 0 <= k < |requests| ==> k !in failing
      invariant Complete(roleNames, roles, requests, Role) && Complete(usernames, users, requests, User)
      invariant Join(rows[..start], roles, users) == Ok(views)
      invariant forall i :: 0 <= i < start ==> rows[i].role in roleNames && rows[i].user in usernames
      invariant forall id :: id in Asked(requests, Role) ==> exists i :: 0 <= i < |rows| && rows[i].role == id
      invariant forall id :: id in Asked(requests, User) ==> exists i :: 0 <= i < |rows| && rows[i].user == id
    {
      var end := if start + BATCH < |rows| then start + BATCH else |rows|;
      var batch := rows[start..end];
      var failed;
      assert forall i :: 0 <= i < |batch| ==> batch[i] == rows[start + i];
      roleNames, usernames, failed, requests := LookupBatch(batch, roleNames, usernames, roles, users, failing, requests);
      if failed {
        return Err(LookupFailed), requests;
      }
      var joined := ProjectBatch(rows, start, end, roleNames, usernames, roles, users, views);
      if joined.Err? {
        return joined, requests;
      }
      views := joined.value;
      start := end;
    }
    assert rows[..start] == rows;
    CompleteMatches(roleNames, roles, requests, Role);
    CompleteMatches(usernames, users, requests, User);
    return Ok(views), requests;
  }

  /** The rows of one batch in order; the first bad one ends the projection. */
  method ProjectBatch(rows: seq<Binding>, start: nat, end: nat, roleNames: Names, usernames: Names, ghost roles: Names, ghost users: Names, before: seq<View>)
    returns (joined: Result<seq<View>, Error>)
    requires start <= end <= |rows| && Join(rows[..start], roles, users) == Ok(before)
    requires forall i :: start <= i < end ==> Known(rows[i].role, roleNames, roles) && Known(rows[i].user, usernames, users)
    ensures joined.Ok? ==> Join(rows[..end], roles, users) == joined
    ensures joined.Err? ==> Join(rows, roles, users) == joined && joined != Err(LookupFailed)
  {
    hide Join;
    var views, i := before, start;
    while i < end
      invariant start <= i <= end
      invariant Join(rows[..i], roles, users) == Ok(views)
    {
      var row := rows[i];
      JoinNext(rows, roles, users, i);
      if !ScopeOk(row) {
        JoinFailsEarly(rows, roles, users, i + 1);
        return Err(InvalidScope);
      }
      if roleNames[row.role] == "" {
        JoinFailsEarly(rows, roles, users, i + 1);
        return Err(UnresolvedRole);
      }
      views := views + [View(row, roleNames[row.role], usernames[row.user])];
      i := i + 1;
    }
    return Ok(views);
  }

  lemma CompleteMatches(memo: Names, table: Names, requests: seq<Request>, entity: Entity)
    requires Complete(memo, table, requests, entity)
    ensures forall id :: id in memo <==> id in Asked(requests, entity)
  {}

  lemma NothingAsked()
    ensures RequestsOk([]) && Asked([], Role) == [] && Asked([], User) == []
    ensures forall table: Names, entity: Entity :: Complete(map[], table, [], entity)
  {}

  lemma EmptyJoin(rows: seq<Binding>, roles: Names, users: Names)
    ensures Join(rows[..0], roles, users) == Ok([])
  {}

  predicate Known(id: Id, memo: Names, table: Names) {
    id in memo && memo[id] == Name(table, id)
  }

  /** The two lookups of one batch. */
  method LookupBatch(batch: seq<Binding>, roleNames: Names, usernames: Names, roles: Names, users: Names, failing: set<nat>, requests: seq<Request>)
    returns (roleMemo: Names, userMemo: Names, failed: bool, asked: seq<Request>)
    requires |batch| <= BATCH
    requires RequestsOk(requests) && forall k :: 0 <= k < |requests| ==> k !in failing
    requires Complete(roleNames, roles, requests, Role) && Complete(usernames, users, requests, User)
    ensures RequestsOk(asked)
    ensures failed ==> asked != [] && |asked| - 1 in failing
    ensures !failed ==>
              && (forall k :: 0 <= k < |asked| ==> k !in failing)
              && Complete(roleMemo, roles, asked, Role) && Complete(userMemo, users, asked, User)
              && (forall i :: 0 <= i < |batch| ==> Known(batch[i].role, roleMemo, roles) && Known(batch[i].user, userMemo, users))
    ensures !failed ==> (forall id :: id in roleNames ==> id in roleMemo) && (forall id :: id in usernames ==> id in userMemo)
    ensures forall id :: id in Asked(asked, Role) ==> id in Asked(requests, Role) || exists i :: 0 <= i < |batch| && batch[i].role == id
    ensures forall id :: id in Asked(asked, User) ==> id in Asked(requests, User) || exists i :: 0 <= i < |batch| && batch[i].user == id
  {
    hide Asked, Resolved, Distinct, Name;
    var roleIDs, userIDs;
    roleIDs, userIDs, roleMemo, userMemo := Collect(batch, roleNames, usernames);
    LookupCompletes(roleNames, roleIDs, roleMemo, roles, requests, Role);
    AskedNext(requests, Request(Role, roleIDs), User);
    roleMemo, failed, asked := Lookup(Role, roleIDs, roleMemo, roles, failing, requests);
    if failed {
      return;
    }
    var between := asked;
    LookupCompletes(usernames, userIDs, userMemo, users, between, User);
    AskedNext(between, Request(User, userIDs), Role);
    userMemo, failed, asked := Lookup(User, userIDs, userMemo, users, failing, between);
  }
}
