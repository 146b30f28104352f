/** Tenant scoping of the management API: the row-level policy together with the operations
    that run under it, as a noninterference property. */
module Tenancy {
  import opened Common
  import opened Transfers

  datatype User = User(admin: bool, tenant: string)

  /** `app.current_tenant` during the operation: unset for admins. */
  function Setting(user: User): Option<string>
  {
    if user.admin then None else Some(user.tenant)
  }

  /** The USING and WITH CHECK predicate of policy `tenant_isolation`. */
  predicate Policy(setting: Option<string>, row: Row)
  {
    setting == None || setting.value == "" || row.input.tenant == setting.value
  }

  /** What a query sees of the table. */
  function Visible(setting: Option<string>, t: Table): Table
  {
    map id | id in t && Policy(setting, t[id]) :: t[id]
  }

  /** `UPDATE ... WHERE id IN ids` under the policy. */
  function ScopedReset(setting: Option<string>, t: Table, ids: set<Id>, now: nat): Table
  {
    Reset(t, ids * Visible(setting, t).Keys, now)
  }

  // ---------------------------------------------------------------- the operations

  /** Operations with the answer order the database chose among legal ones. */
  datatype Op =
    | List(status: Option<Status>, limit: nat, offset: nat, sorted: seq<Id>)
    | GetById(id: Id)
    | Retry(id: Id)
    | RetryBatch(status: Option<Status>, before: Option<nat>, limit: nat, batch: seq<Id>)

  datatype Answer =
    | Page(items: seq<Row>, total: nat)
    | Found(row: Row)
    | NotFound
    | Conflict
    | Requeued(ids: seq<Id>)
    | Impossible                       // the database could not have answered in that order

  /** Rows, and the transfers whose jobs were enqueued, in order. */
  datatype Database = Database(rows: Table, jobs: seq<Id>)

  datatype Request = Request(user: User, op: Op, now: nat)

  function Filtered(t: Table, status: Option<Status>): Table
  {
    map id | id in t && (status.Some? ==> t[id].status == status.value) :: t[id]
  }

  /** Newest first over everything that matches. */
  ghost predicate NewestFirst(t: Table, sorted: seq<Id>)
  {
    IsOldest(t, (r: Row) => -(r.createdAt as int), |t|, sorted)
  }

  function Slice(ids: seq<Id>, offset: nat, limit: nat): seq<Id>
  {
    if offset >= |ids| then [] else if offset + limit >= |ids| then ids[offset..] else ids[offset..offset + limit]
  }

  function Pick(t: Table, ids: seq<Id>): seq<Row>
    requires forall i :: 0 <= i < |ids| ==> ids[i] in t
  {
    seq(|ids|, i requires 0 <= i < |ids| => t[ids[i]])
  }

  ghost function Perform(r: Request, db: Database): (Answer, Database)
  {
    var setting := Setting(r.user);
    var seen := Visible(setting, db.rows);
    match r.op
    case List(status, limit, offset, sorted) =>
      var matching := Filtered(seen, status);
      if !NewestFirst(matching, sorted) then (Impossible, db)
      else (Page(Pick(matching, Slice(sorted, offset, limit)), |matching|), db)
    case GetById(id) => if id in seen then (Found(seen[id]), db) else (NotFound, db)
    case Retry(id) =>
      if id !in seen then (NotFound, db)
      else if seen[id].status == Success then (Conflict, db)
      else
        var rows := ScopedReset(setting, db.rows, {id}, r.now);
        (Found(rows[id]), Database(rows, db.jobs + [id]))
    case RetryBatch(status, before, limit, batch) =>
      var wanted := if status.Some? then status.value else Failed;
      if wanted == Success then (Conflict, db)
      else if !IsRetryBatch(seen, wanted, before, limit, batch) then (Impossible, db)
      else (Requeued(batch), Database(ScopedReset(setting, db.rows, ToSet(batch), r.now), db.jobs + batch))
  }

  // ---------------------------------------------------------------- what the operations mean

  /** The row is shown to admins, to users without a tenant, and to users of its tenant. */
  lemma SeesExactly(user: User, t: Table, id: Id)
    ensures id in Visible(Setting(user), t) <==>
            id in t && (user.admin || user.tenant == "" || t[id].input.tenant == user.tenant)
    ensures id in Visible(Setting(user), t) ==> Visible(Setting(user), t)[id] == t[id]
  {
  }

  /** `getById`. */
  lemma GetMeans(user: User, id: Id, now: nat, db: Database)
    ensures var (answer, after) := Perform(Request(user, GetById(id), now), db);
            var shown := id in db.rows && (user.admin || user.tenant == "" || db.rows[id].input.tenant == user.tenant);
            after == db && answer == if shown then Found(db.rows[id]) else NotFound
  {
    SeesExactly(user, db.rows, id);
  }

  /** `retry`: a hidden id is not found and a SUCCESS row a conflict; any other row, alone, is
      PENDING again with no attempts and no error, is the answer, and gets one job. */
  lemma RetryMeans(user: User, id: Id, now: nat, db: Database)
    ensures var (answer, after) := Perform(Request(user, Retry(id), now), db);
            var shown := id in db.rows && (user.admin || user.tenant == "" || db.rows[id].input.tenant == user.tenant);
            if !shown then answer == NotFound && after == db
            else if db.rows[id].status == Success then answer == Conflict && after == db
            else
              var row := db.rows[id].(status := Pending, attempts := 0, errorLog := None, updatedAt := now);
              answer == Found(row) && after == Database(db.rows[id := row], db.jobs + [id])
  {
    SeesExactly(user, db.rows, id);
  }

  /** `list`: of the rows shown that have the status, newest first, those from `offset` on, at
      most `limit`; and their number. */
  lemma ListMeans(user: User, status: Option<Status>, limit: nat, offset: nat, sorted: seq<Id>, now: nat, db: Database)
    ensures var (answer, after) := Perform(Request(user, List(status, limit, offset, sorted), now), db);
            after == db && (answer != Impossible ==>
              && answer.Page?
              && (forall id :: id in sorted <==>
                    && id in db.rows && (status == None || db.rows[id].status == status.value)
                    && (user.admin || user.tenant == "" || db.rows[id].input.tenant == user.tenant))
              && (forall i, j :: 0 <= i < j < |sorted| ==>
                    sorted[i] != sorted[j] && db.rows[sorted[i]].createdAt >= db.rows[sorted[j]].createdAt)
              && answer.total == |sorted|
              && |answer.items| == (if offset >= |sorted| then 0
                                    else if |sorted| - offset < limit then |sorted| - offset else limit)
              && forall i :: 0 <= i < |answer.items| ==> answer.items[i] == db.rows[sorted[offset + i]])
  {
    var matching := Filtered(Visible(Setting(user), db.rows), status);
    if NewestFirst(matching, sorted) {
      DistinctCount(sorted);
      if ToSet(sorted) != matching.Keys { ProperSubset(ToSet(sorted), matching.Keys); }
      assert forall id :: id in sorted <==> id in ToSet(sorted);
      assert |matching| == |matching.Keys|;
    }
  }

  lemma ProperSubset(a: set<Id>, b: set<Id>)
    requires a <= b && a != b
    ensures |a| < |b|
  {
    var k :| k in b && k !in a;
    SubsetCount(a + {k}, b);
  }

  /** `retryBatch`: never SUCCESS rows; by default FAILED ones. */
  lemma BatchMeans(
    user: User, status: Option<Status>, before: Option<nat>, limit: nat, batch: seq<Id>, now: nat, db: Database)
    ensures var (answer, after) := Perform(Request(user, RetryBatch(status, before, limit, batch), now), db);
            if status == Some(Success) then answer == Conflict && after == db
            else answer != Impossible ==>
              && answer == Requeued(batch) && after.jobs == db.jobs + batch && after.rows.Keys == db.rows.Keys
              && Taken(user, if status == None then Failed else status.value, before, limit, db.rows, batch)
              && forall id :: id in db.rows ==>
                   after.rows[id] == if id in batch
                                     then db.rows[id].(status := Pending, attempts := 0, errorLog := None,
                                       updatedAt := now)
                                     else db.rows[id]
  {
    var wanted := if status.Some? then status.value else Failed;
    if wanted != Success && IsRetryBatch(Visible(Setting(user), db.rows), wanted, before, limit, batch) {
      BatchTakes(user, wanted, before, limit, db.rows, batch);
      BatchResets(user, db.rows, batch, now);
    }
  }

  lemma BatchResets(user: User, t: Table, batch: seq<Id>, now: nat)
    requires forall i :: 0 <= i < |batch| ==>
               batch[i] in t && (user.admin || user.tenant == "" || t[batch[i]].input.tenant == user.tenant)
    ensures var after := ScopedReset(Setting(user), t, ToSet(batch), now);
            && after.Keys == t.Keys
            && forall id :: id in t ==>
                 after[id] == if id in batch
                              then t[id].(status := Pending, attempts := 0, errorLog := None, updatedAt := now)
                              else t[id]
  {
    assert ToSet(batch) * Visible(Setting(user), t).Keys == ToSet(batch);
  }

  /** The rows that a batch takes: shown to the user, with the wanted status, not written since
      `before`, oldest first; all such rows if there are fewer than `limit`. */
  ghost predicate Taken(user: User, wanted: Status, before: Option<nat>, limit: nat, t: Table, batch: seq<Id>)
  {
    && |batch| <= limit
    && (forall i, j :: 0 <= i < j < |batch| ==> batch[i] != batch[j])
    && (forall i :: 0 <= i < |batch| ==>
          && batch[i] in t && t[batch[i]].status == wanted
          && (user.admin || user.tenant == "" || t[batch[i]].input.tenant == user.tenant)
          && (before.Some? ==> t[batch[i]].updatedAt < before.value))
    && (forall i, j :: 0 <= i < j < |batch| ==> t[batch[i]].createdAt <= t[batch[j]].createdAt)
    && (forall id :: id in t && id !in batch && t[id].status == wanted ==>
          (before.Some? ==> t[id].updatedAt < before.value) ==>
          (user.admin || user.tenant == "" || t[id].input.tenant == user.tenant) ==>
            |batch| == limit && forall i :: 0 <= i < |batch| ==> t[batch[i]].createdAt <= t[id].createdAt)
  }

  lemma BatchTakes(user: User, wanted: Status, before: Option<nat>, limit: nat, t: Table, batch: seq<Id>)
    requires IsRetryBatch(Visible(Setting(user), t), wanted, before, limit, batch)
    ensures Taken(user, wanted, before, limit, t, batch)
  {
    var seen := Visible(Setting(user), t);
    var m := map id | id in seen && Retriable(seen[id], wanted, before) :: seen[id];
    assert IsOldest(m, (r: Row) => r.createdAt, limit, batch);
    forall i | 0 <= i < |batch|
      ensures batch[i] in t && t[batch[i]] == m[batch[i]] && Retriable(t[batch[i]], wanted, before) && batch[i] in seen
    {
      assert batch[i] in m;
    }
    forall id | id in m && id !in batch
      ensures |batch| == limit && forall i :: 0 <= i < |batch| ==> t[batch[i]].createdAt <= t[id].createdAt
    {
      if |batch| < limit { OldestIsAll(m, (r: Row) => r.createdAt, limit, batch, id); }
      assert forall i :: 0 <= i < |batch| ==> m[batch[i]].createdAt <= m[id].createdAt;
    }
  }

  // ---------------------------------------------------------------- one operation

  /** The rows of one tenant. */
  function Own(t: Table, tenant: string): Table
  {
    map id | id in t && t[id].input.tenant == tenant :: t[id]
  }

  predicate Confined(user: User)
  {
    !user.admin && user.tenant != ""
  }

  lemma VisibleIsOwn(user: User, t: Table)
    requires Confined(user)
    ensures Visible(Setting(user), t) == Own(t, user.tenant)
  {
  }

  /** A non-admin with an empty tenant is not confined: the policy shows every row. */
  lemma EmptyTenantSeesEverything(user: User, t: Table)
    requires user.tenant == ""
    ensures Visible(Setting(user), t) == t
  {
    assert forall id :: id in t ==> Policy(Setting(user), t[id]);
  }

  /** A reset under the policy: own rows as if there were no others, other rows untouched. */
  lemma ResetIsConfined(user: User, t: Table, ids: set<Id>, now: nat)
    requires Confined(user)
    ensures var t' := ScopedReset(Setting(user), t, ids, now);
            && t'.Keys == t.Keys
            && Own(t', user.tenant) == Reset(Own(t, user.tenant), ids, now)
            && forall tenant :: tenant != user.tenant ==> Own(t', tenant) == Own(t, tenant)
  {
    VisibleIsOwn(user, t);
    var t' := ScopedReset(Setting(user), t, ids, now);
    assert forall id :: id in t ==> t'[id].input == t[id].input;
    forall tenant | tenant != user.tenant ensures Own(t', tenant) == Own(t, tenant) {
      assert forall id :: id in t && t[id].input.tenant == tenant ==> id !in Visible(Setting(user), t);
    }
  }

  /** The enqueued ids. */
  function NewJobs(before: Database, after: Database): seq<Id>
    requires |before.jobs| <= |after.jobs|
  {
    after.jobs[|before.jobs|..]
  }

  /** What a confined operation answers and writes is a function of the tenant's rows. */
  lemma SeesOnlyOwn(r: Request, db: Database, db2: Database)
    requires Confined(r.user) && Own(db.rows, r.user.tenant) == Own(db2.rows, r.user.tenant)
    ensures Perform(r, db).0 == Perform(r, db2).0
    ensures Own(Perform(r, db).1.rows, r.user.tenant) == Own(Perform(r, db2).1.rows, r.user.tenant)
  {
    VisibleIsOwn(r.user, db.rows);
    VisibleIsOwn(r.user, db2.rows);
    match r.op
    case Retry(id) =>
      ResetIsConfined(r.user, db.rows, {id}, r.now);
      ResetIsConfined(r.user, db2.rows, {id}, r.now);
      var own := Own(db.rows, r.user.tenant);
      if id in own {
        OwnRow(ScopedReset(Setting(r.user), db.rows, {id}, r.now), r.user.tenant, id, own[id].input);
        OwnRow(ScopedReset(Setting(r.user), db2.rows, {id}, r.now), r.user.tenant, id, own[id].input);
      }
    case RetryBatch(_, _, _, batch) =>
      ResetIsConfined(r.user, db.rows, ToSet(batch), r.now);
      ResetIsConfined(r.user, db2.rows, ToSet(batch), r.now);
    case _ =>
  }

  lemma OwnRow(t: Table, tenant: string, id: Id, input: Input)
    requires id in t && t[id].input == input && input.tenant == tenant
    ensures id in Own(t, tenant) && Own(t, tenant)[id] == t[id]
  {
  }

  /** A confined operation changes no other tenant's rows. */
  lemma TouchesOnlyOwn(r: Request, db: Database, tenant: string)
    requires Confined(r.user) && tenant != r.user.tenant
    ensures Own(Perform(r, db).1.rows, tenant) == Own(db.rows, tenant)
  {
    match r.op
    case Retry(id) => ResetIsConfined(r.user, db.rows, {id}, r.now);
    case RetryBatch(_, _, _, batch) => ResetIsConfined(r.user, db.rows, ToSet(batch), r.now);
    case _ =>
  }

  /** It enqueues only the tenant's own transfers, after what was there. */
  lemma EnqueuesOnlyOwn(r: Request, db: Database)
    requires Confined(r.user)
    ensures var db' := Perform(r, db).1;
            && |db.jobs| <= |db'.jobs| && db'.jobs[..|db.jobs|] == db.jobs
            && forall id :: id in NewJobs(db, db') ==> id in Own(db.rows, r.user.tenant)
  {
    VisibleIsOwn(r.user, db.rows);
  }

  /** Two-run noninterference of one operation: databases that agree on the tenant's rows
      give the same answer, the same enqueued jobs and the same tenant rows afterwards. */
  lemma Noninterference(r: Request, db: Database, db2: Database)
    requires Confined(r.user) && Own(db.rows, r.user.tenant) == Own(db2.rows, r.user.tenant)
    ensures var (answer, after), (answer2, after2) := Perform(r, db), Perform(r, db2);
            && answer == answer2
            && Own(after.rows, r.user.tenant) == Own(after2.rows, r.user.tenant)
            && |db.jobs| <= |after.jobs| && |db2.jobs| <= |after2.jobs|
            && NewJobs(db, after) == NewJobs(db2, after2)
            && (forall id :: id in NewJobs(db, after) ==> id in Own(db.rows, r.user.tenant))
  {
    SeesOnlyOwn(r, db, db2);
    EnqueuesOnlyOwn(r, db);
    EnqueuesOnlyOwn(r, db2);
    VisibleIsOwn(r.user, db.rows);
    VisibleIsOwn(r.user, db2.rows);
  }

  // ---------------------------------------------------------------- whole sessions

  ghost function Execute(db: Database, requests: seq<Request>): Database
    decreases requests
  {
    if requests == [] then db else Execute(Perform(requests[0], db).1, requests[1..])
  }

  /** The answers that users of one tenant receive. */
  ghost function AnswersTo(tenant: string, db: Database, requests: seq<Request>): seq<Answer>
    decreases requests
  {
    if requests == [] then []
    else
      var (answer, next) := Perform(requests[0], db);
      (if requests[0].user.tenant == tenant then [answer] else []) + AnswersTo(tenant, next, requests[1..])
  }

  function OnlyBy(tenant: string, requests: seq<Request>): seq<Request>
  {
    if requests == [] then []
    else (if requests[0].user.tenant == tenant then [requests[0]] else []) + OnlyBy(tenant, requests[1..])
  }

  /** Noninterference over whole sessions: whatever confined users of other tenants do, in
      any interleaving, a tenant receives exactly the answers it would receive alone, even
      on a database without the other tenants' rows. */
  lemma {:induction false} SessionsDoNotInterfere(tenant: string, db: Database, db2: Database, requests: seq<Request>)
    requires forall i :: 0 <= i < |requests| ==> Confined(requests[i].user)
    requires Own(db.rows, tenant) == Own(db2.rows, tenant)
    ensures AnswersTo(tenant, db, requests) == AnswersTo(tenant, db2, OnlyBy(tenant, requests))
    ensures Own(Execute(db, requests).rows, tenant) == Own(Execute(db2, OnlyBy(tenant, requests)).rows, tenant)
    decreases requests
  {
    if requests != [] {
      var r, rest := requests[0], requests[1..];
      var next := Perform(r, db).1;
      if r.user.tenant == tenant {
        SeesOnlyOwn(r, db, db2);
        SessionsDoNotInterfere(tenant, next, Perform(r, db2).1, rest);
        assert OnlyBy(tenant, requests) == [r] + OnlyBy(tenant, rest);
        assert ([r] + OnlyBy(tenant, rest))[1..] == OnlyBy(tenant, rest);
      } else {
        TouchesOnlyOwn(r, db, tenant);
        SessionsDoNotInterfere(tenant, next, db2, rest);
        assert OnlyBy(tenant, requests) == OnlyBy(tenant, rest);
        assert [] + AnswersTo(tenant, next, rest) == AnswersTo(tenant, next, rest);
      }
    }
  }
}
