/** The `file_transfers` table: its rows and the writes of the repository.

    Every write is an unconditional `UPDATE ... WHERE id = ?`: it does nothing when the
    row is gone and it never looks at the status it overwrites. Time is an abstract
    stamp; each write stamps `updatedAt`. */
module Transfers {
  import opened Common

  type Id = nat

  datatype Status = Pending | Processing | Success | Failed

  predicate Terminal(status: Status)
  {
    status == Success || status == Failed
  }

  /** The columns fixed when the webhook is accepted. */
  datatype Input = Input(
    key: string, tenant: string, filename: string, virtualPath: string,
    sourcePath: string, bucket: string, username: string)

  datatype Row = Row(
    input: Input, status: Status, attempts: nat, errorLog: Option<string>,
    bucket: string, objectKey: Option<string>, etag: Option<string>, sha256: Option<string>,
    encrypted: bool, wrappedDek: Option<Bytes>,
    createdAt: nat, updatedAt: nat)

  type Table = map<Id, Row>

  /** What one upload hands to `markSuccess`, plus the bytes its checksum pass read. */
  datatype Upload = Upload(
    bucket: string, key: string, etag: Option<string>, sha256: string,
    wrappedDek: Option<Bytes>, read: Bytes)

  function NewRow(input: Input, now: nat): Row
  {
    Row(input, Pending, 0, None, input.bucket, None, None, None, false, None, now, now)
  }

  function AsProcessing(row: Row, now: nat): Row
  {
    row.(status := Processing, attempts := row.attempts + 1, errorLog := None, updatedAt := now)
  }

  function AsSuccess(row: Row, up: Upload, now: nat): Row
  {
    row.(status := Success, bucket := up.bucket, objectKey := Some(up.key), etag := up.etag,
         sha256 := Some(up.sha256), encrypted := up.wrappedDek.Some?, wrappedDek := up.wrappedDek,
         errorLog := None, updatedAt := now)
  }

  function AsFailed(row: Row, reason: string, now: nat): Row
  {
    row.(status := Failed, errorLog := Some(reason), updatedAt := now)
  }

  /** The reset of `retry` and `retryBatch`. */
  function AsReset(row: Row, now: nat): Row
  {
    row.(status := Pending, attempts := 0, errorLog := None, updatedAt := now)
  }

  function MarkProcessing(t: Table, id: Id, now: nat): Table
  {
    if id in t then t[id := AsProcessing(t[id], now)] else t
  }

  function MarkSuccess(t: Table, id: Id, up: Upload, now: nat): Table
  {
    if id in t then t[id := AsSuccess(t[id], up, now)] else t
  }

  function MarkFailed(t: Table, id: Id, reason: string, now: nat): Table
  {
    if id in t then t[id := AsFailed(t[id], reason, now)] else t
  }

  /** Reset every row of `ids` that still exists. */
  function Reset(t: Table, ids: set<Id>, now: nat): Table
  {
    map id | id in t :: if id in ids then AsReset(t[id], now) else t[id]
  }

  predicate Purgeable(row: Row, cutoff: nat)
  {
    Terminal(row.status) && row.updatedAt < cutoff
  }

  /** `deleteTerminalOlderThan`. */
  function Purge(t: Table, cutoff: nat): Table
  {
    map id | id in t && !Purgeable(t[id], cutoff) :: t[id]
  }

  predicate HasKey(t: Table, key: string)
  {
    exists id :: id in t && t[id].input.key == key
  }

  // ---------------------------------------------------------------- queries

  predicate Stuck(row: Row, staleBefore: nat)
  {
    !Terminal(row.status) && row.updatedAt < staleBefore
  }

  /** A legal answer of `findStuck`: oldest `updatedAt` first, at most `limit`. */
  ghost predicate IsStuckBatch(t: Table, staleBefore: nat, limit: nat, ids: seq<Id>)
  {
    IsOldest(map id | id in t && Stuck(t[id], staleBefore) :: t[id], (r: Row) => r.updatedAt, limit, ids)
  }

  predicate Retriable(row: Row, status: Status, before: Option<nat>)
  {
    row.status == status && (before.Some? ==> row.updatedAt < before.value)
  }

  /** A legal answer of the `retryBatch` query: oldest `createdAt` first. */
  ghost predicate IsRetryBatch(t: Table, status: Status, before: Option<nat>, limit: nat, ids: seq<Id>)
  {
    IsOldest(map id | id in t && Retriable(t[id], status, before) :: t[id], (r: Row) => r.createdAt, limit, ids)
  }
}
