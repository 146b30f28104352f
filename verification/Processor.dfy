/** The queue worker: `runTransfer` and the `failed` handler, one attempt at a time. */
module Processors {
  import opened Common
  import opened Transfers
  import opened Protocol
  import opened Backends
  import Envelope
  import Pipeline
  import Quota

  /** Calls of an attempt, and of the `failed` handler, that may fail. */
  datatype Point =
    | AtFind | AtClaim | AtRead | AtUpload | AtMark | AtMeter | AtPublish | AtReject | AtDeadLetter
    | AtFinalMark | AtFinalLetter

  /** What one attempt meets: the file, the scanner, the store's ETag, random bytes, and the
      calls that fail if they are reached. */
  datatype Environment = Environment(
    stat: Option<nat>, scan: Pipeline.Scan, mime: string,
    read: Bytes, chunks: seq<Bytes>, etag: Option<string>, keys: Option<KeyMaterial>, faults: set<Point>)

  /** The stores at one moment. */
  datatype Snapshot = Snapshot(
    rows: Table, objects: map<Location, Bytes>, usage: map<string, Quota.Usage>, deadLetters: multiset<Id>,
      queue: multiset<Job>)

  datatype Outcome = Dropped | Completed | Rejected | Retrying | Exhausted

  /** How far an attempt gets before it ends or throws. */
  datatype Reach =
    | Unread      // the row is not claimed
    | Started     // the row is PROCESSING
    | InStore     // the object is written
    | OnRow       // the row is SUCCESS
    | InUsage     // the file is metered
    | Whole       // transfer.completed is published
    | Refused     // the row is FAILED for good
    | Buried      // and its dead letter is sent

  // ---------------------------------------------------------------- what an attempt does

  /** The file is refused for good. */
  predicate Rejectable(cfg: Config, usage: map<string, Quota.Usage>, input: Input, env: Environment)
  {
    || env.stat == None || env.stat.value == 0 || (cfg.maxFile > 0 && env.stat.value > cfg.maxFile)
    || !Quota.Within(Quota.GetQuota(cfg.quotas, input.tenant), Quota.UsageOf(usage, input.tenant), env.stat.value)
    || env.scan.Infected?
  }

  /** The file would take the tenant over a limit. */
  predicate OverQuota(q: Quota.Quotas, usage: map<string, Quota.Usage>, tenant: string, size: nat)
  {
    !Quota.Within(Quota.GetQuota(q, tenant), Quota.UsageOf(usage, tenant), size)
  }

  function Refusal(cfg: Config, usage: map<string, Quota.Usage>, input: Input, env: Environment): string
  {
    if env.stat == None then "Source unreadable"
    else Pipeline.Objection(ContextOf(cfg, usage, input, env.stat.value, env.scan, env.mime))
  }

  function UploadFor(cfg: Config, input: Input, env: Environment): Transfers.Upload
  {
    UploadOf(cfg, input, env.read, Concat(env.chunks), env.etag, env.keys)
  }

  /** How far a checked file gets. */
  function DeliveryReach(cfg: Config, input: Input, env: Environment): Reach
  {
    if AtRead in env.faults || AtUpload in env.faults then Started
    else if !IntegrityOk(cfg, UploadFor(cfg, input, env)) || AtMark in env.faults then InStore
    else if AtMeter in env.faults then OnRow
    else if AtPublish in env.faults then InUsage
    else Whole
  }

  /** How far an attempt with a claimed row gets. */
  function AttemptReach(cfg: Config, usage: map<string, Quota.Usage>, input: Input, env: Environment): Reach
  {
    if Rejectable(cfg, usage, input, env) then
      if AtReject in env.faults then Started else if AtDeadLetter in env.faults then Refused else Buried
    else if env.scan == Pipeline.Unreachable then Started
    else DeliveryReach(cfg, input, env)
  }

  /** How far a delivered job gets; None when it is dropped. */
  function JobReach(cfg: Config, rows: Table, usage: map<string, Quota.Usage>, id: Id, env: Environment): Option<Reach>
  {
    if AtFind in env.faults then Some(Unread)
    else if id !in rows || rows[id].status == Success then None
    else if AtClaim in env.faults then Some(Unread)
    else Some(AttemptReach(cfg, usage, rows[id].input, env))
  }

  /** The outcome of a thrown attempt. */
  function Failing(cfg: Config, job: Job): Outcome
  {
    if job.made + 1 < cfg.attempts then Retrying else Exhausted
  }

  function OutcomeOf(cfg: Config, job: Job, reach: Option<Reach>): Outcome
  {
    match reach
    case None => Dropped
    case Some(Whole) => Outcome.Completed
    case Some(Buried) => Outcome.Rejected
    case _ => Failing(cfg, job)
  }

  predicate Uploads(reach: Reach)
  {
    reach.InStore? || reach.OnRow? || reach.InUsage? || reach.Whole?
  }

  predicate Succeeds(reach: Reach)
  {
    reach.OnRow? || reach.InUsage? || reach.Whole?
  }

  predicate Meters(reach: Reach)
  {
    reach.InUsage? || reach.Whole?
  }

  function ObjectsAfter(cfg: Config, input: Input, env: Environment, reach: Reach, objects: map<Location, Bytes>)
    : map<Location, Bytes>
  {
    var up := UploadFor(cfg, input, env);
    if Uploads(reach) then objects[(up.bucket, up.key) := Sealed(cfg, Concat(env.chunks), env.keys).0] else objects
  }

  function UsageAfter(input: Input, env: Environment, reach: Reach, usage: map<string, Quota.Usage>)
    : map<string, Quota.Usage>
  {
    if Meters(reach) && env.stat.Some? then Quota.Record(usage, input.tenant, env.stat.value) else usage
  }

  /** The rows after an attempt on a claimed row that got this far. */
  function RowsAfter(up: Transfers.Upload, reason: string, reach: Reach, rows: Table, id: Id): Table
  {
    if Succeeds(reach) then MarkSuccess(rows, id, up, 0)
    else if reach.Refused? || reach.Buried? then MarkFailed(rows, id, reason, 0)
    else rows
  }

  function Letters(sent: bool, id: Id): multiset<Id>
  {
    if sent then multiset{id} else multiset{}
  }

  /** The stores after the claim, if the attempt got that far. */
  function AfterClaim(id: Id, reach: Reach, s: Snapshot): Snapshot
  {
    if reach.Unread? then s else s.(rows := MarkProcessing(s.rows, id, 0))
  }

  /** After the try block and its catch. */
  function AfterAttempt(cfg: Config, id: Id, env: Environment, reach: Reach, s: Snapshot): Snapshot
  {
    if id !in s.rows then s
    else
      var input := s.rows[id].input;
      Snapshot(RowsAfter(UploadFor(cfg, input, env), Refusal(cfg, s.usage, input, env), reach, s.rows, id),
               ObjectsAfter(cfg, input, env, reach, s.objects), UsageAfter(input, env, reach, s.usage),
               s.deadLetters + Letters(reach.Buried?, id), s.queue)
  }

  /** After the queue and the `failed` handler have reacted to the outcome. */
  function AfterReaction(job: Job, outcome: Outcome, faults: set<Point>, s: Snapshot): Snapshot
  {
    var marks := outcome.Exhausted? && AtFinalMark !in faults;
    Snapshot(if marks then MarkFailed(s.rows, job.id, EXHAUSTED, 0) else s.rows, s.objects, s.usage,
             s.deadLetters + Letters(marks && AtFinalLetter !in faults, job.id),
             if outcome.Retrying? then s.queue + multiset{Job(job.id, job.made + 1)} else s.queue)
  }

  /** What a delivered job leaves behind in every store. */
  function AfterJob(cfg: Config, job: Job, env: Environment, s: Snapshot): Snapshot
  {
    var taken := s.(queue := s.queue - multiset{job});
    match JobReach(cfg, s.rows, s.usage, job.id, env)
    case None => taken
    case Some(reach) =>
      AfterReaction(job, OutcomeOf(cfg, job, Some(reach)), env.faults,
                    AfterAttempt(cfg, job.id, env, reach, AfterClaim(job.id, reach, taken)))
  }

  /** The same but for the stamp of one row. */
  ghost predicate Alike(a: Table, b: Table, id: Id)
  {
    && a.Keys == b.Keys && (forall other :: other in a && other != id ==> a[other] == b[other])
    && (id in a ==> a[id] == b[id].(updatedAt := a[id].updatedAt))
  }

  ghost predicate Agree(a: Snapshot, b: Snapshot, id: Id)
  {
    && Alike(a.rows, b.rows, id) && a.objects == b.objects && a.usage == b.usage
    && a.deadLetters == b.deadLetters && a.queue == b.queue
  }

  /** The length declared to the store is the length of the object if and only if the upload
      read as many bytes as `stat` had counted. */
  lemma DeclaredLength(cfg: Config, size: nat, body: Bytes, keys: Option<KeyMaterial>)
    requires cfg.gcm.Valid() && KeysFit(cfg, keys)
    ensures var declared := if keys.Some? then size + Envelope.OVERHEAD else size;
            declared == |Sealed(cfg, body, keys).0| <==> |body| == size
  {
    if keys.Some? { cfg.gcm.SealRoundTrip(keys.value.dek, keys.value.iv, body); }
  }

  // Stamps make no difference.

  lemma FailuresAgree(rows: Table, id: Id, reason: string, now: nat)
    ensures Alike(rows, rows, id) && Alike(MarkFailed(rows, id, reason, now), MarkFailed(rows, id, reason, 0), id)
  {
  }

  lemma SuccessesAgree(rows: Table, id: Id, up: Transfers.Upload, now: nat)
    ensures Alike(rows, rows, id) && Alike(MarkSuccess(rows, id, up, now), MarkSuccess(rows, id, up, 0), id)
  {
  }

  /** A delivery is an attempt that rejects nothing. */
  lemma DeliveriesAgree(cfg: Config, id: Id, env: Environment, reach: Reach, before: Snapshot, after: Snapshot)
    requires id in before.rows && !reach.Refused? && !reach.Buried?
    requires var input := before.rows[id].input;
             && (Succeeds(reach) || after.rows == before.rows)
             && (Succeeds(reach) ==> Alike(after.rows, MarkSuccess(before.rows, id, UploadFor(cfg, input, env), 0), id))
             && after.objects == ObjectsAfter(cfg, input, env, reach, before.objects)
             && after.usage == UsageAfter(input, env, reach, before.usage)
             && after.deadLetters == before.deadLetters && after.queue == before.queue
    ensures Agree(after, AfterAttempt(cfg, id, env, reach, before), id)
  {
  }

  lemma RejectionsAgree(cfg: Config, id: Id, env: Environment, reach: Reach, now: nat, before: Snapshot,
    after: Snapshot)
    requires id in before.rows && (reach.Started? || reach.Refused? || reach.Buried?)
    requires var reason := Refusal(cfg, before.usage, before.rows[id].input, env);
             && after.rows == (if reach.Started? then before.rows else MarkFailed(before.rows, id, reason, now))
             && after.objects == before.objects && after.usage == before.usage && after.queue == before.queue
             && after.deadLetters == before.deadLetters + Letters(reach.Buried?, id)
    ensures Agree(after, AfterAttempt(cfg, id, env, reach, before), id)
  {
    FailuresAgree(before.rows, id, Refusal(cfg, before.usage, before.rows[id].input, env), now);
  }

  lemma FailedReaction(job: Job, outcome: Outcome, faults: set<Point>, now: nat, before: Snapshot, after: Snapshot)
    requires after.objects == before.objects && after.usage == before.usage
    requires outcome.Retrying? ==> after.rows == before.rows && after.deadLetters == before.deadLetters
                                   && after.queue == before.queue + multiset{Job(job.id, job.made + 1)}
    requires outcome.Exhausted? ==>
               && after.queue == before.queue
               && after.rows == (if AtFinalMark in faults then before.rows
                  else MarkFailed(before.rows, job.id, EXHAUSTED, now))
               && after.deadLetters == before.deadLetters
                                       + Letters(AtFinalMark !in faults && AtFinalLetter !in faults, job.id)
    requires outcome.Retrying? || outcome.Exhausted?
    ensures Agree(after, AfterReaction(job, outcome, faults, before), job.id)
  {
    FailuresAgree(before.rows, job.id, EXHAUSTED, now);
  }

  lemma ClaimsAgree(id: Id, reach: Reach, s: Snapshot, now: nat)
    requires !reach.Unread?
    ensures Agree(s.(rows := MarkProcessing(s.rows, id, now)), AfterClaim(id, reach, s), id)
  {
  }

  lemma ClaimThenAgree(
    cfg: Config, id: Id, env: Environment, reach: Reach, before: Snapshot, now: nat, claimed: Snapshot, after: Snapshot)
    requires !reach.Unread? && claimed == before.(rows := MarkProcessing(before.rows, id, now))
    requires id in before.rows && Agree(after, AfterAttempt(cfg, id, env, reach, claimed), id)
    ensures Agree(after, AfterAttempt(cfg, id, env, reach, AfterClaim(id, reach, before)), id)
    ensures Attempted(id, env, reach, before.rows[id].attempts + 1, before, after)
  {
    AttemptMeans(cfg, id, env, reach, claimed, after);
    ClaimsAgree(id, reach, before, now);
    AttemptsAgree(cfg, id, env, reach, claimed, AfterClaim(id, reach, before));
    AgreeThrough(after, AfterAttempt(cfg, id, env, reach, claimed),
                 AfterAttempt(cfg, id, env, reach, AfterClaim(id, reach, before)), id);
  }

  lemma AttemptsAgree(cfg: Config, id: Id, env: Environment, reach: Reach, a: Snapshot, b: Snapshot)
    requires Agree(a, b, id)
    ensures Agree(AfterAttempt(cfg, id, env, reach, a), AfterAttempt(cfg, id, env, reach, b), id)
  {
  }

  lemma ReactionsAgree(job: Job, outcome: Outcome, faults: set<Point>, a: Snapshot, b: Snapshot)
    requires Agree(a, b, job.id)
    ensures Agree(AfterReaction(job, outcome, faults, a), AfterReaction(job, outcome, faults, b), job.id)
  {
  }

  lemma AgreeThrough(a: Snapshot, b: Snapshot, c: Snapshot, id: Id)
    requires Agree(a, b, id) && Agree(b, c, id)
    ensures Agree(a, c, id)
  {
  }

  // ---------------------------------------------------------------- the worker

  class IngestionProcessor {
    const db: Backend

    constructor (db: Backend)
      ensures this.db == db
    {
      this.db := db;
    }

    ghost function Stores(): Snapshot
      reads db
    {
      Snapshot.Snapshot(db.rows, db.objects, db.usage, db.deadLetters, db.queue)
    }

    // ---- the calls of runTransfer, in order

    method Receive(job: Job) returns (ghost p: nat)
      requires db.Valid() && job in db.queue
      modifies db
      ensures db.At(p, Worker(job, Taken)) && db.queue == old(db.queue) - multiset{job}
      ensures db.machine.log.lost == old(db.machine.log.lost)
      ensures unchanged(db`rows, db`objects, db`usage, db`deadLetters)
    {
      p := |db.machine.procs|;
      db.Call(Take(job), Some(p), Worker(job, Taken), KeepRows, TakeJob(job), Quiet);
    }

    method FindById(ghost p: nat, job: Job) returns (input: Option<Input>)
      requires db.At(p, Worker(job, Taken))
      modifies db
      ensures input == if job.id in db.rows && db.rows[job.id].status != Success then Some(db.rows[job.id].input)
              else None
      ensures db.At(p, if input == None then Ended else Worker(job, Loaded(input.value)))
      ensures db.machine.log.lost == old(db.machine.log.lost)
      ensures unchanged(db`rows, db`objects, db`usage, db`deadLetters, db`queue)
    {
      if job.id in db.rows && db.rows[job.id].status != Success {
        input := Some(db.rows[job.id].input);
      } else {
        input := None;
      }
      db.Call(Work(p, Load), Some(p), if input == None then Ended else Worker(job, Loaded(input.value)), KeepRows,
        KeepJobs, Quiet);
    }

    method Claim(ghost p: nat, job: Job, input: Input)
      requires db.At(p, Worker(job, Loaded(input)))
      modifies db
      ensures db.At(p, Worker(job, Claimed(input))) && db.rows == MarkProcessing(old(db.rows), job.id, old(db.clock))
      ensures db.machine.log.lost == old(db.machine.log.lost)
      ensures unchanged(db`objects, db`usage, db`deadLetters, db`queue)
      ensures job.id in old(db.rows) ==>
                && job.id in db.rows
                && db.rows[job.id] == old(db.rows)[job.id].(status := Processing, updatedAt := old(db.clock),
                                        attempts := old(db.rows)[job.id].attempts + 1, errorLog := None)
    {
      db.Call(Work(p, Protocol.Claim), Some(p), Worker(job, Claimed(input)), ToProcessing(job.id), KeepJobs, Quiet);
    }

    /** `stat` and the pipeline over it. */
    method Examine(input: Input, env: Environment) returns (r: Result<nat, Pipeline.Failure>)
      ensures match r
              case Ok(size) => env.stat == Some(size) && !Rejectable(db.cfg, db.usage, input, env)
                && env.scan != Pipeline.Unreachable
              case Err(Permanent(reason)) => Rejectable(db.cfg, db.usage, input, env)
                && reason == Refusal(db.cfg, db.usage, input, env)
              case Err(Transient(_)) => !Rejectable(db.cfg, db.usage, input, env) && env.scan == Pipeline.Unreachable
      ensures env.stat.Some? ==>
                var ctx := ContextOf(db.cfg, db.usage, input, env.stat.value, env.scan, env.mime);
                r == match Pipeline.RunStages(Pipeline.STAGES, ctx)
                     case Ok(_) => Ok(env.stat.value)
                     case Err(e) => Err(e)
      ensures r.Err? && r.error.Permanent? <==>
                || env.stat == None || env.stat.value == 0 || (db.cfg.maxFile > 0 && env.stat.value > db.cfg.maxFile)
                || OverQuota(db.cfg.quotas, db.usage, input.tenant, env.stat.value) || env.scan.Infected?
    {
      if env.stat == None { return Err(Pipeline.Permanent("Source unreadable")); }
      var ctx := ContextOf(db.cfg, db.usage, input, env.stat.value, env.scan, env.mime);
      Pipeline.Admission(ctx);
      var outcome := Pipeline.Run(Pipeline.STAGES, ctx);
      r := if outcome.Ok? then Ok(env.stat.value) else Err(outcome.error);
    }

    method CheckFile(ghost p: nat, job: Job, input: Input, env: Environment) returns (r: Result<nat, Pipeline.Failure>)
      requires db.At(p, Worker(job, Claimed(input)))
      modifies db
      ensures match r
              case Ok(size) =>
                && env.stat == Some(size) && !Rejectable(db.cfg, old(db.usage), input, env)
                && env.scan != Pipeline.Unreachable
                && db.At(p, Worker(job, Checked(input, size)))
              case Err(Permanent(reason)) =>
                && Rejectable(db.cfg, old(db.usage), input, env) && reason == Refusal(db.cfg, old(db.usage), input, env)
                && db.At(p, Worker(job, Protocol.Rejected(reason)))
              case Err(Transient(_)) =>
                && !Rejectable(db.cfg, old(db.usage), input, env) && env.scan == Pipeline.Unreachable
                && db.At(p, Worker(job, Claimed(input)))
      // each limit is the tenant's own or else the default, and 0 is no limit
      ensures env.stat.Some? && env.stat.value > 0 && (db.cfg.maxFile == 0 || env.stat.value <= db.cfg.maxFile)
              && (env.scan.Clean? || env.scan.Disabled?) ==>
                var q, t := db.cfg.quotas, input.tenant;
                var own := t in q.tenants;
                var maxBytes := if own && q.tenants[t].maxBytes.Some? then q.tenants[t].maxBytes.value
                  else q.defaultMaxBytes;
                var maxObjects :=
                  if own && q.tenants[t].maxObjects.Some? then q.tenants[t].maxObjects.value else q.defaultMaxObjects;
                var bytes := if t in old(db.usage) then old(db.usage)[t].bytes else 0;
                var objects := if t in old(db.usage) then old(db.usage)[t].objects else 0;
                (r.Err? <==>
                   (maxBytes > 0 && bytes + env.stat.value > maxBytes) || (maxObjects > 0 && objects + 1 > maxObjects))
      ensures db.machine.log.lost == old(db.machine.log.lost)
      ensures unchanged(db`rows, db`objects, db`usage, db`deadLetters, db`queue)
    {
      r := Examine(input, env);
      if r.Err? && r.error.Transient? { return; }
      ghost var next := if r.Ok? then Checked(input, r.value) else Protocol.Rejected(r.error.reason);
      db.Call(Work(p, Check(env.stat, env.scan, env.mime)), Some(p), Worker(job, next), KeepRows, KeepJobs, Quiet);
    }

    /** Read the file again, encrypting on the way if enabled, and store it. */
    method Upload(ghost p: nat, job: Job, input: Input, size: nat, env: Environment)
      returns (up: Transfers.Upload, contentLength: nat)
      requires db.At(p, Worker(job, Checked(input, size))) && KeysFit(db.cfg, env.keys)
      modifies db
      ensures up == UploadOf(db.cfg, input, env.read, Concat(env.chunks), env.etag, env.keys)
      ensures db.At(p, Worker(job, Uploaded(input, size, up)))
      ensures db.objects == old(db.objects)[(up.bucket, up.key) := Sealed(db.cfg, Concat(env.chunks), env.keys).0]
      ensures var log := db.machine.log;
              && job.id in log.bodies && log.bodies[job.id] == Concat(env.chunks)
              && (up.bucket, up.key) in log.uploader && log.uploader[(up.bucket, up.key)] == job.id
      ensures db.cfg.gcm.Valid() ==>
                (contentLength == |db.objects[(up.bucket, up.key)]| <==> |Concat(env.chunks)| == size)
      ensures db.machine.log.lost == old(db.machine.log.lost)
      ensures unchanged(db`rows, db`usage, db`deadLetters, db`queue)
    {
      var bytes;
      bytes, contentLength := Body(size, env);
      if db.cfg.gcm.Valid() { DeclaredLength(db.cfg, size, Concat(env.chunks), env.keys); }
      up := UploadFor(db.cfg, input, env);
      db.CallNoted(Work(p, Store(env.read, Concat(env.chunks), env.etag, env.keys)), Some(p),
              Worker(job, Uploaded(input, size, up)), KeepRows, KeepJobs,
              Stored(job.id, (up.bucket, up.key), bytes, Concat(env.chunks)));
    }

    /** The bytes to store, piped through the encrypt stream if there are keys, and the length
        to declare. */
    method Body(size: nat, env: Environment) returns (bytes: Bytes, contentLength: nat)
      ensures bytes == Sealed(db.cfg, Concat(env.chunks), env.keys).0
      ensures contentLength == if env.keys.Some? then size + Envelope.OVERHEAD else size
    {
      bytes, contentLength := Concat(env.chunks), size;
      if env.keys.Some? {
        contentLength := size + Envelope.OVERHEAD;
        bytes := Envelope.EncryptChunks(db.cfg.gcm, env.keys.value.dek, env.keys.value.iv, env.chunks);
      }
    }

    method MarkSucceeded(ghost p: nat, job: Job, input: Input, size: nat, up: Transfers.Upload)
      requires db.At(p, Worker(job, Uploaded(input, size, up))) && IntegrityOk(db.cfg, up)
      modifies db
      ensures db.At(p, Worker(job, Succeeded(input, size)))
              && db.rows == MarkSuccess(old(db.rows), job.id, up, old(db.clock))
      ensures job.id in db.machine.log.sources && db.machine.log.sources[job.id] == up.read
      ensures db.machine.log.marked == old(db.machine.log.marked) + multiset{job.id}
      ensures db.machine.log.lost == old(db.machine.log.lost)
      ensures unchanged(db`objects, db`usage, db`deadLetters, db`queue)
      ensures job.id in old(db.rows) ==>
                && job.id in db.rows
                && db.rows[job.id] == old(db.rows)[job.id].(status := Success, updatedAt := old(db.clock),
                                        bucket := up.bucket, objectKey := Some(up.key), etag := up.etag,
                                        sha256 := Some(up.sha256), encrypted := up.wrappedDek.Some?,
                                        wrappedDek := up.wrappedDek, errorLog := None)
    {
      db.CallNoted(Work(p, MarkDone), Some(p), Worker(job, Succeeded(input, size)), ToSuccess(job.id, up), KeepJobs,
        Marked(job.id, up.read));
    }

    method RecordUsage(ghost p: nat, job: Job, input: Input, size: nat)
      requires db.At(p, Worker(job, Succeeded(input, size)))
      modifies db
      ensures db.At(p, Worker(job, Recorded(input))) && db.usage == Quota.Record(old(db.usage), input.tenant, size)
      ensures var t, before := input.tenant, old(db.usage);
              && t in db.usage && db.usage[t].bytes == (if t in before then before[t].bytes else 0) + size
              && db.usage[t].objects == (if t in before then before[t].objects else 0) + 1
              && forall other :: other != t ==>
                   (other in db.usage <==> other in before) && (other in before ==> db.usage[other] == before[other])
      ensures db.machine.log.recorded == old(db.machine.log.recorded) + multiset{job.id}
      ensures db.machine.log.lost == old(db.machine.log.lost)
      ensures unchanged(db`rows, db`objects, db`deadLetters, db`queue)
    {
      db.CallNoted(Work(p, Meter), Some(p), Worker(job, Recorded(input)), KeepRows, KeepJobs,
        Metered(job.id, input.tenant, size));
    }

    method PublishCompleted(ghost p: nat, job: Job, input: Input)
      requires db.At(p, Worker(job, Recorded(input)))
      modifies db
      ensures db.At(p, Worker(job, Published(input)))
      ensures db.machine.log.completed == old(db.machine.log.completed) + multiset{job.id}
      ensures db.machine.log.lost == old(db.machine.log.lost)
      ensures unchanged(db`rows, db`objects, db`usage, db`deadLetters, db`queue)
    {
      db.CallNoted(Work(p, Publish), Some(p), Worker(job, Published(input)), KeepRows, KeepJobs,
        Protocol.Completed(job.id));
    }

    method FinishJob(ghost p: nat, job: Job, input: Input)
      requires db.At(p, Worker(job, Published(input)))
      modifies db
      ensures db.Valid()
      ensures db.machine.log.lost == old(db.machine.log.lost)
      ensures unchanged(db`rows, db`objects, db`usage, db`deadLetters, db`queue)
    {
      db.Call(Work(p, Complete), Some(p), Ended, KeepRows, KeepJobs, Quiet);
    }

    method MarkRejected(ghost p: nat, job: Job, reason: string)
      requires db.At(p, Worker(job, Protocol.Rejected(reason)))
      modifies db
      ensures db.At(p, Worker(job, RejectMarked)) && db.rows == MarkFailed(old(db.rows), job.id, reason, old(db.clock))
      ensures db.machine.log.lost == old(db.machine.log.lost)
      ensures unchanged(db`objects, db`usage, db`deadLetters, db`queue)
    {
      db.Call(Work(p, Protocol.MarkRejected), Some(p), Worker(job, RejectMarked), ToFailed(job.id, reason), KeepJobs,
        Quiet);
    }

    method ToDeadLetter(ghost p: nat, id: Id)
      requires db.Valid() && p < |db.machine.procs|
      requires || db.machine.procs[p] == Finalised(id)
               || exists job: Job :: job.id == id && db.machine.procs[p] == Worker(job, RejectMarked)
      modifies db
      ensures db.Valid() && db.deadLetters == old(db.deadLetters) + multiset{id}
      ensures db.machine.log.lost == old(db.machine.log.lost)
      ensures unchanged(db`rows, db`objects, db`usage, db`queue)
    {
      db.Call(DeadLetter(p), Some(p), Ended, KeepRows, KeepJobs, DeadLettered(id));
    }

    // ---- a failed attempt

    method ThrowAttempt(ghost p: nat, job: Job) returns (retried: bool)
      requires db.Valid() && p < |db.machine.procs| && db.machine.procs[p].Worker? && db.machine.procs[p].job == job
      modifies db
      ensures retried <==> job.made + 1 < db.cfg.attempts
      ensures retried ==> db.Valid() && db.queue == old(db.queue) + multiset{Job(job.id, job.made + 1)}
      ensures !retried ==> db.At(p, OnFailed(Job(job.id, job.made + 1))) && db.queue == old(db.queue)
      ensures db.machine.log.lost == old(db.machine.log.lost)
      ensures unchanged(db`rows, db`objects, db`usage, db`deadLetters)
    {
      var failed := Job(job.id, job.made + 1);
      retried := failed.made < db.cfg.attempts;
      db.Call(Throw(p), Some(p), if retried then Ended else OnFailed(failed), KeepRows,
              if retried then AddJob(failed) else KeepJobs, Quiet);
    }

    method MarkExhausted(ghost p: nat, job: Job)
      requires db.At(p, OnFailed(job))
      modifies db
      ensures db.machine.log.lost == old(db.machine.log.lost)
      ensures db.At(p, Finalised(job.id)) && unchanged(db`objects, db`usage, db`deadLetters, db`queue)
      ensures db.rows == MarkFailed(old(db.rows), job.id, EXHAUSTED, old(db.clock))
    {
      db.Call(Protocol.MarkExhausted(p), Some(p), Finalised(job.id), ToFailed(job.id, EXHAUSTED), KeepJobs, Quiet);
    }

    /** The `failed` handler of an exhausted job; a call of it may fail, and then it is over. */
    method HandleFailed(ghost p: nat, job: Job, faults: set<Point>)
      requires db.At(p, OnFailed(job))
      modifies db
      ensures db.Valid() && unchanged(db`objects, db`usage, db`queue)
      ensures db.rows == if AtFinalMark in faults then old(db.rows)
                         else MarkFailed(old(db.rows), job.id, EXHAUSTED, old(db.clock))
      ensures AtFinalMark !in faults && job.id in old(db.rows) ==>
                job.id in db.rows && db.rows[job.id].status == Failed && db.rows[job.id].errorLog == Some(EXHAUSTED)
      ensures AtFinalMark !in faults && AtFinalLetter !in faults ==>
                db.deadLetters == old(db.deadLetters) + multiset{job.id}
                  && db.machine.log.lost == old(db.machine.log.lost)
      ensures AtFinalMark in faults || AtFinalLetter in faults ==> db.deadLetters == old(db.deadLetters)
    {
      if AtFinalMark in faults { Abandon(p); return; }
      MarkExhausted(p, job);
      if AtFinalLetter in faults { Abandon(p); } else { ToDeadLetter(p, job.id); }
    }

    method Abandon(ghost p: nat)
      requires db.Valid() && p < |db.machine.procs| && !db.machine.procs[p].RelayAdded?
      modifies db
      ensures db.Valid() && unchanged(db`rows, db`objects, db`usage, db`deadLetters, db`queue)
    {
      db.Call(Crash(p), Some(p), Ended, KeepRows, KeepJobs, ActorLost);
    }

    /** The run of `job` is where the protocol has actor `p`. */
    ghost predicate Running(p: nat, job: Job)
      reads db
    {
      db.Valid() && p < |db.machine.procs| && db.machine.procs[p].Worker? && db.machine.procs[p].job == job
    }

    /** The queue's reaction to a throw, with the handler once retries are exhausted. */
    method FailAttempt(ghost p: nat, job: Job, faults: set<Point>) returns (outcome: Outcome)
      requires Running(p, job)
      modifies db
      ensures db.Valid() && outcome == Failing(db.cfg, job)
      ensures Agree(Stores(), AfterReaction(job, outcome, faults, old(Stores())), job.id)
      ensures AtFinalMark !in faults && AtFinalLetter !in faults ==> db.machine.log.lost == old(db.machine.log.lost)
      ensures outcome.Retrying? ==>
                && db.deadLetters == old(db.deadLetters)
                && db.queue == old(db.queue) + multiset{Job(job.id, job.made + 1)}
      ensures outcome.Exhausted? && AtFinalMark !in faults && AtFinalLetter !in faults ==>
                db.deadLetters == old(db.deadLetters) + multiset{job.id}
    {
      var retried := ThrowAttempt(p, job);
      ghost var now := db.clock;
      outcome := Failing(db.cfg, job);
      if !retried { HandleFailed(p, Job(job.id, job.made + 1), faults); }
      FailedReaction(job, outcome, faults, now, old(Stores()), Stores());
    }

    // ---- one attempt

    /** From the checked file to the published event, or to the call that throws. */
    method Deliver(ghost p: nat, job: Job, input: Input, size: nat, env: Environment) returns (reach: Reach)
      requires db.At(p, Worker(job, Checked(input, size))) && KeysFit(db.cfg, env.keys) && env.stat == Some(size)
      modifies db
      ensures db.machine.log.lost == old(db.machine.log.lost)
      ensures db.Valid() && reach == DeliveryReach(db.cfg, input, env) && unchanged(db`deadLetters, db`queue)
      ensures Succeeds(reach) || db.rows == old(db.rows)
      ensures Succeeds(reach) ==> Alike(db.rows, MarkSuccess(old(db.rows), job.id, UploadFor(db.cfg, input, env), 0),
              job.id)
      ensures db.objects == ObjectsAfter(db.cfg, input, env, reach, old(db.objects))
      ensures db.usage == UsageAfter(input, env, reach, old(db.usage))
      ensures reach != Whole ==> Running(p, job)
      ensures reach != Unread && reach != Refused && reach != Buried
    {
      if AtRead in env.faults || AtUpload in env.faults { return Started; }
      var up, _ := Upload(p, job, input, size, env);
      if !IntegrityOk(db.cfg, up) || AtMark in env.faults { return InStore; }
      reach := MarkAndConclude(p, job, input, size, up, env.faults);
    }

    /** `markSuccess` and what follows it. */
    method MarkAndConclude(
      ghost p: nat, job: Job, input: Input, size: nat, up: Transfers.Upload, faults: set<Point>
    ) returns (reach: Reach)
      requires db.At(p, Worker(job, Uploaded(input, size, up))) && IntegrityOk(db.cfg, up)
      modifies db
      ensures db.machine.log.lost == old(db.machine.log.lost)
      ensures db.Valid() && unchanged(db`deadLetters, db`queue, db`objects)
      ensures reach == if AtMeter in faults then OnRow else if AtPublish in faults then InUsage else Whole
      ensures Alike(db.rows, MarkSuccess(old(db.rows), job.id, up, 0), job.id)
      ensures db.usage == if reach == OnRow then old(db.usage) else Quota.Record(old(db.usage), input.tenant, size)
      ensures reach != Whole ==> Running(p, job)
    {
      SuccessesAgree(db.rows, job.id, up, db.clock);
      MarkSucceeded(p, job, input, size, up);
      reach := Conclude(p, job, input, size, faults);
    }

    /** What follows `markSuccess`. */
    method Conclude(ghost p: nat, job: Job, input: Input, size: nat, faults: set<Point>) returns (reach: Reach)
      requires db.At(p, Worker(job, Succeeded(input, size)))
      modifies db
      ensures db.machine.log.lost == old(db.machine.log.lost)
      ensures db.Valid() && unchanged(db`deadLetters, db`queue, db`rows, db`objects)
      ensures reach == if AtMeter in faults then OnRow else if AtPublish in faults then InUsage else Whole
      ensures db.usage == if reach == OnRow then old(db.usage) else Quota.Record(old(db.usage), input.tenant, size)
      ensures reach != Whole ==> Running(p, job)
    {
      if AtMeter in faults { return OnRow; }
      RecordUsage(p, job, input, size);
      if AtPublish in faults { return InUsage; }
      PublishCompleted(p, job, input);
      FinishJob(p, job, input);
      return Whole;
    }

    /** The handler of a NonRetryableError. */
    method Reject(ghost p: nat, job: Job, reason: string, faults: set<Point>) returns (reach: Reach)
      requires db.At(p, Worker(job, Protocol.Rejected(reason)))
      modifies db
      ensures db.machine.log.lost == old(db.machine.log.lost)
      ensures db.Valid() && unchanged(db`objects, db`usage, db`queue)
      ensures reach == if AtReject in faults then Started else if AtDeadLetter in faults then Refused else Buried
      ensures db.rows == if reach == Started then old(db.rows)
              else MarkFailed(old(db.rows), job.id, reason, old(db.clock))
      ensures AtReject !in faults && job.id in old(db.rows) ==>
                && job.id in db.rows && db.rows[job.id].status == Failed && db.rows[job.id].errorLog == Some(reason)
      ensures db.deadLetters == old(db.deadLetters)
                                + if AtReject in faults || AtDeadLetter in faults then multiset{} else multiset{job.id}
      ensures reach != Buried ==> Running(p, job)
    {
      if AtReject in faults { return Started; }
      MarkRejected(p, job, reason);
      if AtDeadLetter in faults { return Refused; }
      ToDeadLetter(p, job.id);
      return Buried;
    }

    /** The try block and its catch, up to a rethrow. */
    method Attempt(ghost p: nat, job: Job, input: Input, env: Environment) returns (reach: Reach)
      requires db.At(p, Worker(job, Claimed(input))) && KeysFit(db.cfg, env.keys)
      requires job.id in db.rows && db.rows[job.id].input == input
      modifies db
      ensures db.Valid() && reach == AttemptReach(db.cfg, old(db.usage), input, env)
      ensures Agree(Stores(), AfterAttempt(db.cfg, job.id, env, reach, old(Stores())), job.id)
      ensures db.machine.log.lost == old(db.machine.log.lost)
      ensures reach != Whole && reach != Buried ==> Running(p, job)
      ensures db.deadLetters == old(db.deadLetters) + if reach == Buried then multiset{job.id} else multiset{}
      ensures reach != Unread
    {
      var r := CheckFile(p, job, input, env);
      match r
      case Ok(size) =>
        reach := Deliver(p, job, input, size, env);
        DeliveriesAgree(db.cfg, job.id, env, reach, old(Stores()), Stores());
      case Err(Permanent(reason)) =>
        ghost var now := db.clock;
        reach := Reject(p, job, reason, env.faults);
        RejectionsAgree(db.cfg, job.id, env, reach, now, old(Stores()), Stores());
      case Err(Transient(_)) =>
        reach := Started;
        DeliveriesAgree(db.cfg, job.id, env, reach, old(Stores()), Stores());
    }

    /** The claim and the attempt, unless the claim itself fails. */
    method ClaimAndAttempt(ghost p: nat, job: Job, input: Input, env: Environment) returns (reach: Reach)
      requires db.At(p, Worker(job, Loaded(input))) && KeysFit(db.cfg, env.keys)
      requires job.id in db.rows && db.rows[job.id].input == input
      modifies db
      ensures db.Valid() && reach == if AtClaim in env.faults then Unread
              else AttemptReach(db.cfg, old(db.usage), input, env)
      ensures Agree(Stores(), AfterAttempt(db.cfg, job.id, env, reach, AfterClaim(job.id, reach, old(Stores()))),
              job.id)
      ensures reach != Whole && reach != Buried ==> Running(p, job)
      ensures Attempted(job.id, env, reach, old(db.rows)[job.id].attempts + 1, old(Stores()), Stores())
      ensures db.machine.log.lost == old(db.machine.log.lost)
    {
      reach := Unread;
      if AtClaim !in env.faults {
        reach := ClaimThenAttempt(p, job, input, env);
      } else {
        NothingAttempted(db.cfg, job.id, env, Stores());
      }
    }

    method ClaimThenAttempt(ghost p: nat, job: Job, input: Input, env: Environment) returns (reach: Reach)
      requires db.At(p, Worker(job, Loaded(input))) && KeysFit(db.cfg, env.keys)
      requires job.id in db.rows && db.rows[job.id].input == input
      modifies db
      ensures db.Valid() && reach == AttemptReach(db.cfg, old(db.usage), input, env) && reach != Unread
      ensures Agree(Stores(), AfterAttempt(db.cfg, job.id, env, reach, AfterClaim(job.id, reach, old(Stores()))),
                    job.id)
      ensures reach != Whole && reach != Buried ==> Running(p, job)
      ensures Attempted(job.id, env, reach, old(db.rows)[job.id].attempts + 1, old(Stores()), Stores())
      ensures db.machine.log.lost == old(db.machine.log.lost)
    {
      ghost var before, now := Stores(), db.clock;
      Claim(p, job, input);
      ghost var claimed := Stores();
      assert claimed == before.(rows := MarkProcessing(before.rows, job.id, now));
      reach := Attempt(p, job, input, env);
      ClaimThenAgree(db.cfg, job.id, env, reach, before, now, claimed, Stores());
    }

    /** The queue's reaction to how far a run got. */
    method React(ghost p: nat, job: Job, reach: Reach, faults: set<Point>) returns (outcome: Outcome)
      requires db.Valid() && (reach != Whole && reach != Buried ==> Running(p, job))
      modifies db
      ensures db.Valid() && outcome == OutcomeOf(db.cfg, job, Some(reach))
      ensures Agree(Stores(), AfterReaction(job, outcome, faults, old(Stores())), job.id)
      ensures Reacted(job, outcome, faults, old(Stores()), Stores())
      ensures AtFinalMark !in faults && AtFinalLetter !in faults ==> db.machine.log.lost == old(db.machine.log.lost)
    {
      if reach == Whole {
        outcome := Outcome.Completed;
      } else if reach == Buried {
        outcome := Outcome.Rejected;
      } else {
        outcome := FailAttempt(p, job, faults);
      }
      ReactionMeans(job, outcome, faults, old(Stores()), Stores());
    }

    /** From the row that was read to the last reaction. */
    method ProcessRow(ghost p: nat, job: Job, input: Input, env: Environment)
      returns (outcome: Outcome, ghost reach: Reach, ghost mid: Snapshot)
      requires db.At(p, Worker(job, Loaded(input))) && KeysFit(db.cfg, env.keys)
      requires job.id in db.rows && db.rows[job.id].input == input
      modifies db
      ensures db.Valid() && outcome == OutcomeOf(db.cfg, job, Some(reach))
      ensures reach == if AtClaim in env.faults then Unread else AttemptReach(db.cfg, old(db.usage), input, env)
      ensures Agree(Stores(), AfterReaction(job, outcome, env.faults,
                AfterAttempt(db.cfg, job.id, env, reach, AfterClaim(job.id, reach, old(Stores())))), job.id)
      ensures AtFinalMark !in env.faults && AtFinalLetter !in env.faults ==>
              db.machine.log.lost == old(db.machine.log.lost)
      ensures Attempted(job.id, env, reach, old(db.rows)[job.id].attempts + 1, old(Stores()), mid)
      ensures Reacted(job, outcome, env.faults, mid, Stores())
    {
      var got := ClaimAndAttempt(p, job, input, env);
      reach := got;
      mid := Stores();
      ghost var expected := AfterAttempt(db.cfg, job.id, env, got, AfterClaim(job.id, got, old(Stores())));
      outcome := React(p, job, got, env.faults);
      ReactionsAgree(job, outcome, env.faults, mid, expected);
      AgreeThrough(Stores(), AfterReaction(job, outcome, env.faults, mid),
                   AfterReaction(job, outcome, env.faults, expected), job.id);
    }

    /** From the delivery of a job to the last reaction to it. */
    method HandleJob(job: Job, env: Environment)
      returns (outcome: Outcome, ghost reach: Option<Reach>, ghost taken: Snapshot, ghost mid: Snapshot)
      requires db.Valid() && job in db.queue && KeysFit(db.cfg, env.keys)
      modifies db
      ensures db.Valid() && reach == JobReach(db.cfg, old(db.rows), old(db.usage), job.id, env)
      ensures outcome == OutcomeOf(db.cfg, job, reach)
      ensures Agree(Stores(), AfterJob(db.cfg, job, env, old(Stores())), job.id)
      ensures taken == old(Stores()).(queue := old(db.queue) - multiset{job})
      ensures reach == None ==> Stores() == taken
      ensures reach.Some? ==>
                && (reach.value == Unread || job.id in old(db.rows))
                && (reach.value == Unread ==> mid.deadLetters == taken.deadLetters && mid.queue == taken.queue)
                && (reach.value != Unread ==>
                      Attempted(job.id, env, reach.value, old(db.rows)[job.id].attempts + 1, taken, mid))
                && Reacted(job, outcome, env.faults, mid, Stores())
      ensures AtFinalMark !in env.faults && AtFinalLetter !in env.faults ==>
              db.machine.log.lost == old(db.machine.log.lost)
    {
      ghost var p := Receive(job);
      taken, mid := Stores(), Stores();
      if AtFind in env.faults {
        outcome := React(p, job, Unread, env.faults);
        reach := Some(Unread);
        NothingAttempted(db.cfg, job.id, env, taken);
      } else {
        outcome, reach, mid := FindAndProcess(p, job, env);
      }
      JobUnfolds(db.cfg, job, env, old(Stores()), taken, reach, outcome);
    }

    /** From the read of the row on. */
    method FindAndProcess(ghost p: nat, job: Job, env: Environment)
      returns (outcome: Outcome, ghost reach: Option<Reach>, ghost mid: Snapshot)
      requires db.At(p, Worker(job, Taken)) && KeysFit(db.cfg, env.keys) && AtFind !in env.faults
      modifies db
      ensures db.Valid() && reach == JobReach(db.cfg, old(db.rows), old(db.usage), job.id, env)
      ensures outcome == OutcomeOf(db.cfg, job, reach)
      ensures reach == None ==> Stores() == old(Stores())
      ensures reach.Some? ==>
                && job.id in old(db.rows)
                && Agree(Stores(), AfterReaction(job, outcome, env.faults,
                     AfterAttempt(db.cfg, job.id, env, reach.value, AfterClaim(job.id, reach.value, old(Stores())))),
                       job.id)
                && Attempted(job.id, env, reach.value, old(db.rows)[job.id].attempts + 1, old(Stores()), mid)
                && Reacted(job, outcome, env.faults, mid, Stores())
      ensures AtFinalMark !in env.faults && AtFinalLetter !in env.faults ==>
              db.machine.log.lost == old(db.machine.log.lost)
    {
      mid := Stores();
      var input := FindById(p, job);
      if input == None { return Dropped, None, mid; }
      ghost var got;
      outcome, got, mid := ProcessRow(p, job, input.value, env);
      reach := Some(got);
    }

    /** `runTransfer` for a delivered job, with the queue's and the handler's reaction; after
        the exact stores, what they mean for the transfer. */
    method RunTransfer(job: Job, env: Environment) returns (outcome: Outcome)
      requires db.Valid() && job in db.queue && KeysFit(db.cfg, env.keys)
      modifies db
      ensures db.Valid()
      ensures Agree(Stores(), AfterJob(db.cfg, job, env, old(Stores())), job.id)
      // which outcome
      ensures outcome.Dropped? <==>
                AtFind !in env.faults && (job.id !in old(db.rows) || old(db.rows)[job.id].status == Success)
      ensures Ready(old(db.rows), job.id, env.faults) && AtReject !in env.faults && AtDeadLetter !in env.faults ==>
                (outcome.Rejected? <==> Rejectable(db.cfg, old(db.usage), old(db.rows)[job.id].input, env))
      ensures Ready(old(db.rows), job.id, env.faults) && env.faults == {} && env.scan != Pipeline.Unreachable ==>
                (outcome.Completed? <==>
                   && !Rejectable(db.cfg, old(db.usage), old(db.rows)[job.id].input, env)
                   && IntegrityOk(db.cfg, UploadFor(db.cfg, old(db.rows)[job.id].input, env)))
      ensures outcome.Retrying? ==> job.made + 1 < db.cfg.attempts
      ensures outcome.Exhausted? ==> job.made + 1 >= db.cfg.attempts
      // what it does to the transfer
      ensures outcome.Rejected? ==>
                && job.id in db.rows && db.rows[job.id].status == Failed
                && db.deadLetters == old(db.deadLetters) + multiset{job.id}
      ensures outcome.Exhausted? && AtFinalMark !in env.faults && AtFinalLetter !in env.faults ==>
                && (job.id in db.rows ==> db.rows[job.id].status == Failed)
                && db.deadLetters == old(db.deadLetters) + multiset{job.id}
      ensures outcome.Completed? || outcome.Dropped? || outcome.Retrying? ==> db.deadLetters == old(db.deadLetters)
      ensures db.queue == old(db.queue) - multiset{job}
                          + if outcome.Retrying? then multiset{Job(job.id, job.made + 1)} else multiset{}
      ensures outcome.Completed? ==>
                && job.id in old(db.rows) && job.id in db.rows
                && db.rows[job.id].status == Success && db.rows[job.id].errorLog == None
                && db.rows[job.id].attempts == old(db.rows)[job.id].attempts + 1
                && db.rows[job.id].objectKey.Some? && db.rows[job.id].encrypted == env.keys.Some?
                && (db.rows[job.id].bucket, db.rows[job.id].objectKey.value) in db.objects
      ensures AtFinalMark !in env.faults && AtFinalLetter !in env.faults ==>
              db.machine.log.lost == old(db.machine.log.lost)
    {
      ghost var reach, taken, mid;
      outcome, reach, taken, mid := HandleJob(job, env);
      OutcomeFacts(db.cfg, old(db.rows), old(db.usage), job, env);
      JobMeans(db.cfg, job, env, outcome, reach,
               if job.id in old(db.rows) then old(db.rows)[job.id].attempts + 1 else 0, taken, mid, Stores());
    }
  }

  /** The job finds its row and claims it. */
  predicate Ready(rows: Table, id: Id, faults: set<Point>)
  {
    id in rows && rows[id].status != Success && AtFind !in faults && AtClaim !in faults
  }

  lemma OutcomeFacts(cfg: Config, rows: Table, usage: map<string, Quota.Usage>, job: Job, env: Environment)
    ensures var outcome := OutcomeOf(cfg, job, JobReach(cfg, rows, usage, job.id, env));
            && (outcome.Dropped? <==> AtFind !in env.faults && (job.id !in rows || rows[job.id].status == Success))
            && (Ready(rows, job.id, env.faults) && AtReject !in env.faults && AtDeadLetter !in env.faults ==>
                  (outcome.Rejected? <==> Rejectable(cfg, usage, rows[job.id].input, env)))
            && (Ready(rows, job.id, env.faults) && env.faults == {} && env.scan != Pipeline.Unreachable ==>
                  (outcome.Completed? <==>
                     && !Rejectable(cfg, usage, rows[job.id].input, env)
                     && IntegrityOk(cfg, UploadFor(cfg, rows[job.id].input, env))))
            && (outcome.Retrying? ==> job.made + 1 < cfg.attempts)
            && (outcome.Exhausted? ==> job.made + 1 >= cfg.attempts)
  {
  }

  lemma AttemptFacts(cfg: Config, id: Id, env: Environment, reach: Reach, s: Snapshot)
    requires id in s.rows
    ensures var after := AfterAttempt(cfg, id, env, reach, s);
            && after.deadLetters == s.deadLetters + (if reach.Buried? then multiset{id} else multiset{})
            && after.queue == s.queue && after.rows.Keys == s.rows.Keys
            && (reach.Buried? ==> after.rows[id].status == Failed)
            && (reach.Whole? ==>
                  && after.rows[id].status == Success && after.rows[id].errorLog == None
                  && after.rows[id].attempts == s.rows[id].attempts && after.rows[id].objectKey.Some?
                  && after.rows[id].encrypted == env.keys.Some?
                  && (after.rows[id].bucket, after.rows[id].objectKey.value) in after.objects)
  {
  }

  lemma ReactionFacts(job: Job, outcome: Outcome, faults: set<Point>, s: Snapshot)
    ensures var after := AfterReaction(job, outcome, faults, s);
            && after.rows.Keys == s.rows.Keys && after.objects == s.objects
            && after.queue == (if outcome.Retrying? then s.queue + multiset{Job(job.id, job.made + 1)} else s.queue)
            && (outcome.Exhausted? && AtFinalMark !in faults ==>
                  && (job.id in s.rows ==> after.rows[job.id].status == Failed)
                  && (AtFinalLetter !in faults ==> after.deadLetters == s.deadLetters + multiset{job.id}))
            && (!outcome.Exhausted? ==> after.deadLetters == s.deadLetters && after.rows == s.rows)
  {
  }

  /** What an attempt that got this far means for its transfer. */
  ghost predicate Attempted(id: Id, env: Environment, reach: Reach, attempts: nat, before: Snapshot, after: Snapshot)
  {
    && after.queue == before.queue
    && after.deadLetters == before.deadLetters + (if reach.Buried? then multiset{id} else multiset{})
    && (reach.Buried? ==> id in after.rows && after.rows[id].status == Failed)
    && (reach.Whole? ==>
          && id in after.rows && after.rows[id].status == Success && after.rows[id].errorLog == None
          && after.rows[id].attempts == attempts && after.rows[id].objectKey.Some?
          && after.rows[id].encrypted == env.keys.Some?
          && (after.rows[id].bucket, after.rows[id].objectKey.value) in after.objects)
  }

  lemma AttemptMeans(cfg: Config, id: Id, env: Environment, reach: Reach, before: Snapshot, after: Snapshot)
    requires id in before.rows && Agree(after, AfterAttempt(cfg, id, env, reach, before), id)
    ensures Attempted(id, env, reach, before.rows[id].attempts, before, after)
  {
    AttemptFacts(cfg, id, env, reach, before);
  }

  /** What the reaction means for it. */
  ghost predicate Reacted(job: Job, outcome: Outcome, faults: set<Point>, before: Snapshot, after: Snapshot)
  {
    && after.objects == before.objects
    && after.queue == (if outcome.Retrying? then before.queue + multiset{Job(job.id, job.made + 1)} else before.queue)
    && (outcome.Exhausted? && AtFinalMark !in faults && AtFinalLetter !in faults ==>
          && (job.id in after.rows ==> after.rows[job.id].status == Failed)
          && after.deadLetters == before.deadLetters + multiset{job.id})
    && (!outcome.Exhausted? ==> after.deadLetters == before.deadLetters && Alike(after.rows, before.rows, job.id))
  }

  lemma ReactionMeans(job: Job, outcome: Outcome, faults: set<Point>, before: Snapshot, after: Snapshot)
    requires Agree(after, AfterReaction(job, outcome, faults, before), job.id)
    ensures Reacted(job, outcome, faults, before, after)
  {
    ReactionFacts(job, outcome, faults, before);
  }

  lemma JobMeans(
    cfg: Config, job: Job, env: Environment, outcome: Outcome, reach: Option<Reach>, attempts: nat,
    taken: Snapshot, mid: Snapshot, after: Snapshot)
    requires outcome == OutcomeOf(cfg, job, reach) && (reach == None ==> after == taken)
    requires reach.Some? ==>
               && (reach.value == Unread ==> mid.deadLetters == taken.deadLetters && mid.queue == taken.queue)
               && (reach.value != Unread ==> Attempted(job.id, env, reach.value, attempts, taken, mid))
               && Reacted(job, outcome, env.faults, mid, after)
    ensures outcome.Rejected? ==>
              && job.id in after.rows && after.rows[job.id].status == Failed
              && after.deadLetters == taken.deadLetters + multiset{job.id}
    ensures outcome.Exhausted? && AtFinalMark !in env.faults && AtFinalLetter !in env.faults ==>
              && (job.id in after.rows ==> after.rows[job.id].status == Failed)
              && after.deadLetters == taken.deadLetters + multiset{job.id}
    ensures outcome.Completed? || outcome.Dropped? || outcome.Retrying? ==> after.deadLetters == taken.deadLetters
    ensures after.queue == taken.queue + if outcome.Retrying? then multiset{Job(job.id, job.made + 1)} else multiset{}
    ensures outcome.Completed? ==>
              && job.id in after.rows && after.rows[job.id].status == Success && after.rows[job.id].errorLog == None
              && after.rows[job.id].attempts == attempts && after.rows[job.id].objectKey.Some?
              && after.rows[job.id].encrypted == env.keys.Some?
              && (after.rows[job.id].bucket, after.rows[job.id].objectKey.value) in after.objects
  {
    match reach
    case None =>
    case Some(Whole) =>
      LettersMean(cfg, job, env, outcome, reach, taken, mid, after);
      WholeMeans(job, env, attempts, taken, mid, after);
    case Some(Buried) =>
      LettersMean(cfg, job, env, outcome, reach, taken, mid, after);
      BuriedMeans(job, env, attempts, taken, mid, after);
    case Some(_) =>
      LettersMean(cfg, job, env, outcome, reach, taken, mid, after);
  }

  lemma WholeMeans(job: Job, env: Environment, attempts: nat, taken: Snapshot, mid: Snapshot, after: Snapshot)
    requires Attempted(job.id, env, Whole, attempts, taken, mid)
             && Reacted(job, Outcome.Completed, env.faults, mid, after)
    ensures && job.id in after.rows && after.rows[job.id].status == Success && after.rows[job.id].errorLog == None
            && after.rows[job.id].attempts == attempts && after.rows[job.id].objectKey.Some?
            && after.rows[job.id].encrypted == env.keys.Some?
            && (after.rows[job.id].bucket, after.rows[job.id].objectKey.value) in after.objects
  {
    assert job.id in after.rows && Alike(after.rows, mid.rows, job.id);
  }

  lemma BuriedMeans(job: Job, env: Environment, attempts: nat, taken: Snapshot, mid: Snapshot, after: Snapshot)
    requires Attempted(job.id, env, Buried, attempts, taken, mid)
             && Reacted(job, Outcome.Rejected, env.faults, mid, after)
    ensures job.id in after.rows && after.rows[job.id].status == Failed
  {
    assert job.id in after.rows && Alike(after.rows, mid.rows, job.id);
  }

  lemma LettersMean(
    cfg: Config, job: Job, env: Environment, outcome: Outcome, reach: Option<Reach>,
    taken: Snapshot, mid: Snapshot, after: Snapshot)
    requires outcome == OutcomeOf(cfg, job, reach) && (reach == None ==> after == taken)
    requires reach.Some? ==>
               && mid.queue == taken.queue
               && mid.deadLetters == taken.deadLetters + (if reach.value.Buried? then multiset{job.id} else multiset{})
               && after.queue == (if outcome.Retrying? then mid.queue + multiset{Job(job.id, job.made + 1)}
                  else mid.queue)
               && (outcome.Exhausted? && AtFinalMark !in env.faults && AtFinalLetter !in env.faults ==>
                     after.deadLetters == mid.deadLetters + multiset{job.id})
               && (!outcome.Exhausted? ==> after.deadLetters == mid.deadLetters)
    ensures outcome.Rejected? ==> after.deadLetters == taken.deadLetters + multiset{job.id}
    ensures outcome.Exhausted? && AtFinalMark !in env.faults && AtFinalLetter !in env.faults ==>
              after.deadLetters == taken.deadLetters + multiset{job.id}
    ensures outcome.Completed? || outcome.Dropped? || outcome.Retrying? ==> after.deadLetters == taken.deadLetters
    ensures after.queue == taken.queue + if outcome.Retrying? then multiset{Job(job.id, job.made + 1)} else multiset{}
  {
  }

  lemma JobUnfolds(
    cfg: Config, job: Job, env: Environment, s: Snapshot, taken: Snapshot, reach: Option<Reach>, outcome: Outcome)
    requires taken == s.(queue := s.queue - multiset{job})
    requires reach == JobReach(cfg, s.rows, s.usage, job.id, env) && outcome == OutcomeOf(cfg, job, reach)
    ensures AfterJob(cfg, job, env, s) ==
            if reach == None then taken
            else AfterReaction(job, outcome, env.faults,
                   AfterAttempt(cfg, job.id, env, reach.value, AfterClaim(job.id, reach.value, taken)))
  {
  }

  lemma NothingAttempted(cfg: Config, id: Id, env: Environment, s: Snapshot)
    ensures AfterAttempt(cfg, id, env, Unread, AfterClaim(id, Unread, s)) == s
  {
  }
}
