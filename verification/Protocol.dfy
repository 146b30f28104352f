/** The transfer protocol as a step system over the shared stores.

    The actors are the webhook (accept), any number of outbox relays, queue workers,
    `failed` handlers, recovery sweeps, operator retries and retention purges. Each
    database or queue call is one step, so every interleaving of the actors is a run,
    and any actor may crash between two of its steps. What the environment decides
    (file contents, scan verdicts, fresh ids, random key material, the order in which
    the database breaks ties) is an argument of the step. A step whose actor is not at
    that point of its program leaves the state alone, so a run is any sequence of steps.

    Assumed of the job queue: a job is delivered again while it has failed fewer than
    `attempts` times, and the `failed` event fires after each failed attempt. */
module Protocol {
  import opened Common
  import opened Transfers
  import opened Envelope
  import Quota
  import Pipeline
  import Routing

  const RELAY_BATCH: nat := 100

  /** What the `failed` handler logs. */
  const EXHAUSTED: string := "Exhausted all attempts"

  /** What the sweeper logs for a transfer without retries left. */
  const GAVE_UP: string := "Recovered after interruption but retries already exhausted"

  type EventId = nat

  /** An outbox row: the transfer it announces and whether it still waits. */
  datatype Event = Event(transfer: Id, pending: bool, createdAt: nat)

  /** A queued transfer job and how often it has failed. */
  datatype Job = Job(id: Id, made: nat)

  type Location = (string, string)

  datatype Config = Config(
    attempts: nat,                    // transferMaxAttempts: queue retries and sweeper limit
    sweepBatch: nat, maxFile: nat, quotas: Quota.Quotas,
    rules: seq<Routing.Rule>, bucket: string,
    encrypt: bool, kek: Bytes, gcm: Gcm,
    md5: Bytes -> string, sha256: Bytes -> string)

  /** Random bytes drawn for one encrypted upload. */
  datatype KeyMaterial = KeyMaterial(dek: Bytes, iv: Bytes, wrapIv: Bytes)

  // ---------------------------------------------------------------- actors

  /** Where a worker is inside `runTransfer`. */
  datatype Phase =
    | Taken                                               // before findById
    | Loaded(input: Input)                                // row read and not SUCCESS
    | Claimed(input: Input)                               // markProcessing done
    | Checked(input: Input, size: nat)                    // pipeline passed
    | Uploaded(input: Input, size: nat, up: Upload)       // object stored
    | Succeeded(input: Input, size: nat)                  // markSuccess done
    | Recorded(input: Input)                              // recordUsage done
    | Published(input: Input)                             // transfer.completed published
    | Rejected(reason: string)                            // NonRetryableError caught
    | RejectMarked                                        // markFailed done, dead letter due

  /** A row as a find saw it; `stamp` is the `updatedAt` it carried. */
  datatype Seen = Seen(id: Id, stamp: nat, attempts: nat)

  datatype Proc =
    | Worker(job: Job, phase: Phase)
    | OnFailed(job: Job)                                  // retries exhausted, row not yet marked
    | Finalised(id: Id)                                   // row marked, dead letter due
    | Relaying(events: seq<EventId>)
    | RelayAdded(events: seq<EventId>)                    // the first is enqueued but not marked
    | Sweeping(stuck: seq<Seen>)
    | RetryFound(row: Seen)
    | Rereading(id: Id)                                   // row reset, answer not read yet
    | Resetting(rows: seq<Seen>, collected: seq<Id>)
    | Enqueueing(ids: seq<Id>)
    | Ended

  // ---------------------------------------------------------------- state

  /** Observations about a run. No step's effect on the other fields reads them. */
  datatype Ledger = Ledger(
    accepted: multiset<string>,       // idempotency keys answered ACCEPTED
    purged: multiset<string>,         // idempotency keys of purged rows
    added: multiset<EventId>,         // events enqueued by a relay
    interrupted: nat,                 // relays lost between add and mark
    lost: nat,                        // actors lost
    marked: multiset<Id>,             // markSuccess executed
    recorded: multiset<Id>,           // recordUsage executed
    completed: multiset<Id>,          // transfer.completed published
    sources: map<Id, Bytes>,          // checksum read of the attempt that last marked SUCCESS
    bodies: map<Id, Bytes>,           // bytes the last upload of a transfer read
    uploader: map<Location, Id>)      // transfer that last wrote an object

  datatype State = State(
    rows: Table, outbox: map<EventId, Event>, queue: multiset<Job>, deadLetters: multiset<Id>,
    objects: map<Location, Bytes>, usage: map<string, Quota.Usage>,
    procs: seq<Proc>, issued: set<Id>, clock: nat, log: Ledger)

  function Init(): State
  {
    State(map[], map[], multiset{}, multiset{}, map[], map[], [], {}, 0,
          Ledger(multiset{}, multiset{}, multiset{}, 0, 0, multiset{}, multiset{}, multiset{}, map[], map[], map[]))
  }

  // ---------------------------------------------------------------- steps

  /** The steps of a worker inside `runTransfer`. */
  datatype Act =
    | Load
    | Claim
    | Check(stat: Option<nat>, scan: Pipeline.Scan, mime: string)
    | Store(read: Bytes, body: Bytes, etag: Option<string>, keys: Option<KeyMaterial>)
    | MarkDone
    | Meter
    | Publish
    | Complete
    | MarkRejected

  datatype Step =
    | Accept(input: Input, id: Id, event: EventId)
    | PurgeRows(cutoff: nat)
    | Take(job: Job)
    | Work(p: nat, act: Act)
    | Throw(p: nat)                                       // the attempt fails
    | MarkExhausted(p: nat)
    | DeadLetter(p: nat)
    | StartRelay(batch: seq<EventId>)
    | RelayAdd(p: nat)
    | RelayMark(p: nat)
    | StartSweep(staleBefore: nat, batch: seq<Id>)
    | SweepOne(p: nat)
    | StartRetry(id: Id)
    | RetryReset(p: nat, scoped: bool)                    // in a transaction, or an admin's update
    | Reread(p: nat)
    | StartBatch(visible: set<Id>, status: Status, before: Option<nat>, limit: nat, batch: seq<Id>)
    | BatchReset(p: nat, n: nat)                          // one row, or all of a transaction
    | Enqueue(p: nat)
    | Crash(p: nat)
    | Stall(p: nat)                                       // the queue takes the job back

  // ---------------------------------------------------------------- what a step writes

  datatype RowOp =
    | KeepRows
    | Insert(id: Id, input: Input)
    | ToProcessing(id: Id)
    | ToSuccess(id: Id, up: Upload)
    | ToFailed(id: Id, reason: string)
    | ToPending(ids: seq<Id>)
    | Delete(cutoff: nat)

  datatype JobOp = KeepJobs | AddJob(job: Job) | TakeJob(job: Job)

  /** The write to the remaining stores. */
  datatype Note =
    | Quiet
    | Announced(event: EventId, id: Id, key: string)
    | EventAdded(event: EventId)
    | EventMarked(event: EventId)
    | RelayLost
    | ActorLost
    | Stored(id: Id, at: Location, bytes: Bytes, body: Bytes)
    | Marked(id: Id, read: Bytes)
    | Metered(id: Id, tenant: string, size: nat)
    | Completed(id: Id)
    | DeadLettered(id: Id)
    | Purged(keys: set<string>)

  /** Everything one step does: its actor moves to `proc` (slot |procs| starts an actor). */
  datatype Change = Change(slot: Option<nat>, proc: Proc, rows: RowOp, jobs: JobOp, note: Note)

  /** The actor of a change before it, and after it. */
  function Old(s: State, c: Change): Proc
  {
    if c.slot.Some? && c.slot.value < |s.procs| then s.procs[c.slot.value] else Ended
  }

  function Became(c: Change): Proc
  {
    if c.slot.Some? then c.proc else Ended
  }

  function WriteRows(t: Table, op: RowOp, now: nat): Table
  {
    match op
    case KeepRows => t
    case Insert(id, input) => t[id := NewRow(input, now)]
    case ToProcessing(id) => MarkProcessing(t, id, now)
    case ToSuccess(id, up) => MarkSuccess(t, id, up, now)
    case ToFailed(id, reason) => MarkFailed(t, id, reason, now)
    case ToPending(ids) => Reset(t, ToSet(ids), now)
    case Delete(cutoff) => Purge(t, cutoff)
  }

  function WriteJobs(queue: multiset<Job>, op: JobOp): multiset<Job>
  {
    match op
    case KeepJobs => queue
    case AddJob(job) => queue + multiset{job}
    case TakeJob(job) => queue - multiset{job}
  }

  function WriteProcs(procs: seq<Proc>, slot: Option<nat>, q: Proc): seq<Proc>
  {
    if slot == None then procs
    else if slot.value < |procs| then procs[slot.value := q]
    else procs + [q]
  }

  function WriteOutbox(outbox: map<EventId, Event>, note: Note, now: nat): map<EventId, Event>
  {
    match note
    case Announced(event, id, _) => outbox[event := Event(id, true, now)]
    case EventMarked(event) =>
      if event in outbox then outbox[event := outbox[event].(pending := false)] else outbox
    case _ => outbox
  }

  function PurgedKeys(t: Table, cutoff: nat): set<string>
  {
    set id | id in t && Purgeable(t[id], cutoff) :: t[id].input.key
  }

  function WriteLog(log: Ledger, note: Note): Ledger
  {
    match note
    case Announced(_, _, key) => log.(accepted := log.accepted + multiset{key})
    case Purged(keys) => log.(purged := log.purged + multiset(keys))
    case EventAdded(event) => log.(added := log.added + multiset{event})
    case RelayLost => log.(interrupted := log.interrupted + 1, lost := log.lost + 1)
    case ActorLost => log.(lost := log.lost + 1)
    case Stored(id, at, _, body) => log.(bodies := log.bodies[id := body], uploader := log.uploader[at := id])
    case Marked(id, read) => log.(marked := log.marked + multiset{id}, sources := log.sources[id := read])
    case Metered(id, _, _) => log.(recorded := log.recorded + multiset{id})
    case Completed(id) => log.(completed := log.completed + multiset{id})
    case _ => log
  }

  function Commit(s: State, c: Change): State
  {
    State(
      WriteRows(s.rows, c.rows, s.clock),
      WriteOutbox(s.outbox, c.note, s.clock),
      WriteJobs(s.queue, c.jobs),
      if c.note.DeadLettered? then s.deadLetters + multiset{c.note.id} else s.deadLetters,
      if c.note.Stored? then s.objects[c.note.at := c.note.bytes] else s.objects,
      if c.note.Metered? then Quota.Record(s.usage, c.note.tenant, c.note.size) else s.usage,
      WriteProcs(s.procs, c.slot, c.proc),
      if c.note.Announced? then s.issued + {c.note.id} else s.issued,
      s.clock + 1,
      WriteLog(s.log, c.note))
  }

  // ---------------------------------------------------------------- the worker

  function ContextOf(
    cfg: Config, usage: map<string, Quota.Usage>, input: Input, size: nat, scan: Pipeline.Scan, mime: string
  ): Pipeline.Context
  {
    Pipeline.Context(cfg.maxFile, Quota.GetQuota(cfg.quotas, input.tenant),
                     Quota.UsageOf(usage, input.tenant), size, scan, mime, None)
  }

  /** `stat` and the pipeline; None when the pipeline throws a retryable error. */
  function CheckPhase(cfg: Config, s: State, input: Input, stat: Option<nat>, scan: Pipeline.Scan,
    mime: string): Option<Phase>
  {
    if stat == None then Some(Rejected("Source unreadable"))
    else match Pipeline.RunStages(Pipeline.STAGES, ContextOf(cfg, s.usage, input, stat.value, scan, mime))
      case Ok(_) => Some(Checked(input, stat.value))
      case Err(Permanent(reason)) => Some(Rejected(reason))
      case Err(Transient(_)) => None
  }

  /** The object written for `body` and the wrapped key to persist. */
  function Sealed(cfg: Config, body: Bytes, keys: Option<KeyMaterial>): (Bytes, Option<Bytes>)
  {
    match keys
    case None => (body, None)
    case Some(m) => (cfg.gcm.Seal(m.dek, m.iv, body), Some(cfg.gcm.Seal(cfg.kek, m.wrapIv, m.dek)))
  }

  predicate KeysFit(cfg: Config, keys: Option<KeyMaterial>)
  {
    && keys.Some? == cfg.encrypt
    && (keys.Some? ==> |keys.value.iv| == IV_LEN && |keys.value.wrapIv| == IV_LEN)
  }

  function UploadOf(cfg: Config, input: Input, read: Bytes, body: Bytes, etag: Option<string>,
    keys: Option<KeyMaterial>): Upload
  {
    var target := Routing.Resolve(cfg.rules, cfg.bucket, input);
    Upload(target.bucket, target.key, etag, cfg.sha256(read), Sealed(cfg, body, keys).1, read)
  }

  predicate IsHex(c: char)
  {
    '0' <= c <= '9' || 'a' <= c <= 'f' || 'A' <= c <= 'F'
  }

  /** A single-part ETag: 32 hex digits. */
  predicate SinglePart(etag: string)
  {
    |etag| == 32 && forall i :: 0 <= i < |etag| ==> IsHex(etag[i])
  }

  /** `verifyIntegrity` lets the attempt go on; encrypted uploads are not compared. */
  predicate IntegrityOk(cfg: Config, up: Upload)
  {
    up.wrappedDek.None? && up.etag.Some? && SinglePart(up.etag.value)
    ==> Routing.Lower(up.etag.value) == Routing.Lower(cfg.md5(up.read))
  }

  /** The next thing a worker in `phase` does; None when `act` is not its next action. */
  function PlanWork(cfg: Config, s: State, p: nat, job: Job, phase: Phase, act: Act): Option<Change>
  {
    match act
    case Load =>
      if !phase.Taken? then None
      else if job.id !in s.rows || s.rows[job.id].status == Success
      then Some(Change(Some(p), Ended, KeepRows, KeepJobs, Quiet))
      else Some(Change(Some(p), Worker(job, Loaded(s.rows[job.id].input)), KeepRows, KeepJobs, Quiet))
    case Claim =>
      if !phase.Loaded? then None
      else Some(Change(Some(p), Worker(job, Claimed(phase.input)), ToProcessing(job.id), KeepJobs, Quiet))
    case Check(stat, scan, mime) =>
      if !phase.Claimed? then None
      else
        var next := CheckPhase(cfg, s, phase.input, stat, scan, mime);
        if next == None then None
        else Some(Change(Some(p), Worker(job, next.value), KeepRows, KeepJobs, Quiet))
    case Store(read, body, etag, keys) =>
      if !phase.Checked? || !KeysFit(cfg, keys) then None
      else
        var up := UploadOf(cfg, phase.input, read, body, etag, keys);
        Some(Change(Some(p), Worker(job, Uploaded(phase.input, phase.size, up)), KeepRows, KeepJobs,
                    Stored(job.id, (up.bucket, up.key), Sealed(cfg, body, keys).0, body)))
    case MarkDone =>
      if !phase.Uploaded? || !IntegrityOk(cfg, phase.up) then None
      else Some(Change(Some(p), Worker(job, Succeeded(phase.input, phase.size)), ToSuccess(job.id, phase.up), KeepJobs,
                       Marked(job.id, phase.up.read)))
    case Meter =>
      if !phase.Succeeded? then None
      else Some(Change(Some(p), Worker(job, Recorded(phase.input)), KeepRows, KeepJobs,
                       Metered(job.id, phase.input.tenant, phase.size)))
    case Publish =>
      if !phase.Recorded? then None
      else Some(Change(Some(p), Worker(job, Published(phase.input)), KeepRows, KeepJobs, Completed(job.id)))
    case Complete =>
      if !phase.Published? then None else Some(Change(Some(p), Ended, KeepRows, KeepJobs, Quiet))
    case MarkRejected =>
      if !phase.Rejected? then None
      else Some(Change(Some(p), Worker(job, RejectMarked), ToFailed(job.id, phase.reason), KeepJobs, Quiet))
  }

  /** An attempt that threw: the queue retries the job or the `failed` handler runs. */
  function PlanThrow(cfg: Config, p: nat, job: Job): Change
  {
    var failed := Job(job.id, job.made + 1);
    if failed.made < cfg.attempts then Change(Some(p), Ended, KeepRows, AddJob(failed), Quiet)
    else Change(Some(p), OnFailed(failed), KeepRows, KeepJobs, Quiet)
  }

  // ---------------------------------------------------------------- the other actors

  ghost predicate IsRelayBatch(outbox: map<EventId, Event>, batch: seq<EventId>)
  {
    IsOldest(map e | e in outbox && outbox[e].pending :: outbox[e], (v: Event) => v.createdAt, RELAY_BATCH, batch)
  }

  function Snapshot(t: Table, ids: seq<Id>): seq<Seen>
    requires forall i :: 0 <= i < |ids| ==> ids[i] in t
  {
    seq(|ids|, i requires 0 <= i < |ids| => Seen(ids[i], t[ids[i]].updatedAt, t[ids[i]].attempts))
  }

  function Ids(rows: seq<Seen>): seq<Id>
  {
    seq(|rows|, i requires 0 <= i < |rows| => rows[i].id)
  }

  /** The part of the table a caller sees: its tenant's rows, or all of them. */
  function Restrict(t: Table, visible: set<Id>): Table
  {
    map id | id in t && id in visible :: t[id]
  }

  /** The next thing an actor other than a running worker does. */
  function PlanActor(cfg: Config, s: State, p: nat, q: Proc, step: Step): Option<Change>
  {
    match step
    case Throw(_) => if q.Worker? then Some(PlanThrow(cfg, p, q.job)) else None
    case MarkExhausted(_) =>
      if !q.OnFailed? then None
      else Some(Change(Some(p), Finalised(q.job.id), ToFailed(q.job.id, EXHAUSTED), KeepJobs, Quiet))
    case DeadLetter(_) =>
      if q.Worker? && q.phase.RejectMarked?
      then Some(Change(Some(p), Ended, KeepRows, KeepJobs, DeadLettered(q.job.id)))
      else if q.Finalised? then Some(Change(Some(p), Ended, KeepRows, KeepJobs, DeadLettered(q.id)))
      else None
    case RelayAdd(_) =>
      if !q.Relaying? || q.events == [] || q.events[0] !in s.outbox then None
      else Some(Change(Some(p), RelayAdded(q.events), KeepRows, AddJob(Job(s.outbox[q.events[0]].transfer, 0)),
                       EventAdded(q.events[0])))
    case RelayMark(_) =>
      if !q.RelayAdded? || q.events == [] then None
      else Some(Change(Some(p), Relaying(q.events[1..]), KeepRows, KeepJobs, EventMarked(q.events[0])))
    case SweepOne(_) =>
      if !q.Sweeping? || q.stuck == [] then None
      else if q.stuck[0].attempts >= cfg.attempts
      then Some(Change(Some(p), Sweeping(q.stuck[1..]),
                       ToFailed(q.stuck[0].id, GAVE_UP),
                       KeepJobs, Quiet))
      else Some(Change(Some(p), Sweeping(q.stuck[1..]), KeepRows, AddJob(Job(q.stuck[0].id, 0)), Quiet))
    case RetryReset(_, scoped) =>
      if !q.RetryFound? then None
      else if scoped && q.row.id !in s.rows then Some(Change(Some(p), Ended, KeepRows, KeepJobs, Quiet))
      else Some(Change(Some(p), if scoped then Enqueueing([q.row.id]) else Rereading(q.row.id),
                       ToPending([q.row.id]), KeepJobs, Quiet))
    case Reread(_) =>
      if !q.Rereading? then None
      else Some(Change(Some(p), if q.id in s.rows then Enqueueing([q.id]) else Ended, KeepRows, KeepJobs, Quiet))
    case BatchReset(_, n) =>
      if !q.Resetting? || n == 0 || n > |q.rows| then None
      else
        var done := q.collected + Ids(q.rows[..n]);
        Some(Change(Some(p), if n == |q.rows| then Enqueueing(done) else Resetting(q.rows[n..], done),
                    ToPending(Ids(q.rows[..n])), KeepJobs, Quiet))
    case Enqueue(_) =>
      if !q.Enqueueing? || q.ids == [] then None
      else Some(Change(Some(p), Enqueueing(q.ids[1..]), KeepRows, AddJob(Job(q.ids[0], 0)), Quiet))
    case Crash(_) =>
      Some(Change(Some(p), Ended, KeepRows, KeepJobs, if q.RelayAdded? then RelayLost else ActorLost))
    case Stall(_) =>
      if q.Worker? then Some(Change(Some(p), Ended, KeepRows, AddJob(q.job), Quiet)) else None
    case _ => None
  }

  /** Steps that start an actor, and the two that are one transaction. */
  ghost function PlanStart(cfg: Config, s: State, step: Step): Option<Change>
  {
    var slot := Some(|s.procs|);
    match step
    case Accept(input, id, event) =>
      if id in s.issued || event in s.outbox || HasKey(s.rows, input.key) then None
      else Some(Change(None, Ended, Insert(id, input), KeepJobs, Announced(event, id, input.key)))
    case PurgeRows(cutoff) => Some(Change(None, Ended, Delete(cutoff), KeepJobs, Purged(PurgedKeys(s.rows, cutoff))))
    case Take(job) =>
      if job in s.queue then Some(Change(slot, Worker(job, Taken), KeepRows, TakeJob(job), Quiet)) else None
    case StartRelay(batch) =>
      if IsRelayBatch(s.outbox, batch) then Some(Change(slot, Relaying(batch), KeepRows, KeepJobs, Quiet)) else None
    case StartSweep(staleBefore, batch) =>
      if IsStuckBatch(s.rows, staleBefore, cfg.sweepBatch, batch)
      then Some(Change(slot, Sweeping(Snapshot(s.rows, batch)), KeepRows, KeepJobs, Quiet)) else None
    case StartRetry(id) =>
      if id in s.rows && s.rows[id].status != Success
      then Some(Change(slot, RetryFound(Seen(id, s.rows[id].updatedAt, s.rows[id].attempts)), KeepRows, KeepJobs,
        Quiet))
      else None
    case StartBatch(visible, status, before, limit, batch) =>
      if status != Success && batch != [] && IsRetryBatch(Restrict(s.rows, visible), status, before, limit, batch)
      then Some(Change(slot, Resetting(Snapshot(s.rows, batch), []), KeepRows, KeepJobs, Quiet)) else None
    case _ => None
  }

  /** The actor a step belongs to; the other steps start an actor or are atomic. */
  function ActorOf(step: Step): Option<nat>
  {
    match step
    case Work(p, _) => Some(p)
    case Throw(p) => Some(p)
    case MarkExhausted(p) => Some(p)
    case DeadLetter(p) => Some(p)
    case RelayAdd(p) => Some(p)
    case RelayMark(p) => Some(p)
    case SweepOne(p) => Some(p)
    case RetryReset(p, _) => Some(p)
    case Reread(p) => Some(p)
    case BatchReset(p, _) => Some(p)
    case Enqueue(p) => Some(p)
    case Crash(p) => Some(p)
    case Stall(p) => Some(p)
    case _ => None
  }

  ghost function Plan(cfg: Config, s: State, step: Step): Option<Change>
  {
    var actor := ActorOf(step);
    if actor == None then PlanStart(cfg, s, step)
    else if actor.value >= |s.procs| then None
    else if step.Work? then
      var q := s.procs[actor.value];
      if q.Worker? then PlanWork(cfg, s, actor.value, q.job, q.phase, step.act) else None
    else PlanActor(cfg, s, actor.value, s.procs[actor.value], step)
  }

  /** Every step but those of a running worker leaves uploads, success marks and metering
      alone, and starts a run or ends it. */
  lemma OtherPlans(cfg: Config, s: State, step: Step)
    requires !step.Work?
    ensures var c := Plan(cfg, s, step);
            c.Some? ==>
              && (c.value.proc.Worker? ==> c.value.slot == Some(|s.procs|) && c.value.proc.phase.Taken?)
              && !(c.value.note.Stored? || c.value.note.Marked? || c.value.note.Metered? || c.value.note.Completed?)
              && !(c.value.rows.ToSuccess? || c.value.rows.ToProcessing?)
              && (c.value.slot == if ActorOf(step).Some? then ActorOf(step)
                                  else if c.value.slot.Some? then Some(|s.procs|) else None)
  {
  }

  /** An accept announces a fresh transfer by a fresh event, and nothing else inserts. */
  lemma AnnouncesFresh(cfg: Config, s: State, step: Step)
    ensures var c := Plan(cfg, s, step);
            c.Some? ==>
              && (c.value.rows.Insert? <==> c.value.note.Announced?)
              && (c.value.rows.Insert? ==>
                    && c.value.note.id == c.value.rows.id && c.value.rows.id !in s.issued
                    && c.value.note.event !in s.outbox)
  {
  }

  ghost function Apply(cfg: Config, s: State, step: Step): State
  {
    var c := Plan(cfg, s, step);
    if c == None then s else Commit(s, c.value)
  }

  /** The ledger counts exactly the crashes. */
  lemma LostCountsCrashes(cfg: Config, s: State, step: Step)
    ensures Apply(cfg, s, step).log.lost == s.log.lost + if step.Crash? && step.p < |s.procs| then 1 else 0
  {
    var c := Plan(cfg, s, step);
    if !step.Crash? { OnlyCrashesLose(cfg, s, step); }
    if c.Some? { LostAfter(s, c.value); }
  }

  lemma LostAfter(s: State, c: Change)
    ensures Commit(s, c).log.lost == s.log.lost + if c.note.RelayLost? || c.note.ActorLost? then 1 else 0
  {
  }

  lemma OnlyCrashesLose(cfg: Config, s: State, step: Step)
    requires !step.Crash?
    ensures var c := Plan(cfg, s, step); c.Some? ==> !c.value.note.RelayLost? && !c.value.note.ActorLost?
  {
  }

  /** Rows carry ids that were handed out; an id is handed out once. */
  ghost predicate Issued(s: State)
  {
    forall id :: id in s.rows ==> id in s.issued
  }

  lemma IssuedStays(cfg: Config, s: State, step: Step)
    requires Issued(s)
    ensures Issued(Apply(cfg, s, step))
  {
    var c := Plan(cfg, s, step);
    if c.Some? {
      AnnouncesFresh(cfg, s, step);
      IssuedAfter(s, c.value);
    }
  }

  lemma IssuedAfter(s: State, c: Change)
    requires Issued(s) && (c.rows.Insert? ==> c.note.Announced? && c.note.id == c.rows.id)
    ensures Issued(Commit(s, c))
  {
  }

  ghost function Run(cfg: Config, s: State, steps: seq<Step>): State
  {
    if steps == [] then s else Apply(cfg, Run(cfg, s, steps[..|steps| - 1]), steps[|steps| - 1])
  }

  lemma RunSnoc(cfg: Config, s: State, steps: seq<Step>, step: Step)
    ensures Run(cfg, s, steps + [step]) == Apply(cfg, Run(cfg, s, steps), step)
  {
    assert (steps + [step])[..|steps|] == steps;
  }

  lemma RunBetween(cfg: Config, s: State, a: seq<Step>, whole: seq<Step>)
    requires a <= whole
    ensures Run(cfg, s, whole) == Run(cfg, Run(cfg, s, a), whole[|a|..])
  {
    assert whole == a + whole[|a|..];
    RunAppend(cfg, s, a, whole[|a|..]);
  }

  lemma RunToPrefix(cfg: Config, s: State, a: seq<Step>, b: seq<Step>, whole: seq<Step>)
    requires a <= b && b <= whole
    ensures Run(cfg, s, b) == Run(cfg, Run(cfg, s, a), whole[|a|..][..|b| - |a|])
  {
    PrefixRest(a, b, whole);
    RunBetween(cfg, s, a, b);
  }

  lemma {:induction false} RunAppend(cfg: Config, s: State, a: seq<Step>, b: seq<Step>)
    ensures Run(cfg, s, a + b) == Run(cfg, Run(cfg, s, a), b)
  {
    if b == [] {
      assert a + b == a;
    } else {
      var init := b[..|b| - 1];
      assert (a + b)[..|a + b| - 1] == a + init;
      RunAppend(cfg, s, a, init);
    }
  }

  /** The states a run from the empty system passes through. */
  ghost predicate IsHistory(cfg: Config, steps: seq<Step>, states: seq<State>)
  {
    && |states| == |steps| + 1 && states[0] == Init()
    && forall i :: 0 <= i < |steps| ==> states[i + 1] == Apply(cfg, states[i], steps[i])
  }

  lemma {:induction false} HistoryIsRun(cfg: Config, steps: seq<Step>, states: seq<State>)
    requires IsHistory(cfg, steps, states)
    ensures Run(cfg, Init(), steps) == states[|steps|]
  {
    if steps != [] { HistoryIsRun(cfg, steps[..|steps| - 1], states[..|steps|]); }
  }

  lemma HistoryGrows(cfg: Config, steps: seq<Step>, states: seq<State>, step: Step, c: Change)
    requires IsHistory(cfg, steps, states) && Plan(cfg, states[|steps|], step) == Some(c)
    ensures IsHistory(cfg, steps + [step], states + [Commit(states[|steps|], c)])
  {
  }
}
