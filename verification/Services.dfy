/** The services as sequential code over the shared stores. What the environment decides
    (query answers, file contents, scan verdicts, where a call fails) is a parameter. */
module Services {
  import opened Common
  import opened Transfers
  import opened Protocol
  import opened Backends
  import Drain
  import Tenancy
  import IdempotencyKey
  import Paths
  import EndToEnd
  import ExactlyOnce
  import Envelope

  // ---------------------------------------------------------------- outbox relay

  datatype Fault = NoFault | OnAdd(event: nat) | OnMark(event: nat)

  /** Events marked, and events enqueued, by a pass over `n` events with this fault. */
  function Handled(fault: Fault, n: nat): (k: nat)
    ensures k <= n
  {
    match fault
    case NoFault => n
    case OnAdd(i) => if i < n then i else n
    case OnMark(i) => if i < n then i else n
  }

  function Enqueued(fault: Fault, n: nat): (k: nat)
    ensures Handled(fault, n) <= k <= n
  {
    if fault.OnMark? && fault.event < n then fault.event + 1 else Handled(fault, n)
  }

  /** The jobs of a batch of events. */
  function JobsFor(outbox: map<EventId, Event>, batch: seq<EventId>): multiset<Job>
    requires forall i :: 0 <= i < |batch| ==> batch[i] in outbox
  {
    if batch == [] then multiset{}
    else JobsFor(outbox, batch[..|batch| - 1]) + multiset{Job(outbox[batch[|batch| - 1]].transfer, 0)}
  }

  lemma {:induction false} JobsAreAdded(outbox: map<EventId, Event>, batch: seq<EventId>, n: nat)
    requires n <= |batch| && forall i :: 0 <= i < |batch| ==> batch[i] in outbox
    ensures |JobsFor(outbox, batch[..n])| == n
    ensures forall k :: 0 <= k < n ==> Job(outbox[batch[k]].transfer, 0) in JobsFor(outbox, batch[..n])
  {
    if n > 0 {
      JobsAreAdded(outbox, batch, n - 1);
      assert batch[..n][..n - 1] == batch[..n - 1];
    }
  }

  /** One job each: if the events announce different transfers, every transfer of the batch
      gets exactly one fresh job and no other job appears. */
  lemma {:induction false} OneJobPerEvent(outbox: map<EventId, Event>, batch: seq<EventId>, job: Job)
    requires forall i :: 0 <= i < |batch| ==> batch[i] in outbox
    requires forall i, j :: 0 <= i < j < |batch| ==> outbox[batch[i]].transfer != outbox[batch[j]].transfer
    ensures JobsFor(outbox, batch)[job] ==
            if job.made == 0 && exists i :: 0 <= i < |batch| && outbox[batch[i]].transfer == job.id then 1 else 0
  {
    if batch != [] {
      var init, last := batch[..|batch| - 1], batch[|batch| - 1];
      OneJobPerEvent(outbox, init, job);
      if i :| 0 <= i < |init| && outbox[init[i]].transfer == job.id { assert outbox[batch[i]].transfer == job.id; }
      assert outbox[batch[|batch| - 1]].transfer == outbox[last].transfer;
      assert forall i :: 0 <= i < |init| ==> init[i] == batch[i];
    }
  }

  class OutboxService {
    const db: Backend
    var relaying: bool

    constructor (db: Backend)
      ensures this.db == db && !relaying
    {
      this.db, relaying := db, false;
    }

    method Find(batch: seq<EventId>) returns (ghost p: nat)
      requires db.Valid() && IsRelayBatch(db.outbox, batch)
      modifies db
      ensures p == old(|db.machine.procs|) && db.At(p, Relaying(batch))
              && db.trace == old(db.trace) + [StartRelay(batch)]
      ensures db.rows == old(db.rows) && db.outbox == old(db.outbox) && db.queue == old(db.queue)
    {
      p := |db.machine.procs|;
      db.Call(StartRelay(batch), Some(p), Relaying(batch), KeepRows, KeepJobs, Quiet);
    }

    method Add(ghost p: nat, ghost todo: seq<EventId>, event: EventId)
      requires db.At(p, Relaying(todo)) && todo != [] && todo[0] == event && event in db.outbox
      modifies db
      ensures db.At(p, RelayAdded(todo)) && old(db.trace) <= db.trace
      ensures db.rows == old(db.rows) && db.outbox == old(db.outbox)
      ensures db.queue == old(db.queue) + multiset{Job(db.outbox[event].transfer, 0)}
    {
      db.Call(RelayAdd(p), Some(p), RelayAdded(todo), KeepRows, AddJob(Job(db.outbox[event].transfer, 0)),
        EventAdded(event));
    }

    method MarkPublished(ghost p: nat, ghost todo: seq<EventId>, event: EventId)
      requires db.At(p, RelayAdded(todo)) && todo != [] && todo[0] == event && event in db.outbox
      modifies db
      ensures db.At(p, Relaying(todo[1..])) && old(db.trace) <= db.trace
      ensures db.rows == old(db.rows) && db.queue == old(db.queue)
      ensures db.outbox == old(db.outbox)[event := old(db.outbox)[event].(pending := false)]
    {
      db.Call(RelayMark(p), Some(p), Relaying(todo[1..]), KeepRows, KeepJobs, EventMarked(event));
    }

    /** The pass is over; `lost` when it was cut off between add and mark. */
    method Leave(ghost p: nat, lost: bool)
      requires db.Valid() && p < |db.machine.procs| && lost == db.machine.procs[p].RelayAdded?
      modifies db
      ensures db.Valid() && db.rows == old(db.rows) && db.outbox == old(db.outbox) && db.queue == old(db.queue)
      ensures db.trace == old(db.trace) + [Crash(p)]
    {
      db.Call(Crash(p), Some(p), Ended, KeepRows, KeepJobs, if lost then RelayLost else ActorLost);
    }

    /** The relay is about to handle event `i` of the batch it found in `outbox`. */
    ghost predicate Progress(p: nat, outbox: map<EventId, Event>, queue: multiset<Job>, batch: seq<EventId>, i: nat)
      requires i <= |batch| && forall k :: 0 <= k < |batch| ==> batch[k] in outbox
      reads db
    {
      && db.At(p, Relaying(batch[i..]))
      && db.outbox == Drain.Publish(outbox, batch[..i])
      && db.queue == queue + JobsFor(outbox, batch[..i])
    }

    method PublishOne(ghost p: nat, ghost outbox: map<EventId, Event>, ghost queue: multiset<Job>,
      batch: seq<EventId>, i: nat, marks: bool)
      requires Publishable(outbox, batch) && i < |batch| && Progress(p, outbox, queue, batch, i)
      modifies db
      ensures db.Valid() && db.rows == old(db.rows) && p < |db.machine.procs| && old(db.trace) <= db.trace
      ensures marks ==> Progress(p, outbox, queue, batch, i + 1)
      ensures !marks ==> db.machine.procs[p].RelayAdded?
      ensures !marks ==>
                && db.outbox == Drain.Publish(outbox, batch[..i])
                && db.queue == queue + JobsFor(outbox, batch[..i + 1])
    {
      PublishedNext(outbox, batch, i);
      Add(p, batch[i..], batch[i]);
      if marks {
        MarkPublished(p, batch[i..], batch[i]);
        assert batch[i..][1..] == batch[i + 1..];
      }
    }

    method PublishBatch(ghost p: nat, batch: seq<EventId>, fault: Fault)
      requires Publishable(db.outbox, batch) && db.At(p, Relaying(batch))
      modifies db
      ensures db.Valid() && db.rows == old(db.rows) && p < |db.machine.procs| && old(db.trace) <= db.trace
      ensures db.machine.procs[p].RelayAdded? == (fault.OnMark? && fault.event < |batch|)
      ensures fault == NoFault ==> db.machine.procs[p] == Relaying([])
      ensures db.outbox == Drain.Publish(old(db.outbox), batch[..Handled(fault, |batch|)])
      ensures db.queue == old(db.queue) + JobsFor(old(db.outbox), batch[..Enqueued(fault, |batch|)])
    {
      var done := Handled(fault, |batch|);
      PublishFirst(p, batch, done);
      var half := fault.OnMark? && fault.event < |batch|;
      assert Enqueued(fault, |batch|) == if half then done + 1 else done;
      if half {
        PublishOne(p, old(db.outbox), old(db.queue), batch, done, false);
      }
    }

    method PublishFirst(ghost p: nat, batch: seq<EventId>, done: nat)
      requires Publishable(db.outbox, batch) && db.At(p, Relaying(batch)) && done <= |batch|
      modifies db
      ensures db.rows == old(db.rows) && old(db.trace) <= db.trace
              && Progress(p, old(db.outbox), old(db.queue), batch, done)
    {
      NothingPublished(db.outbox, batch);
      for i := 0 to done
        invariant db.rows == old(db.rows) && old(db.trace) <= db.trace
                  && Progress(p, old(db.outbox), old(db.queue), batch, i)
      {
        PublishOne(p, old(db.outbox), old(db.queue), batch, i, true);
      }
    }

    /** `relay`: publish, then mark, each event of the batch in turn; an error ends the pass
        and the flag is released. */
    method Relay(batch: seq<EventId>, fault: Fault) returns (ghost leg: seq<Step>)
      requires db.Valid() && IsRelayBatch(db.outbox, batch)
      modifies this, db
      ensures db.Valid() && relaying == old(relaying)
      ensures db.rows == old(db.rows)
      ensures old(relaying) ==> db.outbox == old(db.outbox) && db.queue == old(db.queue)
      ensures !old(relaying) ==>
                && db.outbox == Drain.Publish(old(db.outbox), batch[..Handled(fault, |batch|)])
                && db.queue == old(db.queue) + JobsFor(old(db.outbox), batch[..Enqueued(fault, |batch|)])
      ensures !old(relaying) && fault == NoFault ==> Drain.IsPass(db.cfg, old(db.machine), db.machine, batch, leg)
      // the first `marked` events of the batch are PUBLISHED, the first `added` have their job on the queue
      ensures !old(relaying) ==>
                var n := |batch|;
                var marked := if fault.OnAdd? && fault.event < n then fault.event
                              else if fault.OnMark? && fault.event < n then fault.event else n;
                var added := if fault.OnMark? && fault.event < n then marked + 1 else marked;
                && db.outbox.Keys == old(db.outbox).Keys
                && (forall e :: e in db.outbox ==>
                      db.outbox[e] == old(db.outbox)[e].(pending := old(db.outbox)[e].pending && e !in batch[..marked]))
                && (forall k :: 0 <= k < n ==> batch[k] in old(db.outbox))
                && (forall k :: 0 <= k < added ==> Job(old(db.outbox)[batch[k]].transfer, 0) in db.queue)
                && old(db.queue) <= db.queue && |db.queue| == |old(db.queue)| + added
    {
      leg := [];
      if relaying { return; }
      relaying := true;
      JobsAreAdded(db.outbox, batch, Enqueued(fault, |batch|));
      leg := FindAndPublish(batch, fault);
      relaying := false;
    }

    method FindAndPublish(batch: seq<EventId>, fault: Fault) returns (ghost leg: seq<Step>)
      requires db.Valid() && IsRelayBatch(db.outbox, batch)
      modifies db
      ensures db.Valid() && db.rows == old(db.rows)
      ensures db.outbox == Drain.Publish(old(db.outbox), batch[..Handled(fault, |batch|)])
      ensures db.queue == old(db.queue) + JobsFor(old(db.outbox), batch[..Enqueued(fault, |batch|)])
      ensures fault == NoFault ==> Drain.IsPass(db.cfg, old(db.machine), db.machine, batch, leg)
    {
      ghost var before := db.trace;
      db.StoresShowARun();
      ghost var published := PublishFound(batch, fault);
      db.StoresShowARun();
      ghost var start := before + [StartRelay(batch)];
      leg := db.trace[|start|..];
      RunSnoc(db.cfg, Init(), before, StartRelay(batch));
      RunBetween(db.cfg, Init(), start, db.trace);
      RunToPrefix(db.cfg, Init(), start, published, db.trace);
      if fault == NoFault {
        Drain.PassShown(db.cfg, old(db.machine), Run(db.cfg, Init(), published), db.machine, batch, leg,
          |published| - |start|);
      }
    }

    method PublishFound(batch: seq<EventId>, fault: Fault) returns (ghost published: seq<Step>)
      requires db.Valid() && IsRelayBatch(db.outbox, batch)
      modifies db
      ensures db.Valid() && db.rows == old(db.rows)
      ensures db.outbox == Drain.Publish(old(db.outbox), batch[..Handled(fault, |batch|)])
      ensures db.queue == old(db.queue) + JobsFor(old(db.outbox), batch[..Enqueued(fault, |batch|)])
      ensures old(db.trace) + [StartRelay(batch)] <= published <= db.trace
      ensures fault == NoFault ==> Drain.WorkedOff(Run(db.cfg, Init(), published), old(|db.machine.procs|))
    {
      ghost var p := Find(batch);
      PublishBatch(p, batch, fault);
      db.StoresShowARun();
      published := db.trace;
      Leave(p, fault.OnMark? && fault.event < |batch|);
    }
  }

  predicate Publishable(outbox: map<EventId, Event>, batch: seq<EventId>)
  {
    && (forall i :: 0 <= i < |batch| ==> batch[i] in outbox)
    && (forall i, j :: 0 <= i < j < |batch| ==> batch[i] != batch[j])
  }

  lemma NothingPublished(outbox: map<EventId, Event>, batch: seq<EventId>)
    ensures batch[0..] == batch && Drain.Publish(outbox, batch[..0]) == outbox
            && JobsFor(outbox, batch[..0]) == multiset{}
  {
  }

  lemma PublishedNext(outbox: map<EventId, Event>, batch: seq<EventId>, i: nat)
    requires Publishable(outbox, batch) && i < |batch|
    ensures var before := Drain.Publish(outbox, batch[..i]);
            && batch[i] in before && before[batch[i]] == outbox[batch[i]]
            && Drain.Publish(outbox, batch[..i + 1]) == before[batch[i] := before[batch[i]].(pending := false)]
            && JobsFor(outbox, batch[..i + 1]) == JobsFor(outbox, batch[..i])
               + multiset{Job(before[batch[i]].transfer, 0)}
  {
    assert batch[..i + 1][..i] == batch[..i];
    assert forall e :: e in batch[..i + 1] <==> e in batch[..i] || e == batch[i];
  }

  // ---------------------------------------------------------------- recovery sweep

  /** Only actor `p` moved. */
  predicate OnlyActor(before: seq<Proc>, after: seq<Proc>, p: nat)
  {
    |after| == |before| && forall i :: 0 <= i < |before| && i != p ==> after[i] == before[i]
  }

  lemma OnlyLastMoved(before: seq<Proc>, found: seq<Proc>, after: seq<Proc>)
    requires |found| == |before| + 1 && found == before + [found[|before|]] && OnlyActor(found, after, |before|)
    ensures after == before + [after[|before|]]
  {
  }

  predicate Recoverable(t: Table, batch: seq<Id>)
  {
    && (forall i :: 0 <= i < |batch| ==> batch[i] in t)
    && (forall i, j :: 0 <= i < j < |batch| ==> batch[i] != batch[j])
  }

  /** The jobs a sweep puts back: one for each transfer with retries left. */
  function RequeuedJobs(max: nat, t: Table, batch: seq<Id>): multiset<Job>
    requires forall i :: 0 <= i < |batch| ==> batch[i] in t
  {
    if batch == [] then multiset{}
    else
      var init, last := batch[..|batch| - 1], batch[|batch| - 1];
      RequeuedJobs(max, t, init) + if t[last].attempts < max then multiset{Job(last, 0)} else multiset{}
  }

  /** One job each for the transfers with retries left, and none for the others. */
  lemma {:induction false} OneJobPerRequeue(max: nat, t: Table, batch: seq<Id>, job: Job)
    requires Recoverable(t, batch)
    ensures RequeuedJobs(max, t, batch)[job] ==
            if job.made == 0 && job.id in batch && t[job.id].attempts < max then 1 else 0
  {
    if batch != [] {
      var init, last := batch[..|batch| - 1], batch[|batch| - 1];
      OneJobPerRequeue(max, t, init, job);
      assert batch == init + [last] && last !in init;
    }
  }

  /** After a sweep over `batch`: the transfers without retries left are FAILED, and no other
      row changed. */
  ghost predicate SweptTo(max: nat, before: Table, after: Table, batch: seq<Id>)
  {
    && after.Keys == before.Keys
    && (forall id :: id in before && id in batch && before[id].attempts >= max ==>
          after[id] == AsFailed(before[id], GAVE_UP, after[id].updatedAt))
    && (forall id :: id in before && (id !in batch || before[id].attempts < max) ==> after[id] == before[id])
  }

  lemma SweptOneMore(max: nat, before: Table, mid: Table, batch: seq<Id>, n: nat, now: nat)
    requires Recoverable(before, batch) && n < |batch|
    requires SweptTo(max, before, mid, batch[..n])
    ensures var exhausted := before[batch[n]].attempts >= max;
            && SweptTo(max, before, if exhausted then MarkFailed(mid, batch[n], GAVE_UP, now) else mid, batch[..n + 1])
            && RequeuedJobs(max, before, batch[..n + 1])
               == RequeuedJobs(max, before, batch[..n]) + if exhausted then multiset{} else multiset{Job(batch[n], 0)}
  {
    assert batch[..n + 1][..n] == batch[..n];
    assert forall id :: id in batch[..n + 1] <==> id in batch[..n] || id == batch[n];
    assert mid[batch[n]] == before[batch[n]];
  }

  /** The rows that the query may return. */
  lemma StuckBatchIs(t: Table, staleBefore: nat, limit: nat, batch: seq<Id>)
    requires IsStuckBatch(t, staleBefore, limit, batch)
    ensures Recoverable(t, batch)
    ensures forall i :: 0 <= i < |batch| ==>
              && batch[i] in t && (t[batch[i]].status == Pending || t[batch[i]].status == Processing)
              && t[batch[i]].updatedAt < staleBefore
    ensures forall i, j :: 0 <= i < j < |batch| ==> t[batch[i]].updatedAt <= t[batch[j]].updatedAt
    ensures forall id :: id in t && id !in batch && t[id].updatedAt < staleBefore ==>
              t[id].status == Pending || t[id].status == Processing ==>
                |batch| == limit && forall i :: 0 <= i < |batch| ==> t[batch[i]].updatedAt <= t[id].updatedAt
  {
    var m := map id | id in t && Stuck(t[id], staleBefore) :: t[id];
    assert IsOldest(m, (r: Row) => r.updatedAt, limit, batch);
    forall i | 0 <= i < |batch| ensures batch[i] in t && t[batch[i]] == m[batch[i]] && Stuck(t[batch[i]], staleBefore) {
      assert batch[i] in m;
    }
    forall id | id in m && id !in batch
      ensures |batch| == limit && forall i :: 0 <= i < |batch| ==> t[batch[i]].updatedAt <= t[id].updatedAt
    {
      if |batch| < limit { OldestIsAll(m, (r: Row) => r.updatedAt, limit, batch, id); }
      assert forall i :: 0 <= i < |batch| ==> m[batch[i]].updatedAt <= m[id].updatedAt;
    }
  }

  lemma SweepMeans(max: nat, before: Table, after: Table, batch: seq<Id>, n: nat)
    requires n <= |batch| && Recoverable(before, batch) && SweptTo(max, before, after, batch[..n])
    ensures after.Keys == before.Keys
    ensures forall i :: 0 <= i < n && before[batch[i]].attempts >= max ==>
              after[batch[i]].status == Failed && after[batch[i]].errorLog == Some(GAVE_UP)
    ensures forall id :: id in before && (id !in batch[..n] || before[id].attempts < max) ==> after[id] == before[id]
    ensures forall job :: RequeuedJobs(max, before, batch[..n])[job]
                          == if job.made == 0 && job.id in batch[..n] && before[job.id].attempts < max then 1 else 0
  {
    forall i | 0 <= i < n && before[batch[i]].attempts >= max
      ensures after[batch[i]].status == Failed && after[batch[i]].errorLog == Some(GAVE_UP)
    {
      assert batch[..n][i] in batch[..n];
    }
    forall job ensures RequeuedJobs(max, before, batch[..n])[job]
                       == if job.made == 0 && job.id in batch[..n] && before[job.id].attempts < max then 1 else 0
    {
      OneJobPerRequeue(max, before, batch[..n], job);
    }
  }

  lemma NextOfSnapshot(t: Table, batch: seq<Id>, n: nat)
    requires Recoverable(t, batch) && n < |batch|
    ensures var stuck := Snapshot(t, batch)[n..];
            && stuck != [] && stuck[0] == Seen(batch[n], t[batch[n]].updatedAt, t[batch[n]].attempts)
            && stuck[1..] == Snapshot(t, batch)[n + 1..]
  {
  }

  lemma RequeuedCount(max: nat, t: Table, batch: seq<Id>, n: nat)
    requires Recoverable(t, batch) && n < |batch|
    ensures |RequeuedJobs(max, t, batch[..n + 1])| == |RequeuedJobs(max, t, batch[..n])|
            + if t[batch[n]].attempts < max then 1 else 0
  {
    assert batch[..n + 1][..n] == batch[..n];
  }

  class RecoveryService {
    const db: Backend
    const enabled: bool
    var running: bool

    constructor (db: Backend, enabled: bool)
      ensures this.db == db && this.enabled == enabled && !running
    {
      this.db, this.enabled, running := db, enabled, false;
    }

    method FindStuck(staleBefore: nat, batch: seq<Id>) returns (ghost p: nat)
      requires db.Valid() && IsStuckBatch(db.rows, staleBefore, db.cfg.sweepBatch, batch)
      modifies db
      ensures Recoverable(old(db.rows), batch) && db.rows == old(db.rows) && db.queue == old(db.queue)
      ensures p == old(|db.machine.procs|) && |db.machine.procs| == p + 1
      ensures db.machine.procs == old(db.machine.procs) + [db.machine.procs[p]]
      ensures db.At(p, Sweeping(Snapshot(db.rows, batch))) && Progress(p, db.rows, db.queue, batch, 0)
    {
      p := |db.machine.procs|;
      assert Snapshot(db.rows, batch)[0..] == Snapshot(db.rows, batch) && batch[..0] == [];
      db.Call(StartSweep(staleBefore, batch), Some(p), Sweeping(Snapshot(db.rows, batch)), KeepRows, KeepJobs, Quiet);
    }

    method GiveUp(ghost p: nat, ghost stuck: seq<Seen>, id: Id)
      requires db.At(p, Sweeping(stuck)) && stuck != [] && stuck[0].id == id && stuck[0].attempts >= db.cfg.attempts
      modifies db
      ensures db.At(p, Sweeping(stuck[1..])) && OnlyActor(old(db.machine.procs), db.machine.procs, p)
              && db.queue == old(db.queue)
      ensures db.rows == MarkFailed(old(db.rows), id, GAVE_UP, old(db.clock))
    {
      db.Call(SweepOne(p), Some(p), Sweeping(stuck[1..]), ToFailed(id, GAVE_UP), KeepJobs, Quiet);
    }

    method Requeue(ghost p: nat, ghost stuck: seq<Seen>, id: Id)
      requires db.At(p, Sweeping(stuck)) && stuck != [] && stuck[0].id == id && stuck[0].attempts < db.cfg.attempts
      modifies db
      ensures db.At(p, Sweeping(stuck[1..])) && OnlyActor(old(db.machine.procs), db.machine.procs, p)
              && db.rows == old(db.rows)
      ensures db.queue == old(db.queue) + multiset{Job(id, 0)}
    {
      db.Call(SweepOne(p), Some(p), Sweeping(stuck[1..]), KeepRows, AddJob(Job(id, 0)), Quiet);
    }

    ghost predicate Progress(p: nat, before: Table, queue: multiset<Job>, batch: seq<Id>, n: nat)
      requires n <= |batch| && Recoverable(before, batch)
      reads db
    {
      && db.At(p, Sweeping(Snapshot(before, batch)[n..]))
      && SweptTo(db.cfg.attempts, before, db.rows, batch[..n])
      && db.queue == queue + RequeuedJobs(db.cfg.attempts, before, batch[..n])
    }

    method RecoverOne(ghost p: nat, before: Table, ghost queue: multiset<Job>, batch: seq<Id>, n: nat)
      returns (failed: bool)
      requires Recoverable(before, batch) && n < |batch| && Progress(p, before, queue, batch, n)
      modifies db
      ensures Progress(p, before, queue, batch, n + 1) && OnlyActor(old(db.machine.procs), db.machine.procs, p)
      ensures failed <==> before[batch[n]].attempts >= db.cfg.attempts
    {
      ghost var stuck := Snapshot(before, batch)[n..];
      NextOfSnapshot(before, batch, n);
      SweptOneMore(db.cfg.attempts, before, db.rows, batch, n, db.clock);
      failed := before[batch[n]].attempts >= db.cfg.attempts;
      Recover(p, stuck, batch[n], failed);
    }

    /** FAILED or back on the queue. */
    method Recover(ghost p: nat, ghost stuck: seq<Seen>, id: Id, exhausted: bool)
      requires db.At(p, Sweeping(stuck)) && stuck != [] && stuck[0].id == id
      requires exhausted <==> stuck[0].attempts >= db.cfg.attempts
      modifies db
      ensures db.At(p, Sweeping(stuck[1..])) && OnlyActor(old(db.machine.procs), db.machine.procs, p)
      ensures db.rows == if exhausted then MarkFailed(old(db.rows), id, GAVE_UP, old(db.clock)) else old(db.rows)
      ensures db.queue == old(db.queue) + if exhausted then multiset{} else multiset{Job(id, 0)}
    {
      if exhausted { GiveUp(p, stuck, id); } else { Requeue(p, stuck, id); }
    }

    /** The first `n` of the stuck transfers, in order. */
    method RecoverFirst(ghost p: nat, before: Table, batch: seq<Id>, n: nat) returns (requeued: nat, failed: nat)
      requires Recoverable(before, batch) && n <= |batch| && Progress(p, before, db.queue, batch, 0)
      modifies db
      ensures Progress(p, before, old(db.queue), batch, n) && OnlyActor(old(db.machine.procs), db.machine.procs, p)
      ensures requeued == |RequeuedJobs(db.cfg.attempts, before, batch[..n])| && failed == n - requeued
    {
      requeued, failed := 0, 0;
      for i := 0 to n
        invariant Progress(p, before, old(db.queue), batch, i) && OnlyActor(old(db.machine.procs), db.machine.procs, p)
        invariant requeued == |RequeuedJobs(db.cfg.attempts, before, batch[..i])| && failed == i - requeued
      {
        RequeuedCount(db.cfg.attempts, before, batch, i);
        var gone := RecoverOne(p, before, old(db.queue), batch, i);
        if gone { failed := failed + 1; } else { requeued := requeued + 1; }
      }
    }

    /** The sweep is over, whether or not it reached its last row. */
    method Leave(ghost p: nat)
      requires db.Valid() && p < |db.machine.procs| && db.machine.procs[p].Sweeping?
      modifies db
      ensures db.At(p, Ended) && OnlyActor(old(db.machine.procs), db.machine.procs, p)
      ensures db.rows == old(db.rows) && db.queue == old(db.queue)
    {
      db.Call(Crash(p), Some(p), Ended, KeepRows, KeepJobs, ActorLost);
    }

    /** `sweep`, cut off by an error after `reach` rows. */
    method Sweep(staleBefore: nat, batch: seq<Id>, reach: nat) returns (requeued: nat, failed: nat)
      requires db.Valid() && IsStuckBatch(db.rows, staleBefore, db.cfg.sweepBatch, batch)
      modifies this, db
      ensures db.Valid() && running == old(running)
      ensures !enabled || old(running) ==>
                requeued == failed == 0 && db.rows == old(db.rows) && db.queue == old(db.queue)
      ensures enabled && !old(running) ==>
                && requeued + failed == (if reach < |batch| then reach else |batch|)
                && |db.queue| == |old(db.queue)| + requeued
      ensures enabled && !old(running) ==> db.machine.procs == old(db.machine.procs) + [Ended]
      // which rows: open, not written since `staleBefore`, oldest first, all of them if they are fewer than a batch
      ensures var t := old(db.rows);
              && (forall i :: 0 <= i < |batch| ==> batch[i] in t)
              && (forall i :: 0 <= i < |batch| ==>
                    && (t[batch[i]].status == Pending || t[batch[i]].status == Processing)
                    && t[batch[i]].updatedAt < staleBefore)
              && (forall i, j :: 0 <= i < j < |batch| ==> t[batch[i]].updatedAt <= t[batch[j]].updatedAt)
              && (forall id :: id in t && id !in batch && t[id].updatedAt < staleBefore ==>
                    t[id].status == Pending || t[id].status == Processing ==>
                      && |batch| == db.cfg.sweepBatch
                      && forall i :: 0 <= i < |batch| ==> t[batch[i]].updatedAt <= t[id].updatedAt)
      // what happens to them, and that nothing happens to the others
      ensures enabled && !old(running) ==>
                var t, n := old(db.rows), if reach < |batch| then reach else |batch|;
                && db.rows.Keys == t.Keys && (forall i :: 0 <= i < |batch| ==> batch[i] in t)
                && (forall i :: 0 <= i < n && t[batch[i]].attempts >= db.cfg.attempts ==>
                      db.rows[batch[i]].status == Failed && db.rows[batch[i]].errorLog == Some(GAVE_UP))
                && (forall id :: id in t && (id !in batch[..n] || t[id].attempts < db.cfg.attempts) ==>
                   db.rows[id] == t[id])
                && (forall job :: db.queue[job] == old(db.queue)[job]
                      + if job.made == 0 && job.id in batch[..n] && t[job.id].attempts < db.cfg.attempts then 1 else 0)
    {
      StuckBatchIs(db.rows, staleBefore, db.cfg.sweepBatch, batch);
      if !enabled || running { return 0, 0; }
      running := true;
      requeued, failed := SweepFound(staleBefore, batch, if reach < |batch| then reach else |batch|);
      running := false;
    }

    method SweepFound(staleBefore: nat, batch: seq<Id>, n: nat) returns (requeued: nat, failed: nat)
      requires db.Valid() && IsStuckBatch(db.rows, staleBefore, db.cfg.sweepBatch, batch) && n <= |batch|
      modifies db
      ensures db.Valid() && db.machine.procs == old(db.machine.procs) + [Ended]
      ensures Recoverable(old(db.rows), batch) && SweptTo(db.cfg.attempts, old(db.rows), db.rows, batch[..n])
      ensures var jobs := RequeuedJobs(db.cfg.attempts, old(db.rows), batch[..n]);
              db.queue == old(db.queue) + jobs && requeued == |jobs| && failed == n - |jobs|
      ensures var t := old(db.rows);
              && db.rows.Keys == t.Keys
              && (forall i :: 0 <= i < n && t[batch[i]].attempts >= db.cfg.attempts ==>
                    db.rows[batch[i]].status == Failed && db.rows[batch[i]].errorLog == Some(GAVE_UP))
              && (forall id :: id in t && (id !in batch[..n] || t[id].attempts < db.cfg.attempts) ==>
                 db.rows[id] == t[id])
              && (forall job :: db.queue[job] == old(db.queue)[job]
                    + if job.made == 0 && job.id in batch[..n] && t[job.id].attempts < db.cfg.attempts then 1 else 0)
    {
      ghost var p := FindStuck(staleBefore, batch);
      ghost var found := db.machine.procs;
      requeued, failed := RecoverFirst(p, db.rows, batch, n);
      Leave(p);
      OnlyLastMoved(old(db.machine.procs), found, db.machine.procs);
      SweepMeans(db.cfg.attempts, old(db.rows), db.rows, batch, n);
    }
  }

  // ---------------------------------------------------------------- management API

  /** The jobs that a management call enqueues. */
  function FreshJobs(ids: seq<Id>): multiset<Job>
  {
    if ids == [] then multiset{} else multiset{Job(ids[0], 0)} + FreshJobs(ids[1..])
  }

  lemma RestOfJobs(ids: seq<Id>, i: nat)
    requires i < |ids|
    ensures ids[i..] != [] && ids[i..][0] == ids[i] && ids[i..][1..] == ids[i + 1..]
    ensures FreshJobs(ids[i..]) == multiset{Job(ids[i], 0)} + FreshJobs(ids[i + 1..])
  {
  }

  lemma ResetOneRow(t: Table, id: Id, now: nat)
    requires id in t
    ensures Reset(t, ToSet([id]), now) == t[id := AsReset(t[id], now)]
  {
  }

  lemma OneFreshJob(id: Id)
    ensures FreshJobs([id]) == multiset{Job(id, 0)}
  {
    assert [id][1..] == [];
  }

  /** One job for each of the different transfers. */
  lemma {:induction false} OneJobPerReset(ids: seq<Id>, job: Job)
    requires forall i, j :: 0 <= i < j < |ids| ==> ids[i] != ids[j]
    ensures FreshJobs(ids)[job] == if job.made == 0 && job.id in ids then 1 else 0
  {
    if ids != [] {
      OneJobPerReset(ids[1..], job);
      assert ids == [ids[0]] + ids[1..] && ids[0] !in ids[1..];
    }
  }

  class TransfersService {
    const db: Backend

    constructor (db: Backend)
      ensures this.db == db
    {
      this.db := db;
    }

    method FindOne(id: Id) returns (ghost p: nat, ghost row: Seen)
      requires db.Valid() && id in db.rows && db.rows[id].status != Success
      modifies db
      ensures db.At(p, RetryFound(row)) && row.id == id
      ensures db.rows == old(db.rows) && db.queue == old(db.queue) && db.clock == old(db.clock) + 1
      ensures p == old(|db.machine.procs|) && db.machine.procs == old(db.machine.procs) + [RetryFound(row)]
    {
      p, row := |db.machine.procs|, Seen(id, db.rows[id].updatedAt, db.rows[id].attempts);
      db.Call(StartRetry(id), Some(p), RetryFound(row), KeepRows, KeepJobs, Quiet);
    }

    /** The update, and for an admin the read that follows it as a call of its own. */
    method ResetOne(ghost p: nat, ghost row: Seen, id: Id, scoped: bool)
      requires db.At(p, RetryFound(row)) && row.id == id && id in db.rows
      modifies db
      ensures db.At(p, if scoped then Enqueueing([id]) else Rereading(id)) && db.queue == old(db.queue)
      ensures db.rows == old(db.rows)[id := AsReset(old(db.rows)[id], old(db.clock))]
      ensures OnlyActor(old(db.machine.procs), db.machine.procs, p)
    {
      ResetOneRow(db.rows, id, db.clock);
      db.Call(RetryReset(p, scoped), Some(p), if scoped then Enqueueing([id]) else Rereading(id), ToPending([id]),
        KeepJobs, Quiet);
    }

    method ReadAgain(ghost p: nat, id: Id)
      requires db.At(p, Rereading(id)) && id in db.rows
      modifies db
      ensures db.At(p, Enqueueing([id])) && db.rows == old(db.rows) && db.queue == old(db.queue)
      ensures OnlyActor(old(db.machine.procs), db.machine.procs, p)
    {
      db.Call(Reread(p), Some(p), Enqueueing([id]), KeepRows, KeepJobs, Quiet);
    }

    method AddJobFor(ghost p: nat, ghost ids: seq<Id>, id: Id)
      requires db.At(p, Enqueueing(ids)) && ids != [] && ids[0] == id
      modifies db
      ensures db.At(p, Enqueueing(ids[1..]))
      ensures db.rows == old(db.rows) && db.queue == old(db.queue) + multiset{Job(id, 0)}
      ensures OnlyActor(old(db.machine.procs), db.machine.procs, p)
    {
      db.Call(Enqueue(p), Some(p), Enqueueing(ids[1..]), KeepRows, AddJob(Job(id, 0)), Quiet);
    }

    method EnqueueAll(ghost p: nat, ids: seq<Id>)
      requires db.At(p, Enqueueing(ids))
      modifies db
      ensures db.Valid() && db.rows == old(db.rows) && db.queue == old(db.queue) + FreshJobs(ids)
      ensures db.At(p, Enqueueing([])) && OnlyActor(old(db.machine.procs), db.machine.procs, p)
    {
      for i := 0 to |ids|
        invariant db.At(p, Enqueueing(ids[i..])) && db.rows == old(db.rows)
        invariant OnlyActor(old(db.machine.procs), db.machine.procs, p)
        invariant db.queue + FreshJobs(ids[i..]) == old(db.queue) + FreshJobs(ids)
      {
        RestOfJobs(ids, i);
        AddJobFor(p, ids[i..], ids[i]);
      }
    }

    /** `retry`: exactly what the scoped operation answers and writes, and one job. */
    method Retry(id: Id, user: Tenancy.User) returns (answer: Tenancy.Answer)
      requires db.Valid()
      modifies db
      ensures db.Valid()
      ensures var (expected, after) := Tenancy.Perform(
                Tenancy.Request(user, Tenancy.Retry(id), old(db.clock) + 1), Tenancy.Database(old(db.rows), []));
              answer == expected && db.rows == after.rows && db.queue == old(db.queue) + FreshJobs(after.jobs)
      // hidden, already SUCCESS, or driven again
      ensures var before := old(db.rows);
              var shown := id in before && (user.admin || user.tenant == "" || before[id].input.tenant == user.tenant);
              if !shown then answer == Tenancy.NotFound && db.rows == before && db.queue == old(db.queue)
              else if before[id].status == Success then
                answer == Tenancy.Conflict && db.rows == before && db.queue == old(db.queue)
              else
                && id in db.rows && answer == Tenancy.Found(db.rows[id])
                && db.rows[id] == before[id].(status := Pending, attempts := 0, errorLog := None,
                                              updatedAt := db.rows[id].updatedAt)
                && db.rows == before[id := db.rows[id]] && db.queue == old(db.queue) + multiset{Job(id, 0)}
                && db.machine.procs == old(db.machine.procs) + [Enqueueing([])]
    {
      Tenancy.RetryMeans(user, id, db.clock + 1, Tenancy.Database(db.rows, []));
      Tenancy.SeesExactly(user, db.rows, id);
      var seen := Tenancy.Visible(Tenancy.Setting(user), db.rows);
      if id !in seen { return Tenancy.NotFound; }
      if seen[id].status == Success { return Tenancy.Conflict; }
      answer := ResetAndEnqueue(id, user.admin);
    }

    /** A retry that was let through. */
    method ResetAndEnqueue(id: Id, admin: bool) returns (answer: Tenancy.Answer)
      requires db.Valid() && id in db.rows && db.rows[id].status != Success
      modifies db
      ensures db.Valid() && db.queue == old(db.queue) + multiset{Job(id, 0)}
      ensures var row := old(db.rows)[id].(status := Pending, attempts := 0, errorLog := None,
              updatedAt := old(db.clock) + 1);
              answer == Tenancy.Found(row) && db.rows == old(db.rows)[id := row]
      ensures db.machine.procs == old(db.machine.procs) + [Enqueueing([])]
    {
      ghost var p, row := FindOne(id);
      ghost var found := db.machine.procs;
      ResetOne(p, row, id, !admin);
      if admin { ReadAgain(p, id); }
      answer := Tenancy.Found(db.rows[id]);
      EnqueueAll(p, [id]);
      OneFreshJob(id);
      OnlyLastMoved(old(db.machine.procs), found, db.machine.procs);
    }

    method FindBatch(user: Tenancy.User, status: Status, before: Option<nat>, limit: nat, batch: seq<Id>)
      returns (ghost p: nat)
      requires db.Valid() && status != Success && batch != []
      requires IsRetryBatch(Tenancy.Visible(Tenancy.Setting(user), db.rows), status, before, limit, batch)
      modifies db
      ensures forall i :: 0 <= i < |batch| ==>
                batch[i] in db.rows && batch[i] in Tenancy.Visible(Tenancy.Setting(user), db.rows)
      ensures db.rows == old(db.rows) && db.queue == old(db.queue)
      ensures db.At(p, Resetting(Snapshot(db.rows, batch), [])) && db.clock == old(db.clock) + 1
      ensures p == old(|db.machine.procs|) && |db.machine.procs| == p + 1
      ensures db.machine.procs == old(db.machine.procs) + [db.machine.procs[p]]
    {
      p := |db.machine.procs|;
      ghost var visible := Tenancy.Visible(Tenancy.Setting(user), db.rows);
      assert Restrict(db.rows, visible.Keys) == visible;
      db.Call(StartBatch(visible.Keys, status, before, limit, batch), Some(p), Resetting(Snapshot(db.rows, batch), []),
              KeepRows, KeepJobs, Quiet);
    }

    /** The updates of a tenant's transaction, visible together at its commit. */
    method ResetAll(ghost p: nat, ghost rows: seq<Seen>, ids: seq<Id>)
      requires db.At(p, Resetting(rows, [])) && rows != [] && Ids(rows) == ids
      modifies db
      ensures db.At(p, Enqueueing(ids)) && db.queue == old(db.queue)
      ensures db.rows == Reset(old(db.rows), ToSet(ids), old(db.clock))
      ensures OnlyActor(old(db.machine.procs), db.machine.procs, p)
    {
      assert rows[..|rows|] == rows && [] + ids == ids;
      db.Call(BatchReset(p, |ids|), Some(p), Enqueueing(ids), ToPending(ids), KeepJobs, Quiet);
    }

    /** One update outside a transaction. */
    method ResetNext(ghost p: nat, ghost rows: seq<Seen>, collected: seq<Id>, id: Id)
      requires db.At(p, Resetting(rows, collected)) && rows != [] && rows[0].id == id
      modifies db
      ensures db.At(p, if |rows| == 1 then Enqueueing(collected + [id]) else Resetting(rows[1..], collected + [id]))
      ensures db.rows == Reset(old(db.rows), {id}, old(db.clock)) && db.queue == old(db.queue)
      ensures OnlyActor(old(db.machine.procs), db.machine.procs, p)
    {
      assert Ids(rows[..1]) == [id] && ToSet([id]) == {id};
      db.Call(BatchReset(p, 1), Some(p), if |rows| == 1 then Enqueueing(collected + [id])
        else Resetting(rows[1..], collected + [id]),
              ToPending([id]), KeepJobs, Quiet);
    }

    /** An admin's loop of updates. */
    method ResetEach(ghost p: nat, ids: seq<Id>)
      requires ids != [] && (forall i :: 0 <= i < |ids| ==> ids[i] in db.rows)
      requires db.At(p, Resetting(Snapshot(db.rows, ids), []))
      modifies db
      ensures db.At(p, Enqueueing(ids)) && db.queue == old(db.queue) && ResetTo(old(db.rows), db.rows, ids)
      ensures OnlyActor(old(db.machine.procs), db.machine.procs, p)
    {
      ghost var before := db.rows;
      assert Snapshot(before, ids)[0..] == Snapshot(before, ids) && ids[..0] == [] && ids[..|ids|] == ids;
      for i := 0 to |ids|
        invariant ResetUpTo(p, before, ids, i) && db.queue == old(db.queue)
        invariant OnlyActor(old(db.machine.procs), db.machine.procs, p)
      {
        ResetNth(p, before, ids, i);
      }
    }

    /** The first `i` of the found rows are reset. */
    ghost predicate ResetUpTo(p: nat, before: Table, ids: seq<Id>, i: nat)
      requires i <= |ids| && forall i :: 0 <= i < |ids| ==> ids[i] in before
      reads db
    {
      && db.At(p, if i == |ids| then Enqueueing(ids[..i]) else Resetting(Snapshot(before, ids)[i..], ids[..i]))
      && ResetTo(before, db.rows, ids[..i])
    }

    method ResetNth(ghost p: nat, ghost before: Table, ids: seq<Id>, i: nat)
      requires i < |ids| && (forall i :: 0 <= i < |ids| ==> ids[i] in before) && ResetUpTo(p, before, ids, i)
      modifies db
      ensures ResetUpTo(p, before, ids, i + 1) && db.queue == old(db.queue)
      ensures OnlyActor(old(db.machine.procs), db.machine.procs, p)
    {
      ghost var rows := Snapshot(before, ids);
      ResetOneMore(before, db.rows, ids, i, db.clock);
      ResetNext(p, rows[i..], ids[..i], ids[i]);
      assert rows[i..][1..] == rows[i + 1..] && ids[..i] + [ids[i]] == ids[..i + 1];
    }

    /** The updates, one by one for an admin, and then the jobs. */
    method ResetFound(ghost p: nat, user: Tenancy.User, batch: seq<Id>)
      requires batch != []
      requires forall i :: 0 <= i < |batch| ==>
                 batch[i] in db.rows && batch[i] in Tenancy.Visible(Tenancy.Setting(user), db.rows)
      requires db.At(p, Resetting(Snapshot(db.rows, batch), []))
      modifies db
      ensures db.Valid() && db.queue == old(db.queue) + FreshJobs(batch)
      ensures Redriven(user, old(db.rows), db.rows, batch, old(db.clock))
      ensures db.At(p, Enqueueing([])) && OnlyActor(old(db.machine.procs), db.machine.procs, p)
    {
      ScopedResetIsReset(Tenancy.Setting(user), db.rows, batch, db.clock);
      if user.admin {
        ResetEach(p, batch);
      } else {
        ResetAll(p, Snapshot(db.rows, batch), batch);
      }
      EnqueueAll(p, batch);
    }

    /** `retryBatch`: the rows the scoped query found are reset and enqueued in that order. */
    method RetryBatch(status: Option<Status>, before: Option<nat>, limit: nat, batch: seq<Id>, user: Tenancy.User)
      returns (answer: Tenancy.Answer)
      requires db.Valid()
      requires var wanted := if status.Some? then status.value else Failed;
               wanted != Success ==>
                 IsRetryBatch(Tenancy.Visible(Tenancy.Setting(user), db.rows), wanted, before, limit, batch)
      modifies db
      ensures db.Valid()
      ensures answer == if status == Some(Success) then Tenancy.Conflict else Tenancy.Requeued(batch)
      ensures answer.Conflict? ==> db.rows == old(db.rows) && db.queue == old(db.queue)
      // which rows are taken, and that exactly these are reset and get one job each
      ensures answer.Requeued? ==>
                var t, wanted := old(db.rows), if status == None then Failed else status.value;
                && (forall i :: 0 <= i < |batch| ==>
                      && batch[i] in t && t[batch[i]].status == wanted
                      && (user.admin || user.tenant == "" || t[batch[i]].input.tenant == user.tenant)
                      && (before.Some? ==> t[batch[i]].updatedAt < before.value))
                && (forall i, j :: 0 <= i < j < |batch| ==> t[batch[i]].createdAt <= t[batch[j]].createdAt)
                && (forall id :: id in t && id !in batch && t[id].status == wanted ==>
                      (before.Some? ==> t[id].updatedAt < before.value) ==>
                      (user.admin || user.tenant == "" || t[id].input.tenant == user.tenant) ==>
                        |batch| == limit && forall i :: 0 <= i < |batch| ==> t[batch[i]].createdAt <= t[id].createdAt)
      ensures answer.Requeued? ==>
                && db.rows.Keys == old(db.rows).Keys
                && (forall id :: id in old(db.rows) && id !in batch ==> db.rows[id] == old(db.rows)[id])
                && (forall id :: id in old(db.rows) && id in batch ==>
                      && db.rows[id] == old(db.rows)[id].(status := Pending, attempts := 0, errorLog := None,
                                                          updatedAt := db.rows[id].updatedAt)
                      && (!user.admin ==> db.rows[id].updatedAt == old(db.clock) + 1))
                && (forall job :: db.queue[job]
                                  == old(db.queue)[job] + if job.made == 0 && job.id in batch then 1 else 0)
      ensures answer.Requeued? && batch != [] ==> db.machine.procs == old(db.machine.procs) + [Enqueueing([])]
    {
      var wanted := if status.Some? then status.value else Failed;
      if wanted == Success { return Tenancy.Conflict; }
      Tenancy.BatchTakes(user, wanted, before, limit, db.rows, batch);
      RedriveAll(user, wanted, before, limit, batch);
      return Tenancy.Requeued(batch);
    }

    method RedriveAll(user: Tenancy.User, status: Status, before: Option<nat>, limit: nat, batch: seq<Id>)
      requires db.Valid() && status != Success
      requires IsRetryBatch(Tenancy.Visible(Tenancy.Setting(user), db.rows), status, before, limit, batch)
      modifies db
      ensures db.Valid() && db.rows.Keys == old(db.rows).Keys
      ensures forall id :: id in old(db.rows) && id !in batch ==> db.rows[id] == old(db.rows)[id]
      ensures forall id :: id in old(db.rows) && id in batch ==>
                && db.rows[id] == old(db.rows)[id].(status := Pending, attempts := 0, errorLog := None,
                                                    updatedAt := db.rows[id].updatedAt)
                && (!user.admin ==> db.rows[id].updatedAt == old(db.clock) + 1)
      ensures forall job :: db.queue[job] == old(db.queue)[job] + if job.made == 0 && job.id in batch then 1 else 0
      ensures batch != [] ==> db.machine.procs == old(db.machine.procs) + [Enqueueing([])]
    {
      Tenancy.BatchTakes(user, status, before, limit, db.rows, batch);
      Redrive(user, status, before, limit, batch);
      RedrivenMeans(user, old(db.rows), db.rows, batch, old(db.clock) + 1);
      JobsPerReset(old(db.queue), batch);
    }

    method Redrive(user: Tenancy.User, status: Status, before: Option<nat>, limit: nat, batch: seq<Id>)
      requires db.Valid() && status != Success
      requires IsRetryBatch(Tenancy.Visible(Tenancy.Setting(user), db.rows), status, before, limit, batch)
      modifies db
      ensures db.Valid() && db.queue == old(db.queue) + FreshJobs(batch)
      ensures Redriven(user, old(db.rows), db.rows, batch, old(db.clock) + 1)
      ensures batch != [] ==> db.machine.procs == old(db.machine.procs) + [Enqueueing([])]
    {
      if batch == [] {
        NothingRedriven(user, db.rows, db.clock + 1);
      } else {
        FindAndReset(user, status, before, limit, batch);
      }
    }

    method FindAndReset(user: Tenancy.User, status: Status, before: Option<nat>, limit: nat, batch: seq<Id>)
      requires db.Valid() && status != Success && batch != []
      requires IsRetryBatch(Tenancy.Visible(Tenancy.Setting(user), db.rows), status, before, limit, batch)
      modifies db
      ensures db.Valid() && db.queue == old(db.queue) + FreshJobs(batch)
      ensures Redriven(user, old(db.rows), db.rows, batch, old(db.clock) + 1)
      ensures db.machine.procs == old(db.machine.procs) + [Enqueueing([])]
    {
      ghost var p := FindBatch(user, status, before, limit, batch);
      ghost var found := db.machine.procs;
      ResetFound(p, user, batch);
      OnlyLastMoved(old(db.machine.procs), found, db.machine.procs);
    }

    /** `download`: the bytes `Fetch` describes, for every chunking of the stored object; the
        request fails without bytes when the object is missing. */
    method Download(id: Id, user: Tenancy.User, chunks: seq<Bytes>)
      returns (bytes: Result<Option<Bytes>, Tenancy.Answer>)
      requires var seen := Tenancy.Visible(Tenancy.Setting(user), db.rows);
               id in seen && seen[id].objectKey.Some? ==>
                 var at := (seen[id].bucket, seen[id].objectKey.value);
                 at in db.objects ==> Concat(chunks) == db.objects[at]
      ensures var seen := Tenancy.Visible(Tenancy.Setting(user), db.rows);
              if id !in seen then bytes == Err(Tenancy.NotFound)
              else if seen[id].status != Success || seen[id].objectKey == None then bytes == Err(Tenancy.Conflict)
              else
                var at := (seen[id].bucket, seen[id].objectKey.value);
                bytes == Ok(if at !in db.objects then None
                            else EndToEnd.Fetch(db.cfg, seen[id].encrypted, seen[id].wrappedDek, db.objects[at]))
      ensures Faultless(db) && id in Tenancy.Visible(Tenancy.Setting(user), db.rows) && LastUploader(db.machine, id) ==>
                id in db.machine.log.bodies && bytes == Ok(Some(db.machine.log.bodies[id]))
    {
      if Faultless(db) && LastUploader(db.machine, id) { UploadReadsBack(db, id); }
      var seen := Tenancy.Visible(Tenancy.Setting(user), db.rows);
      if id !in seen { return Err(Tenancy.NotFound); }
      var row := seen[id];
      if row.status != Success || row.objectKey == None { return Err(Tenancy.Conflict); }
      if (row.bucket, row.objectKey.value) !in db.objects { return Ok(None); }
      if row.encrypted && row.wrappedDek.Some? {
        var dek := db.cfg.gcm.Decrypt(db.cfg.kek, row.wrappedDek.value);
        if dek == None { return Ok(None); }
        var plain := Envelope.DecryptChunks(db.cfg.gcm, dek.value, chunks);
        return Ok(plain);
      }
      return Ok(Some(Concat(chunks)));
    }
  }

  /** Everything the services did so far is a well-behaved run. */
  ghost predicate Faultless(db: Backend)
    reads db
  {
    db.Valid() && db.cfg.gcm.Valid() && ExactlyOnce.WellBehaved(db.cfg, Init(), db.trace)
  }

  /** The transfer is SUCCESS and was the last to write its object. */
  ghost predicate LastUploader(s: State, id: Id)
  {
    && id in s.rows && s.rows[id].status == Success && s.rows[id].objectKey.Some?
    && var at := (s.rows[id].bucket, s.rows[id].objectKey.value);
       at in s.log.uploader && s.log.uploader[at] == id
  }

  /** So its object decrypts to the bytes that its upload read. */
  lemma UploadReadsBack(db: Backend, id: Id)
    requires Faultless(db) && LastUploader(db.machine, id)
    ensures var row := db.rows[id];
            var at := (row.bucket, row.objectKey.value);
            && at in db.objects && id in db.machine.log.bodies
            && EndToEnd.Fetch(db.cfg, row.encrypted, row.wrappedDek, db.objects[at]) == Some(db.machine.log.bodies[id])
  {
    db.StoresShowARun();
    EndToEnd.DownloadReturnsTheUpload(db.cfg, db.trace, id);
  }

  /** The rows of `ids` are PENDING with no attempts, the others unchanged. */
  ghost predicate ResetTo(before: Table, after: Table, ids: seq<Id>)
  {
    && after.Keys == before.Keys
    && (forall id :: id in before && id in ids ==> after[id] == AsReset(before[id], after[id].updatedAt))
    && (forall id :: id in before && id !in ids ==> after[id] == before[id])
  }

  /** A batch retry: the rows found are reset; a tenant's are, in one transaction, those the
      policy lets it write. */
  ghost predicate Redriven(user: Tenancy.User, before: Table, after: Table, batch: seq<Id>, now: nat)
  {
    && ResetTo(before, after, batch)
    && (!user.admin ==> after == Tenancy.ScopedReset(Tenancy.Setting(user), before, ToSet(batch), now))
  }

  lemma RedrivenMeans(user: Tenancy.User, before: Table, after: Table, batch: seq<Id>, now: nat)
    requires Redriven(user, before, after, batch, now)
    requires forall i :: 0 <= i < |batch| ==>
               batch[i] in before && (user.admin || user.tenant == "" || before[batch[i]].input.tenant == user.tenant)
    ensures after.Keys == before.Keys
    ensures forall id :: id in before && id !in batch ==> after[id] == before[id]
    ensures forall id :: id in before && id in batch ==>
              && after[id] == before[id].(status := Pending, attempts := 0, errorLog := None,
                                          updatedAt := after[id].updatedAt)
              && (!user.admin ==> after[id].updatedAt == now)
  {
    Tenancy.BatchResets(user, before, batch, now);
  }

  lemma JobsPerReset(queue: multiset<Job>, batch: seq<Id>)
    requires forall i, j :: 0 <= i < j < |batch| ==> batch[i] != batch[j]
    ensures forall job :: (queue + FreshJobs(batch))[job]
                          == queue[job] + if job.made == 0 && job.id in batch then 1 else 0
  {
    forall job ensures FreshJobs(batch)[job] == if job.made == 0 && job.id in batch then 1 else 0 {
      OneJobPerReset(batch, job);
    }
  }

  lemma NothingRedriven(user: Tenancy.User, t: Table, now: nat)
    ensures Redriven(user, t, t, [], now)
  {
    ScopedResetIsReset(Tenancy.Setting(user), t, [], now);
  }

  lemma ResetOneMore(before: Table, mid: Table, ids: seq<Id>, i: nat, now: nat)
    requires i < |ids| && ResetTo(before, mid, ids[..i])
    ensures ResetTo(before, Reset(mid, {ids[i]}, now), ids[..i + 1])
    ensures ids[..i + 1] == ids[..i] + [ids[i]]
  {
    assert forall id :: id in ids[..i + 1] <==> id in ids[..i] || id == ids[i];
  }

  lemma ScopedResetIsReset(setting: Option<string>, t: Table, batch: seq<Id>, now: nat)
    requires forall i :: 0 <= i < |batch| ==> batch[i] in Tenancy.Visible(setting, t)
    ensures Tenancy.ScopedReset(setting, t, ToSet(batch), now) == Reset(t, ToSet(batch), now)
    ensures ResetTo(t, Reset(t, ToSet(batch), now), batch)
    ensures batch == [] ==> Reset(t, ToSet(batch), now) == t
  {
    assert ToSet(batch) * Tenancy.Visible(setting, t).Keys == ToSet(batch);
  }

  // ---------------------------------------------------------------- webhook and retention

  datatype AcceptOutcome = Accepted | Duplicate | Ignored

  class IngestionService {
    const db: Backend
    const dataRoot: seq<string>             // segments of the resolved data root
    const bucket: string
    const tenants: map<string, string>
    const defaultTenant: string
    const hash: string -> string

    constructor (db: Backend, root: string, bucket: string, tenants: map<string, string>,
      defaultTenant: string, hash: string -> string)
      ensures this.db == db && dataRoot == Paths.Normal(Paths.Split(root)) && Paths.Clean(dataRoot)
      ensures this.bucket == bucket && this.hash == hash
      ensures this.tenants == tenants && this.defaultTenant == defaultTenant
    {
      Paths.NormalIsClean(Paths.Split(root));
      this.db, this.dataRoot, this.bucket := db, Paths.Normal(Paths.Split(root)), bucket;
      this.tenants, this.defaultTenant, this.hash := tenants, defaultTenant, hash;
    }

    /** The normalised path extends the root, and its next segment does not begin with "..". */
    predicate Inside(path: string)
    {
      var to := Paths.Normal(Paths.Split(path));
      dataRoot <= to && (|to| > |dataRoot| ==> !(".." <= to[|dataRoot|]))
    }

    /** The hash of the five fields, joined. */
    function KeyOf(p: IdempotencyKey.Payload): string
    {
      hash(p.username + "|" + p.virtualPath + "|" + IdempotencyKey.Show(p.fileSize) + "|"
           + (if p.timestamp == None then "" else IdempotencyKey.Show(p.timestamp.value)) + "|"
           + (if p.sessionId == None then "" else p.sessionId.value))
    }

    lemma AcceptMeans(payload: IdempotencyKey.Payload, rows: Table)
      ensures Paths.Clean(dataRoot) ==>
                (Actionable(payload) <==>
                   && payload.action == "upload" && (payload.status == None || payload.status == Some(1))
                   && payload.path != "" && payload.path[0] == '/' && Inside(payload.path))
      ensures Actionable(payload) ==>
                && InputOf(payload).key == KeyOf(payload)
                && InputOf(payload).sourcePath == Paths.Render(Paths.Normal(Paths.Split(payload.path)))
      ensures HasKey(rows, KeyOf(payload)) <==> exists row :: row in rows.Values && row.input.key == KeyOf(payload)
    {
      IdempotencyKey.JoinedFields(payload);
      if Paths.Clean(dataRoot) && Paths.IsAbsolute(payload.path) { Paths.ContainmentIsExact(dataRoot, payload.path); }
      if HasKey(rows, KeyOf(payload)) {
        var id :| id in rows && rows[id].input.key == KeyOf(payload);
        assert rows[id] in rows.Values;
      }
    }

    /** Only successful uploads inside the data root are actionable. */
    predicate Actionable(payload: IdempotencyKey.Payload)
    {
      && payload.action == "upload" && (payload.status.Some? ==> payload.status.value == 1)
      && Paths.ResolveWithinRoot(dataRoot, payload.path).Some?
    }

    function InputOf(payload: IdempotencyKey.Payload): Input
      requires Actionable(payload)
    {
      Input(hash(IdempotencyKey.PreImage(payload)),
            if payload.username in tenants then tenants[payload.username] else defaultTenant,
            Paths.Basename(payload.virtualPath), payload.virtualPath,
            Paths.ResolveWithinRoot(dataRoot, payload.path).value, bucket, payload.username)
    }

    /** The transaction that inserts the row and its event. */
    method CreateTransferWithOutbox(input: Input, id: Id, event: EventId) returns (created: bool)
      requires db.Valid() && id !in db.machine.issued && event !in db.outbox
      modifies db
      ensures db.Valid() && created == !HasKey(old(db.rows), input.key) && db.queue == old(db.queue)
      ensures created ==> db.rows == old(db.rows)[id := NewRow(input, old(db.clock))]
      ensures created ==> db.outbox == old(db.outbox)[event := Event(id, true, old(db.clock))]
      ensures !created ==> db.rows == old(db.rows) && db.outbox == old(db.outbox)
    {
      created := !HasKey(db.rows, input.key);
      if created {
        db.Call(Accept(input, id, event), None, Ended, Insert(id, input), KeepJobs, Announced(event, id, input.key));
      }
    }

    /** `accept`: exactly the actionable payloads with a new key create a row and its event;
        every other answer leaves rows and outbox alone. */
    method AcceptUpload(payload: IdempotencyKey.Payload, id: Id, event: EventId) returns (outcome: AcceptOutcome)
      requires db.Valid() && id !in db.machine.issued && event !in db.outbox
      modifies db
      ensures db.Valid() && db.queue == old(db.queue)
      ensures outcome.Ignored? <==> !Actionable(payload)
      ensures outcome.Accepted? <==> Actionable(payload) && !HasKey(old(db.rows), InputOf(payload).key)
      ensures outcome.Accepted? ==> db.rows == old(db.rows)[id := NewRow(InputOf(payload), old(db.clock))]
      ensures outcome.Accepted? ==> db.outbox == old(db.outbox)[event := Event(id, true, old(db.clock))]
      ensures !outcome.Accepted? ==> db.rows == old(db.rows) && db.outbox == old(db.outbox)
      // in the fields of the payload
      ensures var p, to := payload, Paths.Normal(Paths.Split(payload.path));
              var joined := p.username + "|" + p.virtualPath + "|" + IdempotencyKey.Show(p.fileSize) + "|"
                            + (if p.timestamp == None then "" else IdempotencyKey.Show(p.timestamp.value)) + "|"
                            + (if p.sessionId == None then "" else p.sessionId.value);
              && (Paths.Clean(dataRoot) ==>
                    (outcome.Accepted? <==>
                       && p.action == "upload" && (p.status == None || p.status == Some(1))
                       && p.path != "" && p.path[0] == '/'
                       && dataRoot <= to && (|to| > |dataRoot| ==> !(".." <= to[|dataRoot|]))
                       && forall row :: row in old(db.rows).Values ==> row.input.key != hash(joined)))
              && (outcome.Accepted? ==>
                    && id in db.rows && db.rows == old(db.rows)[id := db.rows[id]]
                    && db.rows[id] == Row(
                         Input(hash(joined), if p.username in tenants then tenants[p.username] else defaultTenant,
                               Paths.Basename(p.virtualPath), p.virtualPath, Paths.Render(to), bucket, p.username),
                         Pending, 0, None, bucket, None, None, None, false, None, old(db.clock), old(db.clock)))
    {
      AcceptMeans(payload, db.rows);
      if payload.action != "upload" { return Ignored; }
      if payload.status.Some? && payload.status.value != 1 { return Ignored; }
      var sourcePath := Paths.ResolveWithinRoot(dataRoot, payload.path);
      if sourcePath == None { return Ignored; }
      var created := CreateTransferWithOutbox(InputOf(payload), id, event);
      outcome := if created then Accepted else Duplicate;
    }
  }

  class RetentionService {
    const db: Backend
    const retentionDays: nat

    constructor (db: Backend, retentionDays: nat)
      ensures this.db == db && this.retentionDays == retentionDays
    {
      this.db, this.retentionDays := db, retentionDays;
    }

    /** `purge`: exactly the terminal rows older than the cutoff go. */
    method PurgeOld(cutoff: nat)
      requires db.Valid()
      modifies db
      ensures db.Valid() && db.queue == old(db.queue) && db.outbox == old(db.outbox)
      ensures retentionDays == 0 ==> db.rows == old(db.rows)
      ensures retentionDays > 0 ==>
                forall id :: id in db.rows <==>
                  && id in old(db.rows)
                  && !((old(db.rows)[id].status == Success || old(db.rows)[id].status == Failed)
                       && old(db.rows)[id].updatedAt < cutoff)
      ensures forall id :: id in db.rows ==> id in old(db.rows) && db.rows[id] == old(db.rows)[id]
    {
      if retentionDays <= 0 { return; }
      db.Call(PurgeRows(cutoff), None, Ended, Delete(cutoff), KeepJobs, Purged(PurgedKeys(db.rows, cutoff)));
    }
  }
}
