/** The transactional outbox publishes at least once, with any number of relays. */
module Outbox {
  import opened Common
  import opened Transfers
  import opened Protocol

  // ---------------------------------------------------------------- at least once

  /** Transfers an actor holds or will enqueue. */
  ghost predicate Names(q: Proc, id: Id)
  {
    match q
    case Worker(job, _) => job.id == id
    case OnFailed(job) => job.id == id
    case Finalised(i) => i == id
    case Sweeping(stuck) => exists i :: 0 <= i < |stuck| && stuck[i].id == id
    case RetryFound(row) => row.id == id
    case Rereading(i) => i == id
    case Resetting(rows, collected) => id in collected || exists i :: 0 <= i < |rows| && rows[i].id == id
    case Enqueueing(ids) => id in ids
    case _ => false
  }

  ghost predicate HasEvent(s: State, id: Id)
  {
    exists e :: e in s.outbox && s.outbox[e].transfer == id
  }

  ghost predicate OneEventEach(s: State)
  {
    && (forall id :: id in s.rows ==> id in s.issued)
    && (forall e :: e in s.outbox ==> s.outbox[e].transfer in s.issued)
    && (forall id :: id in s.issued ==> HasEvent(s, id))
    && (forall e, f :: e in s.outbox && f in s.outbox && s.outbox[e].transfer == s.outbox[f].transfer ==> e == f)
  }

  ghost predicate EnqueuedBeforeMarked(s: State)
  {
    && (forall e :: e in s.outbox && !s.outbox[e].pending ==> s.log.added[e] >= 1)
    && (forall p :: 0 <= p < |s.procs| && s.procs[p].RelayAdded? ==>
          s.procs[p].events != [] && s.log.added[s.procs[p].events[0]] >= 1)
  }

  ghost predicate JobsNameCommittedRows(s: State)
  {
    && (forall job :: job in s.queue ==> job.id in s.issued)
    && (forall p, id :: 0 <= p < |s.procs| && Names(s.procs[p], id) ==> id in s.issued)
  }

  ghost predicate Inv(s: State)
  {
    OneEventEach(s) && EnqueuedBeforeMarked(s) && JobsNameCommittedRows(s)
  }

  /** What a planned change may name, announce and mark. */
  ghost predicate Faithful(s: State, c: Change)
  {
    var q := Old(s, c);
    && (c.rows.Insert? <==> c.note.Announced?)
    && (c.note.Announced? ==> c.rows.id == c.note.id && c.note.id !in s.issued && c.note.event !in s.outbox)
    && (c.note.EventMarked? ==> q.RelayAdded? && q.events != [] && q.events[0] == c.note.event)
    && (c.slot.Some? && c.proc.RelayAdded? ==> c.proc.events != [] && c.note == EventAdded(c.proc.events[0]))
  }

  ghost predicate NamesKnown(s: State, c: Change)
  {
    && (c.jobs.AddJob? ==> c.jobs.job.id in s.issued)
    && (forall id :: c.slot.Some? && Names(c.proc, id) ==> id in s.issued)
  }

  lemma PlansAreFaithful(cfg: Config, s: State, step: Step)
    ensures var c := Plan(cfg, s, step); c.Some? ==> Faithful(s, c.value)
  {
  }

  lemma WorkNamesKnown(cfg: Config, s: State, p: nat, act: Act)
    requires Inv(s) && p < |s.procs| && s.procs[p].Worker?
    ensures var c := PlanWork(cfg, s, p, s.procs[p].job, s.procs[p].phase, act); c.Some? ==> NamesKnown(s, c.value)
  {
    assert Names(s.procs[p], s.procs[p].job.id);
  }

  lemma ActorsNameKnown(cfg: Config, s: State, p: nat, step: Step)
    requires Inv(s) && p < |s.procs| && ActorOf(step) == Some(p) && !step.Work?
    ensures var c := PlanActor(cfg, s, p, s.procs[p], step); c.Some? ==> NamesKnown(s, c.value)
  {
    var q := s.procs[p];
    assert forall id :: Names(q, id) ==> id in s.issued;
    if q.Worker? { assert Names(q, q.job.id); }
    if q.OnFailed? { assert Names(q, q.job.id); }
    if q.RetryFound? { assert Names(q, q.row.id); }
    if q.Sweeping? && q.stuck != [] { assert Names(q, q.stuck[0].id); }
    if q.Enqueueing? && q.ids != [] { assert Names(q, q.ids[0]); }
    var c := PlanActor(cfg, s, p, q, step);
    if c.Some? {
      forall id | Names(c.value.proc, id) ensures Names(q, id) {
        ActorsKeepNames(cfg, s, p, step, id);
      }
    }
  }

  lemma ActorsKeepNames(cfg: Config, s: State, p: nat, step: Step, id: Id)
    requires p < |s.procs| && ActorOf(step) == Some(p) && !step.Work?
    requires var c := PlanActor(cfg, s, p, s.procs[p], step); c.Some? && Names(c.value.proc, id)
    ensures Names(s.procs[p], id)
  {
    var q := s.procs[p];
    if step.BatchReset? && id !in q.collected {
      if id in Ids(q.rows[..step.n]) {
        var i :| 0 <= i < step.n && q.rows[i].id == id;
      } else {
        var i :| 0 <= i < |q.rows| - step.n && q.rows[step.n..][i].id == id;
        assert q.rows[step.n + i].id == id;
      }
    }
    if step.SweepOne? {
      var i :| 0 <= i < |q.stuck| - 1 && q.stuck[1..][i].id == id;
      assert q.stuck[i + 1].id == id;
    }
  }

  lemma StartsNameKnown(cfg: Config, s: State, step: Step)
    requires (forall id :: id in s.rows ==> id in s.issued) && forall job :: job in s.queue ==> job.id in s.issued
    requires ActorOf(step) == None
    ensures var c := PlanStart(cfg, s, step); c.Some? ==> NamesKnown(s, c.value)
  {
    var c := PlanStart(cfg, s, step);
    if c.Some? {
      forall id | c.value.slot.Some? && Names(c.value.proc, id) ensures id in s.issued {
        match c.value.proc
        case Sweeping(stuck) => var i :| 0 <= i < |stuck| && stuck[i].id == id; assert step.batch[i] == id;
        case Resetting(rows, _) => var i :| 0 <= i < |rows| && rows[i].id == id; assert step.batch[i] == id;
        case _ =>
      }
    }
  }

  lemma PlansNameKnown(cfg: Config, s: State, step: Step)
    requires Inv(s)
    ensures var c := Plan(cfg, s, step); c.Some? ==> NamesKnown(s, c.value)
  {
    var p := ActorOf(step);
    if p == None { StartsNameKnown(cfg, s, step); }
    else if p.value < |s.procs| {
      if !step.Work? { ActorsNameKnown(cfg, s, p.value, step); }
      else if s.procs[p.value].Worker? { WorkNamesKnown(cfg, s, p.value, step.act); }
    }
  }

  lemma EventsStay(s: State, c: Change)
    requires OneEventEach(s) && Faithful(s, c)
    ensures OneEventEach(Commit(s, c))
  {
    var s' := Commit(s, c);
    assert forall e :: e in s.outbox ==> e in s'.outbox && s'.outbox[e].transfer == s.outbox[e].transfer;
    assert forall e :: e in s'.outbox && e !in s.outbox ==> c.note.Announced? && e == c.note.event;
    forall id | id in s'.issued ensures HasEvent(s', id) {
      if id in s.issued {
        assert HasEvent(s, id);
        var e :| e in s.outbox && s.outbox[e].transfer == id;
        assert s'.outbox[e].transfer == id;
      } else {
        assert s'.outbox[c.note.event].transfer == id;
      }
    }
  }

  lemma MarksStay(s: State, c: Change)
    requires EnqueuedBeforeMarked(s) && Faithful(s, c)
    ensures EnqueuedBeforeMarked(Commit(s, c))
  {
    var s' := Commit(s, c);
    AddedGrows(s, c);
    forall e | e in s'.outbox && !s'.outbox[e].pending ensures s'.log.added[e] >= 1 {
      if c.note == EventMarked(e) { assert s.procs[c.slot.value].events[0] == e; }
      else { assert s'.outbox[e] == s.outbox[e]; }
    }
    forall p | 0 <= p < |s'.procs| && s'.procs[p].RelayAdded?
      ensures s'.procs[p].events != [] && s'.log.added[s'.procs[p].events[0]] >= 1
    {
      if p < |s.procs| && c.slot != Some(p) { assert s'.procs[p] == s.procs[p]; }
    }
  }

  lemma AddedGrows(s: State, c: Change)
    ensures forall e :: s.log.added[e] <= Commit(s, c).log.added[e]
    ensures c.note.EventAdded? ==> Commit(s, c).log.added[c.note.event] >= 1
  {
  }

  lemma NamesStay(s: State, c: Change)
    requires JobsNameCommittedRows(s) && NamesKnown(s, c)
    ensures JobsNameCommittedRows(Commit(s, c))
  {
    var s' := Commit(s, c);
    assert s.issued <= s'.issued;
    forall job | job in s'.queue ensures job.id in s'.issued {
      if c.jobs != AddJob(job) { assert job in s.queue; }
    }
    forall p, id | 0 <= p < |s'.procs| && Names(s'.procs[p], id) ensures id in s'.issued {
      if p < |s.procs| && c.slot != Some(p) { assert s'.procs[p] == s.procs[p]; }
    }
  }

  lemma {:induction false} RunKeepsInv(cfg: Config, s: State, steps: seq<Step>)
    requires Inv(s)
    ensures Inv(Run(cfg, s, steps))
  {
    if steps != [] {
      var init, step := steps[..|steps| - 1], steps[|steps| - 1];
      RunKeepsInv(cfg, s, init);
      var mid := Run(cfg, s, init);
      var c := Plan(cfg, mid, step);
      if c.Some? {
        PlansAreFaithful(cfg, mid, step);
        PlansNameKnown(cfg, mid, step);
        EventsStay(mid, c.value);
        MarksStay(mid, c.value);
        NamesStay(mid, c.value);
      }
    }
  }

  lemma SweptIsIssued(cfg: Config, steps: seq<Step>, p: nat, i: nat)
    requires var s := Run(cfg, Init(), steps); p < |s.procs| && s.procs[p].Sweeping? && i < |s.procs[p].stuck|
    ensures var s := Run(cfg, Init(), steps); s.procs[p].stuck[i].id in s.issued
  {
    RunKeepsInv(cfg, Init(), steps);
    var s := Run(cfg, Init(), steps);
    assert Names(s.procs[p], s.procs[p].stuck[i].id);
  }

  /** Over any run, with any number of relays and crashes: every transfer ever created has
      exactly one event, every PUBLISHED event was enqueued at least once, and every job
      names a transfer that was committed. */
  lemma {:induction false} AtLeastOnce(cfg: Config, steps: seq<Step>)
    ensures var s := Run(cfg, Init(), steps);
            && (forall id :: id in s.issued ==> HasEvent(s, id))
            && (forall e, f :: e in s.outbox && f in s.outbox && s.outbox[e].transfer == s.outbox[f].transfer ==>
               e == f)
            && (forall e :: e in s.outbox && !s.outbox[e].pending ==> s.log.added[e] >= 1)
            && (forall job :: job in s.queue ==> job.id in s.issued)
  {
    RunKeepsInv(cfg, Init(), steps);
  }
}
