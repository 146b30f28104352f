/** No transfer is orphaned: whoever writes PENDING or PROCESSING, or takes over a row in
    that status, owes it a job, a terminal status, or a successor that does. */
module NoOrphan {
  import opened Common
  import opened Transfers
  import opened Protocol
  import Outbox

  /** The actor will still settle transfer `id` or hand it over. */
  predicate Owes(q: Proc, id: Id)
  {
    match q
    case Worker(job, phase) =>
      job.id == id && !(phase.Succeeded? || phase.Recorded? || phase.Published? || phase.RejectMarked?)
    case OnFailed(job) => job.id == id
    case Rereading(i) => i == id
    case Resetting(_, collected) => id in collected
    case Enqueueing(ids) => id in ids
    case _ => false
  }

  ghost predicate Queued(s: State, id: Id)
  {
    exists job :: job in s.queue && job.id == id
  }

  ghost predicate Held(s: State, id: Id)
  {
    exists p :: 0 <= p < |s.procs| && Owes(s.procs[p], id)
  }

  /** A waiting outbox event announces the transfer. */
  ghost predicate Waiting(s: State, id: Id)
  {
    exists e :: e in s.outbox && s.outbox[e].pending && s.outbox[e].transfer == id
  }

  predicate Open(s: State, id: Id)
  {
    id in s.rows && !Terminal(s.rows[id].status)
  }

  /** Open transfers have a job or an actor that owes them. */
  ghost predicate Driven(s: State, id: Id)
  {
    Open(s, id) ==> Queued(s, id) || Held(s, id)
  }

  ghost predicate NoneOrphaned(s: State)
  {
    forall id :: Open(s, id) ==> Queued(s, id) || Held(s, id) || Waiting(s, id)
  }

  /** Inductive form: an announcement counts only until a relay has enqueued it. */
  ghost predicate Inv(s: State)
  {
    && (forall id :: id in s.rows ==> id in s.issued)
    && (forall e :: e in s.outbox ==> s.outbox[e].transfer in s.issued)
    && (forall id :: id in s.rows ==> Driven(s, id) || Waiting(s, id))
    && (forall p :: 0 <= p < |s.procs| && s.procs[p].RelayAdded? && s.procs[p].events != [] ==>
          s.procs[p].events[0] in s.outbox && Driven(s, s.outbox[s.procs[p].events[0]].transfer))
  }

  /** Not a crash that loses work: a crashing actor owes nothing. */
  ghost predicate Harmless(s: State, step: Step)
  {
    step.Crash? && step.p < |s.procs| ==> forall id :: !Owes(s.procs[step.p], id)
  }

  /** The write leaves transfer `id` PENDING or PROCESSING. */
  predicate Opens(op: RowOp, id: Id)
  {
    match op
    case Insert(i, _) => i == id
    case ToProcessing(i) => i == id
    case ToPending(ids) => id in ids
    case _ => false
  }

  predicate Settles(op: RowOp, id: Id)
  {
    (op.ToSuccess? || op.ToFailed?) && op.id == id
  }

  /** What a planned change owes to transfer `id`: it keeps the debts of its actor and
      takes on those it creates, unless it settles or enqueues the transfer. */
  ghost predicate Honest(s: State, c: Change, id: Id)
  {
    && (c.slot.Some? && c.slot.value < |s.procs| && Owes(s.procs[c.slot.value], id) && Open(s, id) ==>
          Owes(c.proc, id) || Settles(c.rows, id) || (c.jobs.AddJob? && c.jobs.job.id == id))
    && (Opens(c.rows, id) && !c.rows.Insert? ==> c.slot.Some? && Owes(c.proc, id))
    && (c.jobs.TakeJob? ==> c.slot == Some(|s.procs|) && Owes(c.proc, c.jobs.job.id))
    && (c.rows.Insert? ==> c.rows.id !in s.issued)
  }

  lemma WorkersAreHonest(cfg: Config, s: State, p: nat, act: Act, id: Id)
    requires p < |s.procs| && s.procs[p].Worker?
    ensures var c := PlanWork(cfg, s, p, s.procs[p].job, s.procs[p].phase, act);
            c.Some? ==> c.value.slot == Some(p) && Honest(s, c.value, id)
  {
  }

  lemma ActorsAreHonest(cfg: Config, s: State, p: nat, step: Step, id: Id)
    requires p < |s.procs| && ActorOf(step) == Some(p) && Harmless(s, step)
    ensures var c := PlanActor(cfg, s, p, s.procs[p], step);
            c.Some? ==> c.value.slot == Some(p) && Honest(s, c.value, id)
  {
    if step.BatchReset? || step.Enqueue? || step.RetryReset? || step.Reread? {
      ManagementIsHonest(cfg, s, p, step, id);
    }
  }

  lemma ManagementIsHonest(cfg: Config, s: State, p: nat, step: Step, id: Id)
    requires p < |s.procs| && ActorOf(step) == Some(p) && (step.BatchReset? || step.Enqueue? || step.RetryReset?
             || step.Reread?)
    ensures var c := PlanActor(cfg, s, p, s.procs[p], step);
            c.Some? ==> c.value.slot == Some(p) && Honest(s, c.value, id)
  {
  }

  lemma PlansAreHonest(cfg: Config, s: State, step: Step, id: Id)
    requires Harmless(s, step)
    ensures var c := Plan(cfg, s, step); c.Some? ==> Honest(s, c.value, id)
  {
    var p := ActorOf(step);
    if p.Some? && p.value < |s.procs| {
      if step.Work? {
        if s.procs[p.value].Worker? { WorkersAreHonest(cfg, s, p.value, step.act, id); }
      } else {
        ActorsAreHonest(cfg, s, p.value, step, id);
      }
    }
  }

  /** An honest change keeps a driven transfer driven. */
  lemma StaysDriven(s: State, c: Change, id: Id)
    requires Driven(s, id) && Honest(s, c, id) && !(c.rows.Insert? && c.rows.id == id)
    ensures Driven(Commit(s, c), id)
  {
    var s' := Commit(s, c);
    if Open(s', id) {
      if Opens(c.rows, id) {
        var p := if c.slot.value < |s.procs| then c.slot.value else |s.procs|;
        assert Owes(s'.procs[p], id);
      } else {
        assert Open(s, id) && !Settles(c.rows, id);
        StaysPromised(s, c, id);
      }
    }
  }

  lemma StaysPromised(s: State, c: Change, id: Id)
    requires Open(s, id) && (Queued(s, id) || Held(s, id)) && Honest(s, c, id) && !Settles(c.rows, id)
    ensures Queued(Commit(s, c), id) || Held(Commit(s, c), id)
  {
    var s' := Commit(s, c);
    if Held(s, id) {
      var q :| 0 <= q < |s.procs| && Owes(s.procs[q], id);
      if c.slot == Some(q) {
        if c.jobs.AddJob? && c.jobs.job.id == id { assert c.jobs.job in s'.queue; }
        else { assert Owes(s'.procs[q], id); }
      } else {
        assert s'.procs[q] == s.procs[q];
      }
    } else {
      var job :| job in s.queue && job.id == id;
      if c.jobs == TakeJob(job) { assert Owes(s'.procs[|s.procs|], id); }
      else { assert job in s'.queue; }
    }
  }

  /** Outbox and relay side of a planned change. */
  ghost predicate RelayHonest(s: State, c: Change)
  {
    && (c.rows.Insert? <==> c.note.Announced?)
    && (c.note.Announced? ==> c.note.event !in s.outbox && c.note.id == c.rows.id)
    && (c.note.EventMarked? ==>
          && c.slot.Some? && c.slot.value < |s.procs|
          && s.procs[c.slot.value].RelayAdded? && s.procs[c.slot.value].events != []
          && s.procs[c.slot.value].events[0] == c.note.event)
    && (c.slot.Some? && c.proc.RelayAdded? && c.proc.events != [] ==>
          && c.proc.events[0] in s.outbox
          && c.jobs == AddJob(Job(s.outbox[c.proc.events[0]].transfer, 0)))
  }

  lemma PlansAreRelayHonest(cfg: Config, s: State, step: Step)
    ensures var c := Plan(cfg, s, step); c.Some? ==> RelayHonest(s, c.value)
  {
  }

  /** A waiting announcement is lost only by marking, after its job was enqueued. */
  lemma StaysCovered(s: State, c: Change, id: Id)
    requires Inv(s) && Honest(s, c, id) && RelayHonest(s, c) && id in Commit(s, c).rows
    ensures Driven(Commit(s, c), id) || Waiting(Commit(s, c), id)
  {
    var s' := Commit(s, c);
    if c.rows.Insert? && c.rows.id == id {
      assert s'.outbox[c.note.event].pending;
    } else if Driven(s, id) {
      StaysDriven(s, c, id);
    } else {
      var e :| e in s.outbox && s.outbox[e].pending && s.outbox[e].transfer == id;
      assert c.note != EventMarked(e);
      assert e in s'.outbox && s'.outbox[e].pending;
    }
  }

  lemma RelaysStayHonest(s: State, c: Change, p: nat)
    requires Inv(s) && RelayHonest(s, c) && p < |Commit(s, c).procs|
    requires forall id :: Honest(s, c, id)
    requires Commit(s, c).procs[p].RelayAdded? && Commit(s, c).procs[p].events != []
    ensures var s' := Commit(s, c); var e := s'.procs[p].events[0];
            e in s'.outbox && Driven(s', s'.outbox[e].transfer)
  {
    var s' := Commit(s, c);
    var e := s'.procs[p].events[0];
    var id := s.outbox[e].transfer;
    assert e in s'.outbox && s'.outbox[e].transfer == id;
    assert Honest(s, c, id);
    if p < |s.procs| && s'.procs[p] == s.procs[p] {
      StaysDriven(s, c, id);
    } else {
      assert Job(id, 0) in s'.queue;
    }
  }

  lemma StepKeepsInv(cfg: Config, s: State, step: Step)
    requires Inv(s) && Harmless(s, step)
    ensures Inv(Apply(cfg, s, step))
  {
    var c := Plan(cfg, s, step);
    if c.Some? {
      PlansAreRelayHonest(cfg, s, step);
      forall id ensures Honest(s, c.value, id) { PlansAreHonest(cfg, s, step, id); }
      CommitKeepsInv(s, c.value);
    }
  }

  lemma CommitKeepsInv(s: State, c: Change)
    requires Inv(s) && RelayHonest(s, c) && forall id :: Honest(s, c, id)
    ensures Inv(Commit(s, c))
  {
    var s' := Commit(s, c);
    forall id | id in s'.rows ensures Driven(s', id) || Waiting(s', id) {
      assert Honest(s, c, id);
      StaysCovered(s, c, id);
    }
    forall p | 0 <= p < |s'.procs| && s'.procs[p].RelayAdded? && s'.procs[p].events != []
      ensures s'.procs[p].events[0] in s'.outbox && Driven(s', s'.outbox[s'.procs[p].events[0]].transfer)
    {
      RelaysStayHonest(s, c, p);
    }
  }

  // ---------------------------------------------------------------- whole runs

  /** No actor crashes while it owes a transfer. */
  ghost predicate NoWorkLost(cfg: Config, s: State, steps: seq<Step>)
  {
    steps == [] ||
    (var init := steps[..|steps| - 1];
     NoWorkLost(cfg, s, init) && Harmless(Run(cfg, s, init), steps[|steps| - 1]))
  }

  lemma {:induction false} RunKeepsInv(cfg: Config, s: State, steps: seq<Step>)
    requires Inv(s) && NoWorkLost(cfg, s, steps)
    ensures Inv(Run(cfg, s, steps))
  {
    if steps != [] {
      var init := steps[..|steps| - 1];
      RunKeepsInv(cfg, s, init);
      StepKeepsInv(cfg, Run(cfg, s, init), steps[|steps| - 1]);
    }
  }

  /** Under every interleaving of every actor, thrown attempts and crashes of relays,
      sweeps and settled actors included, no open transfer is ever orphaned. */
  lemma {:induction false} NoTransferIsOrphaned(cfg: Config, steps: seq<Step>)
    requires NoWorkLost(cfg, Init(), steps)
    ensures NoneOrphaned(Run(cfg, Init(), steps))
    ensures var s := Run(cfg, Init(), steps);
            forall id :: id in s.rows && (s.rows[id].status == Pending || s.rows[id].status == Processing) ==>
              || (exists job :: job in s.queue && job.id == id)
              || (exists e :: e in s.outbox && s.outbox[e].pending && s.outbox[e].transfer == id)
              || (exists p :: 0 <= p < |s.procs| && WillSettle(s.procs[p], id))
  {
    RunKeepsInv(cfg, Init(), steps);
    var s := Run(cfg, Init(), steps);
    forall id | id in s.rows && (s.rows[id].status == Pending || s.rows[id].status == Processing)
      ensures || (exists job :: job in s.queue && job.id == id)
              || (exists e :: e in s.outbox && s.outbox[e].pending && s.outbox[e].transfer == id)
              || (exists p :: 0 <= p < |s.procs| && WillSettle(s.procs[p], id))
    {
      assert Open(s, id);
      if Held(s, id) {
        var p :| 0 <= p < |s.procs| && Owes(s.procs[p], id);
        assert WillSettle(s.procs[p], id);
      }
    }
  }

  /** A worker that has not marked its row, a `failed` handler about to, or a management call
      about to enqueue. */
  predicate WillSettle(q: Proc, id: Id)
  {
    || (q.Worker? && q.job.id == id
        && (q.phase.Taken? || q.phase.Loaded? || q.phase.Claimed? || q.phase.Checked? || q.phase.Uploaded?
           || q.phase.Rejected?))
    || (q.OnFailed? && q.job.id == id) || (q.Rereading? && q.id == id)
    || (q.Resetting? && id in q.collected) || (q.Enqueueing? && id in q.ids)
  }

  // ---------------------------------------------------------------- lost work and its repair

  /** A driven transfer stays driven over any run that loses no work. */
  lemma {:induction false} StaysDrivenOver(cfg: Config, s: State, steps: seq<Step>, id: Id)
    requires id in s.issued && Driven(s, id) && NoWorkLost(cfg, s, steps)
    ensures id in Run(cfg, s, steps).issued && Driven(Run(cfg, s, steps), id)
  {
    if steps != [] {
      var init, step := steps[..|steps| - 1], steps[|steps| - 1];
      StaysDrivenOver(cfg, s, init, id);
      var mid := Run(cfg, s, init);
      var c := Plan(cfg, mid, step);
      if c.Some? {
        PlansAreHonest(cfg, mid, step, id);
        StaysDriven(mid, c.value, id);
      }
    }
  }

  /** Repair, in every interleaving: whatever crashes stranded a transfer before, from the
      moment a sweep passes it the transfer is terminal, gone, or driven again, and it stays
      so while no later work is lost, whatever the other actors do and even if the sweep is
      cut off. */
  lemma {:induction false} SweepRedrives(cfg: Config, before: seq<Step>, p: nat, after: seq<Step>)
    requires var s := Run(cfg, Init(), before); p < |s.procs| && s.procs[p].Sweeping? && s.procs[p].stuck != []
    requires NoWorkLost(cfg, Apply(cfg, Run(cfg, Init(), before), SweepOne(p)), after)
    ensures var s := Run(cfg, Init(), before);
            Driven(Run(cfg, Apply(cfg, s, SweepOne(p)), after), s.procs[p].stuck[0].id)
  {
    var s := Run(cfg, Init(), before);
    var id := s.procs[p].stuck[0].id;
    Outbox.SweptIsIssued(cfg, before, p, 0);
    SweepStep(cfg, s, p);
    StaysDrivenOver(cfg, Apply(cfg, s, SweepOne(p)), after, id);
  }

  lemma SweepStep(cfg: Config, s: State, p: nat)
    requires p < |s.procs| && s.procs[p].Sweeping? && s.procs[p].stuck != []
    ensures var s' := Apply(cfg, s, SweepOne(p));
            Driven(s', s.procs[p].stuck[0].id) && s.issued <= s'.issued
  {
    var head := s.procs[p].stuck[0];
    var c := PlanActor(cfg, s, p, s.procs[p], SweepOne(p)).value;
    var s' := Commit(s, c);
    assert head.attempts < cfg.attempts ==> Job(head.id, 0) in s'.queue;
  }

  /** What one crash does to coverage: it orphans a transfer if and only if the actor was the
      last one to care for some open transfer it owed. */
  lemma CrashOrphansExactlyWhen(cfg: Config, s: State, p: nat)
    requires p < |s.procs| && NoneOrphaned(s)
    ensures NoneOrphaned(Apply(cfg, s, Crash(p))) <==>
            forall id :: Open(s, id) && Owes(s.procs[p], id) ==>
              Queued(s, id) || Waiting(s, id) || exists q :: 0 <= q < |s.procs| && q != p && Owes(s.procs[q], id)
  {
    var s' := Commit(s, PlanActor(cfg, s, p, s.procs[p], Crash(p)).value);
    assert s'.procs == s.procs[p := Ended] && s'.queue == s.queue && s'.outbox == s.outbox && s'.rows == s.rows;
    forall id
      ensures Held(s', id) <==> exists q :: 0 <= q < |s.procs| && q != p && Owes(s.procs[q], id)
    {
      if Held(s', id) {
        var q :| 0 <= q < |s'.procs| && Owes(s'.procs[q], id);
        assert q != p && Owes(s.procs[q], id);
      }
      if q :| 0 <= q < |s.procs| && q != p && Owes(s.procs[q], id) {
        assert Owes(s'.procs[q], id);
      }
    }
    forall id | Held(s, id) && !Owes(s.procs[p], id) ensures Held(s', id) {
      var q :| 0 <= q < |s.procs| && Owes(s.procs[q], id);
      assert Owes(s'.procs[q], id);
    }
    assert forall id ::
        Open(s', id) == Open(s, id) && Queued(s', id) == Queued(s, id) && Waiting(s', id) == Waiting(s, id);
  }
}
