/** Exactly-once effect from at-least-once delivery.

    Under three hypotheses (runs of one transfer do not overlap, the find and the update of
    a retry or sweep are atomic per row, and no last attempt throws while the row is
    SUCCESS), SUCCESS is absorbing until purge and every transfer is marked, metered and
    published at most once, however many duplicate jobs exist. */
module ExactlyOnce {
  import opened Common
  import opened Transfers
  import opened Protocol

  // ---------------------------------------------------------------- hypotheses

  /** The transfer whose run, or whose pending `failed` handler, the actor is. */
  function RunOf(q: Proc): Option<Id>
  {
    match q
    case Worker(job, _) => Some(job.id)
    case OnFailed(job) => Some(job.id)
    case _ => None
  }

  ghost predicate NoOverlap(s: State)
  {
    forall p, q :: 0 <= p < q < |s.procs| && RunOf(s.procs[p]).Some? ==> RunOf(s.procs[p]) != RunOf(s.procs[q])
  }

  predicate NotSuccess(s: State, id: Id)
  {
    id in s.rows ==> s.rows[id].status != Success
  }

  /** The row was not written since the find that returned it. */
  predicate Untouched(s: State, seen: Seen)
  {
    seen.id in s.rows ==> s.rows[seen.id].updatedAt == seen.stamp
  }

  /** Find-then-update of retries and sweeps is atomic per row, and a last attempt does
      not throw while its row is SUCCESS. */
  ghost predicate Calm(cfg: Config, s: State, step: Step)
  {
    ActorOf(step).Some? && ActorOf(step).value < |s.procs| ==>
      match (step, s.procs[ActorOf(step).value])
      case (RetryReset(_, _), RetryFound(row)) => Untouched(s, row)
      case (BatchReset(_, n), Resetting(rows, _)) => forall i :: 0 <= i < n && i < |rows| ==> Untouched(s, rows[i])
      case (SweepOne(_), Sweeping(stuck)) => stuck != [] && stuck[0].attempts >= cfg.attempts ==> Untouched(s, stuck[0])
      case (Throw(_), Worker(job, _)) => job.made + 1 >= cfg.attempts ==> NotSuccess(s, job.id)
      case _ => true
  }

  // ---------------------------------------------------------------- invariant

  /** A worker that has read its row and has not marked it yet. */
  predicate PreMark(q: Proc, id: Id)
  {
    q.Worker? && q.job.id == id &&
    (q.phase.Loaded? || q.phase.Claimed? || q.phase.Checked? || q.phase.Uploaded? || q.phase.Rejected?)
  }

  function SeenBy(q: Proc): seq<Seen>
  {
    match q
    case Sweeping(stuck) => stuck
    case RetryFound(row) => [row]
    case Resetting(rows, _) => rows
    case _ => []
  }

  ghost predicate Ordered(s: State, id: Id)
  {
    && s.log.completed[id] <= s.log.recorded[id] <= s.log.marked[id] <= 1
    && (s.log.marked[id] == 1 ==> id in s.issued)
  }

  ghost predicate RowAgrees(s: State, id: Id)
  {
    id in s.rows ==>
      && id in s.issued && s.rows[id].updatedAt < s.clock
      && (s.rows[id].status == Success <==> s.log.marked[id] == 1)
  }

  ghost predicate Counted(s: State, id: Id)
  {
    Ordered(s, id) && RowAgrees(s, id)
  }

  ghost predicate ActorOk(s: State, q: Proc)
  {
    match q
    case Worker(job, phase) =>
      && (PreMark(q, job.id) ==> job.id in s.issued && s.log.marked[job.id] == 0)
      && (phase.Succeeded? ==> s.log.marked[job.id] == 1 && s.log.recorded[job.id] == 0)
      && (phase.Recorded? ==> s.log.recorded[job.id] == 1 && s.log.completed[job.id] == 0)
      && (phase.Published? ==> s.log.completed[job.id] == 1)
    case OnFailed(job) => NotSuccess(s, job.id)
    case _ => true
  }

  /** A stamp identifies a version of its row, and the find saw it unfinished. */
  predicate SeenOk(s: State, seen: Seen)
  {
    seen.id in s.issued && seen.stamp < s.clock && (Untouched(s, seen) ==> NotSuccess(s, seen.id))
  }

  ghost predicate Inv(s: State)
  {
    && (forall id :: Counted(s, id))
    && (forall p :: 0 <= p < |s.procs| ==> ActorOk(s, s.procs[p]))
    && (forall p, i :: 0 <= p < |s.procs| && 0 <= i < |SeenBy(s.procs[p])| ==> SeenOk(s, SeenBy(s.procs[p])[i]))
  }

  // ---------------------------------------------------------------- what a planned change does

  predicate Demotes(op: RowOp, id: Id)
  {
    match op
    case ToProcessing(i) => i == id
    case ToFailed(i, _) => i == id
    case ToPending(ids) => id in ids
    case _ => false
  }

  ghost predicate Fine(s: State, c: Change)
  {
    var prev := Old(s, c);
    && (forall id :: Demotes(c.rows, id) ==> NotSuccess(s, id))
    && (c.rows.ToSuccess? <==> c.note.Marked?)
    && (c.rows.Insert? <==> c.note.Announced?)
    && (c.rows.Insert? ==> c.rows.id == c.note.id && c.rows.id !in s.issued)
    && (c.note.Marked? ==>
          && c.rows.id == c.note.id && PreMark(prev, c.note.id)
          && c.proc.Worker? && c.proc.job.id == c.note.id && c.proc.phase.Succeeded?)
    && (c.note.Metered? ==>
          && prev.Worker? && prev.job.id == c.note.id && prev.phase.Succeeded?
          && c.proc.Worker? && c.proc.job.id == c.note.id && c.proc.phase.Recorded?)
    && (c.note.Completed? ==>
          && prev.Worker? && prev.job.id == c.note.id && prev.phase.Recorded?
          && c.proc.Worker? && c.proc.job.id == c.note.id && c.proc.phase.Published?)
  }

  /** What the actor becomes. */
  ghost predicate FineActor(s: State, c: Change)
  {
    var prev := Old(s, c);
    match c.proc
    case Worker(job, phase) =>
      && (PreMark(c.proc, job.id) ==>
            PreMark(prev, job.id) || (c.rows.KeepRows? && job.id in s.rows && s.rows[job.id].status != Success))
      && (phase.Succeeded? ==> c.note.Marked? && c.note.id == job.id)
      && (phase.Recorded? ==> c.note.Metered? && c.note.id == job.id)
      && (phase.Published? ==> c.note.Completed? && c.note.id == job.id)
    case OnFailed(job) => c.rows.KeepRows? && NotSuccess(s, job.id)
    case _ => true
  }

  ghost predicate FineSeen(s: State, c: Change)
  {
    forall i :: 0 <= i < |SeenBy(c.proc)| ==>
      SeenBy(c.proc)[i] in SeenBy(Old(s, c))
      || (var seen := SeenBy(c.proc)[i];
          c.rows.KeepRows? && seen.id in s.rows && s.rows[seen.id].updatedAt == seen.stamp
            && s.rows[seen.id].status != Success)
  }

  lemma FineWork(cfg: Config, s: State, p: nat, act: Act)
    requires p < |s.procs| && s.procs[p].Worker? && Inv(s)
    ensures var c := PlanWork(cfg, s, p, s.procs[p].job, s.procs[p].phase, act);
            c.Some? ==> c.value.slot == Some(p) && Fine(s, c.value) && FineActor(s, c.value) && FineSeen(s, c.value)
  {
    assert ActorOk(s, s.procs[p]) && Counted(s, s.procs[p].job.id);
  }

  lemma FineBatch(cfg: Config, s: State, p: nat, n: nat)
    requires p < |s.procs| && s.procs[p].Resetting? && Inv(s) && Calm(cfg, s, BatchReset(p, n))
    ensures var c := PlanActor(cfg, s, p, s.procs[p], BatchReset(p, n));
            c.Some? ==> Fine(s, c.value) && FineActor(s, c.value)
  {
    var q := s.procs[p];
    if n <= |q.rows| {
      forall id | id in Ids(q.rows[..n]) ensures NotSuccess(s, id) {
        var i :| 0 <= i < n && q.rows[i].id == id;
        assert SeenOk(s, SeenBy(q)[i]);
      }
    }
  }

  lemma FineActors(cfg: Config, s: State, p: nat, step: Step)
    requires p < |s.procs| && ActorOf(step) == Some(p) && !step.Work? && Inv(s) && Calm(cfg, s, step)
    ensures var c := PlanActor(cfg, s, p, s.procs[p], step);
            c.Some? ==> Fine(s, c.value) && FineActor(s, c.value)
  {
    var q := s.procs[p];
    if step.BatchReset? {
      if q.Resetting? { FineBatch(cfg, s, p, step.n); }
    } else if step.RetryReset? || step.SweepOne? {
      FineRedrive(cfg, s, p, step);
    } else {
      assert ActorOk(s, q);
    }
  }

  lemma FineRedrive(cfg: Config, s: State, p: nat, step: Step)
    requires p < |s.procs| && ActorOf(step) == Some(p) && (step.RetryReset? || step.SweepOne?) && Inv(s)
             && Calm(cfg, s, step)
    ensures var c := PlanActor(cfg, s, p, s.procs[p], step);
            c.Some? ==> Fine(s, c.value) && FineActor(s, c.value)
  {
    var q := s.procs[p];
    assert |SeenBy(q)| > 0 ==> SeenOk(s, SeenBy(q)[0]);
  }

  lemma FineActorsSeen(cfg: Config, s: State, p: nat, step: Step)
    requires p < |s.procs| && ActorOf(step) == Some(p) && !step.Work?
    ensures var c := PlanActor(cfg, s, p, s.procs[p], step);
            c.Some? ==> c.value.slot == Some(p) && FineSeen(s, c.value)
  {
  }

  lemma FineStart(cfg: Config, s: State, step: Step)
    requires ActorOf(step) == None
    ensures var c := PlanStart(cfg, s, step);
            c.Some? ==> (c.value.slot == None || c.value.slot == Some(|s.procs|))
                        && Fine(s, c.value) && FineActor(s, c.value) && FineSeen(s, c.value)
  {
  }

  // ---------------------------------------------------------------- preservation

  lemma OrderStays(s: State, c: Change, id: Id)
    requires Inv(s) && Fine(s, c)
    ensures Ordered(Commit(s, c), id)
    ensures Commit(s, c).log.marked[id] == s.log.marked[id] + if c.rows.ToSuccess? && c.rows.id == id then 1 else 0
  {
    assert Counted(s, id) && ActorOk(s, Old(s, c));
  }

  lemma RowStays(s: State, c: Change, id: Id)
    requires Inv(s) && Fine(s, c)
    ensures RowAgrees(Commit(s, c), id)
  {
    assert Counted(s, id);
    OrderStays(s, c, id);
    var t := Commit(s, c).rows;
    if id in t && id in s.rows && !Demotes(c.rows, id) && !((c.rows.ToSuccess? || c.rows.Insert?) && c.rows.id == id) {
      assert t[id] == s.rows[id];
    }
  }

  lemma OthersStay(s: State, c: Change, p: nat)
    requires Inv(s) && Fine(s, c) && NoOverlap(s) && p < |s.procs| && c.slot != Some(p)
    ensures ActorOk(Commit(s, c), s.procs[p])
  {
    var q := s.procs[p];
    assert ActorOk(s, q);
    if c.note.Marked? || c.note.Metered? || c.note.Completed? {
      assert RunOf(s.procs[c.slot.value]) == Some(c.note.id);
      assert RunOf(q) != Some(c.note.id);
    }
    if q.OnFailed? { OtherRowStays(s, c, q.job.id); }
  }

  lemma OtherRowStays(s: State, c: Change, id: Id)
    requires NotSuccess(s, id) && !(c.rows.ToSuccess? && c.rows.id == id)
    ensures NotSuccess(Commit(s, c), id)
  {
  }

  lemma ActorStays(s: State, c: Change)
    requires Inv(s) && Fine(s, c) && FineActor(s, c)
    ensures ActorOk(Commit(s, c), c.proc)
  {
    assert ActorOk(s, Old(s, c));
    if RunOf(c.proc).Some? { assert Counted(s, RunOf(c.proc).value); }
  }

  lemma SnapshotStays(s: State, c: Change, seen: Seen)
    requires Inv(s) && Fine(s, c)
    requires SeenOk(s, seen) || (c.rows.KeepRows? && seen.id in s.rows
                                 && s.rows[seen.id].updatedAt == seen.stamp && s.rows[seen.id].status != Success)
    ensures SeenOk(Commit(s, c), seen)
  {
    assert Counted(s, seen.id);
  }

  lemma CommitKeepsInv(s: State, c: Change)
    requires Inv(s) && NoOverlap(s) && Fine(s, c) && FineActor(s, c) && FineSeen(s, c)
    ensures Inv(Commit(s, c))
  {
    var s' := Commit(s, c);
    forall id ensures Counted(s', id) { OrderStays(s, c, id); RowStays(s, c, id); }
    forall p | 0 <= p < |s'.procs| ensures ActorOk(s', s'.procs[p]) {
      if p < |s.procs| && c.slot != Some(p) { OthersStay(s, c, p); } else { ActorStays(s, c); }
    }
    forall p, i | 0 <= p < |s'.procs| && 0 <= i < |SeenBy(s'.procs[p])| ensures SeenOk(s', SeenBy(s'.procs[p])[i]) {
      SnapshotsStay(s, c, p, i);
    }
  }

  lemma SnapshotsStay(s: State, c: Change, p: nat, i: nat)
    requires Inv(s) && Fine(s, c) && FineSeen(s, c)
    requires p < |Commit(s, c).procs| && i < |SeenBy(Commit(s, c).procs[p])|
    ensures SeenOk(Commit(s, c), SeenBy(Commit(s, c).procs[p])[i])
  {
    var q := Commit(s, c).procs[p];
    var seen := SeenBy(q)[i];
    if p < |s.procs| && c.slot != Some(p) {
      assert q == s.procs[p] && SeenOk(s, SeenBy(s.procs[p])[i]);
    } else if seen in SeenBy(Old(s, c)) {
      var j :| 0 <= j < |SeenBy(Old(s, c))| && SeenBy(Old(s, c))[j] == seen;
      assert SeenOk(s, SeenBy(s.procs[c.slot.value])[j]);
    }
    SnapshotStays(s, c, seen);
  }

  lemma StepKeepsInv(cfg: Config, s: State, step: Step)
    requires Inv(s) && NoOverlap(s) && Calm(cfg, s, step)
    ensures Inv(Apply(cfg, s, step))
  {
    var c, p := Plan(cfg, s, step), ActorOf(step);
    if c.Some? {
      if p == None { FineStart(cfg, s, step); }
      else if step.Work? { FineWork(cfg, s, p.value, step.act); }
      else {
        FineActors(cfg, s, p.value, step);
        FineActorsSeen(cfg, s, p.value, step);
      }
      CommitKeepsInv(s, c.value);
    }
  }

  // ---------------------------------------------------------------- whole runs

  /** The hypotheses hold at every point of the run. */
  ghost predicate WellBehaved(cfg: Config, s: State, steps: seq<Step>)
  {
    steps == [] ||
    (var init := steps[..|steps| - 1];
     var mid := Run(cfg, s, init);
     WellBehaved(cfg, s, init) && NoOverlap(mid) && Calm(cfg, mid, steps[|steps| - 1]))
  }

  lemma {:induction false} RunKeepsInv(cfg: Config, s: State, steps: seq<Step>)
    requires Inv(s) && WellBehaved(cfg, s, steps)
    ensures Inv(Run(cfg, s, steps))
  {
    if steps != [] {
      var init := steps[..|steps| - 1];
      RunKeepsInv(cfg, s, init);
      StepKeepsInv(cfg, Run(cfg, s, init), steps[|steps| - 1]);
    }
  }

  /** However many jobs name a transfer, it is marked SUCCESS, metered and published at
      most once, in that order, and its row is SUCCESS exactly when it was marked. */
  lemma {:induction false} AtMostOnce(cfg: Config, steps: seq<Step>, id: Id)
    requires WellBehaved(cfg, Init(), steps)
    ensures var s := Run(cfg, Init(), steps);
            && s.log.completed[id] <= s.log.recorded[id] <= s.log.marked[id] <= 1
            && (id in s.rows ==> (s.rows[id].status == Success <==> s.log.marked[id] == 1))
  {
    RunKeepsInv(cfg, Init(), steps);
    assert Counted(Run(cfg, Init(), steps), id);
  }

  lemma MarksGrow(cfg: Config, s: State, step: Step, id: Id)
    ensures s.log.marked[id] <= Apply(cfg, s, step).log.marked[id]
  {
    var c := Plan(cfg, s, step);
    if c.Some? { CommitMarks(s, c.value, id); }
  }

  lemma CommitMarks(s: State, c: Change, id: Id)
    ensures s.log.marked[id] <= Commit(s, c).log.marked[id]
  {
  }

  /** Of the first `n` steps of a well-behaved run, and of what it has marked by then. */
  lemma {:induction false} Prefix(cfg: Config, s: State, steps: seq<Step>, n: nat, id: Id)
    requires n <= |steps| && WellBehaved(cfg, s, steps)
    ensures WellBehaved(cfg, s, steps[..n])
    ensures Run(cfg, s, steps[..n]).log.marked[id] <= Run(cfg, s, steps).log.marked[id]
  {
    if n == |steps| {
      assert steps[..n] == steps;
    } else {
      var init := steps[..|steps| - 1];
      Prefix(cfg, s, init, n, id);
      assert init[..n] == steps[..n];
      MarksGrow(cfg, Run(cfg, s, init), steps[|steps| - 1], id);
    }
  }

  /** SUCCESS is absorbing: if the row is SUCCESS after `n` steps, it is SUCCESS for as long
      as it exists, whatever the rest of the run does. */
  lemma {:induction false} SuccessIsAbsorbing(cfg: Config, steps: seq<Step>, n: nat, id: Id)
    requires n <= |steps| && WellBehaved(cfg, Init(), steps)
    requires var t := Run(cfg, Init(), steps[..n]).rows; id in t && t[id].status == Success
    ensures var t := Run(cfg, Init(), steps).rows; id in t ==> t[id].status == Success
  {
    Prefix(cfg, Init(), steps, n, id);
    AtMostOnce(cfg, steps[..n], id);
    AtMostOnce(cfg, steps, id);
  }

  // ---------------------------------------------------------------- without the hypotheses

  /** The steps whose unconditional update overwrites the status of transfer `id`. */
  ghost predicate Overwrites(cfg: Config, s: State, step: Step, id: Id)
  {
    ActorOf(step).Some? && ActorOf(step).value < |s.procs| &&
    match (step, s.procs[ActorOf(step).value])
    case (Work(_, Claim), Worker(job, Loaded(_))) => job.id == id
    case (Work(_, MarkRejected), Worker(job, Rejected(_))) => job.id == id
    case (MarkExhausted(_), OnFailed(job)) => job.id == id
    case (SweepOne(_), Sweeping(stuck)) => stuck != [] && stuck[0].id == id && stuck[0].attempts >= cfg.attempts
    case (RetryReset(_, _), RetryFound(row)) => row.id == id
    case (BatchReset(_, n), Resetting(rows, _)) => 0 < n <= |rows| && id in Ids(rows[..n])
    case _ => false
  }

  /** In any state at all, a SUCCESS row loses its status by exactly these steps. */
  lemma SuccessIsLostExactlyWhen(cfg: Config, s: State, step: Step, id: Id)
    requires id in s.rows && s.rows[id].status == Success && id in s.issued
    ensures var t := Apply(cfg, s, step).rows;
            (id in t && t[id].status != Success) <==> Overwrites(cfg, s, step, id)
  {
    var c := Plan(cfg, s, step);
    OverwritingPlans(cfg, s, step, id);
    if c.Some? { StatusAfter(s, c.value, id); }
  }

  lemma OverwritingPlans(cfg: Config, s: State, step: Step, id: Id)
    requires id in s.rows && id in s.issued
    ensures var c := Plan(cfg, s, step);
            && (Overwrites(cfg, s, step, id) <==> c.Some? && Demotes(c.value.rows, id))
            && (c.Some? ==> !(c.value.rows.Insert? && c.value.rows.id == id))
  {
    var p := ActorOf(step);
    if p.Some? && p.value < |s.procs| {
      if !step.Work? { OverwritingActors(cfg, s, p.value, step, id); }
      else if s.procs[p.value].Worker? { OverwritingWork(cfg, s, p.value, step.act, id); }
    }
  }

  lemma OverwritingActors(cfg: Config, s: State, p: nat, step: Step, id: Id)
    requires p < |s.procs| && ActorOf(step) == Some(p) && !step.Work? && id in s.rows
    ensures var c := PlanActor(cfg, s, p, s.procs[p], step);
            && (Overwrites(cfg, s, step, id) <==> c.Some? && Demotes(c.value.rows, id))
            && (c.Some? ==> !c.value.rows.Insert?)
  {
  }

  lemma OverwritingWork(cfg: Config, s: State, p: nat, act: Act, id: Id)
    requires p < |s.procs| && s.procs[p].Worker?
    ensures var c := PlanWork(cfg, s, p, s.procs[p].job, s.procs[p].phase, act);
            && (Overwrites(cfg, s, Work(p, act), id) <==> c.Some? && Demotes(c.value.rows, id))
            && (c.Some? ==> !c.value.rows.Insert?)
  {
  }

  lemma StatusAfter(s: State, c: Change, id: Id)
    requires id in s.rows && s.rows[id].status == Success && !(c.rows.Insert? && c.rows.id == id)
    ensures var t := Commit(s, c).rows;
            (id in t && t[id].status != Success) <==> Demotes(c.rows, id)
  {
  }

  /** Overlap breaks it: while one run of a transfer has read its row, another run of the
      same transfer marks it SUCCESS, and the first overwrites that with PROCESSING. */
  lemma OverlapLosesSuccess(cfg: Config, s: State, p: nat, q: nat, id: Id)
    requires p < |s.procs| && q < |s.procs| && p != q && id in s.rows
    requires s.procs[p].Worker? && s.procs[p].job.id == id && s.procs[p].phase.Loaded?
    requires s.procs[q].Worker? && s.procs[q].job.id == id && s.procs[q].phase.Uploaded?
             && IntegrityOk(cfg, s.procs[q].phase.up)
    ensures var s1 := Apply(cfg, s, Work(q, MarkDone));
            var s2 := Apply(cfg, s1, Work(p, Claim));
            && id in s1.rows && s1.rows[id].status == Success
            && id in s2.rows && s2.rows[id].status == Processing
            && !NoOverlap(s)
  {
    var s1 := Commit(s, PlanWork(cfg, s, q, s.procs[q].job, s.procs[q].phase, MarkDone).value);
    assert s1.procs[p] == s.procs[p];
    assert RunOf(s.procs[p]) == RunOf(s.procs[q]) == Some(id);
  }

  /** A throw after `markSuccess` on the last attempt breaks it: the `failed` handler
      overwrites SUCCESS with FAILED. */
  lemma LastThrowLosesSuccess(cfg: Config, s: State, p: nat, id: Id)
    requires p < |s.procs| && id in s.rows && s.rows[id].status == Success
    requires s.procs[p].Worker? && s.procs[p].job.id == id && s.procs[p].job.made + 1 >= cfg.attempts
    ensures var s1 := Apply(cfg, s, Throw(p));
            var s2 := Apply(cfg, s1, MarkExhausted(p));
            id in s2.rows && s2.rows[id].status == Failed && !Calm(cfg, s, Throw(p))
  {
    LastThrowHandsOver(cfg, s, p);
    ExhaustedIsFailed(cfg, Apply(cfg, s, Throw(p)), p, id);
  }

  lemma LastThrowHandsOver(cfg: Config, s: State, p: nat)
    requires p < |s.procs| && s.procs[p].Worker? && s.procs[p].job.made + 1 >= cfg.attempts
    ensures var job := s.procs[p].job;
            var t := Apply(cfg, s, Throw(p));
            t.rows == s.rows && t.procs == s.procs[p := OnFailed(Job(job.id, job.made + 1))]
  {
    var c := PlanThrow(cfg, p, s.procs[p].job);
    assert Plan(cfg, s, Throw(p)) == Some(c);
  }

  lemma ExhaustedIsFailed(cfg: Config, s: State, p: nat, id: Id)
    requires p < |s.procs| && id in s.rows && s.procs[p].OnFailed? && s.procs[p].job.id == id
    ensures var t := Apply(cfg, s, MarkExhausted(p)).rows; id in t && t[id].status == Failed
  {
    var c := PlanActor(cfg, s, p, s.procs[p], MarkExhausted(p)).value;
    assert c.rows.ToFailed? && c.rows.id == id;
  }
}
