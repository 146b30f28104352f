/** The recovery sweeper terminates: `attempts` counts worker starts, so a transfer that is
    interrupted on every run is requeued a bounded number of times and then set FAILED. */
module Recovery {
  import opened Common
  import opened Transfers
  import opened Protocol

  // ---------------------------------------------------------------- attempts count starts

  /** This step is a worker starting transfer `x`. */
  predicate Starts(s: State, step: Step, x: Id)
  {
    step.Work? && step.act.Claim? && step.p < |s.procs| && s.procs[step.p].Worker?
    && s.procs[step.p].phase.Loaded? && s.procs[step.p].job.id == x
  }

  /** This step is an operator retry resetting transfer `x`. */
  predicate Resets(s: State, step: Step, x: Id)
  {
    match step
    case RetryReset(p, _) => p < |s.procs| && s.procs[p].RetryFound? && s.procs[p].row.id == x && x in s.rows
    case BatchReset(p, n) =>
      p < |s.procs| && s.procs[p].Resetting? && 0 < n <= |s.procs[p].rows| && x in Ids(s.procs[p].rows[..n])
    case _ => false
  }

  /** Starts since the transfer was created or last reset. */
  ghost function StartsSince(cfg: Config, steps: seq<Step>, x: Id): nat
  {
    if steps == [] then 0
    else
      var init, step := steps[..|steps| - 1], steps[|steps| - 1];
      var s := Run(cfg, Init(), init);
      if x !in s.rows || Resets(s, step, x) then 0
      else StartsSince(cfg, init, x) + if Starts(s, step, x) then 1 else 0
  }

  /** What a planned write does to the attempts of `x`. */
  function AttemptsAfter(op: RowOp, x: Id, attempts: nat): nat
  {
    match op
    case ToProcessing(i) => if i == x then attempts + 1 else attempts
    case ToPending(ids) => if x in ids then 0 else attempts
    case Insert(i, _) => if i == x then 0 else attempts
    case _ => attempts
  }

  lemma AttemptsWritten(t: Table, op: RowOp, now: nat, x: Id)
    ensures x in WriteRows(t, op, now) && x in t ==>
            WriteRows(t, op, now)[x].attempts == AttemptsAfter(op, x, t[x].attempts)
    ensures x in WriteRows(t, op, now) && x !in t ==> op.Insert? && op.id == x && WriteRows(t, op, now)[x].attempts == 0
  {
  }

  lemma PlannedAttempts(cfg: Config, s: State, step: Step, x: Id, attempts: nat)
    requires x in s.rows && x in s.issued
    ensures var c := Plan(cfg, s, step);
            var next := if Resets(s, step, x) then 0 else attempts + if Starts(s, step, x) then 1 else 0;
            if c == None then next == attempts else AttemptsAfter(c.value.rows, x, attempts) == next
  {
    if !step.Work? { OtherPlans(cfg, s, step); OtherAttempts(cfg, s, step, x); }
  }

  lemma OtherAttempts(cfg: Config, s: State, step: Step, x: Id)
    requires x in s.rows && x in s.issued && !step.Work?
    ensures var c := Plan(cfg, s, step);
            && (Resets(s, step, x) <==> c.Some? && c.value.rows.ToPending? && x in c.value.rows.ids)
            && !(c.Some? && c.value.rows.Insert? && c.value.rows.id == x)
  {
  }

  /** In every run, `attempts` is the number of worker starts since creation or last reset. */
  lemma {:induction false} AttemptsCountStarts(cfg: Config, steps: seq<Step>, x: Id)
    ensures var s := Run(cfg, Init(), steps);
            Issued(s) && (x in s.rows ==> s.rows[x].attempts == StartsSince(cfg, steps, x))
  {
    if steps != [] {
      var init, step := steps[..|steps| - 1], steps[|steps| - 1];
      AttemptsCountStarts(cfg, init, x);
      var s := Run(cfg, Init(), init);
      IssuedStays(cfg, s, step);
      AttemptsAfterStep(cfg, s, step, x);
    }
  }

  lemma AttemptsAfterStep(cfg: Config, s: State, step: Step, x: Id)
    requires Issued(s)
    ensures var s' := Apply(cfg, s, step);
            x in s'.rows ==>
              s'.rows[x].attempts ==
                if x !in s.rows || Resets(s, step, x) then 0
                else s.rows[x].attempts + if Starts(s, step, x) then 1 else 0
  {
    var c := Plan(cfg, s, step);
    if x in s.rows { PlannedAttempts(cfg, s, step, x, s.rows[x].attempts); }
    if c.Some? { AttemptsWritten(s.rows, c.value.rows, s.clock, x); }
  }

  // ---------------------------------------------------------------- bounded requeues

  function StuckOf(q: Proc): seq<Seen>
  {
    if q.Sweeping? then q.stuck else []
  }

  /** Sweep `p` has selected `x` as entry `i` and not reached it yet. */
  predicate SelectedAt(s: State, x: Id, p: int, i: int)
  {
    0 <= p < |s.procs| && 0 <= i < |StuckOf(s.procs[p])| && StuckOf(s.procs[p])[i].id == x
  }

  ghost predicate Selected(s: State, x: Id)
  {
    exists p, i :: SelectedAt(s, x, p, i)
  }

  /** This step is a sweep putting a job for `x` back on the queue. */
  predicate Requeues(cfg: Config, s: State, step: Step, x: Id)
  {
    step.SweepOne? && step.p < |s.procs| && s.procs[step.p].Sweeping? && s.procs[step.p].stuck != []
    && s.procs[step.p].stuck[0].id == x && s.procs[step.p].stuck[0].attempts < cfg.attempts
  }

  ghost function RequeuesIn(cfg: Config, s: State, steps: seq<Step>, x: Id): nat
  {
    if steps == [] then 0
    else
      var init := steps[..|steps| - 1];
      RequeuesIn(cfg, s, init, x) + if Requeues(cfg, Run(cfg, s, init), steps[|steps| - 1], x) then 1 else 0
  }

  ghost function StartsIn(cfg: Config, s: State, steps: seq<Step>, x: Id): nat
  {
    if steps == [] then 0
    else
      var init := steps[..|steps| - 1];
      StartsIn(cfg, s, init, x) + if Starts(Run(cfg, s, init), steps[|steps| - 1], x) then 1 else 0
  }

  /** No operator retry of `x`. */
  ghost predicate NeverReset(cfg: Config, s: State, steps: seq<Step>, x: Id)
  {
    steps == [] ||
    (var init := steps[..|steps| - 1];
     NeverReset(cfg, s, init, x) && !Resets(Run(cfg, s, init), steps[|steps| - 1], x))
  }

  lemma {:induction false} PatienceResetsNothing(cfg: Config, s: State, steps: seq<Step>, x: Id)
    requires x in s.rows && Patient(cfg, s, steps, x)
    ensures NeverReset(cfg, s, steps, x)
  {
    if steps != [] { PatienceResetsNothing(cfg, s, steps[..|steps| - 1], x); }
  }

  /** No operator retry of `x`, and a sweep selects `x` only after the sweeps before it are
      through with it and a worker has started for every job they requeued. */
  ghost predicate Patient(cfg: Config, s: State, steps: seq<Step>, x: Id)
    requires x in s.rows
  {
    steps == [] ||
    (var init, step := steps[..|steps| - 1], steps[|steps| - 1];
     var mid := Run(cfg, s, init);
     && Patient(cfg, s, init, x)
     && !Resets(mid, step, x)
     && (step.StartSweep? && x in step.batch && x in mid.rows ==>
           !Selected(mid, x) && StartsIn(cfg, s, init, x) >= RequeuesIn(cfg, s, init, x)))
  }

  /** `x` started with `base` attempts and has been requeued `n` times: whoever selected it
      saw at least base + n attempts, and it is selected at most once. */
  ghost predicate Inv(cfg: Config, s: State, x: Id, base: nat, n: nat)
  {
    && Issued(s) && x in s.issued
    && (x in s.rows ==> s.rows[x].attempts >= base)
    && (n == 0 || base + n <= cfg.attempts)
    && (forall p, i :: SelectedAt(s, x, p, i) ==> StuckOf(s.procs[p])[i].attempts >= base + n)
    && (forall p, i, q, j :: SelectedAt(s, x, p, i) && SelectedAt(s, x, q, j) ==> p == q && i == j)
  }

  /** How the list of a sweep changes. */
  ghost predicate SweepMoves(s: State, c: Change)
  {
    c.slot.Some? && c.proc.Sweeping? ==>
      if c.slot.value < |s.procs|
      then s.procs[c.slot.value].Sweeping? && s.procs[c.slot.value].stuck != []
           && c.proc.stuck == s.procs[c.slot.value].stuck[1..]
      else
        && (forall i :: 0 <= i < |c.proc.stuck| ==>
              c.proc.stuck[i].id in s.rows && c.proc.stuck[i].attempts == s.rows[c.proc.stuck[i].id].attempts)
        && (forall i, j :: 0 <= i < j < |c.proc.stuck| ==> c.proc.stuck[i].id != c.proc.stuck[j].id)
  }

  lemma PlansSweep(cfg: Config, s: State, step: Step)
    ensures var c := Plan(cfg, s, step); c.Some? ==> SweepMoves(s, c.value)
  {
  }

  /** Unless a sweep starts, an entry was there before; the sweep that moved on shifts. */
  lemma Origin(s: State, c: Change, x: Id, p: int, i: int) returns (k: int)
    requires SweepMoves(s, c) && SelectedAt(Commit(s, c), x, p, i) && !(c.slot == Some(|s.procs|) && p == |s.procs|)
    requires c.slot.Some? ==> c.slot.value <= |s.procs|
    ensures k == if c.slot == Some(p) then i + 1 else i
    ensures SelectedAt(s, x, p, k) && StuckOf(s.procs[p])[k] == StuckOf(Commit(s, c).procs[p])[i]
  {
    k := if c.slot == Some(p) then i + 1 else i;
  }

  lemma SelectionStays(cfg: Config, s: State, c: Change, x: Id, base: nat, n: nat)
    requires Inv(cfg, s, x, base, n) && SweepMoves(s, c) && (c.slot.Some? ==> c.slot.value < |s.procs|)
    ensures var s' := Commit(s, c);
            && (forall p, i :: SelectedAt(s', x, p, i) ==> StuckOf(s'.procs[p])[i].attempts >= base + n)
            && (forall p, i, q, j :: SelectedAt(s', x, p, i) && SelectedAt(s', x, q, j) ==> p == q && i == j)
    ensures c.slot.Some? && SelectedAt(s, x, c.slot.value, 0) && c.proc.Sweeping? ==> !Selected(Commit(s, c), x)
  {
    var s' := Commit(s, c);
    forall p, i | SelectedAt(s', x, p, i) ensures StuckOf(s'.procs[p])[i].attempts >= base + n {
      var k := Origin(s, c, x, p, i);
    }
    forall p, i, q, j | SelectedAt(s', x, p, i) && SelectedAt(s', x, q, j) ensures p == q && i == j {
      var k := Origin(s, c, x, p, i);
      var l := Origin(s, c, x, q, j);
    }
    if c.slot.Some? && SelectedAt(s, x, c.slot.value, 0) && c.proc.Sweeping? && Selected(s', x) {
      var p, i :| SelectedAt(s', x, p, i);
      var k := Origin(s, c, x, p, i);
      assert false;
    }
  }

  lemma SelectionStarts(cfg: Config, s: State, c: Change, x: Id, base: nat, n: nat)
    requires Inv(cfg, s, x, base, n) && SweepMoves(s, c) && c.slot == Some(|s.procs|)
    requires c.proc.Sweeping? && (exists i :: 0 <= i < |c.proc.stuck| && c.proc.stuck[i].id == x) ==>
               !Selected(s, x) && s.rows[x].attempts >= base + n
    ensures var s' := Commit(s, c);
            && (forall p, i :: SelectedAt(s', x, p, i) ==> StuckOf(s'.procs[p])[i].attempts >= base + n)
            && (forall p, i, q, j :: SelectedAt(s', x, p, i) && SelectedAt(s', x, q, j) ==> p == q && i == j)
  {
    var s' := Commit(s, c);
    forall p, i | SelectedAt(s', x, p, i)
      ensures StuckOf(s'.procs[p])[i].attempts >= base + n
      ensures p < |s.procs| ==> SelectedAt(s, x, p, i)
      ensures p >= |s.procs| ==> p == |s.procs| && !Selected(s, x) && c.proc.Sweeping? && c.proc.stuck[i].id == x
    {
      if p < |s.procs| { var k := Origin(s, c, x, p, i); }
    }
  }

  /** What the step does apart from the selection. */
  lemma StepFacts(cfg: Config, s: State, step: Step, x: Id, base: nat, n: nat)
    requires Inv(cfg, s, x, base, n) && !Resets(s, step, x)
    ensures var s' := Apply(cfg, s, step);
            && Issued(s') && x in s'.issued && (x in s'.rows ==> s'.rows[x].attempts >= base)
    ensures Requeues(cfg, s, step, x) ==> base + n < cfg.attempts
  {
    IssuedStays(cfg, s, step);
    AttemptsAfterStep(cfg, s, step, x);
    if Requeues(cfg, s, step, x) { assert SelectedAt(s, x, step.p, 0); }
    OnlyInsertsFresh(cfg, s, step, x);
  }

  lemma OnlyInsertsFresh(cfg: Config, s: State, step: Step, x: Id)
    requires x in s.issued
    ensures x in Apply(cfg, s, step).issued && (x !in s.rows ==> x !in Apply(cfg, s, step).rows)
  {
    var c := Plan(cfg, s, step);
    if c.Some? {
      AnnouncesFresh(cfg, s, step);
      AttemptsWritten(s.rows, c.value.rows, s.clock, x);
    }
  }

  lemma StepKeepsInv(cfg: Config, s: State, step: Step, x: Id, base: nat, n: nat)
    requires Inv(cfg, s, x, base, n) && !Resets(s, step, x)
    requires step.StartSweep? && x in step.batch && x in s.rows ==> !Selected(s, x) && s.rows[x].attempts >= base + n
    ensures Inv(cfg, Apply(cfg, s, step), x, base, n + if Requeues(cfg, s, step, x) then 1 else 0)
  {
    StepFacts(cfg, s, step, x, base, n);
    var c := Plan(cfg, s, step);
    if c.Some? {
      PlansSweep(cfg, s, step);
      SlotOf(cfg, s, step);
      if c.value.slot == Some(|s.procs|) {
        if c.value.proc.Sweeping? && exists i :: 0 <= i < |c.value.proc.stuck| && c.value.proc.stuck[i].id == x {
          StartsFromBatch(cfg, s, step, x);
        }
        SelectionStarts(cfg, s, c.value, x, base, n);
      } else {
        if Requeues(cfg, s, step, x) { assert SelectedAt(s, x, step.p, 0); }
        SelectionStays(cfg, s, c.value, x, base, n);
      }
    }
  }

  lemma SlotOf(cfg: Config, s: State, step: Step)
    ensures var c := Plan(cfg, s, step);
            && (c.Some? && c.value.slot.Some? ==> c.value.slot.value <= |s.procs|)
            && (c.Some? && c.value.slot == Some(|s.procs|) ==> ActorOf(step) == None)
            && (step.SweepOne? && c.Some? ==>
                  c.value.slot == Some(step.p) && step.p < |s.procs| && c.value.proc.Sweeping?)
  {
  }

  lemma StartsFromBatch(cfg: Config, s: State, step: Step, x: Id)
    requires ActorOf(step) == None
    requires var c := PlanStart(cfg, s, step);
             && c.Some? && c.value.proc.Sweeping?
             && exists i :: 0 <= i < |c.value.proc.stuck| && c.value.proc.stuck[i].id == x
    ensures step.StartSweep? && x in step.batch && x in s.rows
  {
    var stuck := PlanStart(cfg, s, step).value.proc.stuck;
    var i :| 0 <= i < |stuck| && stuck[i].id == x;
    assert step.batch[i] == x;
  }

  /** While nobody resets `x`, its counter grows by exactly the starts of its workers. */
  lemma {:induction false} AttemptsGrowByStarts(cfg: Config, s: State, steps: seq<Step>, x: Id)
    requires Issued(s) && x in s.rows && NeverReset(cfg, s, steps, x)
    ensures var s' := Run(cfg, s, steps);
            && Issued(s') && x in s'.issued
            && (x in s'.rows ==> s'.rows[x].attempts == s.rows[x].attempts + StartsIn(cfg, s, steps, x))
  {
    if steps != [] {
      var init, step := steps[..|steps| - 1], steps[|steps| - 1];
      AttemptsGrowByStarts(cfg, s, init, x);
      var mid := Run(cfg, s, init);
      IssuedStays(cfg, mid, step);
      AttemptsAfterStep(cfg, mid, step, x);
      OnlyInsertsFresh(cfg, mid, step, x);
    }
  }

  lemma {:induction false} RunKeepsInv(cfg: Config, s: State, steps: seq<Step>, x: Id)
    requires Issued(s) && x in s.rows && !Selected(s, x) && Patient(cfg, s, steps, x)
    ensures Inv(cfg, Run(cfg, s, steps), x, s.rows[x].attempts, RequeuesIn(cfg, s, steps, x))
  {
    if steps == [] {
      assert forall p, i :: !SelectedAt(s, x, p, i);
    } else {
      var init, step := steps[..|steps| - 1], steps[|steps| - 1];
      RunKeepsInv(cfg, s, init, x);
      PatienceResetsNothing(cfg, s, init, x);
      AttemptsGrowByStarts(cfg, s, init, x);
      StepKeepsInv(cfg, Run(cfg, s, init), step, x, s.rows[x].attempts, RequeuesIn(cfg, s, init, x));
    }
  }

  /** Recovery terminates: without operator retries, and if every requeued job starts before
      the next sweep selects the transfer, sweeps requeue it at most maxAttempts - attempts
      times; once they have, the next sweep that selects it sets it FAILED. */
  lemma {:induction false} RecoveryTerminates(cfg: Config, s: State, steps: seq<Step>, x: Id, p: nat)
    requires Issued(s) && x in s.rows && !Selected(s, x) && Patient(cfg, s, steps, x)
    ensures var n := RequeuesIn(cfg, s, steps, x);
            var s' := Run(cfg, s, steps);
            && (n == 0 || s.rows[x].attempts + n <= cfg.attempts)
            && (s.rows[x].attempts + n >= cfg.attempts && SelectedAt(s', x, p, 0) ==>
                  var t := Apply(cfg, s', SweepOne(p)).rows; x in t ==> t[x].status == Failed)
  {
    RunKeepsInv(cfg, s, steps, x);
    var s' := Run(cfg, s, steps);
    if SelectedAt(s', x, p, 0) && s.rows[x].attempts + RequeuesIn(cfg, s, steps, x) >= cfg.attempts {
      ExhaustedSweepFails(cfg, s', p);
    }
  }

  /** A sweep that reaches a transfer it saw exhausted sets it FAILED. */
  lemma ExhaustedSweepFails(cfg: Config, s: State, p: nat)
    requires p < |s.procs| && s.procs[p].Sweeping? && s.procs[p].stuck != []
             && s.procs[p].stuck[0].attempts >= cfg.attempts
    ensures var x, t := s.procs[p].stuck[0].id, Apply(cfg, s, SweepOne(p)).rows;
            x in t ==> t[x].status == Failed
  {
    var c := PlanActor(cfg, s, p, s.procs[p], SweepOne(p)).value;
    assert c.rows.ToFailed?;
  }
}

/** Without the patience that recovery assumes, it does not terminate. */
module ImpatientSweeps {
  import opened Common
  import opened Transfers
  import opened Protocol
  import opened Recovery
  import Scenarios

  /** The only transfer is stuck and has retries left. */
  ghost predicate StuckAlone(cfg: Config, s: State, x: Id, staleBefore: nat)
  {
    && s.rows.Keys == {x} && Stuck(s.rows[x], staleBefore)
    && s.rows[x].attempts < cfg.attempts && cfg.sweepBatch > 0
  }

  lemma SweepStarts(cfg: Config, s: State, x: Id, staleBefore: nat)
    requires StuckAlone(cfg, s, x, staleBefore)
    ensures var s' := Apply(cfg, s, StartSweep(staleBefore, [x]));
            && s'.rows == s.rows && |s'.procs| == |s.procs| + 1
            && SelectedAt(s', x, |s.procs|, 0) && s'.procs[|s.procs|].stuck[0].attempts < cfg.attempts
  {
    Scenarios.SweepFinds(cfg, s, x, staleBefore);
  }

  lemma SweepRequeues(cfg: Config, s: State, x: Id, p: nat)
    requires SelectedAt(s, x, p, 0) && s.procs[p].stuck[0].attempts < cfg.attempts
    ensures var s' := Apply(cfg, s, SweepOne(p));
            Requeues(cfg, s, SweepOne(p), x) && s'.rows == s.rows && |s'.procs| == |s.procs|
  {
    var c := Change(Some(p), Sweeping(s.procs[p].stuck[1..]), KeepRows, AddJob(Job(x, 0)), Quiet);
    assert PlanActor(cfg, s, p, s.procs[p], SweepOne(p)) == Some(c);
  }

  lemma OneMoreStep(cfg: Config, s: State, steps: seq<Step>, step: Step, x: Id)
    ensures RequeuesIn(cfg, s, steps + [step], x)
            == RequeuesIn(cfg, s, steps, x) + if Requeues(cfg, Run(cfg, s, steps), step, x) then 1 else 0
  {
    assert (steps + [step])[..|steps|] == steps;
  }

  lemma OneMoreRound(cfg: Config, s: State, steps: seq<Step>, x: Id, staleBefore: nat, p: nat)
    requires StuckAlone(cfg, Run(cfg, s, steps), x, staleBefore) && |Run(cfg, s, steps).procs| == p
    ensures var mid, after := Run(cfg, s, steps), Run(cfg, s, steps + [StartSweep(staleBefore, [x])] + [SweepOne(p)]);
            && after.rows == mid.rows && |after.procs| == p + 1
            && RequeuesIn(cfg, s, steps + [StartSweep(staleBefore, [x])] + [SweepOne(p)], x)
               == RequeuesIn(cfg, s, steps, x) + 1
  {
    var start := StartSweep(staleBefore, [x]);
    SweepStarts(cfg, Run(cfg, s, steps), x, staleBefore);
    RunSnoc(cfg, s, steps, start);
    OneMoreStep(cfg, s, steps, start, x);
    SweepRequeues(cfg, Run(cfg, s, steps + [start]), x, p);
    RunSnoc(cfg, s, steps + [start], SweepOne(p));
    OneMoreStep(cfg, s, steps + [start], SweepOne(p), x);
  }

  /** After that run nothing changed but that the transfer was requeued `n` times. */
  ghost predicate RequeuedTimes(cfg: Config, s: State, steps: seq<Step>, x: Id, n: nat)
  {
    && Run(cfg, s, steps).rows == s.rows && |Run(cfg, s, steps).procs| == |s.procs| + n
    && RequeuesIn(cfg, s, steps, x) == n
  }

  /** One sweep after another, while no worker starts. */
  lemma {:induction false} RequeuedEachTime(cfg: Config, s: State, x: Id, staleBefore: nat, n: nat)
    returns (steps: seq<Step>)
    requires StuckAlone(cfg, s, x, staleBefore)
    ensures RequeuedTimes(cfg, s, steps, x, n)
  {
    if n == 0 {
      steps := [];
    } else {
      var init := RequeuedEachTime(cfg, s, x, staleBefore, n - 1);
      var p := |s.procs| + n - 1;
      OneMoreRound(cfg, s, init, x, staleBefore, p);
      steps := init + [StartSweep(staleBefore, [x])] + [SweepOne(p)];
    }
  }

  /** If requeued jobs never start, sweeps requeue a transfer as often as they run: for every
      n there is a run in which an accepted transfer is requeued n times. */
  lemma ImpatientSweepsNeverEnd(cfg: Config, n: nat) returns (steps: seq<Step>)
    requires cfg.attempts > 0 && cfg.sweepBatch > 0
    ensures var s := Run(cfg, Init(), [] + [Accept(Scenarios.FILE, 0, 0)]);
            0 in s.rows && RequeuesIn(cfg, s, steps, 0) == n
  {
    RunSnoc(cfg, Init(), [], Accept(Scenarios.FILE, 0, 0));
    Scenarios.Accepted(cfg, Init(), Scenarios.FILE, 0, 0);
    var s := Run(cfg, Init(), [] + [Accept(Scenarios.FILE, 0, 0)]);
    assert s.rows == map[0 := NewRow(Scenarios.FILE, 0)];
    steps := RequeuedEachTime(cfg, s, 0, 1, n);
  }
}
