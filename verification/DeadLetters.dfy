/** Conservation of dead letters: every FAILED mark of a run or its `failed` handler is paid
    by one dead letter, in every interleaving; the sweeper's FAILED marks by none. */
module DeadLetters {
  import opened Common
  import opened Transfers
  import opened Protocol
  import opened Metering

  /** This step is a run, or its `failed` handler, setting transfer `id` FAILED. */
  predicate Fails(s: State, step: Step, id: Id)
  {
    ActorOf(step).Some? && ActorOf(step).value < |s.procs| &&
    match (step, s.procs[ActorOf(step).value])
    case (Work(_, MarkRejected), Worker(job, Rejected(_))) => job.id == id
    case (MarkExhausted(_), OnFailed(job)) => job.id == id
    case _ => false
  }

  /** This step ends an actor before it sent its dead letter. */
  predicate LosesLetter(s: State, step: Step, id: Id)
  {
    match step
    case Crash(p) => p < |s.procs| && OwesLetter(s.procs[p], id)
    case Throw(p) => p < |s.procs| && s.procs[p].Worker? && OwesLetter(s.procs[p], id)
    case Stall(p) => p < |s.procs| && s.procs[p].Worker? && OwesLetter(s.procs[p], id)
    case _ => false
  }

  ghost function FailsIn(cfg: Config, steps: seq<Step>, id: Id): nat
  {
    if steps == [] then 0
    else var init := steps[..|steps| - 1];
      FailsIn(cfg, init, id) + if Fails(Run(cfg, Init(), init), steps[|steps| - 1], id) then 1 else 0
  }

  ghost function LostLettersIn(cfg: Config, steps: seq<Step>, id: Id): nat
  {
    if steps == [] then 0
    else var init := steps[..|steps| - 1];
      LostLettersIn(cfg, init, id) + if LosesLetter(Run(cfg, Init(), init), steps[|steps| - 1], id) then 1 else 0
  }

  /** How a planned change moves a letter from due to sent or lost. */
  ghost predicate LetterMoves(s: State, c: Change, id: Id, fails: bool, lost: bool)
  {
    var due := LettersDue(id);
    Reading(due, Old(s, c)) + (if fails then 1 else 0)
    == Reading(due, Became(c)) + (if c.note == DeadLettered(id) then 1 else 0) + (if lost then 1 else 0)
  }

  lemma WorkMovesLetter(cfg: Config, s: State, p: nat, act: Act, id: Id)
    requires p < |s.procs| && s.procs[p].Worker?
    ensures var c := PlanWork(cfg, s, p, s.procs[p].job, s.procs[p].phase, act);
            if c == None then !Fails(s, Work(p, act), id)
              else LetterMoves(s, c.value, id, Fails(s, Work(p, act), id), false)
  {
  }

  lemma ActorsMoveLetter(cfg: Config, s: State, p: nat, step: Step, id: Id)
    requires p < |s.procs| && ActorOf(step) == Some(p) && !step.Work?
    ensures var c := PlanActor(cfg, s, p, s.procs[p], step);
            if c == None then !Fails(s, step, id) && !LosesLetter(s, step, id)
            else LetterMoves(s, c.value, id, Fails(s, step, id), LosesLetter(s, step, id))
  {
  }

  lemma PlansMoveLetter(cfg: Config, s: State, step: Step, id: Id)
    ensures var c := Plan(cfg, s, step);
            if c == None then !Fails(s, step, id) && !LosesLetter(s, step, id)
            else LetterMoves(s, c.value, id, Fails(s, step, id), LosesLetter(s, step, id))
  {
    var p := ActorOf(step);
    if p.Some? && p.value < |s.procs| {
      if !step.Work? { ActorsMoveLetter(cfg, s, p.value, step, id); }
      else if s.procs[p.value].Worker? { WorkMovesLetter(cfg, s, p.value, step.act, id); }
    }
  }

  lemma ChangeConserves(s: State, c: Change, id: Id, fails: bool, lost: bool)
    requires LetterMoves(s, c, id, fails, lost)
    ensures var s' := Commit(s, c);
            s.deadLetters[id] + Total(LettersDue(id), s.procs) + (if fails then 1 else 0)
            == s'.deadLetters[id] + Total(LettersDue(id), s'.procs) + if lost then 1 else 0
  {
    TotalAfter(LettersDue(id), s, c);
  }

  /** The FAILED marks of runs and `failed` handlers are the dead letters sent, those due and
      those lost by actors that ended in between. */
  lemma {:induction false} DeadLettersConserve(cfg: Config, steps: seq<Step>, id: Id)
    ensures var s := Run(cfg, Init(), steps);
            FailsIn(cfg, steps, id) == s.deadLetters[id] + Total(LettersDue(id), s.procs)
              + LostLettersIn(cfg, steps, id)
  {
    if steps != [] {
      var init, step := steps[..|steps| - 1], steps[|steps| - 1];
      DeadLettersConserve(cfg, init, id);
      var s := Run(cfg, Init(), init);
      PlansMoveLetter(cfg, s, step, id);
      var c := Plan(cfg, s, step);
      if c.Some? { ChangeConserves(s, c.value, id, Fails(s, step, id), LosesLetter(s, step, id)); }
    }
  }

  /** A sweep that gives a transfer up sends no dead letter and owes none. */
  lemma SweptTransfersGetNoLetter(cfg: Config, s: State, p: nat)
    requires p < |s.procs| && s.procs[p].Sweeping? && s.procs[p].stuck != []
             && s.procs[p].stuck[0].attempts >= cfg.attempts
    ensures var s', x := Apply(cfg, s, SweepOne(p)), s.procs[p].stuck[0].id;
            && (x in s.rows ==> x in s'.rows && s'.rows[x].status == Failed)
            && s'.deadLetters == s.deadLetters && s'.queue == s.queue
            && s'.procs == s.procs[p := Sweeping(s.procs[p].stuck[1..])]
            && Total(LettersDue(x), s'.procs) == Total(LettersDue(x), s.procs)
  {
    var c := PlanActor(cfg, s, p, s.procs[p], SweepOne(p)).value;
    assert c.rows.ToFailed? && c.rows.id == s.procs[p].stuck[0].id;
    TotalAfter(LettersDue(s.procs[p].stuck[0].id), s, c);
  }
}

/** The sweeper's FAILED transfers without a dead letter are reached by runs of the system. */
module UnburiedFailures {
  import opened Transfers
  import opened Protocol
  import opened Scenarios
  import DeadLetters
  import Metering

  /** Transfer 0 has been started `k` times, every worker died, and its job waits again. */
  ghost predicate Interrupted(s: State, k: nat)
  {
    && s.rows.Keys == {0} && !Terminal(s.rows[0].status) && s.rows[0].attempts == k
    && s.queue == multiset{Job(0, 0)} && s.deadLetters == multiset{} && NoneDue(s.procs)
  }

  predicate NoneDue(procs: seq<Proc>)
  {
    forall p :: 0 <= p < |procs| ==> !Metering.OwesLetter(procs[p], 0)
  }

  lemma JobReturns(cfg: Config, s: State, p: nat)
    requires p < |s.procs| && s.procs[p].Worker?
    ensures var s' := Apply(cfg, s, Stall(p));
            && s'.rows == s.rows && s'.deadLetters == s.deadLetters
            && s'.queue == s.queue + multiset{s.procs[p].job} && s'.procs == s.procs[p := Ended]
  {
  }

  lemma InterruptedOnceMore(cfg: Config, s: State, k: nat)
    requires Interrupted(s, k)
    ensures var p := |s.procs|; Interrupted(Apply(cfg, Run(cfg, s, ClaimSteps(Job(0, 0), p)), Stall(p)), k + 1)
  {
    ClaimedRun(cfg, s, Job(0, 0));
    JobReturns(cfg, Run(cfg, s, ClaimSteps(Job(0, 0), |s.procs|)), |s.procs|);
  }

  lemma {:induction false} InterruptedEachTime(cfg: Config, k: nat) returns (steps: seq<Step>)
    ensures Interrupted(Run(cfg, Init(), steps), k)
  {
    if k == 0 {
      steps := ArriveSteps(FILE, 0, 0, 0);
      ArrivedRun(cfg, Init(), FILE, 0, 0);
    } else {
      var init := InterruptedEachTime(cfg, k - 1);
      var s := Run(cfg, Init(), init);
      var claim, stall := ClaimSteps(Job(0, 0), |s.procs|), Stall(|s.procs|);
      InterruptedOnceMore(cfg, s, k - 1);
      RunAppend(cfg, Init(), init, claim);
      RunSnoc(cfg, Init(), init + claim, stall);
      steps := init + claim + [stall];
    }
  }

  /** Whatever the configuration, a run reaches it: a transfer is interrupted on every start,
      a sweep sets it FAILED, and no dead letter was ever sent or is due. */
  lemma SweptWithoutLetter(cfg: Config) returns (steps: seq<Step>)
    requires cfg.sweepBatch > 0
    ensures var s := Run(cfg, Init(), steps);
            && 0 in s.rows && s.rows[0].status == Failed && s.deadLetters == multiset{}
            && NoneDue(s.procs)
  {
    var init := InterruptedEachTime(cfg, cfg.attempts);
    var s := Run(cfg, Init(), init);
    var p, start := |s.procs|, StartSweep(s.rows[0].updatedAt + 1, [0]);
    SweepFinds(cfg, s, 0, s.rows[0].updatedAt + 1);
    RunSnoc(cfg, Init(), init, start);
    RunSnoc(cfg, Init(), init + [start], SweepOne(p));
    DeadLetters.SweptTransfersGetNoLetter(cfg, Apply(cfg, s, start), p);
    steps := init + [start] + [SweepOne(p)];
  }
}
