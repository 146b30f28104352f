/** The queue's work for a transfer is bounded by the fresh jobs it was given: retries of the
    queue alone never add up to more. */
module Workload {
  import opened Common
  import opened Transfers
  import opened Protocol
  import opened Metering

  /** Attempts that the queue grants a fresh job. */
  function Allowed(cfg: Config): (n: nat)
    ensures n >= 1
  {
    if cfg.attempts >= 1 then cfg.attempts else 1
  }

  /** Attempts that a job of `x` has left. */
  function LeftOf(job: Job, x: Id, limit: nat): nat
  {
    if job.id == x && job.made < limit then limit - job.made else 0
  }

  /** Attempts left to the queued jobs of `x` that have failed fewer than `n` times. */
  function LeftIn(queue: multiset<Job>, x: Id, limit: nat, n: nat): nat
    requires n <= limit
  {
    if n == 0 then 0 else LeftIn(queue, x, limit, n - 1) + queue[Job(x, n - 1)] * (limit - (n - 1))
  }

  lemma TimesOneMore(count: nat, left: nat)
    ensures (count + 1) * left == count * left + left
  {
  }

  lemma {:induction false} LeftAfterAdd(queue: multiset<Job>, job: Job, x: Id, limit: nat, n: nat)
    requires n <= limit
    ensures LeftIn(queue + multiset{job}, x, limit, n)
            == LeftIn(queue, x, limit, n) + if job.made < n then LeftOf(job, x, limit) else 0
  {
    if n > 0 {
      LeftAfterAdd(queue, job, x, limit, n - 1);
      TimesOneMore(queue[Job(x, n - 1)], limit - (n - 1));
      if job == Job(x, n - 1) { assert (queue + multiset{job})[job] == queue[job] + 1; }
      else { assert (queue + multiset{job})[Job(x, n - 1)] == queue[Job(x, n - 1)]; }
    }
  }

  lemma LeftAfterTake(queue: multiset<Job>, job: Job, x: Id, limit: nat, n: nat)
    requires n <= limit && job in queue
    ensures LeftIn(queue, x, limit, n)
            == LeftIn(queue - multiset{job}, x, limit, n) + if job.made < n then LeftOf(job, x, limit) else 0
  {
    assert queue == (queue - multiset{job}) + multiset{job};
    LeftAfterAdd(queue - multiset{job}, job, x, limit, n);
  }

  // ---------------------------------------------------------------- one step

  /** A relay, a sweep or a management call puts a fresh job for `x` on the queue. */
  predicate AddsFresh(cfg: Config, s: State, step: Step, x: Id)
  {
    ActorOf(step).Some? && ActorOf(step).value < |s.procs| &&
    match (step, s.procs[ActorOf(step).value])
    case (RelayAdd(_), Relaying(events)) => events != [] && events[0] in s.outbox && s.outbox[events[0]].transfer == x
    case (SweepOne(_), Sweeping(stuck)) => stuck != [] && stuck[0].id == x && stuck[0].attempts < cfg.attempts
    case (Enqueue(_), Enqueueing(ids)) => ids != [] && ids[0] == x
    case _ => false
  }

  /** An attempt for `x` fails. */
  predicate Throws(s: State, step: Step, x: Id)
  {
    step.Throw? && step.p < |s.procs| && s.procs[step.p].Worker? && s.procs[step.p].job.id == x
  }

  /** No job has failed as often as it may. */
  ghost predicate Sane(cfg: Config, s: State)
  {
    && (forall job :: job in s.queue ==> job.made < Allowed(cfg))
    && (forall p :: 0 <= p < |s.procs| && s.procs[p].Worker? ==> s.procs[p].job.made < Allowed(cfg))
  }

  function Added(op: JobOp, x: Id, limit: nat): nat
  {
    if op.AddJob? then LeftOf(op.job, x, limit) else 0
  }

  function Taken(op: JobOp, x: Id, limit: nat): nat
  {
    if op.TakeJob? then LeftOf(op.job, x, limit) else 0
  }

  /** How a change moves attempts between queue and workers: it uses one up when it throws,
      may lose some, and gains some only with a fresh job. */
  ghost predicate Moves(cfg: Config, s: State, c: Change, x: Id, thrown: bool, granted: bool)
  {
    var limit := Allowed(cfg);
    var left := AttemptsLeft(x, limit);
    && (if thrown then 1 else 0) + Added(c.jobs, x, limit) + Reading(left, Became(c))
       <= Reading(left, Old(s, c)) + Taken(c.jobs, x, limit) + (if granted then limit else 0)
    && (c.jobs.AddJob? ==> c.jobs.job.made < limit)
    && (c.jobs.TakeJob? ==> c.jobs.job in s.queue)
    && (Became(c).Worker? ==> Became(c).job.made < limit)
  }

  lemma WorkMoves(cfg: Config, s: State, p: nat, act: Act, x: Id)
    requires p < |s.procs| && s.procs[p].Worker? && Sane(cfg, s)
    ensures var c := PlanWork(cfg, s, p, s.procs[p].job, s.procs[p].phase, act);
            c.Some? ==> Moves(cfg, s, c.value, x, false, false)
  {
  }

  lemma ActorsMove(cfg: Config, s: State, p: nat, step: Step, x: Id)
    requires p < |s.procs| && ActorOf(step) == Some(p) && !step.Work? && Sane(cfg, s)
    ensures var c := PlanActor(cfg, s, p, s.procs[p], step);
            if c == None then !Throws(s, step, x) && !AddsFresh(cfg, s, step, x)
            else Moves(cfg, s, c.value, x, Throws(s, step, x), AddsFresh(cfg, s, step, x))
  {
  }

  lemma StartsMove(cfg: Config, s: State, step: Step, x: Id)
    requires ActorOf(step) == None && Sane(cfg, s)
    ensures var c := Plan(cfg, s, step); c.Some? ==> Moves(cfg, s, c.value, x, false, false)
  {
  }

  lemma PlansMove(cfg: Config, s: State, step: Step, x: Id)
    requires Sane(cfg, s)
    ensures var c := Plan(cfg, s, step);
            c.Some? ==> Moves(cfg, s, c.value, x, Throws(s, step, x), AddsFresh(cfg, s, step, x))
    ensures Plan(cfg, s, step) == None ==> !Throws(s, step, x) && !AddsFresh(cfg, s, step, x)
  {
    var p := ActorOf(step);
    if p == None { StartsMove(cfg, s, step, x); }
    else if p.value < |s.procs| {
      if !step.Work? { ActorsMove(cfg, s, p.value, step, x); }
      else if s.procs[p.value].Worker? { WorkMoves(cfg, s, p.value, step.act, x); }
    }
  }

  /** Attempts left for `x`, on the queue and in the workers. */
  function Left(cfg: Config, s: State, x: Id): nat
  {
    LeftIn(s.queue, x, Allowed(cfg), Allowed(cfg)) + Total(AttemptsLeft(x, Allowed(cfg)), s.procs)
  }

  lemma ChangeMoves(cfg: Config, s: State, c: Change, x: Id, thrown: bool, granted: bool)
    requires Sane(cfg, s) && Moves(cfg, s, c, x, thrown, granted)
    ensures (if thrown then 1 else 0) + Left(cfg, Commit(s, c), x)
            <= Left(cfg, s, x) + (if granted then Allowed(cfg) else 0)
  {
    var limit := Allowed(cfg);
    TotalAfter(AttemptsLeft(x, limit), s, c);
    match c.jobs
    case KeepJobs =>
    case AddJob(job) => LeftAfterAdd(s.queue, job, x, limit, limit);
    case TakeJob(job) => LeftAfterTake(s.queue, job, x, limit, limit);
  }

  lemma SanityStays(cfg: Config, s: State, c: Change, x: Id, thrown: bool, granted: bool)
    requires Sane(cfg, s) && Moves(cfg, s, c, x, thrown, granted)
    ensures Sane(cfg, Commit(s, c))
  {
    var s' := Commit(s, c);
    forall job | job in s'.queue ensures job.made < Allowed(cfg) {
      if c.jobs != AddJob(job) { assert job in s.queue; }
    }
    forall p | 0 <= p < |s'.procs| && s'.procs[p].Worker? ensures s'.procs[p].job.made < Allowed(cfg) {
      if p < |s.procs| && c.slot != Some(p) { assert s'.procs[p] == s.procs[p]; }
    }
  }

  // ---------------------------------------------------------------- whole runs

  ghost function ThrowsIn(cfg: Config, steps: seq<Step>, x: Id): nat
  {
    if steps == [] then 0
    else var init := steps[..|steps| - 1];
      ThrowsIn(cfg, init, x) + if Throws(Run(cfg, Init(), init), steps[|steps| - 1], x) then 1 else 0
  }

  ghost function FreshIn(cfg: Config, steps: seq<Step>, x: Id): nat
  {
    if steps == [] then 0
    else var init := steps[..|steps| - 1];
      FreshIn(cfg, init, x) + if AddsFresh(cfg, Run(cfg, Init(), init), steps[|steps| - 1], x) then 1 else 0
  }

  lemma {:induction false} NothingLeftAtFirst(cfg: Config, x: Id, n: nat)
    requires n <= Allowed(cfg)
    ensures LeftIn(multiset{}, x, Allowed(cfg), n) == 0
  {
    if n > 0 { NothingLeftAtFirst(cfg, x, n - 1); }
  }

  lemma StepIsBounded(cfg: Config, s: State, step: Step, x: Id)
    requires Sane(cfg, s)
    ensures var s' := Apply(cfg, s, step);
            && Sane(cfg, s')
            && (if Throws(s, step, x) then 1 else 0) + Left(cfg, s', x)
               <= Left(cfg, s, x) + (if AddsFresh(cfg, s, step, x) then Allowed(cfg) else 0)
  {
    PlansMove(cfg, s, step, x);
    var c := Plan(cfg, s, step);
    if c.Some? {
      ChangeMoves(cfg, s, c.value, x, Throws(s, step, x), AddsFresh(cfg, s, step, x));
      SanityStays(cfg, s, c.value, x, Throws(s, step, x), AddsFresh(cfg, s, step, x));
    }
  }

  /** The sum over a run, from the sum over all but its last step. */
  lemma OneMoreStep(thrown: nat, left: nat, jobs: nat, limit: nat, left': nat, throws: bool, grants: bool)
    requires thrown + left <= Times(jobs, limit)
    requires (if throws then 1 else 0) + left' <= left + (if grants then limit else 0)
    ensures thrown + (if throws then 1 else 0) + left' <= Times(jobs + (if grants then 1 else 0), limit)
  {
  }

  lemma {:induction false} WithinGrants(cfg: Config, steps: seq<Step>, x: Id)
    ensures var s := Run(cfg, Init(), steps);
            Sane(cfg, s) && ThrowsIn(cfg, steps, x) + Left(cfg, s, x) <= Times(FreshIn(cfg, steps, x), Allowed(cfg))
  {
    if steps == [] {
      NothingLeftAtFirst(cfg, x, Allowed(cfg));
    } else {
      var init, step := steps[..|steps| - 1], steps[|steps| - 1];
      WithinGrants(cfg, init, x);
      var s := Run(cfg, Init(), init);
      StepIsBounded(cfg, s, step, x);
      OneMoreStep(ThrowsIn(cfg, init, x), Left(cfg, s, x), FreshIn(cfg, init, x), Allowed(cfg),
                  Left(cfg, Apply(cfg, s, step), x), Throws(s, step, x), AddsFresh(cfg, s, step, x));
    }
  }

  /** In every run, crashes and stalls included: the failed attempts of a transfer, plus the
      attempts that its queued and running jobs have left, never exceed max(attempts, 1) for
      each fresh job that relays, sweeps and management calls added. */
  lemma {:induction false} WorkIsBounded(cfg: Config, steps: seq<Step>, x: Id)
    ensures ThrowsIn(cfg, steps, x) + Left(cfg, Run(cfg, Init(), steps), x) <= FreshIn(cfg, steps, x) * Allowed(cfg)
  {
    WithinGrants(cfg, steps, x);
    TimesIsProduct(FreshIn(cfg, steps, x), Allowed(cfg));
  }
}

/** The bound is attained: the queue does use all attempts of a fresh job. */
module WorkAttained {
  import opened Common
  import opened Transfers
  import opened Protocol
  import opened Scenarios
  import opened Workload

  lemma ThrowsSnoc(cfg: Config, steps: seq<Step>, step: Step, x: Id)
    ensures ThrowsIn(cfg, steps + [step], x)
            == ThrowsIn(cfg, steps, x) + if Throws(Run(cfg, Init(), steps), step, x) then 1 else 0
    ensures FreshIn(cfg, steps + [step], x)
            == FreshIn(cfg, steps, x) + if AddsFresh(cfg, Run(cfg, Init(), steps), step, x) then 1 else 0
  {
    assert (steps + [step])[..|steps|] == steps;
  }

  /** After `k` failed attempts of the first job. */
  ghost predicate Failed(cfg: Config, steps: seq<Step>, k: nat)
  {
    var s := Run(cfg, Init(), steps);
    && s.queue == multiset{Job(0, k)} && |s.procs| == 1 + k
    && ThrowsIn(cfg, steps, 0) == k && FreshIn(cfg, steps, 0) == 1
  }

  lemma RelayStarts(cfg: Config)
    ensures var s := Run(cfg, Init(), [] + [Accept(FILE, 0, 0)] + [StartRelay([0])]);
            s.procs == [Relaying([0])] && 0 in s.outbox && s.outbox[0].transfer == 0 && s.queue == multiset{}
  {
    var a, b := Accept(FILE, 0, 0), StartRelay([0]);
    RunSnoc(cfg, Init(), [], a);
    RunSnoc(cfg, Init(), [] + [a], b);
    Accepted(cfg, Init(), FILE, 0, 0);
    var s1 := Run(cfg, Init(), [] + [a]);
    OnlyBatch(s1.outbox, 0);
    assert Plan(cfg, s1, b) == Some(Change(Some(0), Relaying([0]), KeepRows, KeepJobs, Quiet));
  }

  lemma FirstJob(cfg: Config)
    ensures Failed(cfg, ArriveSteps(FILE, 0, 0, 0), 0)
  {
    ArrivedRun(cfg, Init(), FILE, 0, 0);
    OneFreshJob(cfg);
  }

  lemma OneFreshJob(cfg: Config)
    ensures var steps := ArriveSteps(FILE, 0, 0, 0); ThrowsIn(cfg, steps, 0) == 0 && FreshIn(cfg, steps, 0) == 1
  {
    var a, b, c := Accept(FILE, 0, 0), StartRelay([0]), RelayAdd(0);
    RelayStarts(cfg);
    ThrowsSnoc(cfg, [], a, 0);
    ThrowsSnoc(cfg, [] + [a], b, 0);
    ThrowsSnoc(cfg, [] + [a] + [b], c, 0);
  }

  /** The job is taken by the next worker. */
  lemma TakenAgain(cfg: Config, steps: seq<Step>, k: nat)
    requires Failed(cfg, steps, k)
    ensures var more := steps + [Take(Job(0, k))];
            var s := Run(cfg, Init(), more);
            && s.queue == multiset{} && |s.procs| == 2 + k && s.procs[1 + k] == Worker(Job(0, k), Phase.Taken)
            && ThrowsIn(cfg, more, 0) == k && FreshIn(cfg, more, 0) == 1
  {
    RunSnoc(cfg, Init(), steps, Take(Job(0, k)));
    Scenarios.Taken(cfg, Run(cfg, Init(), steps), Job(0, k));
    ThrowsSnoc(cfg, steps, Take(Job(0, k)), 0);
  }

  lemma ThrownAgain(cfg: Config, s: State, p: nat, job: Job)
    requires p < |s.procs| && s.procs[p] == Worker(job, Phase.Taken) && job.made + 1 < cfg.attempts
    ensures var s' := Apply(cfg, s, Throw(p));
            s'.queue == s.queue + multiset{Job(job.id, job.made + 1)} && |s'.procs| == |s.procs|
  {
    var c := Change(Some(p), Ended, KeepRows, AddJob(Job(job.id, job.made + 1)), Quiet);
    assert PlanActor(cfg, s, p, s.procs[p], Throw(p)) == Some(c);
  }

  lemma OneMoreThrow(cfg: Config, steps: seq<Step>, k: nat)
    requires Failed(cfg, steps, k) && k + 1 < cfg.attempts
    ensures Failed(cfg, steps + [Take(Job(0, k))] + [Throw(1 + k)], k + 1)
  {
    var more := steps + [Take(Job(0, k))];
    TakenAgain(cfg, steps, k);
    ThrownAgain(cfg, Run(cfg, Init(), more), 1 + k, Job(0, k));
    RunSnoc(cfg, Init(), more, Throw(1 + k));
    ThrowsSnoc(cfg, more, Throw(1 + k), 0);
  }

  lemma {:induction false} FailedTimes(cfg: Config, k: nat) returns (steps: seq<Step>)
    requires k < Allowed(cfg)
    ensures Failed(cfg, steps, k)
  {
    if k == 0 {
      FirstJob(cfg);
      steps := ArriveSteps(FILE, 0, 0, 0);
    } else {
      var init := FailedTimes(cfg, k - 1);
      OneMoreThrow(cfg, init, k - 1);
      steps := init + [Take(Job(0, k - 1))] + [Throw(k)];
    }
  }

  /** In every configuration one fresh job fails max(attempts, 1) times in some run. */
  lemma WorkBoundIsAttained(cfg: Config) returns (steps: seq<Step>)
    ensures FreshIn(cfg, steps, 0) == 1 && ThrowsIn(cfg, steps, 0) == Allowed(cfg)
  {
    var k := Allowed(cfg) - 1;
    var init := FailedTimes(cfg, k);
    TakenAgain(cfg, init, k);
    ThrowsSnoc(cfg, init + [Take(Job(0, k))], Throw(1 + k), 0);
    steps := init + [Take(Job(0, k))] + [Throw(1 + k)];
  }
}
