/** Runs of the system, for every configuration, in which a SUCCESS row loses its status. */
module LostSuccess {
  import opened Transfers
  import opened Protocol
  import opened Scenarios
  import ExactlyOnce

  /** After `n` steps transfer 0 is SUCCESS; after all of them it has another status. */
  ghost predicate Loses(cfg: Config, steps: seq<Step>, n: nat, status: Status)
  {
    && n <= |steps| && status != Success
    && var before, after := Run(cfg, Init(), steps[..n]).rows, Run(cfg, Init(), steps).rows;
    && 0 in before && before[0].status == Success
       && 0 in after && after[0].status == status
  }

  /** Transfer 0 is open, nothing is recorded yet, and `jobs` wait. */
  ghost predicate Waits(s: State, jobs: multiset<Job>, actors: nat)
  {
    && 0 in s.rows && s.rows[0].input == FILE && s.rows[0].status != Success
    && s.queue == jobs && |s.procs| == actors && s.usage == map[]
  }

  lemma FirstJob(cfg: Config) returns (steps: seq<Step>)
    ensures var s := Run(cfg, Init(), steps);
            && Waits(s, multiset{Job(0, 0)}, 1) && s.procs == [RelayAdded([0])]
            && s.outbox.Keys == {0} && s.outbox[0].pending && s.outbox[0].transfer == 0
  {
    steps := ArriveSteps(FILE, 0, 0, 0);
    ArrivedRun(cfg, Init(), FILE, 0, 0);
  }

  lemma RelayCrashes(cfg: Config, s: State)
    requires s.procs == [RelayAdded([0])]
    ensures var s' := Apply(cfg, s, Crash(0));
            s'.procs == [Ended] && s'.rows == s.rows && s'.queue == s.queue && s'.outbox == s.outbox
              && s'.usage == s.usage
  {
  }

  /** A relay that dies between add and mark, and its successor. */
  lemma TwoJobs(cfg: Config) returns (steps: seq<Step>)
    ensures Waits(Run(cfg, Init(), steps), multiset{Job(0, 0), Job(0, 0)}, 2)
  {
    steps := FirstJob(cfg);
    RelayCrashes(cfg, Run(cfg, Init(), steps));
    RunSnoc(cfg, Init(), steps, Crash(0));
    steps := steps + [Crash(0)];
    Relayed(cfg, Run(cfg, Init(), steps), 0);
    RunSnoc(cfg, Init(), steps, StartRelay([0]));
    RunSnoc(cfg, Init(), steps + [StartRelay([0])], RelayAdd(1));
    steps := steps + [StartRelay([0])] + [RelayAdd(1)];
  }

  /** Two workers take a job of the transfer each. */
  lemma TwoTaken(cfg: Config) returns (steps: seq<Step>)
    ensures var s := Run(cfg, Init(), steps);
            Waits(s, multiset{}, 4) && s.procs[2] == s.procs[3] == Worker(Job(0, 0), Phase.Taken)
  {
    steps := TwoJobs(cfg);
    var take := Take(Job(0, 0));
    Scenarios.Taken(cfg, Run(cfg, Init(), steps), Job(0, 0));
    RunSnoc(cfg, Init(), steps, take);
    steps := steps + [take];
    Scenarios.Taken(cfg, Run(cfg, Init(), steps), Job(0, 0));
    RunSnoc(cfg, Init(), steps, take);
    steps := steps + [take];
  }

  /** Both read the row before either writes it; then the first claims it. */
  lemma TwoRuns(cfg: Config) returns (steps: seq<Step>)
    ensures var s := Run(cfg, Init(), steps);
            && Waits(s, multiset{}, 4)
            && s.procs[2] == Worker(Job(0, 0), Phase.Claimed(FILE))
               && s.procs[3] == Worker(Job(0, 0), Phase.Loaded(FILE))
  {
    steps := TwoTaken(cfg);
    Scenarios.Loaded(cfg, Run(cfg, Init(), steps), 2, Job(0, 0));
    RunSnoc(cfg, Init(), steps, Work(2, Load));
    steps := steps + [Work(2, Load)];
    Scenarios.Loaded(cfg, Run(cfg, Init(), steps), 3, Job(0, 0));
    RunSnoc(cfg, Init(), steps, Work(3, Load));
    steps := steps + [Work(3, Load)];
    Scenarios.Claimed(cfg, Run(cfg, Init(), steps), 2, Job(0, 0), FILE);
    RunSnoc(cfg, Init(), steps, Work(2, Claim));
    steps := steps + [Work(2, Claim)];
  }

  /** Whatever the configuration, a run reaches it: a relay interrupted between add and mark
      leaves two jobs, both workers read the row, one runs to SUCCESS, and the claim of the
      other turns it into PROCESSING. */
  lemma OverlapIsReachable(cfg: Config) returns (steps: seq<Step>, n: nat)
    ensures Loses(cfg, steps, n, Processing)
  {
    var start := TwoRuns(cfg);
    var s := Run(cfg, Init(), start);
    Finished(cfg, s, 2, Job(0, 0), FILE);
    RunAppend(cfg, Init(), start, FinishSteps(cfg, 2));
    var done := start + FinishSteps(cfg, 2);
    n, steps := |done|, done + [Work(3, Claim)];
    assert steps[..n] == done;
    RunSnoc(cfg, Init(), done, Work(3, Claim));
    Scenarios.Claimed(cfg, Run(cfg, Init(), done), 3, Job(0, 0), FILE);
  }

  /** `k` attempts have failed. */
  lemma {:induction false} Thrown(cfg: Config, k: nat) returns (steps: seq<Step>)
    requires k == 0 || k < cfg.attempts
    ensures Waits(Run(cfg, Init(), steps), multiset{Job(0, k)}, 1 + k)
  {
    if k == 0 {
      steps := FirstJob(cfg);
    } else {
      steps := Thrown(cfg, k - 1);
      var job := Job(0, k - 1);
      Scenarios.Taken(cfg, Run(cfg, Init(), steps), job);
      RunSnoc(cfg, Init(), steps, Take(job));
      steps := steps + [Take(job)];
      ThrownOnce(cfg, Run(cfg, Init(), steps), k, job);
      RunSnoc(cfg, Init(), steps, Throw(k));
      steps := steps + [Throw(k)];
    }
  }

  lemma ThrownOnce(cfg: Config, s: State, p: nat, job: Job)
    requires p < |s.procs| && s.procs[p].Worker? && s.procs[p].job == job && job.made + 1 < cfg.attempts
    ensures var s' := Apply(cfg, s, Throw(p));
            && s'.rows == s.rows && s'.usage == s.usage && |s'.procs| == |s.procs|
            && s'.queue == s.queue + multiset{Job(job.id, job.made + 1)}
  {
  }

  lemma LastAttempt(cfg: Config) returns (steps: seq<Step>, p: nat, job: Job)
    ensures var s := Run(cfg, Init(), steps);
            && Waits(s, multiset{}, p + 1) && job.id == 0 && job.made + 1 >= cfg.attempts
            && s.procs[p] == Worker(job, Phase.Claimed(FILE))
  {
    p := if cfg.attempts <= 1 then 1 else cfg.attempts;
    job := Job(0, p - 1);
    steps := Thrown(cfg, p - 1);
    ClaimedRun(cfg, Run(cfg, Init(), steps), job);
    RunAppend(cfg, Init(), steps, ClaimSteps(job, p));
    steps := steps + ClaimSteps(job, p);
  }

  /** Whatever the configuration, a run reaches it: the last attempt marks SUCCESS, a later
      call of it throws, and the `failed` handler writes FAILED. */
  lemma LastThrowIsReachable(cfg: Config) returns (steps: seq<Step>, n: nat)
    ensures Loses(cfg, steps, n, Failed)
  {
    var start, p, job := LastAttempt(cfg);
    var s := Run(cfg, Init(), start);
    Finished(cfg, s, p, job, FILE);
    RunAppend(cfg, Init(), start, FinishSteps(cfg, p));
    var done := start + FinishSteps(cfg, p);
    n, steps := |done|, done + [Throw(p)] + [MarkExhausted(p)];
    assert steps[..n] == done;
    RunSnoc(cfg, Init(), done, Throw(p));
    RunSnoc(cfg, Init(), done + [Throw(p)], MarkExhausted(p));
    ExactlyOnce.LastThrowLosesSuccess(cfg, Run(cfg, Init(), done), p, 0);
  }
}

/** And one in which a crash orphans a transfer. */
module LostWork {
  import opened Common
  import opened Transfers
  import opened Protocol
  import opened Scenarios
  import opened NoOrphan

  lemma {:induction false} NothingLostWithoutCrash(cfg: Config, s: State, steps: seq<Step>)
    requires forall i :: 0 <= i < |steps| ==> !steps[i].Crash?
    ensures NoWorkLost(cfg, s, steps)
  {
    if steps != [] { NothingLostWithoutCrash(cfg, s, steps[..|steps| - 1]); }
  }

  /** The transfer is accepted, relayed, published and taken; only its worker cares for it. */
  function TakenSteps(): seq<Step>
  {
    ArriveSteps(FILE, 0, 0, 0) + [RelayMark(0)] + [Take(Job(0, 0))]
  }

  lemma NobodyElseCares(s: State)
    requires s.queue == multiset{} && s.outbox.Keys == {0} && !s.outbox[0].pending
    ensures !Queued(s, 0) && !Waiting(s, 0)
  {
  }

  lemma Published(cfg: Config)
    ensures var s := Run(cfg, Init(), ArriveSteps(FILE, 0, 0, 0) + [RelayMark(0)]);
            && Open(s, 0) && s.procs == [Relaying([])] && s.queue == multiset{Job(0, 0)}
            && s.outbox.Keys == {0} && !s.outbox[0].pending
  {
    var arrive := ArriveSteps(FILE, 0, 0, 0);
    ArrivedRun(cfg, Init(), FILE, 0, 0);
    RunSnoc(cfg, Init(), arrive, RelayMark(0));
    MarkedPublished(cfg, Run(cfg, Init(), arrive), 0, 0);
    assert [RelayAdded([0])][0 := Relaying([])] == [Relaying([])];
  }

  lemma OnlyTheWorkerCares(cfg: Config)
    ensures var s := Run(cfg, Init(), TakenSteps());
            && Open(s, 0) && s.procs == [Relaying([]), Worker(Job(0, 0), Phase.Taken)]
            && !Queued(s, 0) && !Waiting(s, 0)
  {
    var before := ArriveSteps(FILE, 0, 0, 0) + [RelayMark(0)];
    Published(cfg);
    Scenarios.Taken(cfg, Run(cfg, Init(), before), Job(0, 0));
    RunSnoc(cfg, Init(), before, Take(Job(0, 0)));
    NobodyElseCares(Run(cfg, Init(), TakenSteps()));
  }

  /** The hypothesis that no actor crashes while it owes a transfer is needed: in every
      configuration, no transfer is orphaned up to the moment the only worker of one is lost,
      and then one is. */
  lemma CrashIsReachable(cfg: Config)
    ensures NoneOrphaned(Run(cfg, Init(), TakenSteps())) && !NoneOrphaned(Run(cfg, Init(), TakenSteps() + [Crash(1)]))
  {
    var s := Run(cfg, Init(), TakenSteps());
    OnlyTheWorkerCares(cfg);
    NothingLostWithoutCrash(cfg, Init(), TakenSteps());
    NoTransferIsOrphaned(cfg, TakenSteps());
    RunSnoc(cfg, Init(), TakenSteps(), Crash(1));
    CrashOrphansExactlyWhen(cfg, s, 1);
    assert Owes(s.procs[1], 0) && !Owes(s.procs[0], 0);
  }
}
