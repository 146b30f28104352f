/** The hypotheses of the laws are met: undisturbed runs satisfy them, and one of them takes a
    transfer from its webhook to SUCCESS. */
module CleanRuns {
  import opened Common
  import opened Transfers
  import opened Protocol
  import opened Scenarios
  import opened ExactlyOnce
  import opened Metering
  import Overshoot
  import SingleRelay
  import Recovery

  // ---------------------------------------------------------------- one worker

  /** No step of the run can find a row it saw outdated, or fail an attempt. */
  predicate Undisturbed(step: Step)
  {
    !(step.RetryReset? || step.BatchReset? || step.SweepOne? || step.Throw?)
  }

  ghost predicate NoHandlers(s: State)
  {
    forall p :: 0 <= p < |s.procs| ==> !s.procs[p].OnFailed?
  }

  lemma HandlersNeedThrows(cfg: Config, s: State, step: Step)
    requires NoHandlers(s) && Undisturbed(step)
    ensures NoHandlers(Apply(cfg, s, step))
  {
    var c := Plan(cfg, s, step);
    if c.Some? {
      NoNewHandler(cfg, s, step);
      HandlersAfter(s, c.value);
    }
  }

  lemma NoNewHandler(cfg: Config, s: State, step: Step)
    requires Undisturbed(step)
    ensures var c := Plan(cfg, s, step); c.Some? ==> !Became(c.value).OnFailed?
  {
  }

  lemma HandlersAfter(s: State, c: Change)
    requires NoHandlers(s) && !Became(c).OnFailed?
    ensures NoHandlers(Commit(s, c))
  {
  }

  lemma {:induction false} TwoInFlight(procs: seq<Proc>, p: nat, q: nat)
    requires p < q < |procs| && procs[p].Worker? && procs[q].Worker?
    ensures Total(InFlight, procs) >= 2
  {
    var init := procs[..|procs| - 1];
    if q < |procs| - 1 { TwoInFlight(init, p, q); } else { OneInFlight(init, p); }
  }

  lemma {:induction false} OneInFlight(procs: seq<Proc>, p: nat)
    requires p < |procs| && procs[p].Worker?
    ensures Total(InFlight, procs) >= 1
  {
    if p < |procs| - 1 { OneInFlight(procs[..|procs| - 1], p); }
  }

  lemma OneWorkerDoesNotOverlap(s: State)
    requires NoHandlers(s) && Total(InFlight, s.procs) <= 1
    ensures NoOverlap(s)
  {
    forall p, q | 0 <= p < q < |s.procs| && RunOf(s.procs[p]).Some? ensures RunOf(s.procs[p]) != RunOf(s.procs[q]) {
      if s.procs[p].Worker? && s.procs[q].Worker? { TwoInFlight(s.procs, p, q); }
    }
  }

  /** A run in which at most one job is taken and nothing throws or resets is well behaved. */
  lemma {:induction false} UndisturbedIsWellBehaved(cfg: Config, steps: seq<Step>)
    requires Overshoot.Takes(steps) <= 1 && forall i :: 0 <= i < |steps| ==> Undisturbed(steps[i])
    ensures WellBehaved(cfg, Init(), steps) && NoHandlers(Run(cfg, Init(), steps))
  {
    if steps != [] {
      var init, step := steps[..|steps| - 1], steps[|steps| - 1];
      UndisturbedIsWellBehaved(cfg, init);
      var mid := Run(cfg, Init(), init);
      Overshoot.TakesBoundFlight(cfg, Init(), init, 1);
      OneWorkerDoesNotOverlap(mid);
      HandlersNeedThrows(cfg, mid, step);
    }
  }

  // ---------------------------------------------------------------- from webhook to SUCCESS

  function CleanSteps(cfg: Config): seq<Step>
  {
    ArriveSteps(FILE, 0, 0, 0) + ClaimSteps(Job(0, 0), 1) + FinishSteps(cfg, 1) + [Work(1, Meter)] + [Work(1, Publish)]
  }

  lemma CleanTakesOnce(cfg: Config)
    ensures Overshoot.Takes(CleanSteps(cfg)) == 1
  {
    var arrive, claim, finish := ArriveSteps(FILE, 0, 0, 0), ClaimSteps(Job(0, 0), 1), FinishSteps(cfg, 1);
    Overshoot.TakesSnoc(arrive + claim + finish + [Work(1, Meter)], Work(1, Publish));
    Overshoot.TakesSnoc(arrive + claim + finish, Work(1, Meter));
    Overshoot.TakesAddThree(arrive, claim, finish);
    Overshoot.TakesSnoc([] + [Accept(FILE, 0, 0)] + [StartRelay([0])], RelayAdd(0));
    Overshoot.TakesSnoc([] + [Accept(FILE, 0, 0)], StartRelay([0]));
    Overshoot.TakesSnoc([], Accept(FILE, 0, 0));
    Overshoot.TakesSnoc([] + [Take(Job(0, 0))] + [Work(1, Load)], Work(1, Claim));
    Overshoot.TakesSnoc([] + [Take(Job(0, 0))], Work(1, Load));
    Overshoot.TakesSnoc([], Take(Job(0, 0)));
    Overshoot.TakesSnoc([Work(1, CheckOne())] + [Work(1, StoreOne(cfg))], Work(1, MarkDone));
    Overshoot.TakesSnoc([Work(1, CheckOne())], Work(1, StoreOne(cfg)));
    assert [] + [Work(1, CheckOne())] == [Work(1, CheckOne())];
    Overshoot.TakesSnoc([], Work(1, CheckOne()));
  }

  lemma MeteredAndPublished(cfg: Config, s: State, input: Input)
    requires |s.procs| == 2 && s.procs[1] == Worker(Job(0, 0), Succeeded(input, 1))
    ensures var s' := Apply(cfg, Apply(cfg, s, Work(1, Meter)), Work(1, Publish));
            s'.rows == s.rows && |s'.procs| == 2 && s'.procs[1] == Worker(Job(0, 0), Published(input))
  {
    var c := Change(Some(1), Worker(Job(0, 0), Recorded(input)), KeepRows, KeepJobs, Metered(0, input.tenant, 1));
    assert PlanWork(cfg, s, 1, Job(0, 0), s.procs[1].phase, Meter) == Some(c);
    var s1 := Commit(s, c);
    assert s1.procs[1] == Worker(Job(0, 0), Recorded(input)) && |s1.procs| == 2;
    var c1 := Change(Some(1), Worker(Job(0, 0), Published(input)), KeepRows, KeepJobs, Completed(0));
    assert PlanWork(cfg, s1, 1, Job(0, 0), s1.procs[1].phase, Publish) == Some(c1);
  }

  lemma CleanRunEnds(cfg: Config)
    ensures var s := Run(cfg, Init(), CleanSteps(cfg));
            && 0 in s.rows && s.rows[0].status == Success
            && |s.procs| == 2 && s.procs[1] == Worker(Job(0, 0), Published(FILE))
  {
    var arrive, claim, finish := ArriveSteps(FILE, 0, 0, 0), ClaimSteps(Job(0, 0), 1), FinishSteps(cfg, 1);
    ArrivedRun(cfg, Init(), FILE, 0, 0);
    var s1 := Run(cfg, Init(), arrive);
    RunAppend(cfg, Init(), arrive, claim);
    ClaimedRun(cfg, s1, Job(0, 0));
    var s2 := Run(cfg, Init(), arrive + claim);
    RunAppend(cfg, Init(), arrive + claim, finish);
    Finished(cfg, s2, 1, Job(0, 0), FILE);
    var done := arrive + claim + finish;
    RunSnoc(cfg, Init(), done, Work(1, Meter));
    RunSnoc(cfg, Init(), done + [Work(1, Meter)], Work(1, Publish));
    MeteredAndPublished(cfg, Run(cfg, Init(), done), FILE);
  }

  lemma CleanIsUndisturbed(cfg: Config)
    ensures forall i :: 0 <= i < |CleanSteps(cfg)| ==> Undisturbed(CleanSteps(cfg)[i])
  {
  }

  /** In every configuration a well-behaved run takes a transfer from its webhook to SUCCESS,
      marked, metered and published exactly once. */
  lemma CleanRunSucceeds(cfg: Config)
    ensures WellBehaved(cfg, Init(), CleanSteps(cfg))
    ensures var s := Run(cfg, Init(), CleanSteps(cfg));
            && 0 in s.rows && s.rows[0].status == Success
            && s.log.marked[0] == 1 && s.log.recorded[0] == 1 && s.log.completed[0] == 1
  {
    CleanTakesOnce(cfg);
    CleanIsUndisturbed(cfg);
    UndisturbedIsWellBehaved(cfg, CleanSteps(cfg));
    CleanRunEnds(cfg);
    ExactlyOnce.RunKeepsInv(cfg, Init(), CleanSteps(cfg));
    AtMostOnce(cfg, CleanSteps(cfg), 0);
    var s := Run(cfg, Init(), CleanSteps(cfg));
    assert ActorOk(s, s.procs[1]);
  }

  // ---------------------------------------------------------------- other hypotheses

  /** A run without sweeps and resets is patient with every transfer. */
  lemma {:induction false} NoSweepIsPatient(cfg: Config, s: State, steps: seq<Step>, x: Id)
    requires x in s.rows
    requires forall i :: 0 <= i < |steps| ==> !(steps[i].StartSweep? || steps[i].RetryReset? || steps[i].BatchReset?)
    ensures Recovery.Patient(cfg, s, steps, x)
  {
    if steps != [] { NoSweepIsPatient(cfg, s, steps[..|steps| - 1], x); }
  }

  /** The first relay is alone; between its add and its mark one publication is under way. */
  lemma FirstRelayIsAlone(cfg: Config)
    ensures SingleRelay.OneAtATime(cfg, Init(), ArriveSteps(FILE, 0, 0, 0))
    ensures |Run(cfg, Init(), ArriveSteps(FILE, 0, 0, 0)).log.added| == 1
  {
    var a, b, c := Accept(FILE, 0, 0), StartRelay([0]), RelayAdd(0);
    RunSnoc(cfg, Init(), [], a);
    Accepted(cfg, Init(), FILE, 0, 0);
    AloneSnoc(cfg, [], a);
    AloneSnoc(cfg, [] + [a], b);
    AloneSnoc(cfg, [] + [a] + [b], c);
    ArrivedRun(cfg, Init(), FILE, 0, 0);
    SingleRelay.ExtraPublicationsAreInterruptions(cfg, ArriveSteps(FILE, 0, 0, 0));
    NothingPublishedYet(cfg);
  }

  lemma AloneSnoc(cfg: Config, steps: seq<Step>, step: Step)
    requires SingleRelay.OneAtATime(cfg, Init(), steps) && SingleRelay.Alone(Run(cfg, Init(), steps), step)
    ensures SingleRelay.OneAtATime(cfg, Init(), steps + [step])
  {
    assert (steps + [step])[..|steps|] == steps;
  }

  lemma NothingPublishedYet(cfg: Config)
    ensures var s := Run(cfg, Init(), ArriveSteps(FILE, 0, 0, 0));
            SingleRelay.PublishedEvents(s) == {} && SingleRelay.Midway(s) && s.log.interrupted == 0
  {
    ArrivedRun(cfg, Init(), FILE, 0, 0);
    var s := Run(cfg, Init(), ArriveSteps(FILE, 0, 0, 0));
    assert s.procs[0] == RelayAdded([0]);
    NobodyInterrupted(cfg, ArriveSteps(FILE, 0, 0, 0));
  }

  lemma {:induction false} NobodyInterrupted(cfg: Config, steps: seq<Step>)
    requires forall i :: 0 <= i < |steps| ==> !steps[i].Crash?
    ensures Run(cfg, Init(), steps).log.interrupted == 0
  {
    if steps != [] {
      NobodyInterrupted(cfg, steps[..|steps| - 1]);
      var s, step := Run(cfg, Init(), steps[..|steps| - 1]), steps[|steps| - 1];
      OnlyCrashesLose(cfg, s, step);
      var c := Plan(cfg, s, step);
      if c.Some? { InterruptedAfter(s, c.value); }
    }
  }

  lemma InterruptedAfter(s: State, c: Change)
    requires !c.note.RelayLost?
    ensures Commit(s, c).log.interrupted == s.log.interrupted
  {
  }
}
