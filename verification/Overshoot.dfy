/** The quota bound is attained: for every number of workers there is a run from the empty
    system, within the concurrency limit, that ends exactly at the bound. */
module Overshoot {
  import opened Common
  import opened Transfers
  import opened Protocol
  import opened Scenarios
  import opened Metering
  import Quota
  import Pipeline

  // ---------------------------------------------------------------- concurrency of a run

  function Takes(steps: seq<Step>): nat
  {
    if steps == [] then 0 else Takes(steps[..|steps| - 1]) + if steps[|steps| - 1].Take? then 1 else 0
  }

  lemma {:induction false} TakesAdd(a: seq<Step>, b: seq<Step>)
    ensures Takes(a + b) == Takes(a) + Takes(b)
  {
    if b == [] {
      assert a + b == a;
    } else {
      assert (a + b)[..|a + b| - 1] == a + b[..|b| - 1];
      TakesAdd(a, b[..|b| - 1]);
    }
  }

  lemma TakesAddThree(a: seq<Step>, b: seq<Step>, c: seq<Step>)
    ensures Takes(a + b + c) == Takes(a) + Takes(b) + Takes(c)
  {
    TakesAdd(a + b, c);
    TakesAdd(a, b);
  }

  lemma OnlyTakesStart(cfg: Config, s: State, step: Step)
    ensures Total(InFlight, Apply(cfg, s, step).procs) <= Total(InFlight, s.procs) + if step.Take? then 1 else 0
  {
    var c := Plan(cfg, s, step);
    if c.Some? {
      TotalAfter(InFlight, s, c.value);
      StartsByTake(cfg, s, step);
    }
  }

  lemma StartsByTake(cfg: Config, s: State, step: Step)
    ensures var c := Plan(cfg, s, step); c.Some? && Became(c.value).Worker? ==> step.Take? || Old(s, c.value).Worker?
  {
    if !step.Work? { OtherPlans(cfg, s, step); }
    else if step.p < |s.procs| && s.procs[step.p].Worker? { WorkStays(cfg, s, step.p, step.act); }
  }

  lemma WorkStays(cfg: Config, s: State, p: nat, act: Act)
    requires p < |s.procs| && s.procs[p].Worker?
    ensures var c := PlanWork(cfg, s, p, s.procs[p].job, s.procs[p].phase, act); c.Some? ==> Old(s, c.value).Worker?
  {
  }

  /** No more jobs are in flight than were taken. */
  lemma {:induction false} TakesBoundFlight(cfg: Config, s: State, steps: seq<Step>, limit: nat)
    requires s.procs == [] && Takes(steps) <= limit
    ensures Total(InFlight, Run(cfg, s, steps).procs) <= Takes(steps) && Bounded(cfg, s, steps, limit)
  {
    if steps != [] {
      var init := steps[..|steps| - 1];
      TakesBoundFlight(cfg, s, init, limit);
      OnlyTakesStart(cfg, Run(cfg, s, init), steps[|steps| - 1]);
    }
  }

  // ---------------------------------------------------------------- n claimed transfers

  function FileOf(i: nat, tenant: string): Input
  {
    Input(seq(i, _ => 'k'), tenant, "file", "/file", "/data/file", "bucket", "user")
  }

  /** Transfer `i` is accepted and relayed. */
  function ArrivalSteps(i: nat, tenant: string): seq<Step>
  {
    ArriveSteps(FileOf(i, tenant), i, i, 2 * i) + [RelayMark(2 * i)]
  }

  function Rounds(n: nat, tenant: string): seq<Step>
  {
    if n == 0 then []
    else Rounds(n - 1, tenant) + ArrivalSteps(n - 1, tenant) + ClaimSteps(Job(n - 1, 0), 2 * (n - 1) + 1)
  }

  /** The first `n` transfers are claimed by a worker each. */
  ghost predicate Prepared(s: State, n: nat, tenant: string)
  {
    && |s.procs| == 2 * n && s.queue == multiset{} && Spare(s, n)
    && forall i :: 0 <= i < n ==> HasClaimed(s.procs, i, tenant)
  }

  /** Ids, events and keys from `n` on are unused, and every event is published. */
  ghost predicate Spare(s: State, n: nat)
  {
    && (forall id :: id in s.issued ==> id < n) && (forall e :: e in s.outbox ==> e < n && !s.outbox[e].pending)
    && (forall id :: id in s.rows ==> |s.rows[id].input.key| < n)
  }

  predicate HasClaimed(procs: seq<Proc>, i: nat, tenant: string)
  {
    2 * i + 1 < |procs| && procs[2 * i] == Relaying([])
      && procs[2 * i + 1] == Worker(Job(i, 0), Phase.Claimed(FileOf(i, tenant)))
  }

  /** The new transfer takes the next id, event and key. */
  lemma SpareAfter(s: State, s': State, n: nat, row: Row)
    requires Spare(s, n) && s'.issued == s.issued + {n} && s'.rows == s.rows[n := row] && |row.input.key| == n
    requires s'.outbox.Keys == s.outbox.Keys + {n} && !s'.outbox[n].pending
    requires forall e :: e in s.outbox ==> s'.outbox[e] == s.outbox[e]
    ensures Spare(s', n + 1)
  {
  }

  lemma NextIsFresh(s: State, n: nat, tenant: string)
    requires Spare(s, n)
    ensures !HasKey(s.rows, FileOf(n, tenant).key) && n !in s.issued && n !in s.outbox && NonePending(s.outbox)
  {
  }

  /** The stores after the arrival, before and after its event is marked. */
  lemma ArrivalIsSpare(s: State, mid: State, s': State, n: nat, tenant: string)
    requires |s.procs| == 2 * n && s.queue == multiset{} && Spare(s, n)
    requires mid.rows == s.rows[n := NewRow(FileOf(n, tenant), s.clock)] && mid.issued == s.issued + {n}
    requires mid.outbox == s.outbox[n := Event(n, true, s.clock)] && mid.queue == s.queue + multiset{Job(n, 0)}
    requires mid.procs == s.procs + [RelayAdded([n])] && s'.rows == mid.rows && s'.issued == mid.issued
    requires s'.outbox == mid.outbox[n := mid.outbox[n].(pending := false)] && s'.queue == mid.queue
    requires s'.procs == mid.procs[2 * n := Relaying([])]
    ensures Spare(s', n + 1) && s'.procs == s.procs + [Relaying([])] && s'.queue == multiset{Job(n, 0)}
  {
    SpareAfter(s, s', n, NewRow(FileOf(n, tenant), s.clock));
  }

  lemma OneArrives(cfg: Config, s: State, n: nat, tenant: string)
    requires |s.procs| == 2 * n && s.queue == multiset{} && Spare(s, n)
    ensures var s' := Run(cfg, s, ArrivalSteps(n, tenant));
            && s'.procs == s.procs + [Relaying([])] && s'.queue == multiset{Job(n, 0)} && Spare(s', n + 1)
            && s'.usage == s.usage && n in s'.rows && s'.rows[n].input == FileOf(n, tenant)
            && s'.rows[n].status == Pending
  {
    var steps := ArriveSteps(FileOf(n, tenant), n, n, 2 * n);
    NextIsFresh(s, n, tenant);
    ArrivedRun(cfg, s, FileOf(n, tenant), n, n);
    var mid := Run(cfg, s, steps);
    RunSnoc(cfg, s, steps, RelayMark(2 * n));
    MarkedPublished(cfg, mid, 2 * n, n);
    ArrivalIsSpare(s, mid, Apply(cfg, mid, RelayMark(2 * n)), n, tenant);
  }

  lemma OneIsClaimed(cfg: Config, s: State, n: nat, tenant: string)
    requires |s.procs| == 2 * n + 1 && s.queue == multiset{Job(n, 0)} && Spare(s, n + 1)
    requires n in s.rows && s.rows[n].input == FileOf(n, tenant) && s.rows[n].status == Pending
    ensures var s' := Run(cfg, s, ClaimSteps(Job(n, 0), 2 * n + 1));
            && s'.procs == s.procs + [Worker(Job(n, 0), Phase.Claimed(FileOf(n, tenant)))]
            && s'.queue == multiset{} && Spare(s', n + 1) && s'.usage == s.usage
  {
    ClaimedRun(cfg, s, Job(n, 0));
  }

  lemma OneRound(cfg: Config, s: State, n: nat, tenant: string)
    requires Prepared(s, n, tenant)
    ensures var s' := Run(cfg, Run(cfg, s, ArrivalSteps(n, tenant)), ClaimSteps(Job(n, 0), 2 * n + 1));
            Prepared(s', n + 1, tenant) && s'.usage == s.usage
  {
    OneArrives(cfg, s, n, tenant);
    var mid := Run(cfg, s, ArrivalSteps(n, tenant));
    OneIsClaimed(cfg, mid, n, tenant);
    var s' := Run(cfg, mid, ClaimSteps(Job(n, 0), 2 * n + 1));
    assert s'.procs == s.procs + [Relaying([]), Worker(Job(n, 0), Phase.Claimed(FileOf(n, tenant)))];
    forall i | 0 <= i < n + 1 ensures HasClaimed(s'.procs, i, tenant) {
      if i < n { assert HasClaimed(s.procs, i, tenant); }
    }
  }

  lemma {:induction false} AllPrepared(cfg: Config, s0: State, n: nat, tenant: string)
    requires Prepared(s0, 0, tenant)
    ensures var s := Run(cfg, s0, Rounds(n, tenant)); Prepared(s, n, tenant) && s.usage == s0.usage
  {
    if n > 0 {
      var m := n - 1;
      AllPrepared(cfg, s0, m, tenant);
      var before, arrival, claim := Rounds(m, tenant), ArrivalSteps(m, tenant), ClaimSteps(Job(m, 0), 2 * m + 1);
      RunAppend(cfg, s0, before, arrival);
      RunAppend(cfg, s0, before + arrival, claim);
      assert Rounds(n, tenant) == before + arrival + claim;
      OneRound(cfg, Run(cfg, s0, before), m, tenant);
    }
  }

  lemma {:induction false} TakesInRounds(n: nat, tenant: string)
    ensures Takes(Rounds(n, tenant)) == n
  {
    if n > 0 {
      var m := n - 1;
      var before, arrival, claim := Rounds(m, tenant), ArrivalSteps(m, tenant), ClaimSteps(Job(m, 0), 2 * m + 1);
      TakesInRounds(m, tenant);
      TakesPerRound(m, tenant);
      assert Rounds(n, tenant) == before + arrival + claim;
      TakesAddThree(before, arrival, claim);
    }
  }

  lemma TakesPerRound(i: nat, tenant: string)
    ensures Takes(ArrivalSteps(i, tenant)) == 0 && Takes(ClaimSteps(Job(i, 0), 2 * i + 1)) == 1
  {
    var a, b, c := Accept(FileOf(i, tenant), i, i), StartRelay([i]), RelayAdd(2 * i);
    TakesSnoc([] + [a] + [b] + [c], RelayMark(2 * i));
    TakesSnoc([] + [a] + [b], c);
    TakesSnoc([] + [a], b);
    TakesSnoc([], a);
    var e, f, g := Take(Job(i, 0)), Work(2 * i + 1, Load), Work(2 * i + 1, Claim);
    TakesSnoc([] + [e] + [f], g);
    TakesSnoc([] + [e], f);
    TakesSnoc([], e);
  }

  lemma TakesSnoc(steps: seq<Step>, step: Step)
    ensures Takes(steps + [step]) == Takes(steps) + if step.Take? then 1 else 0
  {
    assert (steps + [step])[..|steps|] == steps;
  }

  // ---------------------------------------------------------------- all check before any records

  /** A file of the maximal size. */
  function CheckLargest(cfg: Config, p: nat): Step
  {
    Work(p, Check(Some(cfg.maxFile), Pipeline.Disabled, "mime"))
  }

  function Checks(cfg: Config, slots: seq<nat>): seq<Step>
  {
    if slots == [] then [] else Checks(cfg, slots[..|slots| - 1]) + [CheckLargest(cfg, slots[|slots| - 1])]
  }

  predicate Awaits(q: Proc, tenant: string)
  {
    q.Worker? && q.phase.Claimed? && q.phase.input.tenant == tenant
  }

  /** The chosen workers of one tenant have claimed their rows and wait for the check. */
  ghost predicate Ready(s: State, tenant: string, slots: seq<nat>)
  {
    && (forall i, j :: 0 <= i < j < |slots| ==> slots[i] != slots[j])
    && (forall i :: 0 <= i < |slots| ==>
          slots[i] < |s.procs| && Awaits(s.procs[slots[i]], tenant))
  }

  /** One more file of the maximal size is within the quota. */
  ghost predicate OneFits(cfg: Config, usage: map<string, Quota.Usage>, tenant: string)
  {
    cfg.maxFile > 0 && Quota.Within(Quota.GetQuota(cfg.quotas, tenant), Quota.UsageOf(usage, tenant), cfg.maxFile)
  }

  lemma CheckAdmits(cfg: Config, s: State, tenant: string, p: nat)
    requires p < |s.procs| && Awaits(s.procs[p], tenant) && OneFits(cfg, s.usage, tenant)
    ensures var s' := Apply(cfg, s, CheckLargest(cfg, p));
            && |s'.procs| == |s.procs| && (forall q :: 0 <= q < |s.procs| && q != p ==> s'.procs[q] == s.procs[q])
            && s'.usage == s.usage
            && Total(AdmittedBytes(tenant), s'.procs) == Total(AdmittedBytes(tenant), s.procs) + cfg.maxFile
            && Total(AdmittedObjects(tenant), s'.procs) == Total(AdmittedObjects(tenant), s.procs) + 1
  {
    var q, act := s.procs[p], CheckLargest(cfg, p).act;
    Pipeline.Admission(ContextOf(cfg, s.usage, q.phase.input, cfg.maxFile, Pipeline.Disabled, "mime"));
    var c := Change(Some(p), Worker(q.job, Phase.Checked(q.phase.input, cfg.maxFile)), KeepRows, KeepJobs, Quiet);
    assert PlanWork(cfg, s, p, q.job, q.phase, act) == Some(c);
    TotalAfter(AdmittedBytes(tenant), s, c);
    TotalAfter(AdmittedObjects(tenant), s, c);
  }

  /** The chosen workers, and nobody else, have moved on, each with a file of the maximal size. */
  ghost predicate AdmittedAll(cfg: Config, s: State, s': State, tenant: string, slots: seq<nat>)
  {
    && |s'.procs| == |s.procs| && s'.usage == s.usage
    && (forall q :: 0 <= q < |s.procs| && q !in slots ==> s'.procs[q] == s.procs[q])
    && Total(AdmittedBytes(tenant), s'.procs) == Total(AdmittedBytes(tenant), s.procs) + Times(|slots|, cfg.maxFile)
    && Total(AdmittedObjects(tenant), s'.procs) == Total(AdmittedObjects(tenant), s.procs) + |slots|
  }

  lemma OneMoreAdmitted(cfg: Config, s: State, mid: State, tenant: string, init: seq<nat>, p: nat)
    requires AdmittedAll(cfg, s, mid, tenant, init) && OneFits(cfg, s.usage, tenant)
    requires p < |s.procs| && p !in init && Awaits(s.procs[p], tenant)
    ensures AdmittedAll(cfg, s, Apply(cfg, mid, CheckLargest(cfg, p)), tenant, init + [p])
  {
    assert mid.procs[p] == s.procs[p];
    CheckAdmits(cfg, mid, tenant, p);
    assert forall q :: q in init + [p] <==> q in init || q == p;
  }

  /** Whoever checks before anyone records is admitted if one would be. */
  lemma {:induction false} AllAreAdmitted(cfg: Config, s: State, tenant: string, slots: seq<nat>)
    requires Ready(s, tenant, slots) && OneFits(cfg, s.usage, tenant)
    ensures AdmittedAll(cfg, s, Run(cfg, s, Checks(cfg, slots)), tenant, slots)
  {
    if slots != [] {
      var init, p := slots[..|slots| - 1], slots[|slots| - 1];
      AllAreAdmitted(cfg, s, tenant, init);
      assert init + [p] == slots && p !in init;
      RunSnoc(cfg, s, Checks(cfg, init), CheckLargest(cfg, p));
      OneMoreAdmitted(cfg, s, Run(cfg, s, Checks(cfg, init)), tenant, init, p);
    }
  }

  lemma {:induction false} ChecksTakeNothing(cfg: Config, slots: seq<nat>)
    ensures Takes(Checks(cfg, slots)) == 0
  {
    if slots != [] {
      ChecksTakeNothing(cfg, slots[..|slots| - 1]);
      TakesSnoc(Checks(cfg, slots[..|slots| - 1]), CheckLargest(cfg, slots[|slots| - 1]));
    }
  }

  function OddSlots(n: nat): seq<nat>
  {
    seq(n, i requires 0 <= i < n => 2 * i + 1)
  }

  /** `n` transfers are claimed, then all are checked. */
  function Rush(cfg: Config, n: nat, tenant: string): seq<Step>
  {
    Rounds(n, tenant) + Checks(cfg, OddSlots(n))
  }

  lemma {:induction false} NoneAdmitted(procs: seq<Proc>, tenant: string)
    requires forall p :: 0 <= p < |procs| ==> Admitted(procs[p], tenant) == None
    ensures Total(AdmittedBytes(tenant), procs) == 0 && Total(AdmittedObjects(tenant), procs) == 0
  {
    if procs != [] { NoneAdmitted(procs[..|procs| - 1], tenant); }
  }

  lemma PreparedIsReady(s: State, n: nat, tenant: string)
    requires Prepared(s, n, tenant)
    ensures Ready(s, tenant, OddSlots(n))
    ensures Total(AdmittedBytes(tenant), s.procs) == 0 && Total(AdmittedObjects(tenant), s.procs) == 0
  {
    var slots := OddSlots(n);
    forall i | 0 <= i < |slots|
      ensures slots[i] < |s.procs| && Awaits(s.procs[slots[i]], tenant)
    {
      assert slots[i] == 2 * i + 1 && HasClaimed(s.procs, i, tenant);
    }
    forall i, j | 0 <= i < j < |slots| ensures slots[i] != slots[j] {
      assert slots[i] == 2 * i + 1 && slots[j] == 2 * j + 1;
    }
    forall p | 0 <= p < |s.procs| ensures Admitted(s.procs[p], tenant) == None {
      assert HasClaimed(s.procs, p / 2, tenant);
      assert p == 2 * (p / 2) || p == 2 * (p / 2) + 1;
    }
    NoneAdmitted(s.procs, tenant);
  }

  lemma RushAdmitsAll(cfg: Config, usage: map<string, Quota.Usage>, tenant: string, n: nat)
    requires OneFits(cfg, usage, tenant)
    ensures var s0 := Init().(usage := usage);
            var s := Run(cfg, s0, Rush(cfg, n, tenant));
            && Bounded(cfg, s0, Rush(cfg, n, tenant), n) && s.usage == usage
            && Total(AdmittedBytes(tenant), s.procs) == Times(n, cfg.maxFile)
               && Total(AdmittedObjects(tenant), s.procs) == n
  {
    var s0, slots := Init().(usage := usage), OddSlots(n);
    assert Prepared(s0, 0, tenant) && |slots| == n;
    AllPrepared(cfg, s0, n, tenant);
    var mid := Run(cfg, s0, Rounds(n, tenant));
    PreparedIsReady(mid, n, tenant);
    AllAreAdmitted(cfg, mid, tenant, slots);
    RunAppend(cfg, s0, Rounds(n, tenant), Checks(cfg, slots));
    RushIsBounded(cfg, s0, n, tenant);
  }

  lemma RushIsBounded(cfg: Config, s: State, n: nat, tenant: string)
    requires s.procs == []
    ensures Bounded(cfg, s, Rush(cfg, n, tenant), n)
  {
    TakesInRounds(n, tenant);
    ChecksTakeNothing(cfg, OddSlots(n));
    TakesAdd(Rounds(n, tenant), Checks(cfg, OddSlots(n)));
    TakesBoundFlight(cfg, s, Rush(cfg, n, tenant), n);
  }

  /** Tightness: whatever is recorded for the tenant already, if exactly one more file of the
      maximal size is within its byte quota, some run with at most `n` jobs in flight admits
      n of them: the bytes overshoot by exactly n - 1 whole files, and a quota that leaves
      room for exactly one object by n - 1 objects. */
  lemma {:induction false} OvershootIsAttained(cfg: Config, usage: map<string, Quota.Usage>, tenant: string, n: nat)
    requires n > 0 && OneFits(cfg, usage, tenant)
    ensures var s0, steps := Init().(usage := usage), Rush(cfg, n, tenant);
            var s := Run(cfg, s0, steps);
            var b, u := Quota.GetQuota(cfg.quotas, tenant), Quota.UsageOf(s.usage, tenant);
            && Bounded(cfg, s0, steps, n)
            && (b.maxBytes == Quota.UsageOf(usage, tenant).bytes + cfg.maxFile ==>
                  u.bytes + Total(AdmittedBytes(tenant), s.procs) == b.maxBytes + (n - 1) * cfg.maxFile)
            && (b.maxObjects == Quota.UsageOf(usage, tenant).objects + 1 ==>
                  u.objects + Total(AdmittedObjects(tenant), s.procs) == b.maxObjects + (n - 1))
  {
    RushAdmitsAll(cfg, usage, tenant, n);
    TimesIsProduct(n, cfg.maxFile);
  }
}
