/** Quota and metering in every interleaving of check, upload and record. */
module Metering {
  import opened Common
  import opened Transfers
  import opened Protocol
  import Quota
  import Pipeline

  // ---------------------------------------------------------------- totals over the actors

  /** What is added up over all actors. */
  datatype Gauge =
    | InFlight                        // workers running a job
    | AdmittedBytes(tenant: string)   // checked against the quota, not yet recorded
    | AdmittedObjects(tenant: string)
    | UnmeteredBytes(tenant: string)  // between markSuccess and recordUsage
    | UnmeteredObjects(tenant: string)
    | AttemptsLeft(id: Id, limit: nat) // failures that the running jobs of a transfer can still have
    | LettersDue(id: Id)              // row marked FAILED by its run, dead letter not yet sent

  function Admitted(q: Proc, tenant: string): Option<nat>
  {
    if q.Worker? && (q.phase.Checked? || q.phase.Uploaded? || q.phase.Succeeded?) && q.phase.input.tenant == tenant
    then Some(q.phase.size) else None
  }

  function Unmetered(q: Proc, tenant: string): Option<nat>
  {
    if q.Worker? && q.phase.Succeeded? && q.phase.input.tenant == tenant then Some(q.phase.size) else None
  }

  predicate OwesLetter(q: Proc, id: Id)
  {
    (q.Worker? && q.phase.RejectMarked? && q.job.id == id) || (q.Finalised? && q.id == id)
  }

  function Reading(g: Gauge, q: Proc): nat
  {
    match g
    case InFlight => if q.Worker? then 1 else 0
    case AdmittedBytes(t) => if Admitted(q, t).Some? then Admitted(q, t).value else 0
    case AdmittedObjects(t) => if Admitted(q, t).Some? then 1 else 0
    case UnmeteredBytes(t) => if Unmetered(q, t).Some? then Unmetered(q, t).value else 0
    case UnmeteredObjects(t) => if Unmetered(q, t).Some? then 1 else 0
    case AttemptsLeft(id, limit) => if q.Worker? && q.job.id == id && q.job.made < limit then limit - q.job.made else 0
    case LettersDue(id) => if OwesLetter(q, id) then 1 else 0
  }

  function Total(g: Gauge, procs: seq<Proc>): nat
  {
    if procs == [] then 0 else Total(g, procs[..|procs| - 1]) + Reading(g, procs[|procs| - 1])
  }

  lemma {:induction false} TotalAfterUpdate(g: Gauge, procs: seq<Proc>, p: nat, q: Proc)
    requires p < |procs|
    ensures Total(g, procs[p := q]) + Reading(g, procs[p]) == Total(g, procs) + Reading(g, q)
  {
    var last := |procs| - 1;
    if p == last {
      assert procs[p := q][..last] == procs[..last];
    } else {
      assert procs[p := q][..last] == procs[..last][p := q];
      TotalAfterUpdate(g, procs[..last], p, q);
    }
  }

  /** The total after a change, from the readings of its actor before and after. */
  lemma TotalAfter(g: Gauge, s: State, c: Change)
    ensures var procs' := Commit(s, c).procs;
            Total(g, procs') + Reading(g, Old(s, c)) == Total(g, s.procs) + Reading(g, Became(c))
  {
    if c.slot.Some? {
      if c.slot.value < |s.procs| {
        TotalAfterUpdate(g, s.procs, c.slot.value, c.proc);
      } else {
        assert (s.procs + [c.proc])[..|s.procs|] == s.procs;
      }
    }
  }

  /** Admitted files are in flight, and hold at most `limit` bytes each. */
  lemma {:induction false} AdmittedAtMost(procs: seq<Proc>, tenant: string, limit: nat)
    requires forall p :: 0 <= p < |procs| && Admitted(procs[p], tenant).Some? && limit > 0 ==>
             Admitted(procs[p], tenant).value <= limit
    ensures limit > 0 ==> Total(AdmittedBytes(tenant), procs) <= Total(AdmittedObjects(tenant), procs) * limit
    ensures Total(AdmittedObjects(tenant), procs) <= Total(InFlight, procs)
  {
    if procs != [] {
      AdmittedAtMost(procs[..|procs| - 1], tenant, limit);
      var n := Total(AdmittedObjects(tenant), procs[..|procs| - 1]);
      assert (n + 1) * limit == n * limit + limit;
    }
  }

  /** `n` times `size`, one after the other. */
  function Times(n: nat, size: nat): nat
  {
    if n == 0 then 0 else Times(n - 1, size) + size
  }

  lemma {:induction false} TimesIsProduct(n: nat, size: nat)
    ensures Times(n, size) == n * size
    ensures n > 0 ==> Times(n, size) == (n - 1) * size + size
  {
    if n > 0 { TimesIsProduct(n - 1, size); }
  }

  // ---------------------------------------------------------------- bounded overshoot

  /** The bounds for `c` jobs in flight: quota plus c - 1 files that were checked before any
      of them was recorded. A bound of 0 is no bound. */
  ghost predicate WithinOvershoot(cfg: Config, s: State, tenant: string, c: nat)
  {
    var b, u := Quota.GetQuota(cfg.quotas, tenant), Quota.UsageOf(s.usage, tenant);
    && (b.maxBytes > 0 && cfg.maxFile > 0 ==>
          u.bytes + Total(AdmittedBytes(tenant), s.procs) <= b.maxBytes + (c - 1) * cfg.maxFile)
    && (b.maxObjects > 0 ==>
          u.objects + Total(AdmittedObjects(tenant), s.procs) <= b.maxObjects + (c - 1))
  }

  /** Files past the pipeline respect the size limit. */
  ghost predicate SizesOk(cfg: Config, s: State, tenant: string)
  {
    forall p :: 0 <= p < |s.procs| && Admitted(s.procs[p], tenant).Some? && cfg.maxFile > 0 ==>
      Admitted(s.procs[p], tenant).value <= cfg.maxFile
  }

  /** How a change moves a file through admission and metering. */
  ghost predicate Meters(cfg: Config, s: State, c: Change, tenant: string)
  {
    var q := Old(s, c);
    var after := Became(c);
    // a file is admitted by the check, or it was already
    && (Admitted(after, tenant).Some? && Admitted(q, tenant) != Admitted(after, tenant) ==>
          && Admitted(q, tenant) == None && q.Worker? && !c.note.Metered?
          && (cfg.maxFile > 0 ==> Admitted(after, tenant).value <= cfg.maxFile)
          && Quota.Within(Quota.GetQuota(cfg.quotas, tenant), Quota.UsageOf(s.usage, tenant),
             Admitted(after, tenant).value))
    // usage grows by the size of the file that leaves the window between mark and record
    && (c.note.Metered? && c.note.tenant == tenant ==>
          Unmetered(q, tenant) == Some(c.note.size) && Admitted(after, tenant) == None)
    // a file enters that window by markSuccess
    && (Unmetered(after, tenant).Some? ==>
          && c.note.Marked? && Admitted(q, tenant) == Unmetered(after, tenant)
          && Unmetered(q, tenant) == None)
  }

  lemma WorkMeters(cfg: Config, s: State, p: nat, act: Act, tenant: string)
    requires p < |s.procs| && s.procs[p].Worker?
    ensures var c := PlanWork(cfg, s, p, s.procs[p].job, s.procs[p].phase, act);
            c.Some? ==> c.value.slot == Some(p) && Meters(cfg, s, c.value, tenant)
  {
    var phase := s.procs[p].phase;
    if act.Check? && phase.Claimed? && act.stat.Some? {
      Pipeline.Admission(ContextOf(cfg, s.usage, phase.input, act.stat.value, act.scan, act.mime));
    }
  }

  lemma PlansMeter(cfg: Config, s: State, step: Step, tenant: string)
    ensures var c := Plan(cfg, s, step); c.Some? ==> Meters(cfg, s, c.value, tenant)
  {
    if !step.Work? { OtherPlans(cfg, s, step); }
    else if step.p < |s.procs| && s.procs[step.p].Worker? { WorkMeters(cfg, s, step.p, step.act, tenant); }
  }

  lemma OvershootStays(cfg: Config, s: State, c: Change, tenant: string, limit: nat)
    requires WithinOvershoot(cfg, s, tenant, limit) && SizesOk(cfg, s, tenant) && Meters(cfg, s, c, tenant)
    requires 0 < limit && Total(InFlight, s.procs) <= limit
    ensures WithinOvershoot(cfg, Commit(s, c), tenant, limit) && SizesOk(cfg, Commit(s, c), tenant)
  {
    TotalAfter(AdmittedBytes(tenant), s, c);
    TotalAfter(AdmittedObjects(tenant), s, c);
    var q := Old(s, c);
    if c.slot.Some? && Admitted(c.proc, tenant).Some? && Admitted(q, tenant) == None {
      NewlyAdmitted(cfg, s, c, tenant, limit);
    }
  }

  /** The admission itself: everyone else in flight holds at most limit - 1 files. */
  lemma NewlyAdmitted(cfg: Config, s: State, c: Change, tenant: string, limit: nat)
    requires SizesOk(cfg, s, tenant) && Meters(cfg, s, c, tenant)
    requires 0 < limit && Total(InFlight, s.procs) <= limit
    requires c.slot.Some? && c.slot.value < |s.procs| && s.procs[c.slot.value].Worker?
    requires Admitted(c.proc, tenant).Some? && Admitted(s.procs[c.slot.value], tenant) == None
    ensures WithinOvershoot(cfg, Commit(s, c), tenant, limit)
  {
    var p := c.slot.value;
    var others := s.procs[p := Ended];
    TotalAfterUpdate(InFlight, s.procs, p, Ended);
    TotalAfterUpdate(AdmittedBytes(tenant), s.procs, p, Ended);
    TotalAfterUpdate(AdmittedObjects(tenant), s.procs, p, Ended);
    TotalAfter(AdmittedBytes(tenant), s, c);
    TotalAfter(AdmittedObjects(tenant), s, c);
    AdmittedAtMost(others, tenant, cfg.maxFile);
    var n := Total(AdmittedObjects(tenant), others);
    MulMonotone(n, limit - 1, cfg.maxFile);
  }

  lemma MulMonotone(a: nat, b: nat, k: nat)
    requires a <= b
    ensures a * k <= b * k
  {
  }

  /** Never more than `limit` jobs run at once. */
  ghost predicate Bounded(cfg: Config, s: State, steps: seq<Step>, limit: nat)
  {
    Total(InFlight, Run(cfg, s, steps).procs) <= limit && (steps == [] || Bounded(cfg, s, steps[..|steps| - 1], limit))
  }

  lemma {:induction false} OvershootOverRuns(cfg: Config, s: State, steps: seq<Step>, tenant: string, limit: nat)
    requires WithinOvershoot(cfg, s, tenant, limit) && SizesOk(cfg, s, tenant)
    requires 0 < limit && Bounded(cfg, s, steps, limit)
    ensures WithinOvershoot(cfg, Run(cfg, s, steps), tenant, limit) && SizesOk(cfg, Run(cfg, s, steps), tenant)
  {
    if steps != [] {
      var init, step := steps[..|steps| - 1], steps[|steps| - 1];
      OvershootOverRuns(cfg, s, init, tenant, limit);
      var mid := Run(cfg, s, init);
      PlansMeter(cfg, mid, step, tenant);
      var c := Plan(cfg, mid, step);
      if c.Some? { OvershootStays(cfg, mid, c.value, tenant, limit); }
    }
  }

  /** From usage within quota, with at most `limit` jobs in flight at any time, the recorded
      bytes plus the bytes still in flight never exceed the quota by more than limit - 1
      files, nor the object count by more than limit - 1; one worker keeps the exact quota. */
  lemma {:induction false} QuotaOvershootIsBounded(cfg: Config, usage: map<string, Quota.Usage>, steps: seq<Step>,
    tenant: string, limit: nat)
    requires 0 < limit && Bounded(cfg, Init().(usage := usage), steps, limit)
    requires var b, u := Quota.GetQuota(cfg.quotas, tenant), Quota.UsageOf(usage, tenant);
             (b.maxBytes > 0 ==> u.bytes <= b.maxBytes) && (b.maxObjects > 0 ==> u.objects <= b.maxObjects)
    ensures var s := Run(cfg, Init().(usage := usage), steps);
            var b, u := Quota.GetQuota(cfg.quotas, tenant), Quota.UsageOf(s.usage, tenant);
            && (b.maxBytes > 0 && cfg.maxFile > 0 ==>
                  u.bytes + Total(AdmittedBytes(tenant), s.procs) <= b.maxBytes + (limit - 1) * cfg.maxFile)
            && (b.maxObjects > 0 ==>
                  u.objects + Total(AdmittedObjects(tenant), s.procs) <= b.maxObjects + (limit - 1))
  {
    var s0 := Init().(usage := usage);
    assert 0 <= (limit - 1) * cfg.maxFile;
    assert WithinOvershoot(cfg, s0, tenant, limit);
    OvershootOverRuns(cfg, s0, steps, tenant, limit);
  }

  /** The same with the configured numbers: a tenant whose byte quota is `maxBytes`, its own or
      else the default, and whose object quota is `maxObjects`. */
  lemma {:induction false} ConfiguredQuotaIsKept(
    cfg: Config, usage: map<string, Quota.Usage>, steps: seq<Step>, tenant: string, limit: nat, maxBytes: nat,
      maxObjects: nat)
    requires 0 < limit && Bounded(cfg, Init().(usage := usage), steps, limit)
    requires var own, q := tenant in cfg.quotas.tenants, cfg.quotas;
             && maxBytes == (if own && q.tenants[tenant].maxBytes.Some? then q.tenants[tenant].maxBytes.value
                             else q.defaultMaxBytes)
             && maxObjects == (if own && q.tenants[tenant].maxObjects.Some? then q.tenants[tenant].maxObjects.value
                               else q.defaultMaxObjects)
    requires tenant in usage ==>
               && (maxBytes > 0 ==> usage[tenant].bytes <= maxBytes)
               && (maxObjects > 0 ==> usage[tenant].objects <= maxObjects)
    ensures var s := Run(cfg, Init().(usage := usage), steps);
            var recorded := if tenant in s.usage then s.usage[tenant] else Quota.Usage(0, 0);
            && (maxBytes > 0 && cfg.maxFile > 0 ==>
                  recorded.bytes + Total(AdmittedBytes(tenant), s.procs) <= maxBytes + (limit - 1) * cfg.maxFile)
            && (maxObjects > 0 ==>
                  recorded.objects + Total(AdmittedObjects(tenant), s.procs) <= maxObjects + (limit - 1))
  {
    QuotaOvershootIsBounded(cfg, usage, steps, tenant, limit);
  }

  // ---------------------------------------------------------------- conservation

  /** Size of the file that this step marks SUCCESS for the tenant. */
  function MarkedBy(cfg: Config, s: State, step: Step, tenant: string): Option<nat>
  {
    if step.Work? && step.act.MarkDone? && step.p < |s.procs| && s.procs[step.p].Worker?
       && s.procs[step.p].phase.Uploaded? && IntegrityOk(cfg, s.procs[step.p].phase.up)
       && s.procs[step.p].phase.input.tenant == tenant
    then Some(s.procs[step.p].phase.size) else None
  }

  /** Size of the file whose attempt this step ends between markSuccess and recordUsage. */
  function LostBy(s: State, step: Step, tenant: string): Option<nat>
  {
    if (step.Throw? || step.Crash? || step.Stall?) && step.p < |s.procs| then Unmetered(s.procs[step.p], tenant)
      else None
  }

  function SizeOf(size: Option<nat>): nat
  {
    if size.Some? then size.value else 0
  }

  function CountOf(size: Option<nat>): nat
  {
    if size.Some? then 1 else 0
  }

  datatype Tally = Tally(bytes: nat, objects: nat)

  function Plus(t: Tally, size: Option<nat>): Tally
  {
    Tally(t.bytes + SizeOf(size), t.objects + CountOf(size))
  }

  ghost function MarkedIn(cfg: Config, s: State, steps: seq<Step>, tenant: string): Tally
  {
    if steps == [] then Tally(0, 0)
    else var init := steps[..|steps| - 1];
      Plus(MarkedIn(cfg, s, init, tenant), MarkedBy(cfg, Run(cfg, s, init), steps[|steps| - 1], tenant))
  }

  ghost function LostIn(cfg: Config, s: State, steps: seq<Step>, tenant: string): Tally
  {
    if steps == [] then Tally(0, 0)
    else var init := steps[..|steps| - 1];
      Plus(LostIn(cfg, s, init, tenant), LostBy(Run(cfg, s, init), steps[|steps| - 1], tenant))
  }

  /** What a planned change does to the window between mark and record. */
  ghost predicate WindowMoves(s: State, c: Change, tenant: string, marked: Option<nat>, lost: Option<nat>)
  {
    var q := Old(s, c);
    var after := Became(c);
    var metered := if c.note.Metered? && c.note.tenant == tenant then Some(c.note.size) else None;
    && SizeOf(Unmetered(q, tenant)) + SizeOf(marked) == SizeOf(Unmetered(after, tenant)) + SizeOf(metered)
       + SizeOf(lost)
    && CountOf(Unmetered(q, tenant)) + CountOf(marked) == CountOf(Unmetered(after, tenant)) + CountOf(metered)
       + CountOf(lost)
  }

  lemma WorkMovesWindow(cfg: Config, s: State, p: nat, act: Act, tenant: string)
    requires p < |s.procs| && s.procs[p].Worker?
    ensures var c := PlanWork(cfg, s, p, s.procs[p].job, s.procs[p].phase, act);
            && (c.Some? ==> WindowMoves(s, c.value, tenant, MarkedBy(cfg, s, Work(p, act), tenant), None))
            && (c == None ==> MarkedBy(cfg, s, Work(p, act), tenant) == None)
  {
  }

  lemma PlansMoveWindow(cfg: Config, s: State, step: Step, tenant: string)
    ensures var c, marked, lost := Plan(cfg, s, step), MarkedBy(cfg, s, step, tenant), LostBy(s, step, tenant);
            && (c.Some? ==> WindowMoves(s, c.value, tenant, marked, lost))
            && (c == None ==> marked == None && lost == None)
  {
    var p := ActorOf(step);
    if !step.Work? {
      OtherPlans(cfg, s, step);
      if p.Some? && p.value < |s.procs| && Unmetered(s.procs[p.value], tenant).Some? {
        OthersLose(cfg, s, step, tenant);
      }
    }
    else if step.p < |s.procs| && s.procs[step.p].Worker? { WorkMovesWindow(cfg, s, step.p, step.act, tenant); }
  }

  /** Outside its own acts a run leaves the window only by failing. */
  lemma OthersLose(cfg: Config, s: State, step: Step, tenant: string)
    requires !step.Work? && ActorOf(step).Some? && ActorOf(step).value < |s.procs|
    requires Unmetered(s.procs[ActorOf(step).value], tenant).Some?
    ensures Plan(cfg, s, step).Some? <==> step.Throw? || step.Crash? || step.Stall?
  {
  }

  lemma ChangeConserves(s: State, c: Change, tenant: string, marked: Option<nat>, lost: Option<nat>)
    requires WindowMoves(s, c, tenant, marked, lost)
    ensures var s' := Commit(s, c);
            var u, u' := Quota.UsageOf(s.usage, tenant), Quota.UsageOf(s'.usage, tenant);
            && u.bytes + Total(UnmeteredBytes(tenant), s.procs) + SizeOf(marked)
               == u'.bytes + Total(UnmeteredBytes(tenant), s'.procs) + SizeOf(lost)
            && u.objects + Total(UnmeteredObjects(tenant), s.procs) + CountOf(marked)
               == u'.objects + Total(UnmeteredObjects(tenant), s'.procs) + CountOf(lost)
  {
    TotalAfter(UnmeteredBytes(tenant), s, c);
    TotalAfter(UnmeteredObjects(tenant), s, c);
  }

  /** Conservation in every interleaving: what `markSuccess` marked for a tenant since the
      start is what was recorded, plus what is in the window between the two, plus what
      attempts lost in that window by throwing or crashing. */
  lemma {:induction false} MeteringConserves(cfg: Config, usage: map<string, Quota.Usage>, steps: seq<Step>,
    tenant: string)
    ensures var s0 := Init().(usage := usage);
            var s := Run(cfg, s0, steps);
            var u0, u := Quota.UsageOf(usage, tenant), Quota.UsageOf(s.usage, tenant);
            var marked, lost := MarkedIn(cfg, s0, steps, tenant), LostIn(cfg, s0, steps, tenant);
            && u0.bytes + marked.bytes == u.bytes + Total(UnmeteredBytes(tenant), s.procs) + lost.bytes
            && u0.objects + marked.objects == u.objects + Total(UnmeteredObjects(tenant), s.procs) + lost.objects
  {
    if steps != [] {
      var init, step := steps[..|steps| - 1], steps[|steps| - 1];
      MeteringConserves(cfg, usage, init, tenant);
      var s := Run(cfg, Init().(usage := usage), init);
      PlansMoveWindow(cfg, s, step, tenant);
      var c := Plan(cfg, s, step);
      if c.Some? { ChangeConserves(s, c.value, tenant, MarkedBy(cfg, s, step, tenant), LostBy(s, step, tenant)); }
    }
  }
}
