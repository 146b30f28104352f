/** Concrete runs of the protocol from the empty system, step by step. They show that the
    states in which a law fails, or a bound is attained, are reached. */
module Scenarios {
  import opened Common
  import opened Transfers
  import opened Envelope
  import opened Protocol
  import Pipeline

  const FILE: Input := Input("key", "tenant", "file", "/file", "/data/file", "bucket", "user")

  // ---------------------------------------------------------------- arrival of a transfer

  predicate NonePending(outbox: map<EventId, Event>)
  {
    forall e :: e in outbox ==> !outbox[e].pending
  }

  lemma Accepted(cfg: Config, s: State, input: Input, id: Id, e: EventId)
    requires id !in s.issued && e !in s.outbox && !HasKey(s.rows, input.key)
    ensures Apply(cfg, s, Accept(input, id, e)) ==
            Commit(s, Change(None, Ended, Insert(id, input), KeepJobs, Announced(e, id, input.key)))
  {
  }

  /** A relay that finds `e` as the only pending event and enqueues its job. */
  lemma Relayed(cfg: Config, s: State, e: EventId)
    requires e in s.outbox && forall k :: k in s.outbox ==> (s.outbox[k].pending <==> k == e)
    ensures var s' := Apply(cfg, Apply(cfg, s, StartRelay([e])), RelayAdd(|s.procs|));
            && s'.rows == s.rows && s'.outbox == s.outbox && s'.usage == s.usage && s'.deadLetters == s.deadLetters
            && s'.issued == s.issued
            && s'.queue == s.queue + multiset{Job(s.outbox[e].transfer, 0)}
            && s'.procs == s.procs + [RelayAdded([e])]
  {
    var p := |s.procs|;
    OnlyBatch(s.outbox, e);
    var c1 := Change(Some(p), Relaying([e]), KeepRows, KeepJobs, Quiet);
    assert Plan(cfg, s, StartRelay([e])) == Some(c1);
    var s1 := Commit(s, c1);
    var c2 := Change(Some(p), RelayAdded([e]), KeepRows, AddJob(Job(s.outbox[e].transfer, 0)), EventAdded(e));
    assert s1.procs == s.procs + [Relaying([e])];
    assert PlanActor(cfg, s1, p, s1.procs[p], RelayAdd(p)) == Some(c2);
    assert Commit(s1, c2).procs == s.procs + [RelayAdded([e])];
  }

  lemma OnlyBatch(outbox: map<EventId, Event>, e: EventId)
    requires e in outbox && forall k :: k in outbox ==> (outbox[k].pending <==> k == e)
    ensures IsRelayBatch(outbox, [e])
  {
    var waiting := map k | k in outbox && outbox[k].pending :: outbox[k];
    assert waiting == map[e := outbox[e]];
    assert waiting.Keys == {e} && |waiting.Keys| == 1;
    assert IsOldest(waiting, (v: Event) => v.createdAt, RELAY_BATCH, [e]);
  }

  /** Accepted and relayed: the transfer is PENDING and has one job. */
  lemma Arrived(cfg: Config, s: State, input: Input, id: Id, e: EventId)
    requires id !in s.issued && e !in s.outbox && !HasKey(s.rows, input.key) && NonePending(s.outbox)
    ensures var s1 := Apply(cfg, s, Accept(input, id, e));
            var s' := Apply(cfg, Apply(cfg, s1, StartRelay([e])), RelayAdd(|s.procs|));
            && s'.rows == s.rows[id := NewRow(input, s.clock)] && s'.outbox == s.outbox[e := Event(id, true, s.clock)]
            && s'.queue == s.queue + multiset{Job(id, 0)} && s'.procs == s.procs + [RelayAdded([e])]
            && s'.usage == s.usage && s'.deadLetters == s.deadLetters && s'.issued == s.issued + {id}
  {
    Accepted(cfg, s, input, id, e);
    Relayed(cfg, Apply(cfg, s, Accept(input, id, e)), e);
  }

  function ArriveSteps(input: Input, id: Id, e: EventId, relay: nat): seq<Step>
  {
    [] + [Accept(input, id, e)] + [StartRelay([e])] + [RelayAdd(relay)]
  }

  lemma ArrivedRun(cfg: Config, s: State, input: Input, id: Id, e: EventId)
    requires id !in s.issued && e !in s.outbox && !HasKey(s.rows, input.key) && NonePending(s.outbox)
    ensures var s' := Run(cfg, s, ArriveSteps(input, id, e, |s.procs|));
            && s'.rows == s.rows[id := NewRow(input, s.clock)] && s'.outbox == s.outbox[e := Event(id, true, s.clock)]
            && s'.queue == s.queue + multiset{Job(id, 0)} && s'.procs == s.procs + [RelayAdded([e])]
            && s'.usage == s.usage && s'.deadLetters == s.deadLetters && s'.issued == s.issued + {id}
  {
    var a, b, c := Accept(input, id, e), StartRelay([e]), RelayAdd(|s.procs|);
    RunSnoc(cfg, s, [], a);
    RunSnoc(cfg, s, [] + [a], b);
    RunSnoc(cfg, s, [] + [a] + [b], c);
    Arrived(cfg, s, input, id, e);
  }

  lemma MarkedPublished(cfg: Config, s: State, p: nat, e: EventId)
    requires p < |s.procs| && s.procs[p] == RelayAdded([e]) && e in s.outbox
    ensures var s' := Apply(cfg, s, RelayMark(p));
            && s'.rows == s.rows && s'.queue == s.queue && s'.usage == s.usage && s'.issued == s.issued
            && s'.outbox == s.outbox[e := s.outbox[e].(pending := false)] && s'.procs == s.procs[p := Relaying([])]
  {
    var c := Change(Some(p), Relaying([]), KeepRows, KeepJobs, EventMarked(e));
    assert [e][1..] == [];
    assert PlanActor(cfg, s, p, s.procs[p], RelayMark(p)) == Some(c);
  }

  // ---------------------------------------------------------------- a worker

  lemma Taken(cfg: Config, s: State, job: Job)
    requires job in s.queue
    ensures var s' := Apply(cfg, s, Take(job));
            && s'.rows == s.rows && s'.outbox == s.outbox && s'.usage == s.usage && s'.deadLetters == s.deadLetters
            && s'.issued == s.issued
            && s'.queue == s.queue - multiset{job} && s'.procs == s.procs + [Worker(job, Phase.Taken)]
  {
  }

  lemma Loaded(cfg: Config, s: State, p: nat, job: Job)
    requires p < |s.procs| && s.procs[p] == Worker(job, Phase.Taken) && job.id in s.rows
             && s.rows[job.id].status != Success
    ensures var s' := Apply(cfg, s, Work(p, Load));
            && s'.rows == s.rows && s'.outbox == s.outbox && s'.usage == s.usage && s'.deadLetters == s.deadLetters
            && s'.issued == s.issued && s'.queue == s.queue
            && s'.procs == s.procs[p := Worker(job, Phase.Loaded(s.rows[job.id].input))]
  {
  }

  lemma Claimed(cfg: Config, s: State, p: nat, job: Job, input: Input)
    requires p < |s.procs| && s.procs[p] == Worker(job, Phase.Loaded(input))
    ensures var s' := Apply(cfg, s, Work(p, Claim));
            && s'.rows == MarkProcessing(s.rows, job.id, s.clock) && s'.outbox == s.outbox && s'.usage == s.usage
            && s'.deadLetters == s.deadLetters
            && s'.issued == s.issued && s'.queue == s.queue
            && s'.procs == s.procs[p := Worker(job, Phase.Claimed(input))]
  {
  }

  function ClaimSteps(job: Job, p: nat): seq<Step>
  {
    [] + [Take(job)] + [Work(p, Load)] + [Work(p, Claim)]
  }

  /** A waiting job is taken, its row read and claimed. */
  lemma ClaimedRun(cfg: Config, s: State, job: Job)
    requires job in s.queue && job.id in s.rows && s.rows[job.id].status != Success
    ensures var s' := Run(cfg, s, ClaimSteps(job, |s.procs|));
            && (exists now :: s'.rows == MarkProcessing(s.rows, job.id, now)) && s'.outbox == s.outbox
            && s'.usage == s.usage && s'.deadLetters == s.deadLetters
            && s'.issued == s.issued && s'.queue == s.queue - multiset{job}
            && s'.procs == s.procs + [Worker(job, Phase.Claimed(s.rows[job.id].input))]
  {
    var p := |s.procs|;
    var a, b, c := Take(job), Work(p, Load), Work(p, Claim);
    RunSnoc(cfg, s, [], a);
    RunSnoc(cfg, s, [] + [a], b);
    RunSnoc(cfg, s, [] + [a] + [b], c);
    Taken(cfg, s, job);
    Loaded(cfg, Run(cfg, s, [] + [a]), p, job);
    var mid := Run(cfg, s, [] + [a] + [b]);
    Claimed(cfg, mid, p, job, s.rows[job.id].input);
    assert Run(cfg, s, ClaimSteps(job, p)).rows == MarkProcessing(s.rows, job.id, mid.clock);
  }

  /** An attempt that checks, stores and marks a file of one byte. */
  function KeysFor(cfg: Config): Option<KeyMaterial>
  {
    if cfg.encrypt then Some(KeyMaterial([], seq(IV_LEN, _ => 0), seq(IV_LEN, _ => 0))) else None
  }

  function CheckOne(): Act { Check(Some(1), Pipeline.Disabled, "") }

  function StoreOne(cfg: Config): Act { Store([0], [0], None, KeysFor(cfg)) }

  /** One byte is within every quota that nothing has been recorded against. */
  lemma Checked(cfg: Config, s: State, p: nat, job: Job, input: Input)
    requires p < |s.procs| && s.procs[p] == Worker(job, Phase.Claimed(input)) && s.usage == map[]
    ensures var s' := Apply(cfg, s, Work(p, CheckOne()));
            && s'.rows == s.rows && s'.queue == s.queue && s'.usage == s.usage
            && s'.procs == s.procs[p := Worker(job, Phase.Checked(input, 1))]
  {
    Pipeline.Admission(ContextOf(cfg, s.usage, input, 1, Pipeline.Disabled, ""));
    var c := Change(Some(p), Worker(job, Phase.Checked(input, 1)), KeepRows, KeepJobs, Quiet);
    assert PlanWork(cfg, s, p, job, s.procs[p].phase, CheckOne()) == Some(c);
  }

  lemma StoredOne(cfg: Config, s: State, p: nat, job: Job, input: Input)
    requires p < |s.procs| && s.procs[p] == Worker(job, Phase.Checked(input, 1))
    ensures var s' := Apply(cfg, s, Work(p, StoreOne(cfg)));
            && s'.rows == s.rows && s'.queue == s.queue && |s'.procs| == |s.procs|
            && (forall q :: 0 <= q < |s.procs| && q != p ==> s'.procs[q] == s.procs[q])
            && s'.procs[p] == Worker(job, Uploaded(input, 1, UploadOf(cfg, input, [0], [0], None, KeysFor(cfg))))
  {
    assert KeysFit(cfg, KeysFor(cfg));
    assert PlanWork(cfg, s, p, job, s.procs[p].phase, StoreOne(cfg)).Some?;
  }

  lemma MarkedOne(cfg: Config, s: State, p: nat, job: Job, input: Input, up: Upload)
    requires p < |s.procs| && s.procs[p] == Worker(job, Uploaded(input, 1, up)) && up.etag == None && job.id in s.rows
    ensures var s' := Apply(cfg, s, Work(p, MarkDone));
            && job.id in s'.rows && s'.rows[job.id].status == Success && s'.queue == s.queue && |s'.procs| == |s.procs|
            && (forall q :: 0 <= q < |s.procs| && q != p ==> s'.procs[q] == s.procs[q])
            && s'.procs[p] == Worker(job, Succeeded(input, 1))
  {
    assert PlanWork(cfg, s, p, job, s.procs[p].phase, MarkDone).Some?;
  }

  function FinishSteps(cfg: Config, p: nat): seq<Step>
  {
    [Work(p, CheckOne())] + [Work(p, StoreOne(cfg))] + [Work(p, MarkDone)]
  }

  /** From the claim to SUCCESS. */
  lemma Finished(cfg: Config, s: State, p: nat, job: Job, input: Input)
    requires p < |s.procs| && s.procs[p] == Worker(job, Phase.Claimed(input)) && s.usage == map[] && job.id in s.rows
    ensures var s' := Run(cfg, s, FinishSteps(cfg, p));
            && job.id in s'.rows && s'.rows[job.id].status == Success && |s'.procs| == |s.procs|
            && (forall q :: 0 <= q < |s.procs| && q != p ==> s'.procs[q] == s.procs[q])
            && s'.procs[p] == Worker(job, Succeeded(input, 1))
  {
    var a, b := [Work(p, CheckOne())], [Work(p, CheckOne())] + [Work(p, StoreOne(cfg))];
    assert a == [] + a;
    RunSnoc(cfg, s, [], Work(p, CheckOne()));
    Checked(cfg, s, p, job, input);
    RunSnoc(cfg, s, a, Work(p, StoreOne(cfg)));
    StoredOne(cfg, Run(cfg, s, a), p, job, input);
    RunSnoc(cfg, s, b, Work(p, MarkDone));
    MarkedOne(cfg, Run(cfg, s, b), p, job, input, UploadOf(cfg, input, [0], [0], None, KeysFor(cfg)));
  }

  // ---------------------------------------------------------------- a sweep

  /** A sweep that finds the only transfer. */
  lemma SweepFinds(cfg: Config, s: State, x: Id, staleBefore: nat)
    requires s.rows.Keys == {x} && Stuck(s.rows[x], staleBefore) && cfg.sweepBatch > 0
    ensures var s' := Apply(cfg, s, StartSweep(staleBefore, [x]));
            && s'.rows == s.rows && s'.deadLetters == s.deadLetters && s'.queue == s.queue
            && s'.procs == s.procs + [Sweeping([Seen(x, s.rows[x].updatedAt, s.rows[x].attempts)])]
  {
    OnlyStuck(s.rows, x, staleBefore, cfg.sweepBatch);
    var found := Snapshot(s.rows, [x]);
    assert found == [Seen(x, s.rows[x].updatedAt, s.rows[x].attempts)];
    var c := Change(Some(|s.procs|), Sweeping(found), KeepRows, KeepJobs, Quiet);
    assert Plan(cfg, s, StartSweep(staleBefore, [x])) == Some(c);
  }

  lemma OnlyStuck(t: Table, x: Id, staleBefore: nat, limit: nat)
    requires t.Keys == {x} && Stuck(t[x], staleBefore) && limit > 0
    ensures IsStuckBatch(t, staleBefore, limit, [x])
  {
    var stuck := map id | id in t && Stuck(t[id], staleBefore) :: t[id];
    assert stuck == map[x := t[x]];
    assert stuck.Keys == {x} && |stuck.Keys| == 1;
    assert IsOldest(stuck, (r: Row) => r.updatedAt, limit, [x]);
  }
}
