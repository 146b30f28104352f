/** One relay at a time: every extra publication is paid for by an interruption. */
module SingleRelay {
  import opened Common
  import opened Protocol

  predicate Active(q: Proc)
  {
    (q.Relaying? && q.events != []) || q.RelayAdded?
  }

  function EventsOf(q: Proc): seq<EventId>
  {
    if q.Relaying? || q.RelayAdded? then q.events else []
  }

  /** A relay starts only when no other is active. */
  ghost predicate Alone(s: State, step: Step)
  {
    step.StartRelay? ==> forall p :: 0 <= p < |s.procs| ==> !Active(s.procs[p])
  }

  ghost function PublishedEvents(s: State): set<EventId>
  {
    set e | e in s.outbox && !s.outbox[e].pending
  }

  ghost predicate Midway(s: State)
  {
    exists p :: 0 <= p < |s.procs| && s.procs[p].RelayAdded?
  }

  predicate Distinct(events: seq<EventId>)
  {
    forall i, j :: 0 <= i < j < |events| ==> events[i] != events[j]
  }

  /** What the one active relay still has to publish is pending, each event once. */
  ghost predicate TodoPending(s: State, q: Proc)
  {
    && Distinct(EventsOf(q))
    && (forall i :: 0 <= i < |EventsOf(q)| ==> EventsOf(q)[i] in s.outbox && s.outbox[EventsOf(q)[i]].pending)
    && (q.RelayAdded? ==> q.events != [])
  }

  ghost predicate AtMostOneActive(s: State)
  {
    forall p, q :: 0 <= p < q < |s.procs| ==> !(Active(s.procs[p]) && Active(s.procs[q]))
  }

  ghost predicate Balanced(s: State)
  {
    |s.log.added| == |PublishedEvents(s)| + s.log.interrupted + if Midway(s) then 1 else 0
  }

  ghost predicate Inv(s: State)
  {
    && AtMostOneActive(s)
    && (forall p :: 0 <= p < |s.procs| ==> TodoPending(s, s.procs[p]))
    && Balanced(s)
  }

  /** The transitions of a relay, and that nobody else is one. */
  ghost predicate RelayMoves(s: State, c: Change)
  {
    var q, after := Old(s, c), Became(c);
    match c.note
    case EventAdded(e) => q.Relaying? && q.events != [] && e == q.events[0] && after == RelayAdded(q.events)
    case EventMarked(e) => q.RelayAdded? && q.events != [] && e == q.events[0] && after == Relaying(q.events[1..])
    case RelayLost => q.RelayAdded? && !Active(after)
    case Announced(e, _, _) => e !in s.outbox && c.slot == None
    case _ =>
      && !q.RelayAdded? && !after.RelayAdded?
      && (Active(after) ==>
            && (c.slot.value >= |s.procs| && after.Relaying?)
            && TodoPending(s, after) && forall p :: 0 <= p < |s.procs| ==> !Active(s.procs[p]))
  }

  lemma WorkRelays(cfg: Config, s: State, p: nat, act: Act)
    requires p < |s.procs| && s.procs[p].Worker?
    ensures var c := PlanWork(cfg, s, p, s.procs[p].job, s.procs[p].phase, act); c.Some? ==> RelayMoves(s, c.value)
  {
  }

  lemma ActorsRelay(cfg: Config, s: State, p: nat, step: Step)
    requires p < |s.procs| && ActorOf(step) == Some(p) && !step.Work?
    ensures var c := PlanActor(cfg, s, p, s.procs[p], step); c.Some? ==> RelayMoves(s, c.value)
  {
  }

  lemma PlansRelay(cfg: Config, s: State, step: Step)
    requires Alone(s, step)
    ensures var c := Plan(cfg, s, step); c.Some? ==> RelayMoves(s, c.value)
  {
    var p := ActorOf(step);
    if p.Some? && p.value < |s.procs| {
      if !step.Work? { ActorsRelay(cfg, s, p.value, step); }
      else if s.procs[p.value].Worker? { WorkRelays(cfg, s, p.value, step.act); }
    }
  }

  lemma ActiveStays(s: State, c: Change)
    requires Inv(s) && RelayMoves(s, c)
    ensures AtMostOneActive(Commit(s, c))
  {
    var s' := Commit(s, c);
    forall p, q | 0 <= p < q < |s'.procs| ensures !(Active(s'.procs[p]) && Active(s'.procs[q])) {
      assert p < |s.procs| && c.slot != Some(p) ==> s'.procs[p] == s.procs[p];
      assert q < |s.procs| && c.slot != Some(q) ==> s'.procs[q] == s.procs[q];
    }
  }

  lemma TodoStays(s: State, c: Change, p: nat)
    requires Inv(s) && RelayMoves(s, c) && p < |Commit(s, c).procs|
    ensures TodoPending(Commit(s, c), Commit(s, c).procs[p])
  {
    var s' := Commit(s, c);
    var q := s'.procs[p];
    if p < |s.procs| && c.slot != Some(p) {
      assert q == s.procs[p] && TodoPending(s, q);
      if c.note.EventMarked? { assert !Active(q); }
    } else if c.slot.Some? && c.slot.value < |s.procs| {
      assert TodoPending(s, s.procs[c.slot.value]);
    }
  }

  lemma MidwayAfter(s: State, c: Change)
    requires Inv(s) && RelayMoves(s, c)
    ensures Midway(Commit(s, c)) == (if c.note.EventAdded? then true
                                     else if c.note.EventMarked? || c.note.RelayLost? then false else Midway(s))
    ensures c.note.EventAdded? ==> !Midway(s)
    ensures c.note.EventMarked? || c.note.RelayLost? ==> Midway(s)
  {
    var s' := Commit(s, c);
    if c.note.EventAdded? || c.note.EventMarked? || c.note.RelayLost? {
      var p := c.slot.value;
      assert Active(s.procs[p]);
      assert forall q :: 0 <= q < |s.procs| && q != p ==> !Active(s.procs[q]) && s'.procs[q] == s.procs[q];
      assert c.note.EventAdded? ==> s'.procs[p].RelayAdded?;
    } else {
      if Midway(s) {
        var p :| 0 <= p < |s.procs| && s.procs[p].RelayAdded?;
        assert s'.procs[p] == s.procs[p];
      }
      if Midway(s') {
        var p :| 0 <= p < |s'.procs| && s'.procs[p].RelayAdded?;
        assert s.procs[p].RelayAdded?;
      }
    }
  }

  lemma BalanceStays(s: State, c: Change)
    requires Inv(s) && RelayMoves(s, c)
    ensures Balanced(Commit(s, c))
  {
    var s' := Commit(s, c);
    MidwayAfter(s, c);
    if c.note.EventMarked? {
      var e := c.note.event;
      assert TodoPending(s, s.procs[c.slot.value]);
      assert PublishedEvents(s') == PublishedEvents(s) + {e} && e !in PublishedEvents(s);
    } else {
      assert PublishedEvents(s') == PublishedEvents(s);
    }
  }

  lemma StepKeepsInv(cfg: Config, s: State, step: Step)
    requires Inv(s) && Alone(s, step)
    ensures Inv(Apply(cfg, s, step))
  {
    var c := Plan(cfg, s, step);
    if c.Some? {
      PlansRelay(cfg, s, step);
      ActiveStays(s, c.value);
      forall p | 0 <= p < |Commit(s, c.value).procs|
        ensures TodoPending(Commit(s, c.value), Commit(s, c.value).procs[p])
      {
        TodoStays(s, c.value, p);
      }
      BalanceStays(s, c.value);
    }
  }

  ghost predicate OneAtATime(cfg: Config, s: State, steps: seq<Step>)
  {
    steps == [] ||
    (var init := steps[..|steps| - 1];
     OneAtATime(cfg, s, init) && Alone(Run(cfg, s, init), steps[|steps| - 1]))
  }

  lemma {:induction false} RunKeepsInv(cfg: Config, s: State, steps: seq<Step>)
    requires Inv(s) && OneAtATime(cfg, s, steps)
    ensures Inv(Run(cfg, s, steps))
  {
    if steps != [] {
      var init := steps[..|steps| - 1];
      RunKeepsInv(cfg, s, init);
      StepKeepsInv(cfg, Run(cfg, s, init), steps[|steps| - 1]);
    }
  }

  /** With one relay at a time, the publications are exactly the PUBLISHED events plus the
      interruptions between add and mark, plus the one that may be under way. */
  lemma {:induction false} ExtraPublicationsAreInterruptions(cfg: Config, steps: seq<Step>)
    requires OneAtATime(cfg, Init(), steps)
    ensures var s := Run(cfg, Init(), steps);
            |s.log.added| == |PublishedEvents(s)| + s.log.interrupted + if Midway(s) then 1 else 0
  {
    assert PublishedEvents(Init()) == {};
    RunKeepsInv(cfg, Init(), steps);
  }
}

/** How fast the batched relay reaches an event, whatever else happens meanwhile. */
module Drain {
  import opened Common
  import opened Protocol

  type Outbox = map<EventId, Event>

  /** One error-free relay pass over the batch it found. */
  function Publish(outbox: Outbox, batch: seq<EventId>): Outbox
  {
    map e | e in outbox :: if e in batch then outbox[e].(pending := false) else outbox[e]
  }

  /** Pending events that the relay may take before `e`. */
  ghost function Ahead(outbox: Outbox, e: EventId): set<EventId>
    requires e in outbox
  {
    set k | k in outbox && k != e && outbox[k].pending && outbox[k].createdAt <= outbox[e].createdAt
  }

  /** Between two passes anything may happen that puts nothing ahead of `e`: later-dated
      events arrive, other relays publish. */
  ghost predicate NothingJumpsAhead(before: Outbox, after: Outbox, e: EventId)
    requires e in before
  {
    && e in after && after[e].createdAt == before[e].createdAt
    && (after[e].pending ==> before[e].pending)
    && Ahead(after, e) <= Ahead(before, e)
  }

  /** What a relay takes: pending events, each once, oldest first, all of them below a hundred. */
  lemma RelayBatchIs(outbox: Outbox, batch: seq<EventId>)
    requires IsRelayBatch(outbox, batch)
    ensures |batch| <= 100 && forall i :: 0 <= i < |batch| ==> batch[i] in outbox && outbox[batch[i]].pending
    ensures forall i, j :: 0 <= i < j < |batch| ==>
              batch[i] != batch[j] && outbox[batch[i]].createdAt <= outbox[batch[j]].createdAt
    ensures forall e :: e in outbox && outbox[e].pending && e !in batch ==>
              |batch| == 100 && forall i :: 0 <= i < |batch| ==> outbox[batch[i]].createdAt <= outbox[e].createdAt
  {
    var waiting := map k | k in outbox && outbox[k].pending :: outbox[k];
    assert IsOldest(waiting, (v: Event) => v.createdAt, RELAY_BATCH, batch);
    forall i | 0 <= i < |batch| ensures batch[i] in outbox && outbox[batch[i]] == waiting[batch[i]] {
      assert batch[i] in waiting;
    }
    forall e | e in outbox && outbox[e].pending && e !in batch
      ensures |batch| == 100 && forall i :: 0 <= i < |batch| ==> outbox[batch[i]].createdAt <= outbox[e].createdAt
    {
      if |batch| < 100 { OldestIsAll(waiting, (v: Event) => v.createdAt, RELAY_BATCH, batch, e); }
      assert forall i :: 0 <= i < |batch| ==> waiting[batch[i]].createdAt <= waiting[e].createdAt;
    }
  }

  /** A pass that leaves `e` waiting was full, and published only events ahead of `e`. */
  lemma FullPass(outbox: Outbox, batch: seq<EventId>, e: EventId)
    requires IsRelayBatch(outbox, batch) && e in outbox && outbox[e].pending && e !in batch
    ensures ToSet(batch) <= Ahead(outbox, e) && |ToSet(batch)| == 100
  {
    var waiting := map k | k in outbox && outbox[k].pending :: outbox[k];
    DistinctCount(batch);
    SubsetCount(ToSet(batch), waiting.Keys - {e});
    assert |batch| < |waiting|;
    forall k | k in batch ensures k in Ahead(outbox, e) {
      var i :| 0 <= i < |batch| && batch[i] == k;
      assert waiting[batch[i]].createdAt <= waiting[e].createdAt;
    }
  }

  lemma OnePass(outbox: Outbox, batch: seq<EventId>, after: Outbox, e: EventId)
    requires IsRelayBatch(outbox, batch) && e in outbox
    requires NothingJumpsAhead(Publish(outbox, batch), after, e) && after[e].pending
    ensures outbox[e].pending && |Ahead(after, e)| + 100 <= |Ahead(outbox, e)|
  {
    FullPass(outbox, batch, e);
    assert Ahead(Publish(outbox, batch), e) == Ahead(outbox, e) - ToSet(batch);
    SubsetCount(Ahead(after, e), Ahead(outbox, e) - ToSet(batch));
    assert Ahead(outbox, e) == (Ahead(outbox, e) - ToSet(batch)) + ToSet(batch);
  }

  // ---------------------------------------------------------------- passes of the protocol

  /** Every event was stamped in the past. */
  ghost predicate Stamped(s: State)
  {
    forall e :: e in s.outbox ==> s.outbox[e].createdAt < s.clock
  }

  /** Events keep their stamp, are never pending again, and new ones are dated last. */
  ghost predicate Aged(before: Outbox, after: Outbox)
  {
    && (forall e :: e in before ==>
          && e in after && after[e].createdAt == before[e].createdAt
          && (after[e].pending ==> before[e].pending))
    && (forall e, f :: e in before && f in after && f !in before ==> before[e].createdAt < after[f].createdAt)
  }

  lemma StepAges(cfg: Config, s: State, step: Step)
    requires Stamped(s)
    ensures Stamped(Apply(cfg, s, step)) && Aged(s.outbox, Apply(cfg, s, step).outbox)
  {
    var c := Plan(cfg, s, step);
    if c.Some? {
      AnnouncesFresh(cfg, s, step);
      CommitAges(s, c.value);
    }
  }

  lemma CommitAges(s: State, c: Change)
    requires Stamped(s) && (c.note.Announced? ==> c.note.event !in s.outbox)
    ensures Stamped(Commit(s, c)) && Aged(s.outbox, Commit(s, c).outbox)
  {
  }

  lemma {:induction false} RunAges(cfg: Config, s: State, steps: seq<Step>)
    requires Stamped(s)
    ensures Stamped(Run(cfg, s, steps)) && Aged(s.outbox, Run(cfg, s, steps).outbox)
  {
    if steps != [] {
      RunAges(cfg, s, steps[..|steps| - 1]);
      StepAges(cfg, Run(cfg, s, steps[..|steps| - 1]), steps[|steps| - 1]);
    }
  }

  /** Relay `p` has published what it no longer lists of its batch, or is gone. */
  ghost predicate Passing(s: State, p: nat, batch: seq<EventId>)
  {
    && p < |s.procs|
    && var q := s.procs[p];
       || q == Ended
       || (&& (q.Relaying? || q.RelayAdded?) && |q.events| <= |batch| && q.events == batch[|batch| - |q.events|..]
           && forall i :: 0 <= i < |batch| - |q.events| ==> batch[i] in s.outbox ==> !s.outbox[batch[i]].pending)
  }

  /** Only the relay itself moves, and it moves past what it marks. */
  ghost predicate RelaySteps(s: State, c: Change, p: nat)
    requires p < |s.procs|
  {
    && (c.note.Announced? ==> c.note.event !in s.outbox)
    && (c.slot == Some(p) && (s.procs[p] == Ended || s.procs[p].Relaying? || s.procs[p].RelayAdded?) ==>
          || c.proc == Ended
          || (s.procs[p].Relaying? && c.proc == RelayAdded(s.procs[p].events))
          || (s.procs[p].RelayAdded? && s.procs[p].events != []
              && c.proc == Relaying(s.procs[p].events[1..]) && c.note == EventMarked(s.procs[p].events[0])))
  }

  lemma PlansStepRelays(cfg: Config, s: State, step: Step, p: nat)
    requires p < |s.procs|
    ensures var c := Plan(cfg, s, step); c.Some? ==> RelaySteps(s, c.value, p)
  {
    if ActorOf(step) == Some(p) && !step.Work? { ActorStepsRelay(cfg, s, step, p); }
  }

  lemma ActorStepsRelay(cfg: Config, s: State, step: Step, p: nat)
    requires p < |s.procs| && ActorOf(step) == Some(p) && !step.Work?
    ensures var c := PlanActor(cfg, s, p, s.procs[p], step); c.Some? ==> RelaySteps(s, c.value, p)
  {
  }

  lemma PassingStays(s: State, c: Change, p: nat, batch: seq<EventId>)
    requires Passing(s, p, batch) && RelaySteps(s, c, p) && forall i :: 0 <= i < |batch| ==> batch[i] in s.outbox
    ensures Passing(Commit(s, c), p, batch) && forall i :: 0 <= i < |batch| ==> batch[i] in Commit(s, c).outbox
  {
  }

  /** A relay that has worked off its list has published its whole batch, whatever ran
      beside it. */
  lemma {:induction false} PassPublishes(cfg: Config, s: State, p: nat, batch: seq<EventId>, steps: seq<Step>)
    requires Passing(s, p, batch) && forall i :: 0 <= i < |batch| ==> batch[i] in s.outbox
    ensures var s' := Run(cfg, s, steps);
            && Passing(s', p, batch) && (forall i :: 0 <= i < |batch| ==> batch[i] in s'.outbox)
            && (s'.procs[p] == Relaying([]) ==> forall i :: 0 <= i < |batch| ==> !s'.outbox[batch[i]].pending)
  {
    if steps != [] {
      var init, step := steps[..|steps| - 1], steps[|steps| - 1];
      PassPublishes(cfg, s, p, batch, init);
      var mid := Run(cfg, s, init);
      var c := Plan(cfg, mid, step);
      if c.Some? {
        PlansStepRelays(cfg, mid, step, p);
        PassingStays(mid, c.value, p, batch);
      }
    }
  }

  /** From `s` to `s'` a relay found `batch` and at some point had worked it off without an
      error, while the other actors took any steps, accepts and further relays included. */
  ghost predicate IsPass(cfg: Config, s: State, s': State, batch: seq<EventId>, steps: seq<Step>)
  {
    && IsRelayBatch(s.outbox, batch)
    && var s1 := Apply(cfg, s, StartRelay(batch));
       s' == Run(cfg, s1, steps) && exists n :: 0 <= n <= |steps| && WorkedOff(Run(cfg, s1, steps[..n]), |s.procs|)
  }

  predicate WorkedOff(s: State, p: nat)
  {
    p < |s.procs| && s.procs[p] == Relaying([])
  }

  lemma {:induction false} RestAges(cfg: Config, s: State, steps: seq<Step>, n: nat)
    requires Stamped(s) && n <= |steps|
    ensures Aged(Run(cfg, s, steps[..n]).outbox, Run(cfg, s, steps).outbox)
  {
    if n == |steps| {
      assert steps[..n] == steps;
    } else {
      var init := steps[..|steps| - 1];
      RestAges(cfg, s, init, n);
      assert init[..n] == steps[..n];
      RunAges(cfg, s, init);
      StepAges(cfg, Run(cfg, s, init), steps[|steps| - 1]);
    }
  }

  /** Ageing that publishes a batch puts nothing ahead of an event. */
  lemma AgedPutsNothingAhead(before: Outbox, after: Outbox, batch: seq<EventId>, e: EventId)
    requires Aged(before, after) && e in before
    requires forall i :: 0 <= i < |batch| ==> batch[i] in after && !after[batch[i]].pending
    ensures NothingJumpsAhead(Publish(before, batch), after, e)
  {
    var mid := Publish(before, batch);
    forall k | k in Ahead(after, e) ensures k in Ahead(mid, e) {
      assert k in before;
      assert k !in batch;
      assert mid[k] == before[k];
    }
    assert e in batch ==> !after[e].pending;
  }

  /** The start of a pass. */
  lemma PassStarts(cfg: Config, s: State, batch: seq<EventId>)
    requires IsRelayBatch(s.outbox, batch)
    ensures var s1 := Apply(cfg, s, StartRelay(batch));
            && s1.outbox == s.outbox && s1.clock == s.clock + 1 && Passing(s1, |s.procs|, batch)
            && forall i :: 0 <= i < |batch| ==> batch[i] in s1.outbox
  {
    var c := Change(Some(|s.procs|), Relaying(batch), KeepRows, KeepJobs, Quiet);
    assert Plan(cfg, s, StartRelay(batch)) == Some(c);
    assert Commit(s, c).procs == s.procs + [Relaying(batch)];
    assert batch == batch[0..];
  }

  /** Whatever is published stays published until the end of the leg. */
  lemma PassLeavesPublished(cfg: Config, s: State, s': State, batch: seq<EventId>, steps: seq<Step>)
    requires Stamped(s) && IsPass(cfg, s, s', batch, steps)
    ensures Stamped(s') && Aged(s.outbox, s'.outbox)
    ensures forall i :: 0 <= i < |batch| ==> batch[i] in s'.outbox && !s'.outbox[batch[i]].pending
  {
    var s1 := Apply(cfg, s, StartRelay(batch));
    PassStarts(cfg, s, batch);
    RunAges(cfg, s1, steps);
    var n :| 0 <= n <= |steps| && WorkedOff(Run(cfg, s1, steps[..n]), |s.procs|);
    PassPublishes(cfg, s1, |s.procs|, batch, steps[..n]);
    RestAges(cfg, s1, steps, n);
  }

  lemma PassPutsNothingAhead(cfg: Config, s: State, s': State, batch: seq<EventId>, steps: seq<Step>, e: EventId)
    requires Stamped(s) && e in s.outbox && IsPass(cfg, s, s', batch, steps)
    ensures Stamped(s') && NothingJumpsAhead(Publish(s.outbox, batch), s'.outbox, e)
  {
    PassLeavesPublished(cfg, s, s', batch, steps);
    AgedPutsNothingAhead(s.outbox, s'.outbox, batch, e);
  }

  lemma PassShown(cfg: Config, s: State, mid: State, s': State, batch: seq<EventId>, leg: seq<Step>, n: nat)
    requires IsRelayBatch(s.outbox, batch) && n <= |leg|
    requires s' == Run(cfg, Apply(cfg, s, StartRelay(batch)), leg)
    requires mid == Run(cfg, Apply(cfg, s, StartRelay(batch)), leg[..n]) && WorkedOff(mid, |s.procs|)
    ensures IsPass(cfg, s, s', batch, leg)
  {
  }

  /** One pass after another. */
  ghost predicate Passes(cfg: Config, states: seq<State>, batches: seq<seq<EventId>>, legs: seq<seq<Step>>)
  {
    && |states| == |batches| + 1 == |legs| + 1
    && forall i :: 0 <= i < |batches| ==> IsPass(cfg, states[i], states[i + 1], batches[i], legs[i])
  }

  /** If `e` still waits after n passes, each of them published 100 events ahead of it. */
  lemma {:induction false} EachPassTakesAHundred(cfg: Config, states: seq<State>, batches: seq<seq<EventId>>,
    legs: seq<seq<Step>>, e: EventId)
    requires Passes(cfg, states, batches, legs) && Stamped(states[0]) && e in states[0].outbox
    ensures var last := states[|batches|];
            && Stamped(last) && e in last.outbox
            && (last.outbox[e].pending ==>
               |Ahead(last.outbox, e)| + 100 * |batches| <= |Ahead(states[0].outbox, e)|)
    decreases |batches|
  {
    var n := |batches| - 1;
    if n >= 0 {
      assert Passes(cfg, states[..n + 1], batches[..n], legs[..n]);
      EachPassTakesAHundred(cfg, states[..n + 1], batches[..n], legs[..n], e);
      var before, after := states[n], states[n + 1];
      PassPutsNothingAhead(cfg, before, after, batches[n], legs[n], e);
      if after.outbox[e].pending { OnePass(before.outbox, batches[n], after.outbox, e); }
    }
  }

  /** Drain bound, in every interleaving and from whatever a run has reached: an event with k
      pending events ahead of it is PUBLISHED after at most k / 100 + 1 error-free passes,
      however many later-dated events arrive meanwhile. */
  lemma {:induction false} DrainsInTime(
    cfg: Config, before: seq<Step>, states: seq<State>, batches: seq<seq<EventId>>, legs: seq<seq<Step>>, e: EventId)
    requires Passes(cfg, states, batches, legs) && states[0] == Run(cfg, Init(), before) && e in states[0].outbox
    requires var outbox := states[0].outbox;
             var ahead := set k | && k in outbox && k != e && outbox[k].pending
                                  && outbox[k].createdAt <= outbox[e].createdAt;
             |batches| >= |ahead| / 100 + 1
    ensures var last := states[|batches|]; e in last.outbox && !last.outbox[e].pending
  {
    RunAges(cfg, Init(), before);
    EachPassTakesAHundred(cfg, states, batches, legs, e);
    var outbox := states[0].outbox;
    assert Ahead(outbox, e) ==
           set k | k in outbox && k != e && outbox[k].pending && outbox[k].createdAt <= outbox[e].createdAt;
  }
}
