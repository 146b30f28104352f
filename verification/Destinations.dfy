/** Where a transfer ends up: in every run a SUCCESS row names the bucket and key that the
    routing rules give for its own columns, which no step ever changes. */
module Destinations {
  import opened Common
  import opened Transfers
  import opened Protocol
  import Routing
  import Ingestion

  /** The columns that a worker carries, once it has read its row. */
  function Carried(q: Proc): Option<Input>
  {
    if !q.Worker? then None
    else match q.phase
      case Loaded(input) => Some(input)
      case Claimed(input) => Some(input)
      case Checked(input, _) => Some(input)
      case Uploaded(input, _, _) => Some(input)
      case Succeeded(input, _) => Some(input)
      case Recorded(input) => Some(input)
      case Published(input) => Some(input)
      case _ => None
  }

  /** They are those of its row, and its object went where the rules say. */
  ghost predicate WorkerOk(cfg: Config, s: State, q: Proc)
  {
    Carried(q).Some? ==>
      && q.job.id in s.issued && (q.job.id in s.rows ==> s.rows[q.job.id].input == Carried(q).value)
      && (q.phase.Uploaded? ==>
            var target := Routing.Resolve(cfg.rules, cfg.bucket, Carried(q).value);
            q.phase.up.bucket == target.bucket && q.phase.up.key == target.key)
  }

  ghost predicate RowOk(cfg: Config, s: State, id: Id)
  {
    id in s.rows && s.rows[id].status == Success ==>
      var target := Routing.Resolve(cfg.rules, cfg.bucket, s.rows[id].input);
      s.rows[id].bucket == target.bucket && s.rows[id].objectKey == Some(target.key)
  }

  ghost predicate Inv(cfg: Config, s: State)
  {
    && Issued(s) && (forall id :: RowOk(cfg, s, id))
    && (forall p :: 0 <= p < |s.procs| ==> WorkerOk(cfg, s, s.procs[p]))
  }

  /** A worker reads the columns from its row and passes them on. */
  ghost predicate Carries(cfg: Config, s: State, c: Change)
  {
    var q, q' := Old(s, c), Became(c);
    && (Carried(q').Some? ==>
          || (Carried(q) == Carried(q') && q.job == q'.job)
          || (c.rows.KeepRows? && q'.job.id in s.rows && s.rows[q'.job.id].input == Carried(q').value))
    && (q'.Worker? && q'.phase.Uploaded? ==>
          var target := Routing.Resolve(cfg.rules, cfg.bucket, Carried(q').value);
          q'.phase.up.bucket == target.bucket && q'.phase.up.key == target.key)
    && (c.rows.ToSuccess? ==> q.Worker? && q.phase.Uploaded? && q.job.id == c.rows.id && q.phase.up == c.rows.up)
    && (c.rows.Insert? ==> c.note.Announced? && c.note.id == c.rows.id && c.rows.id !in s.issued)
  }

  lemma WorkCarries(cfg: Config, s: State, p: nat, act: Act)
    requires p < |s.procs| && s.procs[p].Worker? && Issued(s)
    ensures var c := PlanWork(cfg, s, p, s.procs[p].job, s.procs[p].phase, act); c.Some? ==> Carries(cfg, s, c.value)
  {
  }

  lemma PlansCarry(cfg: Config, s: State, step: Step)
    requires Issued(s)
    ensures var c := Plan(cfg, s, step); c.Some? ==> Carries(cfg, s, c.value)
  {
    AnnouncesFresh(cfg, s, step);
    if !step.Work? { OtherPlans(cfg, s, step); }
    else if step.p < |s.procs| && s.procs[step.p].Worker? { WorkCarries(cfg, s, step.p, step.act); }
  }

  /** No write changes the columns of a row that stays. */
  lemma InputsStay(s: State, c: Change, id: Id)
    requires Issued(s) && (c.rows.Insert? ==> c.rows.id !in s.issued) && id in s.rows && id in Commit(s, c).rows
    ensures Commit(s, c).rows[id].input == s.rows[id].input
  {
    if !c.rows.Insert? && !c.rows.Delete? { Ingestion.KeysStay(s.rows, c.rows, s.clock); }
  }

  lemma RowStays(cfg: Config, s: State, c: Change, id: Id)
    requires Inv(cfg, s) && Carries(cfg, s, c)
    ensures RowOk(cfg, Commit(s, c), id)
  {
    var s' := Commit(s, c);
    if id in s'.rows && s'.rows[id].status == Success {
      if c.rows.ToSuccess? && c.rows.id == id {
        assert s'.rows[id] == AsSuccess(s.rows[id], c.rows.up, s.clock);
        assert WorkerOk(cfg, s, Old(s, c));
      } else {
        assert s'.rows[id] == s.rows[id] && RowOk(cfg, s, id);
      }
    }
  }

  lemma WorkerStays(cfg: Config, s: State, c: Change, q: Proc)
    requires Inv(cfg, s) && Carries(cfg, s, c) && WorkerOk(cfg, s, q)
    ensures WorkerOk(cfg, Commit(s, c), q)
  {
    var s' := Commit(s, c);
    if Carried(q).Some? && q.job.id in s'.rows {
      if q.job.id in s.rows { InputsStay(s, c, q.job.id); }
    }
  }

  lemma ActorStays(cfg: Config, s: State, c: Change)
    requires Inv(cfg, s) && Carries(cfg, s, c)
    ensures WorkerOk(cfg, Commit(s, c), Became(c))
  {
    var q, q' := Old(s, c), Became(c);
    assert WorkerOk(cfg, s, q);
    if Carried(q').Some? {
      if q'.job.id in s.rows && q'.job.id in Commit(s, c).rows { InputsStay(s, c, q'.job.id); }
    }
  }

  lemma {:induction false} RunKeepsInv(cfg: Config, steps: seq<Step>)
    ensures Inv(cfg, Run(cfg, Init(), steps))
  {
    if steps != [] {
      var init, step := steps[..|steps| - 1], steps[|steps| - 1];
      RunKeepsInv(cfg, init);
      StepKeepsInv(cfg, Run(cfg, Init(), init), step);
    }
  }

  lemma StepKeepsInv(cfg: Config, s: State, step: Step)
    requires Inv(cfg, s)
    ensures Inv(cfg, Apply(cfg, s, step))
  {
    IssuedStays(cfg, s, step);
    PlansCarry(cfg, s, step);
    var c := Plan(cfg, s, step);
    if c.Some? { CommitKeepsInv(cfg, s, c.value); }
  }

  lemma CommitKeepsInv(cfg: Config, s: State, c: Change)
    requires Inv(cfg, s) && Carries(cfg, s, c)
    ensures Inv(cfg, Commit(s, c))
  {
    var s' := Commit(s, c);
    IssuedAfter(s, c);
    forall id ensures RowOk(cfg, s', id) { RowStays(cfg, s, c, id); }
    forall p | 0 <= p < |s'.procs| ensures WorkerOk(cfg, s', s'.procs[p]) {
      if p < |s.procs| && c.slot != Some(p) { WorkerStays(cfg, s, c, s.procs[p]); } else { ActorStays(cfg, s, c); }
    }
  }

  /** In every run, crashes and overlapping runs included. */
  lemma {:induction false} SuccessRowsAreRouted(cfg: Config, steps: seq<Step>, id: Id)
    ensures var s := Run(cfg, Init(), steps);
            id in s.rows && s.rows[id].status == Success ==>
              var target := Routing.Resolve(cfg.rules, cfg.bucket, s.rows[id].input);
              s.rows[id].bucket == target.bucket && s.rows[id].objectKey == Some(target.key)
  {
    RunKeepsInv(cfg, steps);
    assert RowOk(cfg, Run(cfg, Init(), steps), id);
  }
}
