/** The shared stores as the services see them: database tables, job queue, dead letters and
    object store. Each call is one step of the protocol; a ghost copy of the step system
    runs along, so whatever the services do is a run of the protocol. */
module Backends {
  import opened Common
  import opened Transfers
  import opened Protocol
  import Quota

  class Backend {
    const cfg: Config
    var rows: Table
    var outbox: map<EventId, Event>
    var queue: multiset<Job>
    var deadLetters: multiset<Id>
    var objects: map<Location, Bytes>
    var usage: map<string, Quota.Usage>
    var clock: nat
    ghost var machine: State
    ghost var trace: seq<Step>
    ghost var states: seq<State>

    /** The ghost state is where the trace leads. */
    ghost predicate Traced()
      reads `machine, `trace, `states
    {
      IsHistory(cfg, trace, states) && machine == states[|trace|]
    }

    /** The stores are those of a protocol state. */
    ghost predicate Shows(s: State)
      reads this
    {
      && rows == s.rows && outbox == s.outbox && queue == s.queue && deadLetters == s.deadLetters
      && objects == s.objects && usage == s.usage && clock == s.clock
    }

    ghost predicate Valid()
      reads this
    {
      Traced() && Shows(machine)
    }

    /** Moreover, the protocol has actor `p` at `q`. */
    ghost predicate At(p: nat, q: Proc)
      reads this
    {
      Valid() && p < |machine.procs| && machine.procs[p] == q
    }

    constructor (cfg: Config)
      ensures Valid() && this.cfg == cfg && trace == []
    {
      this.cfg := cfg;
      rows, outbox, queue, deadLetters, objects, usage, clock := map[], map[], multiset{}, multiset{}, map[], map[], 0;
      machine, trace, states := Init(), [], [Init()];
    }

    method StoreRows(op: RowOp, jobs: JobOp)
      modifies `rows, `queue
      ensures rows == WriteRows(old(rows), op, clock) && queue == WriteJobs(old(queue), jobs)
    {
      rows, queue := WriteRows(rows, op, clock), WriteJobs(queue, jobs);
    }

    method StoreNote(note: Note)
      modifies `outbox, `deadLetters, `objects, `usage
      ensures outbox == WriteOutbox(old(outbox), note, clock)
      ensures deadLetters == if note.DeadLettered? then old(deadLetters) + multiset{note.id} else old(deadLetters)
      ensures objects == if note.Stored? then old(objects)[note.at := note.bytes] else old(objects)
      ensures usage == if note.Metered? then Quota.Record(old(usage), note.tenant, note.size) else old(usage)
    {
      outbox := WriteOutbox(outbox, note, clock);
      match note
      case DeadLettered(id) => deadLetters := deadLetters + multiset{id};
      case Stored(_, at, bytes, _) => objects := objects[at := bytes];
      case Metered(_, tenant, size) => usage := Quota.Record(usage, tenant, size);
      case _ =>
    }

    /** The write of one call, as the protocol commits it. */
    method Store(ghost s: State, ghost slot: Option<nat>, ghost proc: Proc, op: RowOp, jobs: JobOp, note: Note)
      requires Shows(s)
      modifies `rows, `queue, `outbox, `deadLetters, `objects, `usage, `clock
      ensures Shows(Commit(s, Change(slot, proc, op, jobs, note)))
    {
      StoreRows(op, jobs);
      assert rows == WriteRows(s.rows, op, s.clock) && queue == WriteJobs(s.queue, jobs);
      StoreNote(note);
      assert outbox == WriteOutbox(s.outbox, note, s.clock);
      clock := clock + 1;
    }

    /** The protocol takes the step it plans. */
    ghost method Follow(step: Step, c: Change)
      requires Traced() && Plan(cfg, machine, step) == Some(c)
      modifies `machine, `trace, `states
      ensures Traced() && machine == Commit(old(machine), c) && trace == old(trace) + [step]
    {
      HistoryGrows(cfg, trace, states, step, c);
      machine := Commit(machine, c);
      trace, states := trace + [step], states + [machine];
    }

    /** One call of a service: the stores change as the protocol's next step says. */
    method Call(ghost step: Step, ghost slot: Option<nat>, ghost proc: Proc, op: RowOp, jobs: JobOp, note: Note)
      requires Valid() && Plan(cfg, machine, step) == Some(Change(slot, proc, op, jobs, note))
      modifies this
      ensures Valid() && trace == old(trace) + [step]
      ensures rows == WriteRows(old(rows), op, old(clock)) && outbox == WriteOutbox(old(outbox), note, old(clock))
      ensures queue == WriteJobs(old(queue), jobs) && clock == old(clock) + 1
      ensures deadLetters == if note.DeadLettered? then old(deadLetters) + multiset{note.id} else old(deadLetters)
      ensures objects == if note.Stored? then old(objects)[note.at := note.bytes] else old(objects)
      ensures usage == if note.Metered? then Quota.Record(old(usage), note.tenant, note.size) else old(usage)
      ensures machine.procs == WriteProcs(old(machine.procs), slot, proc)
      ensures machine.log.lost == old(machine.log.lost) + if note.RelayLost? || note.ActorLost? then 1 else 0
    {
      CallNoted(step, slot, proc, op, jobs, note);
    }

    /** The same, with what the protocol's observers note. */
    method CallNoted(ghost step: Step, ghost slot: Option<nat>, ghost proc: Proc, op: RowOp, jobs: JobOp, note: Note)
      requires Valid() && Plan(cfg, machine, step) == Some(Change(slot, proc, op, jobs, note))
      modifies this
      ensures Valid() && trace == old(trace) + [step]
      ensures rows == WriteRows(old(rows), op, old(clock)) && outbox == WriteOutbox(old(outbox), note, old(clock))
      ensures queue == WriteJobs(old(queue), jobs) && clock == old(clock) + 1
      ensures deadLetters == if note.DeadLettered? then old(deadLetters) + multiset{note.id} else old(deadLetters)
      ensures objects == if note.Stored? then old(objects)[note.at := note.bytes] else old(objects)
      ensures usage == if note.Metered? then Quota.Record(old(usage), note.tenant, note.size) else old(usage)
      ensures machine.procs == WriteProcs(old(machine.procs), slot, proc)
      ensures machine.log == WriteLog(old(machine.log), note)
      ensures machine.log.lost == old(machine.log.lost) + if note.RelayLost? || note.ActorLost? then 1 else 0
    {
      Store(machine, slot, proc, op, jobs, note);
      Follow(step, Change(slot, proc, op, jobs, note));
    }

    /** Whatever services have done with the stores is a run of the protocol, so every theorem
        about runs holds of what they show. */
    lemma StoresShowARun()
      requires Valid()
      ensures var s := Run(cfg, Init(), trace);
              && machine == s && rows == s.rows && outbox == s.outbox && queue == s.queue
              && deadLetters == s.deadLetters && objects == s.objects && usage == s.usage && clock == s.clock
    {
      HistoryIsRun(cfg, trace, states);
    }
  }
}
