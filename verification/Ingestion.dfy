/** Idempotent ingestion over whole runs. */
module Ingestion {
  import opened Transfers
  import opened Protocol

  ghost predicate UniqueKeys(t: Table)
  {
    forall i, j :: i in t && j in t && t[i].input.key == t[j].input.key ==> i == j
  }

  /** Every ACCEPTED answer for a key is a row that is present or was purged. */
  ghost predicate Accounted(s: State, key: string)
  {
    s.log.accepted[key] == s.log.purged[key] + if HasKey(s.rows, key) then 1 else 0
  }

  ghost predicate Inv(s: State)
  {
    UniqueKeys(s.rows) && forall key :: Accounted(s, key)
  }

  /** Keys enter by an accept of a key that has no row and leave by a purge. */
  ghost predicate KeysMove(s: State, c: Change)
  {
    && (c.rows.Insert? <==> c.note.Announced?)
    && (c.rows.Insert? ==>
          && c.note.key == c.rows.input.key && c.note.id == c.rows.id
          && !HasKey(s.rows, c.note.key) && c.rows.id !in s.rows)
    && (c.rows.Delete? <==> c.note.Purged?)
    && (c.rows.Delete? ==> c.note.keys == PurgedKeys(s.rows, c.rows.cutoff))
  }

  lemma PlansMoveKeys(cfg: Config, s: State, step: Step)
    requires Issued(s)
    ensures var c := Plan(cfg, s, step); c.Some? ==> KeysMove(s, c.value)
  {
  }

  /** Other writes keep every row and its key. */
  lemma KeysStay(t: Table, op: RowOp, now: nat)
    requires !op.Insert? && !op.Delete?
    ensures WriteRows(t, op, now).Keys == t.Keys
    ensures forall id :: id in t ==> WriteRows(t, op, now)[id].input == t[id].input
  {
  }

  lemma SameKeys(t: Table, t': Table, key: string)
    requires t'.Keys == t.Keys && forall id :: id in t ==> t'[id].input == t[id].input
    ensures HasKey(t', key) <==> HasKey(t, key)
  {
    if HasKey(t, key) { var id :| id in t && t[id].input.key == key; assert id in t'; }
    if HasKey(t', key) { var id :| id in t' && t'[id].input.key == key; assert id in t; }
  }

  /** A purge takes a key away exactly when it is among the purged ones. */
  lemma PurgeRemovesKeys(t: Table, cutoff: nat, key: string)
    requires UniqueKeys(t)
    ensures UniqueKeys(Purge(t, cutoff))
    ensures HasKey(t, key) ==> (HasKey(Purge(t, cutoff), key) <==> key !in PurgedKeys(t, cutoff))
    ensures !HasKey(t, key) ==> !HasKey(Purge(t, cutoff), key) && key !in PurgedKeys(t, cutoff)
  {
    if HasKey(t, key) {
      var id :| id in t && t[id].input.key == key;
      if !Purgeable(t[id], cutoff) { assert id in Purge(t, cutoff); }
    }
  }

  lemma AccountsStay(s: State, c: Change, key: string)
    requires Inv(s) && KeysMove(s, c)
    ensures Accounted(Commit(s, c), key)
  {
    var s' := Commit(s, c);
    assert Accounted(s, key);
    if c.rows.Insert? {
      if key == c.note.key { assert s'.rows[c.rows.id].input.key == key; }
      else if HasKey(s.rows, key) {
        var id :| id in s.rows && s.rows[id].input.key == key;
        assert s'.rows[id] == s.rows[id];
      }
    } else if c.rows.Delete? {
      PurgeRemovesKeys(s.rows, c.rows.cutoff, key);
    } else {
      KeysStay(s.rows, c.rows, s.clock);
      SameKeys(s.rows, s'.rows, key);
    }
  }

  lemma UniqueStays(s: State, c: Change)
    requires Inv(s) && KeysMove(s, c)
    ensures UniqueKeys(Commit(s, c).rows)
  {
    if c.rows.Delete? { PurgeRemovesKeys(s.rows, c.rows.cutoff, ""); }
    else if !c.rows.Insert? { KeysStay(s.rows, c.rows, s.clock); }
  }

  lemma CommitKeepsInv(s: State, c: Change)
    requires Inv(s) && Issued(s) && KeysMove(s, c)
    ensures Inv(Commit(s, c)) && Issued(Commit(s, c))
  {
    forall key ensures Accounted(Commit(s, c), key) { AccountsStay(s, c, key); }
    UniqueStays(s, c);
    if !c.rows.Insert? && !c.rows.Delete? { KeysStay(s.rows, c.rows, s.clock); }
  }

  lemma {:induction false} RunKeepsInv(cfg: Config, s: State, steps: seq<Step>)
    requires Inv(s) && Issued(s)
    ensures Inv(Run(cfg, s, steps)) && Issued(Run(cfg, s, steps))
  {
    if steps != [] {
      var init, step := steps[..|steps| - 1], steps[|steps| - 1];
      RunKeepsInv(cfg, s, init);
      var mid := Run(cfg, s, init);
      var c := Plan(cfg, mid, step);
      if c.Some? {
        PlansMoveKeys(cfg, mid, step);
        CommitKeepsInv(mid, c.value);
      }
    }
  }

  /** Over any sequence of deliveries, purges and everything else: a key has at most one
      row, the ACCEPTED answers for it are its rows present plus purged, and a delivery
      whose key has a row (answered DUPLICATE) changes nothing. */
  lemma {:induction false} IngestionIsIdempotent(cfg: Config, steps: seq<Step>, input: Input, id: Id, event: EventId)
    ensures var s := Run(cfg, Init(), steps);
            && (forall i, j :: i in s.rows && j in s.rows && s.rows[i].input.key == s.rows[j].input.key ==> i == j)
            && s.log.accepted[input.key] == s.log.purged[input.key] + (if HasKey(s.rows, input.key) then 1 else 0)
            && (HasKey(s.rows, input.key) ==> Apply(cfg, s, Accept(input, id, event)) == s)
  {
    assert forall key :: !HasKey(Init().rows, key);
    RunKeepsInv(cfg, Init(), steps);
    assert Accounted(Run(cfg, Init(), steps), input.key);
  }
}
