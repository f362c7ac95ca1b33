/** The whole system, seen through orders and audit log, refines a small specification. */
module PipelineRefinement {
  import opened OrderStateMachine
  import opened OrderStore
  import opened Pipeline
  import opened PipelineInvariant
  import opened PipelineProgress

  /** The specification: each key has at most one history, which starts at QUEUED
      and is extended along allowed edges. */
  type Histories = map<Key, seq<Status>>

  ghost predicate SpecStep(h: Histories, h': Histories) {
    || h' == h
    || (exists key :: key !in h && h' == h[key := [Queued]])
    || (exists key, next :: key in h && h[key] != [] && Allowed(h[key][|h[key]| - 1], next) &&
          h' == h[key := h[key] + [next]])
  }

  ghost function StatusesOf(audit: seq<AuditRow>): seq<Status> {
    seq(|audit|, i requires 0 <= i < |audit| => audit[i].to)
  }

  ghost function Abstract(db: Db): Histories
    requires UniqueKeys(db)
  {
    map id | id in db :: db[id].row.key := StatusesOf(db[id].audit)
  }

  lemma AbstractEntry(db: Db, id: OrderId)
    requires UniqueKeys(db) && id in db
    ensures db[id].row.key in Abstract(db) && Abstract(db)[db[id].row.key] == StatusesOf(db[id].audit)
  {
  }

  lemma AbstractKey(db: Db, key: Key) returns (id: OrderId)
    requires UniqueKeys(db) && key in Abstract(db)
    ensures id in db && db[id].row.key == key
  {
    id :| id in db && db[id].row.key == key;
  }

  /** Writing one record changes the abstraction at its key only. */
  lemma AbstractWrite(db: Db, id: OrderId, rec: Record)
    requires UniqueKeys(db) && UniqueKeys(db[id := rec])
    requires id in db ==> rec.row.key == db[id].row.key
    ensures Abstract(db[id := rec]) == Abstract(db)[rec.row.key := StatusesOf(rec.audit)]
  {
    hide Abstract, StatusesOf, UniqueKeys;
    var db' := db[id := rec];
    var h, h' := Abstract(db), Abstract(db');
    AbstractEntry(db', id);
    forall key ensures key in h' <==> key in h || key == rec.row.key
      ensures key in h && key != rec.row.key ==> key in h' && h'[key] == h[key]
    {
      if key in h' {
        var x := AbstractKey(db', key);
        if x != id {
          AbstractEntry(db, x);
        }
      }
      if key in h {
        var x := AbstractKey(db, key);
        AbstractEntry(db, x);
        AbstractEntry(db', x);
      }
    }
  }

  lemma AbstractInsert(db: Db, p: Payload, now: nat, author: Actor)
    requires UniqueKeys(db) && UniqueKeys(Insert(db, p, now, author))
    ensures SpecStep(Abstract(db), Abstract(Insert(db, p, now, author)))
  {
    hide Abstract, UniqueKeys;
    if InsertOutcomeOf(db, p) == Inserted {
      var rec := NewRecord(p, now, author);
      AbstractWrite(db, p.orderId, rec);
      assert StatusesOf(rec.audit) == [Queued];
      if p.key in Abstract(db) {
        var id := AbstractKey(db, p.key);
        assert false;
      }
    }
  }

  lemma AbstractTransition(db: Db, c: Change, now: nat, author: Actor)
    requires UniqueKeys(db) && UniqueKeys(Transition(db, c, now, author))
    requires ChangeOutcomeOf(db, c) == Committed ==>
               db[c.orderId].audit != [] && Allowed(End(db[c.orderId].audit), c.next)
    ensures SpecStep(Abstract(db), Abstract(Transition(db, c, now, author)))
  {
    hide Abstract, UniqueKeys;
    if ChangeOutcomeOf(db, c) == Committed {
      var rec, rec' := db[c.orderId], Transition(db, c, now, author)[c.orderId];
      AbstractEntry(db, c.orderId);
      AbstractWrite(db, c.orderId, rec');
      var history := StatusesOf(rec.audit);
      assert StatusesOf(rec'.audit) == history + [c.next];
      assert history != [] && Allowed(history[|history| - 1], c.next);
      assert Transition(db, c, now, author) == db[c.orderId := rec'];
      Extended(Abstract(db), rec.row.key, c.next);
    }
  }

  lemma Extended(h: Histories, key: Key, next: Status)
    requires key in h && h[key] != [] && Allowed(h[key][|h[key]| - 1], next)
    ensures SpecStep(h, h[key := h[key] + [next]])
  {
  }

  lemma AbstractBare(db: Db, id: OrderId, row: OrderRow)
    requires id in db && UniqueKeys(db) && UniqueKeys(WithRow(db, id, row)) && row.key == db[id].row.key
    ensures Abstract(WithRow(db, id, row)) == Abstract(db)
  {
    hide Abstract, UniqueKeys;
    AbstractEntry(db, id);
    AbstractWrite(db, id, db[id].(row := row));
  }

  lemma StepRefines(s: Sys, st: Step)
    requires Inv(s) && Enabled(s, st) && InOrder(s) && Inv(Apply(s, st))
    ensures SpecStep(Abstract(s.db), Abstract(Apply(s, st).db))
  {
    hide RunInv, RecordInv, NextRun, Abstract, InOrder, Chained, SpecStep, UniqueKeys;
    if st.ByRun? && st.move.InsertOrder? {
      AbstractInsert(s.db, s.runs[st.r].payload, s.runs[st.r].startedAt, Author(st.r, s.runs[st.r]));
    } else if st.ByRun? && st.move.ChangeStatus? {
      var run := s.runs[st.r];
      if ChangeOutcomeOf(s.db, ChangeOf(run, run.pc.stage)) == Committed {
        CommitFollows(s, st.r);
      }
      AbstractTransition(s.db, ChangeOf(run, run.pc.stage), run.startedAt, Author(st.r, run));
    } else {
      var id := if st.PatchStatus? then st.orderId else if st.ByRun? then s.runs[st.r].payload.orderId else 0;
      if id in s.db && Apply(s, st).db != s.db {
        AbstractBare(s.db, id, Apply(s, st).db[id].row);
      }
      Stutter(Abstract(s.db));
    }
  }

  lemma Stutter(h: Histories)
    ensures SpecStep(h, h)
  {
  }

  lemma StepAbstracts(b: Behavior, n: nat)
    requires IsBehavior(b) && HarmlessPatches(b) && n < |b.steps|
    ensures UniqueKeys(b.states[n].db) && UniqueKeys(b.states[n + 1].db)
    ensures SpecStep(Abstract(b.states[n].db), Abstract(b.states[n + 1].db))
  {
    FirstOf(b);
    hide IsBehavior, HarmlessPatches, HarmlessPatch, Inv, Apply, Enabled, SpecStep, InOrder, Init, UniqueKeys, Abstract;
    Reachable(b, n);
    Reachable(b, n + 1);
    UniqueIn(b.states[n]);
    UniqueIn(b.states[n + 1]);
    AlwaysInOrder(b, n);
    StepOf(b, n);
    StepRefines(b.states[n], b.steps[n]);
  }

  ghost predicate IsSpecRun(hs: seq<Histories>) {
    |hs| > 0 && hs[0] == map[] && forall i :: 0 < i < |hs| ==> SpecStep(hs[i - 1], hs[i])
  }

  lemma KeysAlwaysUnique(b: Behavior, n: nat)
    requires IsBehavior(b) && n < |b.states|
    ensures UniqueKeys(b.states[n].db)
  {
    hide IsBehavior, RunInv, RecordInv, UniqueKeys;
    Reachable(b, n);
  }

  /** Every run of the full system, seen through orders and audit log, is a run of
      the specification. */
  lemma RefinesSpec(b: Behavior) returns (hs: seq<Histories>)
    requires IsBehavior(b) && HarmlessPatches(b)
    ensures |hs| == |b.states| && IsSpecRun(hs)
    ensures forall i :: 0 <= i < |hs| ==> UniqueKeys(b.states[i].db) && hs[i] == Abstract(b.states[i].db)
  {
    FirstOf(b);
    hide IsBehavior, HarmlessPatches, HarmlessPatch, Abstract, UniqueKeys, SpecStep, Apply, Enabled, Init;
    forall i | 0 <= i < |b.states| ensures UniqueKeys(b.states[i].db) {
      KeysAlwaysUnique(b, i);
    }
    hs := seq(|b.states|, i requires 0 <= i < |b.states| => Abstract(b.states[i].db));
    NothingYet(b.states[0]);
    forall i | 0 < i < |hs| ensures SpecStep(hs[i - 1], hs[i]) {
      StepAbstracts(b, i - 1);
    }
  }

  lemma NothingYet(s: Sys)
    requires Init(s)
    ensures UniqueKeys(s.db) && Abstract(s.db) == map[]
  {
  }
}
