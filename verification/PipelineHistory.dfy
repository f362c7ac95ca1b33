/** Theorems over whole runs of the pipeline: everything here is about any
    interleaving of requests, redeliveries, lock and key expiry, lost
    acknowledgements, crashes and dead-lettering. */
module PipelineHistory {
  import opened OrderStateMachine
  import opened OrderStore
  import opened Pipeline
  import opened PipelineInvariant

  // ----- the tables, the queue and the runs only grow -----

  lemma StepGrows(s: Sys, st: Step)
    requires Inv(s) && Enabled(s, st)
    ensures var s' := Apply(s, st);
            Grows(s.db, s'.db) && RunsGrow(s.runs, s'.runs) && JobsGrow(s.jobs, s'.jobs) && s.clock <= s'.clock
  {
    hide RunInv, RecordInv, UniqueKeys, NextRun, RunCan, Grows, RunGrows, NextLocks, NextDlq, NextRequest, NextClaims;
    forall r | r in s.runs ensures RunGrows(s.runs[r], s.runs[r]) {
      SameRun(s.runs[r]);
    }
    if st.ByRun? {
      RunStepGrows(s, st.r, st.move);
      hide Inv, NextDb;
    } else if st.PatchStatus? && st.orderId in s.db {
      BareUpdateKeeps(s.db, st.orderId, s.db[st.orderId].row.(status := st.status));
    } else {
      GrowsRefl(s.db);
    }
  }

  lemma SameRun(run: Run)
    ensures RunGrows(run, run)
  {
  }

  lemma RunStepGrows(s: Sys, r: RunId, move: RunAct)
    requires Inv(s) && Enabled(s, ByRun(r, move))
    ensures var s' := Apply(s, ByRun(r, move)); Grows(s.db, s'.db) && RunGrows(s.runs[r], s'.runs[r])
  {
    hide RunInv, RecordInv, UniqueKeys, NextRun, RunCan, Grows, RunGrows;
    var run := s.runs[r];
    if move.InsertOrder? {
      InsertKeeps(s.db, run.payload, run.startedAt, Author(r, run));
      InsertedRun(s, r, move.ackLost);
    } else {
      RunMovesIn(s, r, move);
      QuietGrows(s.db, s.clock, r, run, move);
    }
  }

  lemma QuietGrows(db: Db, now: nat, r: RunId, run: Run, move: RunAct)
    requires RunCan(run, move) && !move.InsertOrder?
    ensures Grows(db, NextDb(db, now, r, run, move))
  {
  }

  lemma {:induction false} HistoryGrows(b: Behavior, i: nat, j: nat)
    requires IsBehavior(b) && i <= j < |b.states|
    ensures Grows(b.states[i].db, b.states[j].db)
    ensures RunsGrow(b.states[i].runs, b.states[j].runs)
    ensures b.states[i].clock <= b.states[j].clock
    decreases j - i
  {
    hide IsBehavior, Inv, Apply, Enabled, Init, Grows, RunsGrow, JobsGrow;
    FirstOf(b);
    if i == j {
      SameGrows(b.states[i]);
    } else {
      Reachable(b, j - 1);
      HistoryGrows(b, i, j - 1);
      StepOf(b, j - 1);
      StepGrows(b.states[j - 1], b.steps[j - 1]);
      GrowsTrans(b.states[i], b.states[j - 1], b.states[j]);
    }
  }

  lemma SameGrows(s: Sys)
    ensures Grows(s.db, s.db) && RunsGrow(s.runs, s.runs)
  {
  }

  lemma GrowsTrans(s: Sys, t: Sys, u: Sys)
    requires Grows(s.db, t.db) && Grows(t.db, u.db) && RunsGrow(s.runs, t.runs) && RunsGrow(t.runs, u.runs)
    ensures Grows(s.db, u.db) && RunsGrow(s.runs, u.runs)
  {
    forall id | id in s.db ensures id in u.db && RecordGrows(s.db[id], u.db[id]) {
      assert RecordGrows(s.db[id], t.db[id]) && RecordGrows(t.db[id], u.db[id]);
    }
    forall r | r in s.runs ensures r in u.runs && RunGrows(s.runs[r], u.runs[r]) {
      assert RunGrows(s.runs[r], t.runs[r]) && RunGrows(t.runs[r], u.runs[r]);
    }
  }

  lemma {:induction false} JobLasts(b: Behavior, i: nat, j: nat, id: OrderId)
    requires IsBehavior(b) && i <= j < |b.states| && id in b.states[i].jobs
    ensures id in b.states[j].jobs && b.states[j].jobs[id] == b.states[i].jobs[id]
    decreases j
  {
    hide IsBehavior, Inv, Apply, Enabled, Init, Grows, RunsGrow;
    FirstOf(b);
    if i < j {
      Reachable(b, j - 1);
      JobLasts(b, i, j - 1, id);
      StepOf(b, j - 1);
      StepGrows(b.states[j - 1], b.steps[j - 1]);
    }
  }

  // ----- duplicate protection -----

  /** Two runs for one key cannot both have inserted. */
  lemma OneInserter(s: Sys, r1: RunId, r2: RunId)
    requires Inv(s) && r1 in s.runs && r2 in s.runs
    requires s.runs[r1].inserted && s.runs[r2].inserted && s.runs[r1].payload.key == s.runs[r2].payload.key
    ensures r1 == r2
  {
    hide RecordInv, FlagsFit, ReadFits;
    assert RunInv(s.clock, s.jobs, s.db, r1, s.runs[r1]);
    assert RunInv(s.clock, s.jobs, s.db, r2, s.runs[r2]);
  }

  /** Step i of the behavior belongs to the POS phase of a run for this key. */
  ghost predicate PosStep(b: Behavior, i: nat, key: Key)
    requires IsBehavior(b)
  {
    i < |b.steps| && b.steps[i].ByRun? && (b.steps[i].move.EnterPos? || b.steps[i].move.CallPos?) &&
    Enabled(b.states[i], b.steps[i]) && b.states[i].runs[b.steps[i].r].payload.key == key
  }

  lemma PosStepInserted(s: Sys, st: Step)
    requires Inv(s) && Enabled(s, st) && st.ByRun? && (st.move.EnterPos? || st.move.CallPos?)
    ensures s.runs[st.r].inserted
    ensures st.move.EnterPos? ==> !s.runs[st.r].posStarted && Apply(s, st).runs[st.r].posStarted
  {
    hide RecordInv, ReadFits;
    assert RunInv(s.clock, s.jobs, s.db, st.r, s.runs[st.r]);
  }

  /** At most one POS phase per idempotency key in the whole history: all POS steps
      for a key belong to one run, and that run enters the phase once. It needs no
      lock, no unexpired claim, and no assumption on PATCH. */
  lemma {:induction false} AtMostOnePosPhase(b: Behavior, i: nat, j: nat, key: Key)
    requires IsBehavior(b) && PosStep(b, i, key) && PosStep(b, j, key) && i <= j
    ensures b.steps[i].r == b.steps[j].r
    ensures b.steps[i].move.EnterPos? && b.steps[j].move.EnterPos? ==> i == j
  {
    hide Inv;
    var ri, rj := b.steps[i].r, b.steps[j].r;
    Reachable(b, i);
    Reachable(b, j);
    PosStepInserted(b.states[i], b.steps[i]);
    PosStepInserted(b.states[j], b.steps[j]);
    HistoryGrows(b, i, j);
    assert RunGrows(b.states[i].runs[ri], b.states[j].runs[ri]);
    OneInserter(b.states[j], ri, rj);
    if i < j && b.steps[i].move.EnterPos? {
      assert b.states[i + 1] == Apply(b.states[i], b.steps[i]);
      HistoryGrows(b, i + 1, j);
      assert RunGrows(b.states[i + 1].runs[ri], b.states[j].runs[ri]);
    }
  }

  // ----- no SENT_TO_POS without the POS -----

  /** Step i is an accepted POS call for this key. */
  ghost predicate AcceptedFor(b: Behavior, i: nat, key: Key)
    requires IsBehavior(b)
  {
    PosStep(b, i, key) && b.steps[i].move.CallPos? && b.steps[i].move.accepted
  }

  lemma AcceptedOnce(s: Sys, st: Step)
    requires Inv(s) && Enabled(s, st) && st.ByRun? && st.move.CallPos?
    ensures !s.runs[st.r].posAccepted
    ensures st.move.accepted ==> st.r in Apply(s, st).runs && Apply(s, st).runs[st.r].posAccepted
  {
    hide RecordInv, ReadFits;
    assert RunInv(s.clock, s.jobs, s.db, st.r, s.runs[st.r]);
  }

  /** At most one POS call per idempotency key ever returns successfully. */
  lemma {:induction false} AtMostOneAcceptance(b: Behavior, i: nat, j: nat, key: Key)
    requires IsBehavior(b) && AcceptedFor(b, i, key) && AcceptedFor(b, j, key) && i <= j
    ensures i == j
  {
    hide IsBehavior, PosStep, AcceptedFor, Inv, Apply, Enabled;
    AcceptedIsPosStep(b, i, key);
    AcceptedIsPosStep(b, j, key);
    AtMostOnePosPhase(b, i, j, key);
    AcceptedStep(b, i, key);
    AcceptedStep(b, j, key);
    Reachable(b, i);
    Reachable(b, j);
    AcceptedOnce(b.states[i], b.steps[i]);
    AcceptedOnce(b.states[j], b.steps[j]);
    if i < j {
      AcceptedStays(b, i + 1, j, b.steps[i].r);
    }
  }

  lemma AcceptedIsPosStep(b: Behavior, i: nat, key: Key)
    requires IsBehavior(b) && AcceptedFor(b, i, key)
    ensures PosStep(b, i, key)
  {
  }

  lemma AcceptedStep(b: Behavior, i: nat, key: Key)
    requires IsBehavior(b) && AcceptedFor(b, i, key)
    ensures i < |b.steps| && |b.states| == |b.steps| + 1
    ensures b.steps[i].ByRun? && b.steps[i].move.CallPos? && b.steps[i].move.accepted
    ensures Enabled(b.states[i], b.steps[i]) && b.states[i + 1] == Apply(b.states[i], b.steps[i])
  {
  }

  lemma AcceptedStays(b: Behavior, i: nat, j: nat, r: RunId)
    requires IsBehavior(b) && i <= j < |b.states| && r in b.states[i].runs && b.states[i].runs[r].posAccepted
    ensures r in b.states[j].runs && b.states[j].runs[r].posAccepted
  {
    hide IsBehavior, Grows;
    HistoryGrows(b, i, j);
    assert RunGrows(b.states[i].runs[r], b.states[j].runs[r]);
  }

  ghost predicate AcceptedBy(b: Behavior, i: nat, r: RunId) {
    i < |b.steps| && b.steps[i].ByRun? && b.steps[i].r == r && b.steps[i].move.CallPos? && b.steps[i].move.accepted
  }

  lemma {:induction false} AcceptanceHappened(b: Behavior, n: nat, r: RunId)
    requires IsBehavior(b) && n < |b.states| && r in b.states[n].runs && b.states[n].runs[r].posAccepted
    ensures exists i :: 0 <= i < n && AcceptedBy(b, i, r)
  {
    if n > 0 {
      var s, st := b.states[n - 1], b.steps[n - 1];
      assert Enabled(s, st) && b.states[n] == Apply(s, st);
      if AcceptedBy(b, n - 1, r) {
      } else {
        assert r in s.runs && s.runs[r].posAccepted by {
          FlagStays(s, st, r);
        }
        AcceptanceHappened(b, n - 1, r);
      }
    }
  }

  lemma FlagStays(s: Sys, st: Step, r: RunId)
    requires Enabled(s, st) && r in Apply(s, st).runs && Apply(s, st).runs[r].posAccepted
    requires !(st.ByRun? && st.r == r && st.move.CallPos? && st.move.accepted)
    ensures r in s.runs && s.runs[r].posAccepted
  {
    hide InsertOutcomeOf, ChangeOutcomeOf, NextDb, NextLocks, NextClaims, NextJobs, NextRequest;
  }

  /** Every SAVED, SENT_TO_POS and COMPLETED row of the audit log was written by the run
      that inserted the order, and the last two after sendOrder was accepted in that
      very run. */
  lemma SentOnlyAfterAcceptance(b: Behavior, n: nat, id: OrderId, k: nat)
    requires IsBehavior(b) && n < |b.states| && id in b.states[n].db && k < |b.states[n].db[id].audit|
    requires b.states[n].db[id].audit[k].to in {Saved, SentToPos, Completed}
    ensures var audit := b.states[n].db[id].audit;
            audit[k].author == audit[0].author &&
            (audit[k].to != Saved ==> exists i :: 0 <= i < n && AcceptedBy(b, i, audit[0].author.run))
  {
    hide RunInv, LogMatches, CreatedFrom, Ordered, Apply, Enabled;
    Reachable(b, n);
    var audit := b.states[n].db[id].audit;
    assert RecordInv(b.states[n].clock, b.states[n].jobs, b.states[n].runs, id, b.states[n].db[id]);
    if audit[k].to != Saved {
      AcceptanceHappened(b, n, audit[0].author.run);
    }
  }

  // ----- optimistic locking -----

  /** Step i is a transitionStatus call for this order and version. */
  ghost predicate Attempt(b: Behavior, i: nat, id: OrderId, version: nat)
    requires IsBehavior(b)
  {
    i < |b.steps| && b.steps[i].ByRun? && b.steps[i].move.ChangeStatus? && Enabled(b.states[i], b.steps[i]) &&
    b.states[i].runs[b.steps[i].r].payload.orderId == id && b.states[i].runs[b.steps[i].r].version == version
  }

  ghost function AttemptOutcome(b: Behavior, i: nat, id: OrderId, version: nat): ChangeOutcome
    requires IsBehavior(b) && Attempt(b, i, id, version)
  {
    var run := b.states[i].runs[b.steps[i].r];
    ChangeOutcomeOf(b.states[i].db, ChangeOf(run, run.pc.stage))
  }

  lemma AttemptEffect(s: Sys, st: Step)
    requires Enabled(s, st) && st.ByRun? && st.move.ChangeStatus?
    ensures var run := s.runs[st.r]; var id := run.payload.orderId;
            if ChangeOutcomeOf(s.db, ChangeOf(run, run.pc.stage)) == Committed
            then id in s.db && s.db[id].row.version == run.version &&
                 id in Apply(s, st).db && Apply(s, st).db[id].row.version == run.version + 1
            else Apply(s, st).db == s.db
  {
  }

  lemma VersionGrows(s: Sys, s': Sys, id: OrderId)
    requires Inv(s) && Inv(s') && Grows(s.db, s'.db) && id in s.db
    ensures id in s'.db && s.db[id].row.version <= s'.db[id].row.version
  {
    hide RunInv, EdgesAllowed, StampsOf, AuthorsFit, CreatedFrom, Ordered, UniqueKeys;
    assert RecordInv(s.clock, s.jobs, s.runs, id, s.db[id]);
    assert RecordInv(s'.clock, s'.jobs, s'.runs, id, s'.db[id]);
    assert RecordGrows(s.db[id], s'.db[id]);
  }

  /** Among all transitionStatus calls ever made with one order and one version, at
      most one commits; every other one leaves all tables as they were. */
  lemma OneWinnerPerVersion(b: Behavior, i: nat, j: nat, id: OrderId, version: nat)
    requires IsBehavior(b) && Attempt(b, i, id, version) && Attempt(b, j, id, version) && i < j
    ensures AttemptOutcome(b, i, id, version) != Committed || AttemptOutcome(b, j, id, version) != Committed
    ensures AttemptOutcome(b, i, id, version) != Committed ==> b.states[i + 1].db == b.states[i].db
    ensures AttemptOutcome(b, j, id, version) != Committed ==> b.states[j + 1].db == b.states[j].db
  {
    hide Inv, Apply, Enabled;
    AttemptEffect(b.states[i], b.steps[i]);
    AttemptEffect(b.states[j], b.steps[j]);
    assert b.states[i + 1] == Apply(b.states[i], b.steps[i]) && b.states[j + 1] == Apply(b.states[j], b.steps[j]);
    if AttemptOutcome(b, i, id, version) == Committed && AttemptOutcome(b, j, id, version) == Committed {
      Reachable(b, i + 1);
      Reachable(b, j);
      HistoryGrows(b, i + 1, j);
      VersionGrows(b.states[i + 1], b.states[j], id);
    }
  }

  // ----- the audit log -----

  /** PATCH requests or not: the log counts the version, uses only table edges, is in
      time order, and tells every timestamp column; the row's amounts and items are
      the job's. */
  lemma AuditAccounts(b: Behavior, n: nat, id: OrderId)
    requires IsBehavior(b) && n < |b.states| && id in b.states[n].db
    ensures var s := b.states[n]; var rec := s.db[id];
            && LogMatches(rec) && Ordered(rec.audit) && rec.audit[|rec.audit| - 1].at <= s.clock
            && id in s.jobs && CreatedFrom(rec, s.jobs[id])
            && forall column :: column in rec.row.stamps <==>
                 exists i :: 0 <= i < |rec.audit| && TimestampColumn(rec.audit[i].to) == Some(column)
  {
    hide Apply, Enabled;
    Reachable(b, n);
    var s := b.states[n];
    assert RecordInv(s.clock, s.jobs, s.runs, id, s.db[id]);
    forall column ensures column in StampsOf(s.db[id].audit) <==>
      exists i :: 0 <= i < |s.db[id].audit| && TimestampColumn(s.db[id].audit[i].to) == Some(column)
    {
      StampSetIff(s.db[id].audit, column);
    }
  }
}
