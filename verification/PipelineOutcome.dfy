/** Why a transition of a worker can be stale: without PATCH there is one reason. */
module PipelineOutcome {
  import opened OrderStateMachine
  import opened DistributedLock
  import opened OrderStore
  import opened Pipeline
  import opened PipelineInvariant
  import opened PipelineHistory
  import opened PipelineProgress
  import opened PipelineDeadLetter

  /** How long the log of a run's order is at this place, at least. */
  function Depth(pc: Pc): nat {
    match pc
    case PosReady => 2
    case PosCalling => 2
    case Find(ToSent) => 2
    case Begin(ToSent) => 2
    case Commit(ToSent) => 2
    case Find(ToCompleted) => 3
    case Begin(ToCompleted) => 3
    case Commit(ToCompleted) => 3
    case _ => 0
  }

  /** The log is that long, and was when the run read it. */
  ghost predicate Deep(db: Db, run: Run) {
    Depth(run.pc) > 0 ==>
      run.payload.orderId in db && Depth(run.pc) <= |db[run.payload.orderId].audit| &&
      (run.pc.Begin? || run.pc.Commit? ==> Depth(run.pc) <= run.version + 1)
  }

  lemma DeepStays(db: Db, db': Db, run: Run)
    requires Deep(db, run) && Grows(db, db')
    ensures Deep(db', run)
  {
    hide Depth;
    if run.payload.orderId in db {
      assert RecordGrows(db[run.payload.orderId], db'[run.payload.orderId]);
    }
  }

  /** Where a worker comes from, transitions aside. */
  lemma WorkerMoves(locks: Locks, db: Db, now: nat, run: Run, move: RunAct)
    requires RunCan(run, move) && !move.ChangeStatus?
    ensures var run', id := NextRun(locks, db, now, run, move), run.payload.orderId;
            && run'.payload == run.payload
            && (Depth(run'.pc) > 0 ==> Depth(run.pc) == Depth(run'.pc) && !move.InsertOrder?)
            && (Depth(run'.pc) > 0 && (run'.pc.Begin? || run'.pc.Commit?) ==>
                  (run'.version == run.version && (run.pc.Begin? || run.pc.Commit?)) ||
                  (id in db && run'.version == db[id].row.version))
  {
    hide InsertOutcomeOf;
  }

  lemma WorkerCommits(locks: Locks, db: Db, now: nat, run: Run, ackLost: bool)
    requires RunCan(run, ChangeStatus(ackLost))
    ensures var run' := NextRun(locks, db, now, run, ChangeStatus(ackLost));
            && run'.payload == run.payload
            && (Depth(run'.pc) > 0 ==>
                  ChangeOutcomeOf(db, ChangeOf(run, run.pc.stage)) == Committed && !run'.pc.Begin? && !run'.pc.Commit? &&
                  if run.pc == Commit(ToSaved) then Depth(run'.pc) == 2 else Depth(run'.pc) == 3 && Depth(run.pc) == 2)
  {
    hide ChangeOutcomeOf, ChangeOf;
  }

  lemma OwnDeep(s: Sys, r: RunId, move: RunAct)
    requires Inv(s) && Enabled(s, ByRun(r, move)) && r in s.runs && Deep(s.db, s.runs[r])
    ensures r in Apply(s, ByRun(r, move)).runs && Deep(Apply(s, ByRun(r, move)).db, Apply(s, ByRun(r, move)).runs[r])
  {
    hide Inv, Apply, Enabled, Depth, NextRun, RunCan, Grows, ChangeOf, ChangeOutcomeOf, LogMatches;
    OwnMove(s, r, move);
    StepGrows(s, ByRun(r, move));
    var s' := Apply(s, ByRun(r, move));
    var id := s.runs[r].payload.orderId;
    RecordLog(s, id);
    if id in s.db {
      LastIndex(s.db[id]);
      AuditGrows(s.db, s'.db, id);
    }
    if move.ChangeStatus? {
      WorkerCommits(s.locks, s.db, s.clock, s.runs[r], move.ackLost);
      if Depth(s'.runs[r].pc) > 0 {
        CommitAppends(s, r, move.ackLost);
      }
    } else {
      WorkerMoves(s.locks, s.db, s.clock, s.runs[r], move);
    }
  }

  lemma AuditGrows(db: Db, db': Db, id: OrderId)
    requires Grows(db, db') && id in db
    ensures id in db' && |db[id].audit| <= |db'[id].audit|
  {
    assert RecordGrows(db[id], db'[id]);
  }

  lemma CommitAppends(s: Sys, r: RunId, ackLost: bool)
    requires Enabled(s, ByRun(r, ChangeStatus(ackLost)))
    requires ChangeOutcomeOf(s.db, ChangeOf(s.runs[r], s.runs[r].pc.stage)) == Committed
    ensures var id := s.runs[r].payload.orderId; var db' := Apply(s, ByRun(r, ChangeStatus(ackLost))).db;
            id in s.db && id in db' && |db'[id].audit| == |s.db[id].audit| + 1 && s.db[id].row.version == s.runs[r].version
  {
  }

  lemma {:induction false} AlwaysDeep(b: Behavior, n: nat, r: RunId)
    requires IsBehavior(b) && n < |b.states| && r in b.states[n].runs
    ensures Deep(b.states[n].db, b.states[n].runs[r])
  {
    hide IsBehavior, Apply, Enabled, Init, Inv, Deep, Grows;
    StartsEmpty(b);
    StepOf(b, n - 1);
    Reachable(b, n - 1);
    var s, st := b.states[n - 1], b.steps[n - 1];
    if st.ByRun? && st.r == r {
      OwnMove(s, r, st.move);
      AlwaysDeep(b, n - 1, r);
      OwnDeep(s, r, st.move);
    } else {
      ForeignTrace(s, st, r);
      if r in s.runs {
        AlwaysDeep(b, n - 1, r);
        StepGrows(s, st);
        DeepStays(s.db, b.states[n].db, s.runs[r]);
      } else {
        NewIsDeep(b.states[n].db, b.states[n].runs[r]);
      }
    }
  }

  lemma StartsEmpty(b: Behavior)
    requires IsBehavior(b)
    ensures b.states != [] && b.states[0].runs == map[]
  {
  }

  lemma NewIsDeep(db: Db, run: Run)
    requires run.pc in {Lock, CountRetry, Find(ToFailed)}
    ensures Deep(db, run)
  {
  }

  /** Without PATCH a worker's transition is stale only if a failure report has written FAILED. */
  lemma StaleMeansFailed(b: Behavior, n: nat, r: RunId, stage: Stage)
    requires IsBehavior(b) && WithoutPatch(b) && n < |b.states| && r in b.states[n].runs
    requires b.states[n].runs[r].pc == Commit(stage) && stage != ToFailed
    requires ChangeOutcomeOf(b.states[n].db, ChangeOf(b.states[n].runs[r], stage)) == Stale
    ensures var id := b.states[n].runs[r].payload.orderId; var db := b.states[n].db;
            id in db && db[id].audit != [] && End(db[id].audit) == Failed
  {
    hide IsBehavior, WithoutPatch, HarmlessPatches, Inv, InOrder;
    PosPatchesAreHarmless(b);
    Reachable(b, n);
    AlwaysInOrder(b, n);
    AlwaysDetermined(b, n);
    AlwaysDeep(b, n, r);
    StaleState(b.states[n], r, stage);
  }

  lemma StaleState(s: Sys, r: RunId, stage: Stage)
    requires Inv(s) && InOrder(s) && AllDetermined(s.db) && r in s.runs && Deep(s.db, s.runs[r])
    requires s.runs[r].pc == Commit(stage) && stage != ToFailed && ChangeOutcomeOf(s.db, ChangeOf(s.runs[r], stage)) == Stale
    ensures var id := s.runs[r].payload.orderId; id in s.db && s.db[id].audit != [] && End(s.db[id].audit) == Failed
  {
    hide LogsChained, RecordInv, UniqueKeys, StampsOf, EdgesAllowed, Progress;
    var run := s.runs[r];
    var id := run.payload.orderId;
    assert RunFits(s.db, run) && RunInv(s.clock, s.jobs, s.db, r, run);
    var audit := s.db[id].audit;
    assert LogDetermines(s.db[id]);
    LinkedProgress(audit);
    LogRank(audit, |audit| - 1);
  }

  /** FAILED stays the end of its log. */
  lemma FailedStays(b: Behavior, n: nat, m: nat, id: OrderId)
    requires IsBehavior(b) && WithoutPatch(b) && n <= m < |b.states| && id in b.states[n].db
    requires b.states[n].db[id].audit != [] && End(b.states[n].db[id].audit) == Failed
    ensures id in b.states[m].db && b.states[m].db[id].audit == b.states[n].db[id].audit
  {
    hide IsBehavior, WithoutPatch, HarmlessPatches;
    PosPatchesAreHarmless(b);
    HistoryGrows(b, n, m);
    assert RecordGrows(b.states[n].db[id], b.states[m].db[id]);
    TerminalExclusion(b, n, m, id, |b.states[n].db[id].audit| - 1, 0);
  }

  lemma SameJob(b: Behavior, n: nat, m: nat, r: RunId)
    requires IsBehavior(b) && n <= m < |b.states| && r in b.states[n].runs
    ensures r in b.states[m].runs && b.states[m].runs[r].payload == b.states[n].runs[r].payload
  {
    hide IsBehavior, Grows;
    HistoryGrows(b, n, m);
    assert RunGrows(b.states[n].runs[r], b.states[m].runs[r]);
  }
}
