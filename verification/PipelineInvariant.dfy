/** What every step of the pipeline keeps, PATCH steps included. */
module PipelineInvariant {
  import opened OrderStateMachine
  import opened OrderStore
  import opened OrderQueue
  import opened DistributedLock
  import opened Pipeline

  ghost predicate JobsKeyed(jobs: Jobs) {
    forall id :: id in jobs ==> jobs[id].orderId == id
  }

  /** Past createOrder with a committed row. */
  predicate PastCreate(pc: Pc) {
    match pc
    case Find(stage) => stage != ToFailed
    case Begin(stage) => stage != ToFailed
    case Commit(stage) => stage != ToFailed
    case PosReady | PosCalling => true
    case _ => false
  }

  predicate BeforePos(pc: Pc) {
    pc == Lock || pc == BeginCreate || pc == CommitCreate || pc == PosReady ||
    pc == Find(ToSaved) || pc == Begin(ToSaved) || pc == Commit(ToSaved)
  }

  predicate AfterPos(pc: Pc) {
    pc == Find(ToSent) || pc == Begin(ToSent) || pc == Commit(ToSent) ||
    pc == Find(ToCompleted) || pc == Begin(ToCompleted) || pc == Commit(ToCompleted)
  }

  /** The flags a run carries fit the place it has reached. */
  predicate FlagsFit(run: Run) {
    && (PastCreate(run.pc) ==> run.inserted)
    && (run.pc == CommitCreate || run.pc == BeginCreate || run.pc == Lock ==> !run.inserted)
    && (BeforePos(run.pc) ==> !run.posStarted)
    && (run.pc == PosCalling ==> run.posStarted && !run.posAccepted)
    && (AfterPos(run.pc) ==> run.posAccepted)
    && (run.posStarted ==> run.inserted)
    && (run.posAccepted ==> run.posStarted)
  }

  /** The run's last read of the row: once the row has that version again, nothing
      was committed after the read. */
  ghost predicate ReadFits(clock: nat, db: Db, run: Run) {
    && (run.pc.Begin? || run.pc.Commit? ==>
          && run.payload.orderId in db
          && run.version + 1 <= |db[run.payload.orderId].audit|
          && run.readAt <= clock
          && (run.version + 1 == |db[run.payload.orderId].audit| ==>
                db[run.payload.orderId].audit[run.version].at <= run.readAt))
    && (run.pc.Commit? ==> run.readAt <= run.startedAt <= clock)
    && (run.pc == CommitCreate ==> run.startedAt <= clock)
  }

  ghost predicate RunInv(clock: nat, jobs: Jobs, db: Db, r: RunId, run: Run) {
    var id := run.payload.orderId;
    && id in jobs && jobs[id] == run.payload
    && FlagsFit(run)
    && ReadFits(clock, db, run)
    && (run.inserted ==> id in db && db[id].audit != [] && db[id].audit[0].author.run == r && db[id].row.key == run.payload.key)
  }

  ghost predicate CreatedFrom(rec: Record, p: Payload) {
    && rec.row.key == p.key && rec.row.storeId == p.storeId
    && rec.row.requested == ToNumeric(p.requested) && rec.row.calculated == p.calculated
    && rec.items == p.items && PayloadFits(p)
  }

  /** The worker's own transitions come from the run that inserted the order, those
      after the POS call only if the call was accepted. */
  ghost predicate AuthorsFit(audit: seq<AuditRow>, runs: map<RunId, Run>) {
    && audit != []
    && audit[0].author.run in runs
    && runs[audit[0].author.run].inserted
    && (forall i :: 0 <= i < |audit| && audit[i].to in {Saved, SentToPos, Completed} ==> audit[i].author == audit[0].author)
    && (forall i :: 0 <= i < |audit| && audit[i].to in {SentToPos, Completed} ==> runs[audit[0].author.run].posAccepted)
  }

  ghost predicate RecordInv(clock: nat, jobs: Jobs, runs: map<RunId, Run>, id: OrderId, rec: Record) {
    && LogMatches(rec)
    && Ordered(rec.audit) && rec.audit[|rec.audit| - 1].at <= clock
    && id in jobs && CreatedFrom(rec, jobs[id])
    && AuthorsFit(rec.audit, runs)
    && rec.audit[0].author == Author(rec.audit[0].author.run, runs[rec.audit[0].author.run])
    && runs[rec.audit[0].author.run].payload == jobs[id]
  }

  ghost predicate Inv(s: Sys) {
    && JobsKeyed(s.jobs)
    && UniqueKeys(s.db)
    && (forall r :: r in s.runs ==> RunInv(s.clock, s.jobs, s.db, r, s.runs[r]))
    && (forall id :: id in s.db ==> RecordInv(s.clock, s.jobs, s.runs, id, s.db[id]))
  }

  /** Later states of the same runs. */
  predicate RunGrows(run: Run, run': Run) {
    && run'.payload == run.payload && run'.workerId == run.workerId
    && (run.inserted ==> run'.inserted)
    && (run.posStarted ==> run'.posStarted)
    && (run.posAccepted ==> run'.posAccepted)
  }

  ghost predicate JobsGrow(jobs: Jobs, jobs': Jobs) {
    forall id :: id in jobs ==> id in jobs' && jobs'[id] == jobs[id]
  }

  lemma RunStable(clock: nat, jobs: Jobs, db: Db, r: RunId, run: Run, clock': nat, jobs': Jobs, db': Db)
    requires RunInv(clock, jobs, db, r, run)
    requires clock <= clock' && JobsGrow(jobs, jobs') && Grows(db, db')
    ensures RunInv(clock', jobs', db', r, run)
  {
    var id := run.payload.orderId;
    if id in db {
      assert RecordGrows(db[id], db'[id]);
    }
  }

  ghost predicate RunsGrow(runs: map<RunId, Run>, runs': map<RunId, Run>) {
    forall r :: r in runs ==> r in runs' && RunGrows(runs[r], runs'[r])
  }

  lemma RecordStable(clock: nat, jobs: Jobs, runs: map<RunId, Run>, id: OrderId, rec: Record,
                     clock': nat, jobs': Jobs, runs': map<RunId, Run>)
    requires RecordInv(clock, jobs, runs, id, rec)
    requires clock <= clock' && JobsGrow(jobs, jobs') && RunsGrow(runs, runs')
    ensures RecordInv(clock', jobs', runs', id, rec)
  {
    var r := rec.audit[0].author.run;
    assert RunGrows(runs[r], runs'[r]);
  }

  /** Enough to know after a step: the records it wrote and the run it moved. */
  lemma Assemble(s: Sys, s': Sys, moved: set<RunId>, written: set<OrderId>)
    requires Inv(s)
    requires s.clock <= s'.clock && JobsGrow(s.jobs, s'.jobs) && JobsKeyed(s'.jobs)
    requires Grows(s.db, s'.db) && UniqueKeys(s'.db)
    requires RunsGrow(s.runs, s'.runs)
    requires forall r :: r in s'.runs && r !in moved ==> r in s.runs && s'.runs[r] == s.runs[r]
    requires forall r :: r in moved && r in s'.runs ==> RunInv(s'.clock, s'.jobs, s'.db, r, s'.runs[r])
    requires forall id :: id in s'.db && id !in written ==> id in s.db && s'.db[id] == s.db[id]
    requires forall id :: id in written && id in s'.db ==> RecordInv(s'.clock, s'.jobs, s'.runs, id, s'.db[id])
    ensures Inv(s')
  {
    forall r | r in s'.runs && r !in moved ensures RunInv(s'.clock, s'.jobs, s'.db, r, s'.runs[r]) {
      RunStable(s.clock, s.jobs, s.db, r, s.runs[r], s'.clock, s'.jobs, s'.db);
    }
    forall id | id in s'.db && id !in written ensures RecordInv(s'.clock, s'.jobs, s'.runs, id, s'.db[id]) {
      RecordStable(s.clock, s.jobs, s.runs, id, s.db[id], s'.clock, s'.jobs, s'.runs);
    }
  }

  lemma InitInv(s: Sys)
    requires Init(s)
    ensures Inv(s)
  {
  }

  /** Steps of the environment and of requests: no run moves, no log is written. */
  lemma OutsideKeeps(s: Sys, st: Step)
    requires Inv(s) && Enabled(s, st) && (st.Tick? || st.PatchStatus? || st.Receive? || st.ByRequest?)
    ensures Inv(Apply(s, st))
  {
    hide RunInv, RecordInv, UniqueKeys, Grows;
    var s' := Apply(s, st);
    GrowsRefl(s.db);
    if st.PatchStatus? && st.orderId in s.db {
      var id := st.orderId;
      var row := s.db[id].row.(status := st.status);
      BareUpdateKeeps(s.db, id, row);
      BareRecordKeeps(s, id, row);
      Assemble(s, s', {}, {id});
    } else {
      Assemble(s, s', {}, {});
    }
  }

  lemma BareRecordKeeps(s: Sys, id: OrderId, row: OrderRow)
    requires Inv(s) && id in s.db
    requires row == s.db[id].row.(status := row.status, retryCount := row.retryCount, dlqAt := row.dlqAt, failureReason := row.failureReason)
    ensures RecordInv(s.clock, s.jobs, s.runs, id, s.db[id].(row := row))
  {
    hide EdgesAllowed, StampsOf, AuthorsFit, Ordered;
    assert RecordInv(s.clock, s.jobs, s.runs, id, s.db[id]);
  }

  /** A new run has read and written nothing. */
  lemma NewRunKeeps(s: Sys, st: Step)
    requires Inv(s) && Enabled(s, st) && (st.Deliver? || st.HandleFailure?)
    ensures Inv(Apply(s, st))
  {
    hide RunInv, RecordInv, UniqueKeys, Grows, NewRun;
    var s' := Apply(s, st);
    NewRunFits(s, st);
    GrowsRefl(s.db);
    Assemble(s, s', {st.r}, {});
  }

  lemma NewRunFits(s: Sys, st: Step)
    requires JobsKeyed(s.jobs) && Enabled(s, st) && (st.Deliver? || st.HandleFailure?)
    ensures var s' := Apply(s, st); RunInv(s'.clock, s'.jobs, s'.db, st.r, s'.runs[st.r])
  {
  }

  /** The moved run fits the tables as they were; Grows carries it to the new ones. */
  lemma RunMoves(clock: nat, jobs: Jobs, locks: Locks, db: Db, r: RunId, run: Run, move: RunAct)
    requires RunInv(clock, jobs, db, r, run) && RunCan(run, move) && !move.InsertOrder?
    requires run.payload.orderId in db ==>
               LogMatches(db[run.payload.orderId]) &&
               db[run.payload.orderId].audit[db[run.payload.orderId].row.version].at <= clock
    ensures RunInv(clock, jobs, db, r, NextRun(locks, db, clock, run, move))
    ensures RunGrows(run, NextRun(locks, db, clock, run, move))
  {
    hide EdgesAllowed, StampsOf;
  }

  lemma RunMovesIn(s: Sys, r: RunId, move: RunAct)
    requires Inv(s) && Enabled(s, ByRun(r, move)) && !move.InsertOrder?
    ensures var run' := NextRun(s.locks, s.db, s.clock, s.runs[r], move);
            RunInv(s.clock, s.jobs, s.db, r, run') && RunGrows(s.runs[r], run')
  {
    hide RunInv, LogMatches, AuthorsFit, CreatedFrom, Ordered;
    var id := s.runs[r].payload.orderId;
    assert RunInv(s.clock, s.jobs, s.db, r, s.runs[r]);
    if id in s.db {
      assert RecordInv(s.clock, s.jobs, s.runs, id, s.db[id]);
      LastIndex(s.db[id]);
    }
    RunMoves(s.clock, s.jobs, s.locks, s.db, r, s.runs[r], move);
  }

  lemma LastIndex(rec: Record)
    requires LogMatches(rec)
    ensures |rec.audit| == rec.row.version + 1
  {
  }

  /** Away from inserts and transitions a run writes a counter or a mark at most. */
  lemma DbUntouched(db: Db, now: nat, r: RunId, run: Run, move: RunAct)
    requires RunCan(run, move) && !move.InsertOrder? && !move.ChangeStatus?
    ensures var id := run.payload.orderId; var db' := NextDb(db, now, r, run, move);
            if (move.CountUp? || move.MarkDead?) && id in db
            then id in db' && db' == WithRow(db, id, db'[id].row) &&
                 db'[id].row == db[id].row.(retryCount := db'[id].row.retryCount, dlqAt := db'[id].row.dlqAt, failureReason := db'[id].row.failureReason)
            else db' == db
  {
  }

  /** A run has moved and nothing else has changed. */
  lemma IdleKeeps(s: Sys, s': Sys, r: RunId)
    requires Inv(s) && r in s.runs && r in s'.runs && s'.runs == s.runs[r := s'.runs[r]]
    requires s'.clock == s.clock && s'.jobs == s.jobs && s'.db == s.db
    requires RunInv(s.clock, s.jobs, s.db, r, s'.runs[r]) && RunGrows(s.runs[r], s'.runs[r])
    ensures Inv(s')
  {
    hide RunInv, RecordInv, UniqueKeys, Grows;
    GrowsRefl(s.db);
    Assemble(s, s', {r}, {});
  }

  /** A run has moved and changed its order's counter or marks. */
  lemma MarkKeeps(s: Sys, s': Sys, r: RunId, id: OrderId, row: OrderRow)
    requires Inv(s) && r in s.runs && r in s'.runs && s'.runs == s.runs[r := s'.runs[r]]
    requires s'.clock == s.clock && s'.jobs == s.jobs && id in s.db && s'.db == WithRow(s.db, id, row)
    requires row == s.db[id].row.(retryCount := row.retryCount, dlqAt := row.dlqAt, failureReason := row.failureReason)
    requires RunInv(s.clock, s.jobs, s.db, r, s'.runs[r]) && RunGrows(s.runs[r], s'.runs[r])
    ensures Inv(s')
  {
    hide RunInv, RecordInv, UniqueKeys, Grows;
    BareUpdateKeeps(s.db, id, row);
    BareRecordKeeps(s, id, row);
    RunStable(s.clock, s.jobs, s.db, r, s'.runs[r], s'.clock, s'.jobs, s'.db);
    RecordStable(s.clock, s.jobs, s.runs, id, s'.db[id], s'.clock, s'.jobs, s'.runs);
    Assemble(s, s', {r}, {id});
  }

  /** Steps that do not write the order's log. */
  lemma QuietKeeps(s: Sys, r: RunId, move: RunAct)
    requires Inv(s) && Enabled(s, ByRun(r, move)) && !move.InsertOrder? && !move.ChangeStatus?
    ensures Inv(Apply(s, ByRun(r, move)))
  {
    var s' := Apply(s, ByRun(r, move));
    DbUntouched(s.db, s.clock, r, s.runs[r], move);
    RunMovesIn(s, r, move);
    hide Inv, RunInv, RunGrows, NextRun, NextDb, NextLocks, NextDlq, RunCan, WithRow;
    var id := s.runs[r].payload.orderId;
    if (move.CountUp? || move.MarkDead?) && id in s.db {
      MarkKeeps(s, s', r, id, s'.db[id].row);
    } else {
      IdleKeeps(s, s', r);
    }
  }

  /** The run after its insert, against the tables after it. */
  lemma InsertedRun(s: Sys, r: RunId, ackLost: bool)
    requires Inv(s) && Enabled(s, ByRun(r, InsertOrder(ackLost)))
    ensures var s' := Apply(s, ByRun(r, InsertOrder(ackLost)));
            RunInv(s.clock, s.jobs, s'.db, r, s'.runs[r]) && RunGrows(s.runs[r], s'.runs[r])
  {
    hide RecordInv, UniqueKeys, PayloadFits;
    assert RunInv(s.clock, s.jobs, s.db, r, s.runs[r]);
  }

  lemma InsertedRecord(s: Sys, r: RunId, run': Run)
    requires Inv(s) && r in s.runs && s.runs[r].pc == CommitCreate
    requires InsertOutcomeOf(s.db, s.runs[r].payload) == Inserted
    requires run'.inserted && run'.payload == s.runs[r].payload && run'.workerId == s.runs[r].workerId
    ensures RecordInv(s.clock, s.jobs, s.runs[r := run'], run'.payload.orderId,
                      NewRecord(run'.payload, s.runs[r].startedAt, Author(r, s.runs[r])))
  {
    hide UniqueKeys, ReadFits, ItemFits, AmountFits;
    assert RunInv(s.clock, s.jobs, s.db, r, s.runs[r]);
    assert s.runs[r].startedAt <= s.clock by {
      StartedBefore(s, r);
    }
    InsertKeeps(s.db, run'.payload, s.runs[r].startedAt, Author(r, s.runs[r])) by {
      assert UniqueKeys(s.db);
    }
  }

  lemma StartedBefore(s: Sys, r: RunId)
    requires Inv(s) && r in s.runs && s.runs[r].pc == CommitCreate
    ensures s.runs[r].startedAt <= s.clock
  {
    assert RunInv(s.clock, s.jobs, s.db, r, s.runs[r]);
  }

  lemma InsertStepKeeps(s: Sys, r: RunId, ackLost: bool)
    requires Inv(s) && Enabled(s, ByRun(r, InsertOrder(ackLost)))
    ensures Inv(Apply(s, ByRun(r, InsertOrder(ackLost))))
  {
    hide RunInv, RecordInv, NewRecord, UniqueKeys, Grows, InsertOutcomeOf, NextLocks, NextDlq, RunGrows;
    var s' := Apply(s, ByRun(r, InsertOrder(ackLost)));
    var run := s.runs[r];
    InsertKeeps(s.db, run.payload, run.startedAt, Author(r, run));
    InsertedRun(s, r, ackLost);
    if InsertOutcomeOf(s.db, run.payload) == Inserted {
      InsertedRecord(s, r, s'.runs[r]);
      AddedKeeps(s, s', r, run.payload.orderId);
    } else {
      IdleKeeps(s, s', r);
    }
  }

  /** A run has moved and added a record. */
  lemma AddedKeeps(s: Sys, s': Sys, r: RunId, id: OrderId)
    requires Inv(s) && r in s.runs && r in s'.runs && s'.runs == s.runs[r := s'.runs[r]]
    requires s'.clock == s.clock && s'.jobs == s.jobs && id in s'.db && s'.db == s.db[id := s'.db[id]]
    requires UniqueKeys(s'.db) && Grows(s.db, s'.db) && RecordInv(s.clock, s.jobs, s'.runs, id, s'.db[id])
    requires RunInv(s.clock, s.jobs, s'.db, r, s'.runs[r]) && RunGrows(s.runs[r], s'.runs[r])
    ensures Inv(s')
  {
    hide RunInv, RecordInv, UniqueKeys, Grows;
    Assemble(s, s', {r}, {id});
  }

  /** A commit can only extend the log it has read to the end. */
  lemma CommitExtends(s: Sys, r: RunId)
    requires Inv(s) && r in s.runs && s.runs[r].pc.Commit?
    requires ChangeOutcomeOf(s.db, ChangeOf(s.runs[r], s.runs[r].pc.stage)) == Committed
    ensures var run := s.runs[r]; var id := run.payload.orderId;
            id in s.db && |s.db[id].audit| == run.version + 1 && s.db[id].audit[run.version].at <= run.startedAt <= s.clock
  {
    hide EdgesAllowed, StampsOf, AuthorsFit, CreatedFrom, Ordered;
    var run := s.runs[r];
    assert RunInv(s.clock, s.jobs, s.db, r, run);
    assert RecordInv(s.clock, s.jobs, s.runs, run.payload.orderId, s.db[run.payload.orderId]);
  }

  /** The extended log still fits its authors and its clock. */
  lemma CommitFits(s: Sys, r: RunId, entry: AuditRow)
    requires Inv(s) && r in s.runs && s.runs[r].pc.Commit?
    requires ChangeOutcomeOf(s.db, ChangeOf(s.runs[r], s.runs[r].pc.stage)) == Committed
    requires entry == ChangeAudit(ChangeOf(s.runs[r], s.runs[r].pc.stage), s.runs[r].startedAt, Author(r, s.runs[r]))
    ensures var audit := s.db[s.runs[r].payload.orderId].audit;
            Ordered(audit + [entry]) && AuthorsFit(audit + [entry], s.runs)
  {
    hide LogMatches, CreatedFrom;
    var run := s.runs[r];
    var id := run.payload.orderId;
    CommitExtends(s, r);
    assert RunInv(s.clock, s.jobs, s.db, r, run);
    assert RecordInv(s.clock, s.jobs, s.runs, id, s.db[id]);
  }

  lemma ChangedRecord(s: Sys, r: RunId)
    requires Inv(s) && r in s.runs && s.runs[r].pc.Commit?
    requires ChangeOutcomeOf(s.db, ChangeOf(s.runs[r], s.runs[r].pc.stage)) == Committed
    ensures var run := s.runs[r]; var id := run.payload.orderId;
            RecordInv(s.clock, s.jobs, s.runs, id,
                      Transition(s.db, ChangeOf(run, run.pc.stage), run.startedAt, Author(r, run))[id])
  {
    hide RunInv, LogMatches, AuthorsFit, CreatedFrom, Ordered, UniqueKeys, Grows;
    var run := s.runs[r];
    var id := run.payload.orderId;
    var change := ChangeOf(run, run.pc.stage);
    CommitExtends(s, r);
    assert RecordInv(s.clock, s.jobs, s.runs, id, s.db[id]);
    TransitionKeeps(s.db, change, run.startedAt, Author(r, run));
    CommitFits(s, r, ChangeAudit(change, run.startedAt, Author(r, run)));
    CreatedKept(s.db[id], Transition(s.db, change, run.startedAt, Author(r, run))[id], s.jobs[id]);
  }

  lemma ChangeStepKeeps(s: Sys, r: RunId, ackLost: bool)
    requires Inv(s) && Enabled(s, ByRun(r, ChangeStatus(ackLost)))
    ensures Inv(Apply(s, ByRun(r, ChangeStatus(ackLost))))
  {
    hide RunInv, RecordInv, NextRun, LogMatches, UniqueKeys, Grows, ChangeOf, ChangeOutcomeOf, ChangedRow, ChangeAudit;
    var s' := Apply(s, ByRun(r, ChangeStatus(ackLost)));
    var run := s.runs[r];
    var id := run.payload.orderId;
    var change := ChangeOf(run, run.pc.stage);
    RunMovesIn(s, r, ChangeStatus(ackLost));
    ChangeTarget(run, run.pc.stage);
    RecordLog(s, id);
    TransitionKeeps(s.db, change, run.startedAt, Author(r, run));
    RunStable(s.clock, s.jobs, s.db, r, s'.runs[r], s'.clock, s'.jobs, s'.db);
    if ChangeOutcomeOf(s.db, change) == Committed {
      CommitTarget(s.db, change);
      ChangedRecord(s, r);
      RecordStable(s.clock, s.jobs, s.runs, id, s'.db[id], s'.clock, s'.jobs, s'.runs);
      Assemble(s, s', {r}, {id});
    } else {
      Assemble(s, s', {r}, {});
    }
  }

  lemma ChangeTarget(run: Run, stage: Stage)
    ensures ChangeOf(run, stage).orderId == run.payload.orderId
  {
  }

  lemma CommitTarget(db: Db, c: Change)
    requires ChangeOutcomeOf(db, c) == Committed
    ensures c.orderId in db
  {
  }

  lemma RecordLog(s: Sys, id: OrderId)
    requires Inv(s)
    ensures id in s.db ==> LogMatches(s.db[id])
  {
    hide LogMatches;
    if id in s.db {
      assert RecordInv(s.clock, s.jobs, s.runs, id, s.db[id]);
    }
  }

  lemma CreatedKept(rec: Record, rec': Record, p: Payload)
    requires CreatedFrom(rec, p) && rec'.items == rec.items && rec'.row.key == rec.row.key && rec'.row.storeId == rec.row.storeId
    requires rec'.row.requested == rec.row.requested && rec'.row.calculated == rec.row.calculated
    ensures CreatedFrom(rec', p)
  {
  }

  lemma StepKeeps(s: Sys, st: Step)
    requires Inv(s) && Enabled(s, st)
    ensures Inv(Apply(s, st))
  {
    hide Inv, Apply;
    match st
    case Deliver(_, _, _) => NewRunKeeps(s, st);
    case HandleFailure(_, _, _, _, _, _) => NewRunKeeps(s, st);
    case ByRun(r, move) =>
      if move.InsertOrder? {
        InsertStepKeeps(s, r, move.ackLost);
      } else if move.ChangeStatus? {
        ChangeStepKeeps(s, r, move.ackLost);
      } else {
        QuietKeeps(s, r, move);
      }
    case _ => OutsideKeeps(s, st);
  }

  lemma {:induction false} Reachable(b: Behavior, i: nat)
    requires IsBehavior(b) && i < |b.states|
    ensures Inv(b.states[i])
  {
    FirstOf(b);
    hide IsBehavior, Inv, Apply, Enabled, Init;
    if i == 0 {
      InitInv(b.states[0]);
    } else {
      Reachable(b, i - 1);
      StepOf(b, i - 1);
      StepKeeps(b.states[i - 1], b.steps[i - 1]);
    }
  }
}
