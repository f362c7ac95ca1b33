/** ProcessOrderService: the worker's code, await by await, over the live backend.
    That these methods verify means that every execution of them, interleaved with
    anything else the system does, is part of a behavior of the pipeline; all its
    theorems then hold of it. */
module ProcessOrderService {
  import opened OrderStateMachine
  import opened OrderStore
  import opened OrderQueue
  import opened OrderRepository
  import opened Pipeline
  import opened PipelineHistory
  import opened LiveSystem
  import opened PipelineOutcome

  /** How processing a job ends: the last three are exceptions. */
  datatype ProcessResult = OrderCompleted | DuplicateDetected | LockNotAcquired | ProcessingFailed | UnlockFailed

  /** The last two are exceptions: the state machine's, and any other. */
  datatype HandlerResult = RetryCounted | MovedToDlq | TransitionRefused | HandlerFailed

  /** This run has written COMPLETED into the order's log. */
  ghost predicate CompletedBy(db: Db, payload: Payload, author: Actor) {
    exists k :: payload.orderId in db && 0 <= k < |db[payload.orderId].audit| &&
      db[payload.orderId].audit[k].to == Completed && db[payload.orderId].audit[k].author == author
  }

  lemma EntryIsCompletion(db: Db, payload: Payload, entry: AuditRow)
    requires InLog(db, payload.orderId, entry) && entry.to == Completed
    ensures CompletedBy(db, payload, entry.author)
  {
    var audit := db[payload.orderId].audit;
    var k :| 0 <= k < |audit| && audit[k] == entry;
  }

  /** What the tables have said once they go on saying. */
  lemma SaidStays(b: Behavior, b': Behavior, payload: Payload, author: Actor)
    requires IsBehavior(b) && IsBehavior(b') && Extends(b, b')
    ensures CompletedBy(Last(b).db, payload, author) ==> CompletedBy(Last(b').db, payload, author)
    ensures KeyTaken(Last(b).db, payload.key) ==> KeyTaken(Last(b').db, payload.key)
  {
    var db, db' := Last(b).db, Last(b').db;
    assert b'.states[|b.steps|] == Last(b);
    HistoryGrows(b', |b.steps|, |b'.steps|);
    assert Grows(db, db');
    hide IsBehavior, Grows;
    if CompletedBy(db, payload, author) {
      GrowsAt(db, db', payload.orderId);
      var k :| 0 <= k < |db[payload.orderId].audit| &&
        db[payload.orderId].audit[k].to == Completed && db[payload.orderId].audit[k].author == author;
      assert db'[payload.orderId].audit[k] == db[payload.orderId].audit[k];
    }
    if KeyTaken(db, payload.key) {
      var id :| id in db && db[id].row.key == payload.key;
      GrowsAt(db, db', id);
      assert db'[id].row.key == payload.key;
    }
  }

  lemma GrowsAt(db: Db, db': Db, id: OrderId)
    requires Grows(db, db') && id in db
    ensures id in db' && RecordGrows(db[id], db'[id])
  {
  }

  /** A completion implies that this run inserted the order and heard the POS accept. */
  lemma CompletionWasAccepted(b: Behavior, payload: Payload, author: Actor)
    requires IsBehavior(b) && CompletedBy(Last(b).db, payload, author)
    ensures Last(b).db[payload.orderId].audit != [] && Last(b).db[payload.orderId].audit[0].author == author
    ensures exists i :: 0 <= i < |b.steps| && AcceptedBy(b, i, author.run)
  {
    var db := Last(b).db;
    var k :| payload.orderId in db && 0 <= k < |db[payload.orderId].audit| &&
      db[payload.orderId].audit[k].to == Completed && db[payload.orderId].audit[k].author == author;
    assert Last(b) == b.states[|b.steps|];
    SentOnlyAfterAcceptance(b, |b.steps|, payload.orderId, k);
  }

  /** A worker's transition depends on the version it has read, and on no status. */
  lemma ReadAgain(run: Run, run': Run, stage: Stage)
    requires stage != ToFailed
    requires run' == run.(status := run'.status, version := run'.version, readAt := run'.readAt, startedAt := run'.startedAt, pc := run'.pc)
    ensures ChangeOf(run', stage) == ChangeOf(run, stage).(version := run'.version)
  {
  }

  /** The finally block. */
  lemma ThrowUnlocks(run: Run)
    requires Critical(run)
    ensures run.pc != Unlock ==> AfterThrow(run) == Unlock
  {
  }

  /** The step with which a report begins. */
  ghost function RunFailed(r: RunId, jobId: OrderId, workerId: nat, error: ErrorKind, reason: string, attempts: nat): Step {
    Step.HandleFailure(r, jobId, workerId, error, reason, attempts)
  }

  lemma FirstStep(b1: Behavior, b2: Behavior, b3: Behavior, st: Step)
    requires b1.states != [] && Enabled(Last(b1), st) && b2 == Extend(b1, st) && Extends(b2, b3)
    ensures |b3.steps| > |b1.steps| && b3.steps[|b1.steps|] == st
  {
    hide Enabled, Apply;
    assert b2.steps[|b1.steps|] == st;
  }

  lemma WorkerAllowed(run: Run, stage: Stage)
    requires stage != ToFailed
    ensures Allowed(ChangeOf(run, stage).expected, ChangeOf(run, stage).next)
  {
  }

  /** Where a worker goes from the reads and writes of its last two stages. */
  lemma Ways(run: Run, stage: Stage)
    requires stage == ToSent || stage == ToCompleted
    requires run.pc == Find(stage) || run.pc == Begin(stage) || run.pc == Commit(stage)
    ensures AfterThrow(run) == Unlock
    ensures forall outcome :: AfterChange(stage, outcome) == if stage == ToSent && outcome == Committed then Find(ToCompleted) else Unlock
  {
  }

  // ----- what can stop a worker whose commands all succeed -----

  /** The n-th step is a worker's transition of run r, stale. */
  ghost predicate WorkerStaleAt(b: Behavior, n: nat, r: RunId) {
    StaleAt(b, n, r, ToSaved) || StaleAt(b, n, r, ToSent) || StaleAt(b, n, r, ToCompleted)
  }

  /** The database did not take the run's order, or a transition of it went stale. */
  ghost predicate Stopped(b: Behavior, r: RunId, payload: Payload) {
    exists n :: 0 <= n <= |b.steps| && (RejectedAt(b, n, r, payload) || WorkerStaleAt(b, n, r))
  }

  lemma StoppedNow(b: Behavior, r: RunId, payload: Payload)
    requires RejectedAt(b, |b.steps|, r, payload) || WorkerStaleAt(b, |b.steps|, r)
    ensures Stopped(b, r, payload)
  {
  }

  lemma StoppedStays(b: Behavior, b': Behavior, r: RunId, payload: Payload)
    requires Extends(b, b')
    ensures Stopped(b, r, payload) ==> Stopped(b', r, payload)
  {
    hide StaleAt, RejectedAt;
    if Stopped(b, r, payload) {
      var n :| 0 <= n <= |b.steps| && (RejectedAt(b, n, r, payload) || WorkerStaleAt(b, n, r));
      AtStays(b, b', n, r, payload);
    }
  }

  lemma AtStays(b: Behavior, b': Behavior, n: nat, r: RunId, payload: Payload)
    requires Extends(b, b')
    ensures RejectedAt(b, n, r, payload) ==> RejectedAt(b', n, r, payload)
    ensures WorkerStaleAt(b, n, r) ==> WorkerStaleAt(b', n, r)
  {
    hide InsertOutcomeOf, ChangeOutcomeOf, ChangeOf;
    assert 0 < n < |b.states| ==> b'.states[n - 1] == b.states[n - 1] && b'.states[n] == b.states[n];
    assert 0 < n <= |b.steps| ==> b'.steps[n - 1] == b.steps[n - 1];
  }

  /** Without PATCH it was a database that does not take the order, or a failure report. */
  lemma StoppedMeans(b: Behavior, r: RunId, payload: Payload)
    requires IsBehavior(b) && WithoutPatch(b) && b.states != [] && Stopped(b, r, payload)
    requires r in Last(b).runs && Last(b).runs[r].payload == payload
    ensures (exists n :: 0 <= n <= |b.steps| && RejectedAt(b, n, r, payload)) ||
            (payload.orderId in Last(b).db && Last(b).db[payload.orderId].audit != [] &&
             End(Last(b).db[payload.orderId].audit) == Failed)
  {
    hide IsBehavior, WithoutPatch, RejectedAt, ChangeOutcomeOf, ChangeOf, Apply, Enabled;
    FirstOf(b);
    var n :| 0 <= n <= |b.steps| && (RejectedAt(b, n, r, payload) || WorkerStaleAt(b, n, r));
    if !RejectedAt(b, n, r, payload) {
      var stage := b.states[n - 1].runs[r].pc.stage;
      StaleMeansFailed(b, n - 1, r, stage);
      SameJob(b, n - 1, |b.steps|, r);
      FailedStays(b, n - 1, |b.steps|, payload.orderId);
    }
  }

  class ProcessOrderService {
    const backend: Backend

    constructor (backend: Backend)
      ensures this.backend == backend
    {
      this.backend := backend;
    }

    /** process: lock, work, and release whatever happened. */
    method Process(r: RunId, jobId: OrderId, workerId: nat) returns (res: ProcessResult)
      requires backend.Valid() && r !in backend.S().runs && jobId in backend.queue.main
      modifies backend, backend.repo, backend.lock, backend.idempotency, backend.queue
      ensures backend.Valid() && Extends(old(backend.b), backend.b)
      ensures var payload := old(backend.queue.main)[jobId];
              && backend.At(r, payload, workerId, Ended)
              && (res == OrderCompleted ==>
                    CompletedBy(backend.S().db, payload, Actor(workerId, payload.orderId, r)) &&
                    backend.S().db[payload.orderId].audit[0].author.run == r &&
                    exists i :: 0 <= i < |backend.b.steps| && AcceptedBy(backend.b, i, r))
              && (res == DuplicateDetected ==> KeyTaken(backend.S().db, payload.key))
              && (res != LockNotAcquired && res != UnlockFailed ==> ReleasedAt(backend.b, |backend.b.steps|, r, payload, workerId))
      ensures backend.calm ==> res != UnlockFailed
      ensures backend.calm && res == LockNotAcquired ==>
                BusyAt(backend.b, |backend.b.steps|, r, old(backend.queue.main)[jobId])
      ensures var payload := old(backend.queue.main)[jobId];
              backend.calm && payload.storeId in backend.stores && res == ProcessingFailed ==>
                Stopped(backend.b, r, payload) &&
                (WithoutPatch(backend.b) ==>
                   (exists n :: 0 <= n <= |backend.b.steps| && RejectedAt(backend.b, n, r, payload)) ||
                   (payload.orderId in backend.S().db && backend.S().db[payload.orderId].audit != [] &&
                    End(backend.S().db[payload.orderId].audit) == Failed))
    {
      hide IsBehavior, Agrees, Extends, CompletedBy, KeyTaken, Stopped, ReleasedAt, BusyAt, RejectedAt, WithoutPatch;
      ghost var b0 := backend.b;
      var payload := backend.TakeJob(r, jobId, workerId);
      ghost var b1 := backend.b;
      var locked := backend.AcquireLock(r, payload, workerId);
      ExtendsTrans(b0, b1, backend.b);
      if locked != Acquired {
        return LockNotAcquired;
      }
      ghost var b2 := backend.b;
      res := ProcessWithLock(r, payload, workerId);
      ghost var before := backend.b;
      ExtendsTrans(b0, b2, before);
      backend.Behaves();
      var released := backend.ReleaseLock(r, payload, workerId);
      ExtendsTrans(b0, before, backend.b);
      backend.Behaves();
      SaidStays(before, backend.b, payload, Actor(workerId, payload.orderId, r));
      StoppedStays(before, backend.b, r, payload);
      if Stopped(backend.b, r, payload) && WithoutPatch(backend.b) {
        StoppedMeans(backend.b, r, payload);
      }
      if !released {
        return UnlockFailed;
      }
      if res == OrderCompleted {
        CompletionWasAccepted(backend.b, payload, Actor(workerId, payload.orderId, r));
      }
    }

    /** Insert; only the run that inserted goes on. */
    method ProcessWithLock(r: RunId, payload: Payload, workerId: nat) returns (res: ProcessResult)
      requires backend.Valid() && backend.At(r, payload, workerId, BeginCreate)
      modifies backend, backend.repo, backend.lock, backend.idempotency, backend.queue
      ensures backend.Valid() && Extends(old(backend.b), backend.b) && backend.At(r, payload, workerId, Unlock)
      ensures res == OrderCompleted ==> CompletedBy(backend.S().db, payload, Actor(workerId, payload.orderId, r))
      ensures res == DuplicateDetected ==> KeyTaken(backend.S().db, payload.key)
      ensures res == OrderCompleted || res == DuplicateDetected || res == ProcessingFailed
      ensures backend.calm && payload.storeId in backend.stores && res == ProcessingFailed ==> Stopped(backend.b, r, payload)
    {
      hide IsBehavior, Agrees, CompletedBy, KeyTaken, RejectedAt, StaleAt;
      var created, version := CreateOrder(r, payload, workerId);
      if created == DuplicateOrder {
        return DuplicateDetected;
      }
      if created == CreateError {
        if backend.calm {
          StoppedNow(backend.b, r, payload);
        }
        return ProcessingFailed;
      }
      var saved := TransitionToSaved(r, payload, workerId, version);
      if !saved {
        if backend.calm {
          StoppedNow(backend.b, r, payload);
        }
        return ProcessingFailed;
      }
      res := SendToPos(r, payload, workerId);
      if backend.calm && payload.storeId in backend.stores && res == ProcessingFailed {
        StoppedNow(backend.b, r, payload);
      }
    }

    /** createOrder with the read that follows its commit. */
    method CreateOrder(r: RunId, payload: Payload, workerId: nat) returns (res: CreateResult, version: nat)
      requires backend.Valid() && backend.At(r, payload, workerId, BeginCreate)
      modifies backend, backend.repo, backend.lock, backend.idempotency, backend.queue
      ensures backend.Valid() && Extends(old(backend.b), backend.b)
      ensures backend.At(r, payload, workerId, if res == CreatedOrder then Begin(ToSaved) else Unlock)
      ensures res == CreatedOrder ==> backend.Me(r).version == version
      ensures res == DuplicateOrder ==> KeyTaken(backend.S().db, payload.key)
      ensures backend.calm && res == CreateError ==> RejectedAt(backend.b, |backend.b.steps|, r, payload)
    {
      hide IsBehavior, Agrees, KeyTaken, AfterThrow, RejectedAt;
      ThrowUnlocks(backend.Me(r));
      version := 0;
      var startedAt := backend.BeginTransaction(r, payload, workerId, BeginCreate);
      if startedAt.None? {
        return CreateError, version;
      }
      res := backend.CreateOrder(r, payload, workerId, startedAt.value);
      if res == CreatedOrder {
        ThrowUnlocks(backend.Me(r));
        var found := backend.FindById(r, payload, workerId, ToSaved);
        if !found.FoundRow? {
          return CreateError, version;
        }
        version := found.row.version;
      }
    }

    method TransitionToSaved(r: RunId, payload: Payload, workerId: nat, version: nat) returns (ok: bool)
      requires backend.Valid() && backend.At(r, payload, workerId, Begin(ToSaved)) && backend.Me(r).version == version
      modifies backend, backend.repo, backend.lock, backend.idempotency, backend.queue
      ensures backend.Valid() && Extends(old(backend.b), backend.b)
      ensures backend.At(r, payload, workerId, if ok then PosReady else Unlock)
      ensures backend.calm && !ok ==> StaleAt(backend.b, |backend.b.steps|, r, ToSaved)
    {
      hide IsBehavior, Agrees, StaleAt;
      var startedAt := backend.BeginTransaction(r, payload, workerId, Begin(ToSaved));
      if startedAt.None? {
        return false;
      }
      var c := Change(payload.orderId, Queued, Saved, version, None, None);
      var done := backend.TransitionStatus(r, payload, workerId, c, startedAt.value, ToSaved);
      return done == ChangeDone;
    }

    /** POS call outside any transaction, then SENT_TO_POS and COMPLETED. */
    method SendToPos(r: RunId, payload: Payload, workerId: nat) returns (res: ProcessResult)
      requires backend.Valid() && backend.At(r, payload, workerId, PosReady)
      modifies backend, backend.repo, backend.lock, backend.idempotency, backend.queue
      ensures backend.Valid() && Extends(old(backend.b), backend.b) && backend.At(r, payload, workerId, Unlock)
      ensures res == OrderCompleted ==> CompletedBy(backend.S().db, payload, Actor(workerId, payload.orderId, r))
      ensures res == OrderCompleted || res == ProcessingFailed
      ensures backend.calm && payload.storeId in backend.stores && res == ProcessingFailed ==>
                WorkerStaleAt(backend.b, |backend.b.steps|, r)
    {
      hide IsBehavior, Agrees, CompletedBy, StaleAt;
      var fault := backend.AnyFault();
      if fault != NoFault || payload.storeId !in backend.stores {
        backend.Abandon(r, payload, workerId, PosReady);
        return ProcessingFailed;
      }
      var pos := backend.CallPosGuarded(r, payload, workerId);
      if pos.PosFailed? {
        return ProcessingFailed;
      }
      var sent := Advance(r, payload, workerId, ToSent, Saved, SentToPos, Some(pos.response));
      if !sent {
        return ProcessingFailed;
      }
      var completed := Advance(r, payload, workerId, ToCompleted, SentToPos, Completed, None);
      return if completed then OrderCompleted else ProcessingFailed;
    }

    /** findById, then transitionStatus with the version found. */
    method Advance(r: RunId, payload: Payload, workerId: nat, ghost stage: Stage, from: Status, to: Status, posResponse: Option<string>)
      returns (ok: bool)
      requires stage == ToSent || stage == ToCompleted
      requires backend.Valid() && backend.At(r, payload, workerId, Find(stage))
      requires ChangeOf(backend.Me(r), stage) == Change(payload.orderId, from, to, backend.Me(r).version, posResponse, None)
      modifies backend, backend.repo, backend.lock, backend.idempotency, backend.queue
      ensures backend.Valid() && Extends(old(backend.b), backend.b)
      ensures backend.At(r, payload, workerId, if ok && stage == ToSent then Find(ToCompleted) else Unlock)
      ensures ok && to == Completed ==> CompletedBy(backend.S().db, payload, Actor(workerId, payload.orderId, r))
      ensures backend.calm && !ok ==> StaleAt(backend.b, |backend.b.steps|, r, stage)
    {
      hide IsBehavior, Agrees, CompletedBy, ChangeOf, AfterThrow, AfterChange, StaleAt;
      ghost var me := backend.Me(r);
      Ways(me, stage);
      var found := backend.FindById(r, payload, workerId, stage);
      if !found.FoundRow? {
        return false;
      }
      Ways(backend.Me(r), stage);
      var startedAt := backend.BeginTransaction(r, payload, workerId, Begin(stage));
      if startedAt.None? {
        return false;
      }
      var c := Change(payload.orderId, from, to, found.row.version, posResponse, None);
      ReadAgain(me, backend.Me(r), stage);
      ok := Transit(r, payload, workerId, stage, c, startedAt.value);
    }

    method Transit(r: RunId, payload: Payload, workerId: nat, ghost stage: Stage, c: Change, startedAt: nat) returns (ok: bool)
      requires stage == ToSent || stage == ToCompleted
      requires backend.Valid() && backend.At(r, payload, workerId, Commit(stage))
      requires backend.Me(r).startedAt == startedAt && c == ChangeOf(backend.Me(r), stage) && c.orderId == payload.orderId
      modifies backend, backend.repo, backend.lock, backend.idempotency, backend.queue
      ensures backend.Valid() && Extends(old(backend.b), backend.b)
      ensures backend.At(r, payload, workerId, if ok && stage == ToSent then Find(ToCompleted) else Unlock)
      ensures ok && c.next == Completed ==> CompletedBy(backend.S().db, payload, Actor(workerId, payload.orderId, r))
      ensures backend.calm && !ok ==> StaleAt(backend.b, |backend.b.steps|, r, stage)
    {
      hide IsBehavior, Agrees, CompletedBy, ChangeOf, AfterThrow, AfterChange, StaleAt, Allowed;
      WorkerAllowed(backend.Me(r), stage);
      Ways(backend.Me(r), stage);
      var done := backend.TransitionStatus(r, payload, workerId, c, startedAt, stage);
      ok := done == ChangeDone;
      if ok && c.next == Completed {
        EntryIsCompletion(backend.S().db, payload, ChangeAudit(c, startedAt, Actor(workerId, payload.orderId, r)));
      }
    }

    /** handleFailure: business errors and exhausted attempts go to the DLQ. */
    method HandleFailure(r: RunId, jobId: OrderId, workerId: nat, error: ErrorKind, reason: string, attemptsMade: nat)
      returns (res: HandlerResult)
      requires backend.Valid() && r !in backend.S().runs && jobId in backend.queue.main
      modifies backend, backend.repo, backend.lock, backend.idempotency, backend.queue
      ensures backend.Valid() && Extends(old(backend.b), backend.b)
      ensures backend.At(r, old(backend.queue.main)[jobId], workerId, Ended)
      ensures res == MovedToDlq ==>
                (error == BusinessLogic || attemptsMade >= 2) &&
                BuriedAt(backend.b, |backend.b.steps|, r, DeadLetter(old(backend.queue.main)[jobId], reason, attemptsMade))
      ensures |backend.b.steps| > |old(backend.b).steps| &&
              backend.b.steps[|old(backend.b).steps|] == RunFailed(r, jobId, workerId, error, reason, attemptsMade)
      ensures error != BusinessLogic && attemptsMade <= 1 ==> res == RetryCounted || res == HandlerFailed
      ensures res == RetryCounted ==>
                error != BusinessLogic && attemptsMade <= 1 &&
                CountedAt(backend.b, |backend.b.steps|, r, old(backend.queue.main)[jobId].orderId)
      ensures backend.calm ==> res != HandlerFailed
    {
      hide IsBehavior, Agrees, CountedAt, BuriedAt;
      var payload := backend.TakeFailure(r, jobId, workerId, error, reason, attemptsMade);
      ghost var reported := backend.b;
      var isRetryable := error != BusinessLogic;
      var isExhausted := attemptsMade >= 2;
      if !isRetryable || isExhausted {
        var found: FindResult;
        res, found := MoveToDlq(r, payload, workerId, reason, attemptsMade);
      } else {
        var ok := backend.CountRetryUp(r, payload, workerId);
        res := if ok then RetryCounted else HandlerFailed;
      }
      FirstStep(old(backend.b), reported, backend.b, RunFailed(r, jobId, workerId, error, reason, attemptsMade));
    }

    /** The transition in the try block of moveToDlq, refused exactly for a status that is
        not QUEUED or SAVED unless BEGIN fails; a stale version lets the caller go on. */
    method FailOrder(r: RunId, payload: Payload, workerId: nat, reason: string, row: OrderRow) returns (res: ChangeResult)
      requires backend.Valid() && backend.At(r, payload, workerId, Begin(ToFailed))
      requires backend.Me(r).reason == reason && backend.Me(r).status == row.status && backend.Me(r).version == row.version
      modifies backend, backend.repo, backend.lock, backend.idempotency, backend.queue
      ensures backend.Valid() && Extends(old(backend.b), backend.b)
      ensures backend.At(r, payload, workerId, if res == ChangeDone || res == ChangeStale then Mark else Ended)
      ensures res == ChangeDone || res == ChangeStale ==>
                backend.Me(r).reason == reason && backend.Me(r).attempts == old(backend.Me(r)).attempts
      ensures Early(row.status) ==> res != ChangeRefused
      ensures !Early(row.status) ==> res == ChangeRefused || res == ChangeError
      ensures backend.calm ==> res != ChangeError
    {
      hide IsBehavior, Agrees, Extends, Allowed, Early, StaleAt, InLog;
      FailsIffEarly(row.status);
      ghost var b0 := backend.b;
      var startedAt := backend.BeginTransaction(r, payload, workerId, Begin(ToFailed));
      ghost var b1 := backend.b;
      if startedAt.None? {
        return ChangeError;
      }
      var c := Change(payload.orderId, row.status, Failed, row.version, None, Some(reason));
      res := backend.TransitionStatus(r, payload, workerId, c, startedAt.value, ToFailed);
      ExtendsTrans(b0, b1, backend.b);
    }

    /** moveToDlq: runs without the lock. Unless a command fails, it buries the job exactly
        when findById answers with no row or with a status a report can deal with. */
    method MoveToDlq(r: RunId, payload: Payload, workerId: nat, reason: string, attemptsMade: nat)
      returns (res: HandlerResult, found: FindResult)
      requires backend.Valid() && backend.At(r, payload, workerId, Find(ToFailed))
      requires backend.Me(r).reason == reason && backend.Me(r).attempts == attemptsMade
      modifies backend, backend.repo, backend.lock, backend.idempotency, backend.queue
      ensures backend.Valid() && Extends(old(backend.b), backend.b) && backend.At(r, payload, workerId, Ended)
      ensures res == MovedToDlq ==> BuriedAt(backend.b, |backend.b.steps|, r, DeadLetter(payload, reason, attemptsMade))
      ensures res == MovedToDlq || res == TransitionRefused || res == HandlerFailed
      ensures res == MovedToDlq ==> found.NoRow? || (found.FoundRow? && Reportable(found.row.status))
      ensures res == TransitionRefused ==> found.FoundRow? && !Reportable(found.row.status)
      ensures backend.calm ==> res != HandlerFailed
    {
      hide IsBehavior, Agrees, Extends, Early, BuriedAt;
      ghost var b0 := backend.b;
      found := backend.FindById(r, payload, workerId, ToFailed);
      ghost var b1 := backend.b;
      if found.FindError? {
        return HandlerFailed, found;
      }
      if found.FoundRow? && found.row.status != Failed && found.row.status != Completed {
        var done := FailOrder(r, payload, workerId, reason, found.row);
        ExtendsTrans(b0, b1, backend.b);
        if done == ChangeRefused {
          return TransitionRefused, found;
        }
        if done == ChangeError {
          return HandlerFailed, found;
        }
      }
      ghost var b2 := backend.b;
      res := Bury(r, payload, workerId, reason, attemptsMade);
      ExtendsTrans(b0, b2, backend.b);
    }

    /** markDlq, then the dead-letter queue. */
    method Bury(r: RunId, payload: Payload, workerId: nat, reason: string, attemptsMade: nat) returns (res: HandlerResult)
      requires backend.Valid() && backend.At(r, payload, workerId, Mark)
      requires backend.Me(r).reason == reason && backend.Me(r).attempts == attemptsMade
      modifies backend, backend.repo, backend.lock, backend.idempotency, backend.queue
      ensures backend.Valid() && Extends(old(backend.b), backend.b) && backend.At(r, payload, workerId, Ended)
      ensures res == MovedToDlq ==> BuriedAt(backend.b, |backend.b.steps|, r, DeadLetter(payload, reason, attemptsMade))
      ensures backend.calm ==> res == MovedToDlq
      ensures res == MovedToDlq || res == HandlerFailed
    {
      hide IsBehavior, Agrees;
      var marked := backend.MarkDlq(r, payload, workerId, reason);
      if !marked {
        return HandlerFailed;
      }
      var published := backend.PublishToDlq(r, payload, workerId, reason, attemptsMade);
      return if published then MovedToDlq else HandlerFailed;
    }
  }
}
