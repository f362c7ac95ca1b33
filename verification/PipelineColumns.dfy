/** The columns of an order's row that its audit log does not tell: what the steps of the
    run so far say about them. PATCH requests or not. */
module PipelineColumns {
  import opened OrderStateMachine
  import opened OrderStore
  import opened Pipeline
  import opened PipelineInvariant
  import opened PipelineHistory

  // ----- the steps that write the columns -----

  /** Step i is a run's step for this order, whose row is there. */
  ghost predicate Works(b: Behavior, i: nat, id: OrderId) {
    i < |b.steps| && i < |b.states| && b.steps[i].ByRun? && id in b.states[i].db &&
    b.steps[i].r in b.states[i].runs && b.states[i].runs[b.steps[i].r].payload.orderId == id
  }

  ghost predicate Counts(b: Behavior, i: nat, id: OrderId) {
    Works(b, i, id) && b.steps[i].move.CountUp?
  }

  ghost predicate Marks(b: Behavior, i: nat, id: OrderId) {
    Works(b, i, id) && b.steps[i].move.MarkDead?
  }

  /** Step i writes a row into this status to the audit log. */
  ghost predicate Enters(b: Behavior, i: nat, id: OrderId, status: Status) {
    Works(b, i, id) && i + 1 < |b.states| && id in b.states[i + 1].db &&
    |b.states[i].db[id].audit| < |b.states[i + 1].db[id].audit| && End(b.states[i + 1].db[id].audit) == status
  }

  /** Step i gives the order's failure a reason. */
  ghost predicate Explains(b: Behavior, i: nat, id: OrderId) {
    Marks(b, i, id) || (Enters(b, i, id, Failed) && b.states[i].runs[b.steps[i].r].reason != "")
  }

  ghost function RetriesBefore(b: Behavior, n: nat, id: OrderId): nat {
    if n == 0 then 0 else RetriesBefore(b, n - 1, id) + if Counts(b, n - 1, id) then 1 else 0
  }

  // ----- one step -----

  /** What a run's step does to the columns of one row. */
  ghost predicate RowStep(row: OrderRow, row': OrderRow, now: nat, run: Run, mine: bool, move: RunAct, entered: Option<Status>) {
    && row'.retryCount == row.retryCount + (if mine && move.CountUp? then 1 else 0)
    && row'.dlqAt == (if mine && move.MarkDead? then Some(now) else row.dlqAt)
    && row'.failureReason == (if (mine && move.MarkDead?) || (entered == Some(Failed) && run.reason != "")
                              then Some(run.reason) else row.failureReason)
    && row'.posResponse == (if entered == Some(SentToPos) then Some(run.posResponse) else row.posResponse)
  }

  /** The status the longer log has entered. */
  ghost function Entered(audit: seq<AuditRow>, audit': seq<AuditRow>): Option<Status> {
    if |audit| < |audit'| then Some(End(audit')) else None
  }

  /** The log row of a commit: from the row's status to its new one, at the transaction's
      start, by this run, with a reason for a failure only. */
  function NewEntry(from: Status, to: Status, r: RunId, run: Run): AuditRow {
    AuditRow(Some(from), to, run.startedAt, Actor(run.workerId, run.payload.orderId, r), if to == Failed then Some(run.reason) else None)
  }

  lemma RunStep(db: Db, now: nat, r: RunId, run: Run, move: RunAct, id: OrderId)
    requires RunCan(run, move) && id in db
    ensures var db' := NextDb(db, now, r, run, move); var mine := run.payload.orderId == id;
            id in db' && RowStep(db[id].row, db'[id].row, now, run, mine, move, Entered(db[id].audit, db'[id].audit)) &&
            db[id].audit <= db'[id].audit && |db'[id].audit| <= |db[id].audit| + 1 &&
            (Entered(db[id].audit, db'[id].audit).Some? ==> mine && move.ChangeStatus?) &&
            (Entered(db[id].audit, db'[id].audit) == Some(SentToPos) ==> run.pc == Commit(ToSent)) &&
            (Entered(db[id].audit, db'[id].audit).Some? ==>
               run.pc.Commit? && db'[id].audit[|db[id].audit|] == NewEntry(db[id].row.status, db'[id].row.status, r, run))
  {
    hide Stamp;
  }

  lemma NewRow(s: Sys, st: Step, id: OrderId)
    requires Enabled(s, st) && id in Apply(s, st).db && id !in s.db
    ensures var row := Apply(s, st).db[id].row;
            row.retryCount == 0 && row.dlqAt == None && row.failureReason == None && row.posResponse == None
    ensures Apply(s, st).db[id].audit != [] && forall i :: 0 <= i < |Apply(s, st).db[id].audit| ==> Apply(s, st).db[id].audit[i].to == Queued
  {
    hide NextRun, NextLocks, NextDlq, NextRequest, NextClaims, NextJobs, ChangedRow;
  }

  lemma OtherStep(s: Sys, st: Step, id: OrderId)
    requires Enabled(s, st) && id in s.db && !st.ByRun?
    ensures id in Apply(s, st).db && Apply(s, st).db[id] == s.db[id].(row := s.db[id].row.(status := Apply(s, st).db[id].row.status))
  {
  }

  /** What a step does to a row that is there. */
  lemma StepColumns(b: Behavior, n: nat, id: OrderId)
    requires IsBehavior(b) && n + 1 < |b.states| && id in b.states[n].db
    ensures id in b.states[n + 1].db
    ensures var row, row' := b.states[n].db[id].row, b.states[n + 1].db[id].row;
            && row'.retryCount == row.retryCount + (if Counts(b, n, id) then 1 else 0)
            && row'.dlqAt == (if Marks(b, n, id) then Some(b.states[n].clock) else row.dlqAt)
            && (if Explains(b, n, id) then row'.failureReason == Some(b.states[n].runs[b.steps[n].r].reason)
                else row'.failureReason == row.failureReason)
            && (if Enters(b, n, id, SentToPos) then row'.posResponse == Some(b.states[n].runs[b.steps[n].r].posResponse)
                else row'.posResponse == row.posResponse)
    ensures var audit, audit' := b.states[n].db[id].audit, b.states[n + 1].db[id].audit;
            audit' == audit || (|audit'| == |audit| + 1 && audit <= audit' && Enters(b, n, id, End(audit')))
  {
    StepOf(b, n);
    hide IsBehavior, NextRun, NextDb, NextLocks, NextDlq, NextRequest, NextClaims, NextJobs, RunCan;
    var s, st := b.states[n], b.steps[n];
    if st.ByRun? {
      RunStep(s.db, s.clock, st.r, s.runs[st.r], st.move, id);
    } else {
      OtherStep(s, st, id);
    }
  }

  // ----- the log rows, read off the run -----

  /** The transaction that is open began at this step, the run's last. */
  ghost predicate BeganAt(b: Behavior, i: nat, n: nat, r: RunId) {
    i < n < |b.states| && i < |b.steps| && b.steps[i] == ByRun(r, BeginTx) &&
    forall k :: i < k < n && k < |b.steps| ==> !(b.steps[k].ByRun? && b.steps[k].r == r)
  }

  lemma BeginMoves(s: Sys, st: Step, r: RunId)
    requires Enabled(s, st) && r in Apply(s, st).runs
    requires Apply(s, st).runs[r].pc.Commit? || Apply(s, st).runs[r].pc == CommitCreate
    ensures if st.ByRun? && st.r == r then st == ByRun(r, BeginTx) && Apply(s, st).runs[r].startedAt == s.clock
            else r in s.runs && Apply(s, st).runs[r] == s.runs[r]
  {
    hide InsertOutcomeOf, ChangeOutcomeOf, NextDb, NextLocks, NextClaims, NextJobs, NextRequest, NextDlq;
  }

  /** NOW() is the time at which the transaction began, however long it waited to commit. */
  lemma {:induction false} StartedThen(b: Behavior, n: nat, r: RunId) returns (i: nat)
    requires IsBehavior(b) && n < |b.states| && r in b.states[n].runs
    requires b.states[n].runs[r].pc.Commit? || b.states[n].runs[r].pc == CommitCreate
    ensures BeganAt(b, i, n, r) && b.states[n].runs[r].startedAt == b.states[i].clock
  {
    hide IsBehavior, Apply, Enabled;
    FirstOf(b);
    StepOf(b, n - 1);
    BeginMoves(b.states[n - 1], b.steps[n - 1], r);
    if b.steps[n - 1].ByRun? && b.steps[n - 1].r == r {
      i := n - 1;
    } else {
      i := StartedThen(b, n - 1, r);
    }
  }

  /** A log row in full: written by the run that commits, from the status the row had, with
      the time at which the transaction began. */
  lemma LogRowTold(b: Behavior, n: nat, id: OrderId, status: Status) returns (i: nat)
    requires IsBehavior(b) && n + 1 < |b.states| && Enters(b, n, id, status)
    ensures BeganAt(b, i, n, b.steps[n].r)
    ensures var rec, rec', run := b.states[n].db[id], b.states[n + 1].db[id], b.states[n].runs[b.steps[n].r];
            rec'.row.status == status && rec'.audit == rec.audit +
              [AuditRow(Some(rec.row.status), status, b.states[i].clock, Actor(run.workerId, id, b.steps[n].r),
                        if status == Failed then Some(run.reason) else None)]
  {
    StepOf(b, n);
    hide IsBehavior, NextRun, NextDb, NextLocks, NextDlq, NextRequest, NextClaims, NextJobs, RunCan;
    var s, st := b.states[n], b.steps[n];
    RunStep(s.db, s.clock, st.r, s.runs[st.r], st.move, id);
    i := StartedThen(b, n, st.r);
    hide Apply, Enabled;
    var audit, audit' := s.db[id].audit, b.states[n + 1].db[id].audit;
    assert audit' == audit + [audit'[|audit|]];
  }

  // ----- the columns, read off the run -----

  /** Step i is the last before state n that marks the order. */
  ghost predicate LastMark(b: Behavior, i: nat, n: nat, id: OrderId) {
    i < n && Marks(b, i, id) && forall k :: i < k < n ==> !Marks(b, k, id)
  }

  ghost predicate DlqTold(b: Behavior, n: nat, id: OrderId)
    requires n < |b.states| && id in b.states[n].db
  {
    var dlqAt := b.states[n].db[id].row.dlqAt;
    (dlqAt == None <==> forall i :: 0 <= i < n ==> !Marks(b, i, id)) &&
    forall i: nat :: LastMark(b, i, n, id) ==> dlqAt == Some(b.states[i].clock)
  }

  /** Step i is the last before state n that gives a reason. */
  ghost predicate LastReason(b: Behavior, i: nat, n: nat, id: OrderId) {
    i < n && Works(b, i, id) && Explains(b, i, id) && forall k :: i < k < n ==> !Explains(b, k, id)
  }

  ghost predicate ReasonTold(b: Behavior, n: nat, id: OrderId)
    requires n < |b.states| && id in b.states[n].db
  {
    var reason := b.states[n].db[id].row.failureReason;
    (reason == None <==> forall i :: 0 <= i < n ==> !Explains(b, i, id)) &&
    forall i: nat :: LastReason(b, i, n, id) ==> reason == Some(b.states[i].runs[b.steps[i].r].reason)
  }

  lemma {:induction false} NothingBefore(b: Behavior, n: nat, id: OrderId)
    requires IsBehavior(b) && n < |b.states| && id !in b.states[n].db
    ensures forall i :: 0 <= i < n ==> !Works(b, i, id)
    ensures RetriesBefore(b, n, id) == 0
  {
    hide IsBehavior, Works, Counts;
    if n > 0 {
      StepNoRow(b, n - 1, id);
      NothingBefore(b, n - 1, id);
    }
  }

  lemma StepNoRow(b: Behavior, n: nat, id: OrderId)
    requires IsBehavior(b) && n + 1 < |b.states| && id !in b.states[n + 1].db
    ensures id !in b.states[n].db && !Works(b, n, id) && !Counts(b, n, id)
  {
    hide IsBehavior;
    HistoryGrows(b, n, n + 1);
  }

  lemma MarkNext(b: Behavior, n: nat, id: OrderId)
    ensures forall i: nat :: LastMark(b, i, n + 1, id) <==> if Marks(b, n, id) then i == n else LastMark(b, i, n, id)
    ensures (forall i :: 0 <= i < n + 1 ==> !Marks(b, i, id)) <==> (forall i :: 0 <= i < n ==> !Marks(b, i, id)) && !Marks(b, n, id)
  {
    hide Marks;
    forall i: nat ensures LastMark(b, i, n + 1, id) <==> if Marks(b, n, id) then i == n else LastMark(b, i, n, id) {
      assert LastMark(b, i, n + 1, id) ==> i == n || !Marks(b, n, id);
    }
  }

  lemma DlqNext(b: Behavior, n: nat, id: OrderId)
    requires n + 1 < |b.states| && id in b.states[n].db && id in b.states[n + 1].db && DlqTold(b, n, id)
    requires b.states[n + 1].db[id].row.dlqAt ==
             if Marks(b, n, id) then Some(b.states[n].clock) else b.states[n].db[id].row.dlqAt
    ensures DlqTold(b, n + 1, id)
  {
    hide Marks, LastMark;
    MarkNext(b, n, id);
  }

  lemma ExplainNext(b: Behavior, n: nat, id: OrderId)
    ensures forall i: nat :: LastReason(b, i, n + 1, id) <==> if Explains(b, n, id) then i == n else LastReason(b, i, n, id)
    ensures (forall i :: 0 <= i < n + 1 ==> !Explains(b, i, id)) <==> (forall i :: 0 <= i < n ==> !Explains(b, i, id)) && !Explains(b, n, id)
  {
    ExplainsWorks(b, n, id);
    hide Explains, Works;
    forall i: nat ensures LastReason(b, i, n + 1, id) <==> if Explains(b, n, id) then i == n else LastReason(b, i, n, id) {
      assert LastReason(b, i, n + 1, id) ==> i == n || !Explains(b, n, id);
    }
  }

  lemma ReasonNext(b: Behavior, n: nat, id: OrderId)
    requires n + 1 < |b.states| && id in b.states[n].db && id in b.states[n + 1].db && ReasonTold(b, n, id)
    requires if Explains(b, n, id)
             then Works(b, n, id) && b.states[n + 1].db[id].row.failureReason == Some(b.states[n].runs[b.steps[n].r].reason)
             else b.states[n + 1].db[id].row.failureReason == b.states[n].db[id].row.failureReason
    ensures ReasonTold(b, n + 1, id)
  {
    hide Marks, Explains, LastReason;
    ExplainNext(b, n, id);
  }

  lemma ExplainsWorks(b: Behavior, n: nat, id: OrderId)
    ensures Explains(b, n, id) ==> Works(b, n, id)
  {
  }

  lemma FirstTold(b: Behavior, n: nat, id: OrderId)
    requires n < |b.states| && id in b.states[n].db && forall i :: 0 <= i < n ==> !Works(b, i, id)
    requires b.states[n].db[id].row.dlqAt == None && b.states[n].db[id].row.failureReason == None
    ensures DlqTold(b, n, id) && ReasonTold(b, n, id)
  {
  }

  /** retryCount counts the reports that ended in a retry, dlqAt is the time of the last mark,
      and failureReason the reason of the last report that failed or marked the order. */
  lemma {:induction false} ColumnsTold(b: Behavior, n: nat, id: OrderId)
    requires IsBehavior(b) && n < |b.states| && id in b.states[n].db
    ensures b.states[n].db[id].row.retryCount == RetriesBefore(b, n, id)
    ensures DlqTold(b, n, id) && ReasonTold(b, n, id)
  {
    hide IsBehavior, Apply, Enabled, DlqTold, ReasonTold, Marks;
    FirstOf(b);
    StepOf(b, n - 1);
    if id in b.states[n - 1].db {
      ColumnsTold(b, n - 1, id);
      StepColumns(b, n - 1, id);
      ExplainsWorks(b, n - 1, id);
      hide Works, Counts, Explains;
      DlqNext(b, n - 1, id);
      ReasonNext(b, n - 1, id);
    } else {
      NothingBefore(b, n - 1, id);
      NewRow(b.states[n - 1], b.steps[n - 1], id);
      FirstTold(b, n, id);
    }
  }

  // ----- the POS response -----

  lemma {:induction false} ResponseHappened(b: Behavior, n: nat, r: RunId)
    requires IsBehavior(b) && n < |b.states| && r in b.states[n].runs && b.states[n].runs[r].posAccepted
    ensures exists i :: 0 <= i < n && AcceptedBy(b, i, r) && b.steps[i].move.response == b.states[n].runs[r].posResponse
  {
    hide IsBehavior, Apply, Enabled;
    FirstOf(b);
    StepOf(b, n - 1);
    ResponseStays(b.states[n - 1], b.steps[n - 1], r);
    if AcceptedBy(b, n - 1, r) {
    } else {
      ResponseHappened(b, n - 1, r);
    }
  }

  lemma ResponseStays(s: Sys, st: Step, r: RunId)
    requires Enabled(s, st) && r in Apply(s, st).runs && Apply(s, st).runs[r].posAccepted
    ensures var run' := Apply(s, st).runs[r];
            if st.ByRun? && st.r == r && st.move.CallPos? && st.move.accepted then run'.posResponse == st.move.response
            else r in s.runs && s.runs[r].posAccepted && run'.posResponse == s.runs[r].posResponse
  {
    hide InsertOutcomeOf, ChangeOutcomeOf, NextDb, NextLocks, NextClaims, NextJobs, NextRequest, NextDlq;
  }

  /** The one run that can enter SENT_TO_POS. */
  lemma SenderAccepted(b: Behavior, n: nat, id: OrderId)
    requires IsBehavior(b) && n + 1 < |b.states| && Enters(b, n, id, SentToPos)
    ensures b.steps[n].ByRun? && b.steps[n].r in b.states[n].runs && b.states[n].runs[b.steps[n].r].posAccepted
    ensures b.states[n + 1].db[id].audit[0].author.run == b.steps[n].r
  {
    StepOf(b, n);
    Reachable(b, n);
    hide IsBehavior, RecordInv, NextRun, NextLocks, NextDlq, LogMatches, ReadFits;
    var s, r := b.states[n], b.steps[n].r;
    RunStep(s.db, s.clock, r, s.runs[r], b.steps[n].move, id);
    assert RunInv(s.clock, s.jobs, s.db, r, s.runs[r]);
    StepGrows(s, b.steps[n]);
    assert RecordGrows(s.db[id], b.states[n + 1].db[id]);
  }

  ghost predicate HasSent(audit: seq<AuditRow>) {
    exists k :: 0 <= k < |audit| && audit[k].to == SentToPos
  }

  /** posResponse is set exactly when the log has a row into SENT_TO_POS, and then it is what
      an accepted call of the order's own worker returned (there is one by AtMostOneAcceptance). */
  lemma {:induction false} ResponseTold(b: Behavior, n: nat, id: OrderId)
    requires IsBehavior(b) && n < |b.states| && id in b.states[n].db
    ensures var rec := b.states[n].db[id]; var response := rec.row.posResponse;
            && rec.audit != []
            && (response.Some? <==> HasSent(rec.audit))
            && (response.Some? ==>
                  exists i :: 0 <= i < n && AcceptedBy(b, i, rec.audit[0].author.run) && b.steps[i].move.response == response.value)
  {
    hide IsBehavior, Apply, Enabled, Works, Counts, Marks, Explains;
    FirstOf(b);
    StepOf(b, n - 1);
    var s, s' := b.states[n - 1], b.states[n];
    if id in s.db {
      LogGoesOn(b, n - 1, id);
      ResponseTold(b, n - 1, id);
      StepColumns(b, n - 1, id);
      if Enters(b, n - 1, id, SentToPos) {
        SenderAccepted(b, n - 1, id);
        ResponseHappened(b, n - 1, b.steps[n - 1].r);
      }
    } else {
      NewRow(s, b.steps[n - 1], id);
    }
  }

  /** The log of a row that is there stays or gains one row. */
  lemma LogGoesOn(b: Behavior, n: nat, id: OrderId)
    requires IsBehavior(b) && n + 1 < |b.states| && id in b.states[n].db
    ensures id in b.states[n + 1].db
    ensures var audit, audit' := b.states[n].db[id].audit, b.states[n + 1].db[id].audit;
            audit != [] && audit <= audit' &&
            (HasSent(audit') <==> HasSent(audit) || Enters(b, n, id, SentToPos))
  {
    hide IsBehavior, Works, Counts, Marks, Explains, Inv;
    StepColumns(b, n, id);
    Reachable(b, n);
    RecordLog(b.states[n], id);
    var audit, audit' := b.states[n].db[id].audit, b.states[n + 1].db[id].audit;
    if audit' != audit {
      assert forall k :: 0 <= k < |audit| ==> audit'[k] == audit[k];
      assert End(audit') == audit'[|audit|].to;
    }
  }

  // ----- where a reason comes from -----

  /** A run carries the reason and the attempt count of the report that started it; a worker
      has neither. */
  lemma {:induction false} ReasonReported(b: Behavior, n: nat, r: RunId) returns (i: nat)
    requires IsBehavior(b) && n < |b.states| && r in b.states[n].runs
    ensures i < n && i < |b.steps|
    ensures var run, st := b.states[n].runs[r], b.steps[i];
            if st.HandleFailure? then st.r == r && run.reason == st.reason && run.attempts == st.attempts
            else st.Deliver? && st.r == r && run.reason == "" && run.attempts == 0
  {
    hide IsBehavior, Apply, Enabled;
    FirstOf(b);
    StepOf(b, n - 1);
    ReasonStays(b.states[n - 1], b.steps[n - 1], r);
    if r in b.states[n - 1].runs {
      i := ReasonReported(b, n - 1, r);
    } else {
      i := n - 1;
    }
  }

  lemma ReasonStays(s: Sys, st: Step, r: RunId)
    requires Enabled(s, st) && r in Apply(s, st).runs
    ensures var run' := Apply(s, st).runs[r];
            if r in s.runs then run'.reason == s.runs[r].reason && run'.attempts == s.runs[r].attempts
            else if st.HandleFailure? then st.r == r && run'.reason == st.reason && run'.attempts == st.attempts
            else st.Deliver? && st.r == r && run'.reason == "" && run'.attempts == 0
  {
    hide InsertOutcomeOf, ChangeOutcomeOf, NextDb, NextLocks, NextClaims, NextJobs, NextRequest, NextDlq;
  }
}
