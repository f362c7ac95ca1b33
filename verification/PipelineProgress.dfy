/** What holds of the logs when PATCH requests do no harm: progress along the table,
    finality, one column per status, and no resumption of orphaned orders. */
module PipelineProgress {
  import opened OrderStateMachine
  import opened DistributedLock
  import opened OrderStore
  import opened Pipeline
  import opened PipelineInvariant
  import opened PipelineHistory

  /** A PATCH does harm when it takes an order back to an early status that its log
      has left. */
  ghost predicate HarmlessPatch(s: Sys, st: Step) {
    st.PatchStatus? && st.orderId in s.db && s.db[st.orderId].audit != [] && Early(st.status) ==>
      Early(End(s.db[st.orderId].audit))
  }

  ghost predicate HarmlessPatches(b: Behavior) {
    forall i {:trigger b.steps[i]} :: 0 <= i < |b.steps| && i < |b.states| ==> HarmlessPatch(b.states[i], b.steps[i])
  }

  /** Only statuses of the POS are patched (what the orders endpoint admits). */
  ghost predicate PosPatchesOnly(b: Behavior) {
    forall i :: 0 <= i < |b.steps| && b.steps[i].PatchStatus? ==> AllowedTransitions(b.steps[i].status).None?
  }

  lemma PosPatchesAreHarmless(b: Behavior)
    requires PosPatchesOnly(b) || WithoutPatch(b)
    ensures HarmlessPatches(b)
  {
  }

  // ----- the invariant -----

  /** The log is a walk through the table, and while the row says QUEUED or SAVED the log
      ends at one of the two. */
  ghost predicate Chained(rec: Record) {
    LogMatches(rec) && Progress(rec.audit) && (Early(rec.row.status) ==> Early(End(rec.audit)))
  }

  /** Where the log of a run's own order can end, by the run's next transition. */
  predicate StageFits(stage: Stage, end: Status) {
    match stage
    case ToSaved => end == Queued || end == Failed
    case ToSent => end == Saved || end == Failed
    case ToCompleted => end == SentToPos
    case ToFailed => true
  }

  predicate EndFits(pc: Pc, end: Status) {
    match pc
    case Find(stage) => StageFits(stage, end)
    case Begin(stage) => StageFits(stage, end)
    case Commit(stage) => StageFits(stage, end)
    case PosReady => StageFits(ToSent, end)
    case PosCalling => StageFits(ToSent, end)
    case _ => true
  }

  ghost predicate RunFits(db: Db, run: Run) {
    PastCreate(run.pc) ==>
      run.payload.orderId in db && db[run.payload.orderId].audit != [] && EndFits(run.pc, End(db[run.payload.orderId].audit))
  }

  ghost predicate LogsChained(db: Db) {
    forall id :: id in db ==> Chained(db[id])
  }

  ghost predicate RunsFit(db: Db, runs: map<RunId, Run>) {
    forall r :: r in runs ==> RunFits(db, runs[r])
  }

  ghost predicate InOrder(s: Sys) {
    LogsChained(s.db) && RunsFit(s.db, s.runs)
  }

  /** A run's next place asks for no other end of the log. */
  ghost predicate PlaceKept(run: Run, run': Run) {
    PastCreate(run'.pc) ==>
      PastCreate(run.pc) && run'.payload == run.payload && forall end :: EndFits(run.pc, end) ==> EndFits(run'.pc, end)
  }

  lemma MovedFits(db: Db, runs: map<RunId, Run>, r: RunId, run': Run)
    requires RunsFit(db, runs) && if r in runs then PlaceKept(runs[r], run') else !PastCreate(run'.pc)
    ensures RunsFit(db, runs[r := run'])
  {
    hide PastCreate, EndFits;
    assert r in runs ==> RunFits(db, runs[r]);
  }

  /** Between transitions a run's place is kept in this sense. */
  lemma PcMoves(locks: Locks, db: Db, now: nat, run: Run, move: RunAct)
    requires RunCan(run, move) && !move.InsertOrder? && !move.ChangeStatus?
    ensures PlaceKept(run, NextRun(locks, db, now, run, move))
  {
  }

  /** A row update that leaves version and stamps alone, and takes no order back. */
  lemma BareInOrder(s: Sys, id: OrderId, row: OrderRow)
    requires InOrder(s) && id in s.db
    requires row.version == s.db[id].row.version && row.stamps == s.db[id].row.stamps
    requires Early(row.status) ==> s.db[id].audit != [] && Early(End(s.db[id].audit))
    ensures InOrder(s.(db := WithRow(s.db, id, row)))
  {
    hide Progress, StampsOf, EdgesAllowed, EndFits, PastCreate;
    assert Chained(s.db[id]);
    forall r | r in s.runs ensures RunFits(WithRow(s.db, id, row), s.runs[r]) {
      assert RunFits(s.db, s.runs[r]);
    }
  }

  lemma EarlyEnd(s: Sys, id: OrderId)
    requires InOrder(s) && id in s.db
    ensures s.db[id].audit != [] && (Early(s.db[id].row.status) ==> Early(End(s.db[id].audit)))
  {
    assert Chained(s.db[id]);
  }

  lemma RunStepInOrder(s: Sys, r: RunId, move: RunAct)
    requires InOrder(s) && Enabled(s, ByRun(r, move)) && !move.InsertOrder? && !move.ChangeStatus?
    ensures InOrder(Apply(s, ByRun(r, move)))
  {
    var s' := Apply(s, ByRun(r, move));
    var id := s.runs[r].payload.orderId;
    PcMoves(s.locks, s.db, s.clock, s.runs[r], move);
    DbUntouched(s.db, s.clock, r, s.runs[r], move);
    if id in s.db {
      EarlyEnd(s, id);
    }
    hide NextRun, NextDb, RunCan, PlaceKept, RunsFit, LogsChained, NextLocks, NextDlq;
    if (move.CountUp? || move.MarkDead?) && id in s.db {
      BareInOrder(s, id, s'.db[id].row);
    }
    MovedFits(s'.db, s.runs, r, s'.runs[r]);
  }

  lemma OutsideInOrder(s: Sys, st: Step)
    requires InOrder(s) && Enabled(s, st) && !st.ByRun? && HarmlessPatch(s, st)
    ensures InOrder(Apply(s, st))
  {
    var s' := Apply(s, st);
    if st.PatchStatus? && st.orderId in s.db {
      EarlyEnd(s, st.orderId);
      BareInOrder(s, st.orderId, s'.db[st.orderId].row);
    } else if st.Deliver? || st.HandleFailure? {
      hide RunsFit, LogsChained;
      MovedFits(s.db, s.runs, st.r, s'.runs[st.r]);
    }
  }

  // ----- inserts and transitions -----

  lemma NewChained(p: Payload, now: nat, author: Actor)
    ensures Chained(NewRecord(p, now, author))
    ensures NewRecord(p, now, author).audit != [] && End(NewRecord(p, now, author).audit) == Queued
  {
    InsertKeeps(map[], p, now, author);
  }

  lemma InsertInOrder(s: Sys, r: RunId, ackLost: bool)
    requires Inv(s) && InOrder(s) && Enabled(s, ByRun(r, InsertOrder(ackLost)))
    ensures InOrder(Apply(s, ByRun(r, InsertOrder(ackLost))))
  {
    hide Inv, Chained, LogMatches, PayloadFits, KeyTaken, NewRecord;
    var s' := Apply(s, ByRun(r, InsertOrder(ackLost)));
    var run := s.runs[r];
    NewChained(run.payload, run.startedAt, Author(r, run));
    assert forall id :: id in s.db ==> id in s'.db && s'.db[id] == s.db[id];
    forall p | p in s'.runs ensures RunFits(s'.db, s'.runs[p]) {
      if p != r {
        assert RunFits(s.db, s.runs[p]);
      }
    }
  }

  /** A commit takes the log one step along the table. */
  lemma CommitFollows(s: Sys, r: RunId)
    requires Inv(s) && InOrder(s) && r in s.runs && s.runs[r].pc.Commit?
    requires ChangeOutcomeOf(s.db, ChangeOf(s.runs[r], s.runs[r].pc.stage)) == Committed
    ensures var run := s.runs[r]; var id := run.payload.orderId; var c := ChangeOf(run, run.pc.stage);
            id in s.db && s.db[id].audit != [] && Allowed(End(s.db[id].audit), c.next) &&
            (c.next == Failed ==> Early(End(s.db[id].audit))) &&
            Chained(Transition(s.db, c, run.startedAt, Author(r, run))[id])
  {
    hide Inv, LogMatches, Progress;
    var run := s.runs[r];
    var id := run.payload.orderId;
    var c := ChangeOf(run, run.pc.stage);
    assert Chained(s.db[id]) && RunFits(s.db, run);
    LogNotEmpty(s.db[id]);
    var entry := ChangeAudit(c, run.startedAt, Author(r, run));
    ExtendProgress(s.db[id].audit, entry);
    UniqueIn(s);
    TransitionKeeps(s.db, c, run.startedAt, Author(r, run));
  }

  lemma LogNotEmpty(rec: Record)
    requires LogMatches(rec)
    ensures rec.audit != []
  {
  }

  lemma UniqueIn(s: Sys)
    requires Inv(s)
    ensures UniqueKeys(s.db)
  {
    hide UniqueKeys;
  }

  /** A run past createOrder has inserted, and is the only one for its order. */
  lemma OneWorker(s: Sys, p: RunId, r: RunId)
    requires Inv(s) && p in s.runs && r in s.runs && p != r && s.runs[p].payload.orderId == s.runs[r].payload.orderId
    requires PastCreate(s.runs[p].pc)
    ensures !PastCreate(s.runs[r].pc)
  {
    hide RecordInv, ReadFits, UniqueKeys;
    assert RunInv(s.clock, s.jobs, s.db, p, s.runs[p]) && RunInv(s.clock, s.jobs, s.db, r, s.runs[r]);
    if PastCreate(s.runs[r].pc) {
      OneInserter(s, p, r);
    }
  }

  /** Where the run that committed, or failed to, stands afterwards. */
  lemma AfterCommit(run: Run, ackLost: bool, outcome: ChangeOutcome)
    requires run.pc.Commit?
    ensures var pc' := if ackLost then AfterThrow(run) else AfterChange(run.pc.stage, outcome);
            (PastCreate(pc') ==> PastCreate(run.pc) && outcome == Committed && EndFits(pc', ChangeOf(run, run.pc.stage).next)) &&
            (!PastCreate(run.pc) ==> ChangeOf(run, run.pc.stage).next == Failed)
  {
  }

  /** The log of run r's order got one entry more, to this status, and r went on to pc. */
  lemma LongerLogInOrder(s: Sys, s': Sys, r: RunId, pc: Pc, entry: AuditRow, row: OrderRow)
    requires Inv(s) && InOrder(s) && r in s.runs && s.runs[r].payload.orderId in s.db
    requires s'.runs == s.runs[r := s.runs[r].(pc := pc)]
    requires var id := s.runs[r].payload.orderId;
             && s'.db == s.db[id := Record(row, s.db[id].items, s.db[id].audit + [entry])] && Chained(s'.db[id])
             && s.db[id].audit != [] && (entry.to == Failed ==> Early(End(s.db[id].audit)))
    requires PastCreate(pc) ==> EndFits(pc, entry.to)
    requires !PastCreate(s.runs[r].pc) ==> entry.to == Failed
    ensures InOrder(s')
  {
    hide Inv, Chained, PastCreate, EndFits;
    var id := s.runs[r].payload.orderId;
    assert End(s'.db[id].audit) == entry.to;
    forall p | p in s'.runs ensures RunFits(s'.db, s'.runs[p]) {
      if p != r {
        assert RunFits(s.db, s.runs[p]);
        if PastCreate(s.runs[p].pc) && s.runs[p].payload.orderId == id {
          OneWorker(s, p, r);
          FailedFits(s.runs[p].pc, End(s.db[id].audit));
        }
      }
    }
  }

  lemma ChangeInOrder(s: Sys, r: RunId, ackLost: bool)
    requires Inv(s) && InOrder(s) && Enabled(s, ByRun(r, ChangeStatus(ackLost)))
    ensures InOrder(Apply(s, ByRun(r, ChangeStatus(ackLost))))
  {
    hide Inv, LogsChained, RunsFit, Chained, EndFits, StageFits, PastCreate, AfterChange, AfterThrow, ChangedRow, ChangeAudit, NextLocks, NextDlq;
    var s' := Apply(s, ByRun(r, ChangeStatus(ackLost)));
    var run := s.runs[r];
    var c := ChangeOf(run, run.pc.stage);
    AfterCommit(run, ackLost, ChangeOutcomeOf(s.db, c));
    if ChangeOutcomeOf(s.db, c) == Committed {
      CommitFollows(s, r);
      var entry := ChangeAudit(c, run.startedAt, Author(r, run));
      EntryTo(c, run.startedAt, Author(r, run));
      LongerLogInOrder(s, s', r, s'.runs[r].pc, entry, s'.db[run.payload.orderId].row);
    } else {
      MovedFits(s.db, s.runs, r, s'.runs[r]);
    }
  }

  lemma EntryTo(c: Change, now: nat, author: Actor)
    ensures ChangeAudit(c, now, author).to == c.next
  {
  }

  lemma FailedFits(pc: Pc, end: Status)
    requires EndFits(pc, end) && Early(end)
    ensures EndFits(pc, Failed)
  {
  }

  lemma StepInOrder(s: Sys, st: Step)
    requires Inv(s) && InOrder(s) && Enabled(s, st) && HarmlessPatch(s, st)
    ensures InOrder(Apply(s, st))
  {
    hide Inv, InOrder, HarmlessPatch, Apply;
    if !st.ByRun? {
      OutsideInOrder(s, st);
    } else if st.move.InsertOrder? {
      InsertInOrder(s, st.r, st.move.ackLost);
    } else if st.move.ChangeStatus? {
      ChangeInOrder(s, st.r, st.move.ackLost);
    } else {
      RunStepInOrder(s, st.r, st.move);
    }
  }

  lemma {:induction false} AlwaysInOrder(b: Behavior, n: nat)
    requires IsBehavior(b) && HarmlessPatches(b) && n < |b.states|
    ensures InOrder(b.states[n])
  {
    hide IsBehavior, HarmlessPatches, HarmlessPatch, Inv, Apply, Enabled, InOrder, Init;
    FirstOf(b);
    if n > 0 {
      AlwaysInOrder(b, n - 1);
      Reachable(b, n - 1);
      StepOf(b, n - 1);
      PatchOf(b, n - 1);
      StepInOrder(b.states[n - 1], b.steps[n - 1]);
    } else {
      FirstInOrder(b.states[0]);
    }
  }

  lemma PatchOf(b: Behavior, n: nat)
    requires HarmlessPatches(b) && n < |b.steps| && n < |b.states|
    ensures HarmlessPatch(b.states[n], b.steps[n])
  {
  }

  lemma FirstInOrder(s: Sys)
    requires Init(s)
    ensures InOrder(s)
  {
  }

  /** The log of an order in any state of a behavior without harmful PATCHes. */
  lemma ChainedAt(b: Behavior, n: nat, id: OrderId)
    requires IsBehavior(b) && HarmlessPatches(b) && n < |b.states| && id in b.states[n].db
    ensures Chained(b.states[n].db[id])
  {
    hide IsBehavior, HarmlessPatches, Chained;
    AlwaysInOrder(b, n);
    assert LogsChained(b.states[n].db);
  }

  // ----- timestamps -----

  /** Every timestamp column of the row is the time of the one log entry into its status,
      and the columns follow the order of the log. */
  lemma TimestampsInOrder(b: Behavior, n: nat, id: OrderId, i: nat, j: nat)
    requires IsBehavior(b) && HarmlessPatches(b) && n < |b.states| && id in b.states[n].db
    requires i <= j < |b.states[n].db[id].audit|
    ensures var rec := b.states[n].db[id];
            var ci, cj := TimestampColumn(rec.audit[i].to), TimestampColumn(rec.audit[j].to);
            ci.Some? && cj.Some? && ci.value in rec.row.stamps && cj.value in rec.row.stamps &&
            rec.row.stamps[ci.value] == rec.audit[i].at && rec.row.stamps[ci.value] <= rec.row.stamps[cj.value] &&
            ci.value == (match rec.audit[i].to
                         case Queued => QueuedAt
                         case Saved => SavedAt
                         case SentToPos => SentToPosAt
                         case Completed => CompletedAt
                         case _ => FailedAt)
  {
    hide IsBehavior, HarmlessPatches, Apply, Enabled, StampsOf, Progress;
    ChainedAt(b, n, id);
    AuditAccounts(b, n, id);
    StampIsEntry(b.states[n].db[id].audit, i);
    StampIsEntry(b.states[n].db[id].audit, j);
  }

  lemma {:induction false} ColumnsDiffer(audit: seq<AuditRow>, i: nat, k: nat)
    requires Progress(audit) && i < |audit| && k < |audit| && i != k
    ensures TimestampColumn(audit[i].to).Some? && TimestampColumn(audit[i].to) != TimestampColumn(audit[k].to)
  {
    assert i == 0 || Follows(audit, i);
    if k < i {
      LogShape(audit, k, i);
    } else {
      LogShape(audit, i, k);
    }
  }

  lemma {:induction false} StampIsEntry(audit: seq<AuditRow>, i: nat)
    requires Progress(audit) && i < |audit|
    ensures TimestampColumn(audit[i].to).Some? && TimestampColumn(audit[i].to).value in StampsOf(audit) &&
            StampsOf(audit)[TimestampColumn(audit[i].to).value] == audit[i].at
  {
    assert i == 0 || Follows(audit, i);
    var column := TimestampColumn(audit[i].to).value;
    StampSetIff(audit, column);
    forall k | 0 <= k < |audit| && k != i ensures TimestampColumn(audit[k].to) != Some(column) {
      ColumnsDiffer(audit, i, k);
    }
  }

  // ----- the histories -----

  /** Whatever crashes, races and reports an order goes through, its log is one of six. */
  lemma SixHistories(b: Behavior, n: nat, id: OrderId)
    requires IsBehavior(b) && HarmlessPatches(b) && n < |b.states| && id in b.states[n].db
    ensures Statuses(b.states[n].db[id].audit) in
            {[Queued], [Queued, Saved], [Queued, Saved, SentToPos], [Queued, Saved, SentToPos, Completed],
             [Queued, Failed], [Queued, Saved, Failed]}
  {
    hide IsBehavior, HarmlessPatches, Progress, Statuses;
    ChainedAt(b, n, id);
    LogIsOneOfSix(b.states[n].db[id].audit);
  }

  // ----- the two ends -----

  /** Races between workers, redeliveries and the unlocked dead-letter path cannot
      mix the two ends: COMPLETED and FAILED never share a log, FAILED never follows
      SENT_TO_POS, and a log that has reached either is final. */
  lemma TerminalExclusion(b: Behavior, n: nat, m: nat, id: OrderId, i: nat, j: nat)
    requires IsBehavior(b) && HarmlessPatches(b) && n <= m < |b.states| && id in b.states[n].db
    requires i < |b.states[n].db[id].audit| && id in b.states[m].db && j < |b.states[m].db[id].audit|
    ensures |b.states[m].db[id].audit| <= 4
    ensures b.states[n].db[id].audit[i].to == SentToPos ==> b.states[m].db[id].audit[j].to != Failed
    ensures IsTerminal(b.states[n].db[id].audit[i].to) ==>
              i == |b.states[n].db[id].audit| - 1 && b.states[m].db[id].audit == b.states[n].db[id].audit
    ensures b.states[n].db[id].audit[i].to == Completed ==> b.states[m].db[id].audit[j].to != Failed
    ensures b.states[n].db[id].audit[i].to == Failed ==> b.states[m].db[id].audit[j].to != Completed
  {
    hide IsBehavior, HarmlessPatches, Progress, LogMatches;
    ChainedAt(b, m, id);
    HistoryGrows(b, n, m);
    var audit := b.states[m].db[id].audit;
    assert RecordGrows(b.states[n].db[id], b.states[m].db[id]);
    LogRank(audit, |audit| - 1);
    if i < j { LogShape(audit, i, j); }
    if j < i { LogShape(audit, j, i); }
    if i < |audit| - 1 { LogShape(audit, i, |audit| - 1); }
  }

  // ----- orders whose inserter is gone -----

  /** The later log is the earlier one, or that and one FAILED. */
  ghost predicate OnlyFailedAfter(audit: seq<AuditRow>, audit': seq<AuditRow>) {
    audit' == audit ||
    (|audit'| == |audit| + 1 && audit'[..|audit|] == audit && audit'[|audit|].to == Failed)
  }

  /** The order's log is this one or has one FAILED more, and its inserter is over. */
  ghost predicate Orphaned(s: Sys, id: OrderId, audit: seq<AuditRow>) {
    && audit != [] && id in s.db && OnlyFailedAfter(audit, s.db[id].audit)
    && audit[0].author.run in s.runs && Over(s.runs[audit[0].author.run])
  }

  /** A commit on an order whose inserter is over can only be FAILED, and only once. */
  lemma OrphanCommit(s: Sys, r: RunId, audit: seq<AuditRow>)
    requires Inv(s) && r in s.runs && s.runs[r].pc.Commit? && s.runs[r].payload.orderId in s.db && audit != []
    requires Chained(s.db[s.runs[r].payload.orderId])
    requires OnlyFailedAfter(audit, s.db[s.runs[r].payload.orderId].audit)
    requires audit[0].author.run in s.runs && Over(s.runs[audit[0].author.run])
    ensures var run := s.runs[r]; var id := run.payload.orderId;
            OnlyFailedAfter(audit, Transition(s.db, ChangeOf(run, run.pc.stage), run.startedAt, Author(r, run))[id].audit)
  {
    hide RecordInv, UniqueKeys, EdgesAllowed, StampsOf, ReadFits;
    assert RunInv(s.clock, s.jobs, s.db, r, s.runs[r]);
  }

  lemma OrphanStep(s: Sys, st: Step, id: OrderId, audit: seq<AuditRow>)
    requires Inv(s) && InOrder(s) && Enabled(s, st) && Orphaned(s, id, audit)
    ensures Orphaned(Apply(s, st), id, audit)
  {
    hide Inv, Chained, OnlyFailedAfter, NextRequest, NextClaims, NextJobs, NextLocks, InsertOutcomeOf;
    OverStays(s, st, audit[0].author.run);
    hide NextRun, RunCan, Over;
    assert Chained(s.db[id]);
    if st.ByRun? && st.move.ChangeStatus? && s.runs[st.r].payload.orderId == id {
      assert s.runs[st.r].pc.Commit? by {
        CommitPoint(s.runs[st.r], st.move);
      }
      OrphanCommit(s, st.r, audit);
    } else {
      LogUntouched(s, st, id);
    }
  }

  lemma CommitPoint(run: Run, move: RunAct)
    requires RunCan(run, move) && move.ChangeStatus?
    ensures run.pc.Commit?
  {
  }

  lemma OverStays(s: Sys, st: Step, r: RunId)
    requires Enabled(s, st) && r in s.runs && Over(s.runs[r])
    ensures r in Apply(s, st).runs && Over(Apply(s, st).runs[r])
  {
    hide NextDb, NextLocks, NextDlq, NextRequest, NextClaims, NextJobs;
  }

  lemma LogUntouched(s: Sys, st: Step, id: OrderId)
    requires Enabled(s, st) && id in s.db
    requires !(st.ByRun? && st.move.ChangeStatus? && s.runs[st.r].payload.orderId == id)
    ensures id in Apply(s, st).db && Apply(s, st).db[id].audit == s.db[id].audit
  {
    hide NextRun, NextLocks, NextDlq, NextRequest, NextClaims, NextJobs;
  }

  lemma {:induction false} AlwaysOrphaned(b: Behavior, n: nat, m: nat, id: OrderId, audit: seq<AuditRow>)
    requires IsBehavior(b) && HarmlessPatches(b) && n <= m < |b.states| && Orphaned(b.states[n], id, audit)
    ensures Orphaned(b.states[m], id, audit)
    decreases m
  {
    hide IsBehavior, HarmlessPatches, Orphaned;
    if n < m {
      AlwaysOrphaned(b, n, m - 1, id, audit);
      NextOrphaned(b, m - 1, id, audit);
    }
  }

  lemma NextOrphaned(b: Behavior, n: nat, id: OrderId, audit: seq<AuditRow>)
    requires IsBehavior(b) && HarmlessPatches(b) && n + 1 < |b.states| && Orphaned(b.states[n], id, audit)
    ensures Orphaned(b.states[n + 1], id, audit)
  {
    hide IsBehavior, HarmlessPatches, Inv, Apply, Enabled, InOrder, Orphaned;
    Reachable(b, n);
    AlwaysInOrder(b, n);
    StepOf(b, n);
    OrphanStep(b.states[n], b.steps[n], id, audit);
  }

  /** Once the run that inserted an order is over, nobody resumes the order: a
      redelivered job only finds the duplicate. All that can still happen to the log,
      ever, is one FAILED; a COMPLETED or SENT_TO_POS never comes. */
  lemma OrphanedOrderOnlyFails(b: Behavior, n: nat, m: nat, id: OrderId)
    requires IsBehavior(b) && HarmlessPatches(b) && n <= m < |b.states| && id in b.states[n].db
    requires b.states[n].db[id].audit != [] && b.states[n].db[id].audit[0].author.run in b.states[n].runs
    requires Over(b.states[n].runs[b.states[n].db[id].audit[0].author.run])
    ensures id in b.states[m].db && OnlyFailedAfter(b.states[n].db[id].audit, b.states[m].db[id].audit)
  {
    hide IsBehavior, HarmlessPatches;
    AlwaysOrphaned(b, n, m, id, b.states[n].db[id].audit);
  }

  // ----- without any PATCH -----

  ghost predicate AllDetermined(db: Db) {
    forall id :: id in db ==> LogDetermines(db[id])
  }

  lemma ChangeDetermines(db: Db, c: Change, now: nat, author: Actor)
    requires UniqueKeys(db) && AllDetermined(db)
    ensures AllDetermined(Transition(db, c, now, author))
  {
    hide UniqueKeys, LogDetermines;
    if ChangeOutcomeOf(db, c) == Committed {
      DeterminesMatches(db[c.orderId]);
      TransitionKeeps(db, c, now, author);
    }
  }

  lemma DeterminesMatches(rec: Record)
    requires LogDetermines(rec)
    ensures LogMatches(rec)
  {
  }

  lemma InsertDetermines(db: Db, p: Payload, now: nat, author: Actor)
    requires UniqueKeys(db) && AllDetermined(db)
    ensures AllDetermined(Insert(db, p, now, author))
  {
    hide UniqueKeys, LogDetermines;
    InsertKeeps(db, p, now, author);
  }

  lemma BareDetermines(db: Db, id: OrderId, row: OrderRow)
    requires AllDetermined(db) && id in db
    requires row == db[id].row.(retryCount := row.retryCount, dlqAt := row.dlqAt, failureReason := row.failureReason)
    ensures AllDetermined(WithRow(db, id, row))
  {
    assert LogDetermines(db[id]);
  }

  lemma StepDetermines(s: Sys, st: Step)
    requires Inv(s) && Enabled(s, st) && AllDetermined(s.db) && !st.PatchStatus?
    ensures AllDetermined(Apply(s, st).db)
  {
    UniqueIn(s);
    hide Inv, NextRun, UniqueKeys, AllDetermined, NextDb, RunCan, NextLocks, NextDlq, NextRequest, NextClaims, NextJobs, ReqCan;
    if st.ByRun? {
      RunDetermines(s.db, s.clock, st.r, s.runs[st.r], st.move);
    }
  }

  lemma RunDetermines(db: Db, now: nat, r: RunId, run: Run, move: RunAct)
    requires UniqueKeys(db) && AllDetermined(db) && RunCan(run, move)
    ensures AllDetermined(NextDb(db, now, r, run, move))
  {
    hide UniqueKeys, AllDetermined, Insert, Transition, WithRow;
    if move.InsertOrder? {
      InsertDetermines(db, run.payload, run.startedAt, Author(r, run));
    } else if move.ChangeStatus? {
      ChangeDetermines(db, ChangeOf(run, run.pc.stage), run.startedAt, Author(r, run));
    } else {
      DbUntouched(db, now, r, run, move);
      if (move.CountUp? || move.MarkDead?) && run.payload.orderId in db {
        BareDetermines(db, run.payload.orderId, NextDb(db, now, r, run, move)[run.payload.orderId].row);
      }
    }
  }

  lemma {:induction false} AlwaysDetermined(b: Behavior, n: nat)
    requires IsBehavior(b) && WithoutPatch(b) && n < |b.states|
    ensures AllDetermined(b.states[n].db)
  {
    FirstOf(b);
    if n > 0 {
      assert !b.steps[n - 1].PatchStatus?;
      hide IsBehavior, WithoutPatch, Inv, Apply, Enabled, AllDetermined, Init;
      AlwaysDetermined(b, n - 1);
      Reachable(b, n - 1);
      StepOf(b, n - 1);
      StepDetermines(b.states[n - 1], b.steps[n - 1]);
    }
  }

  /** Without PATCH the log determines the row: it starts from nothing, links end to
      end over table edges, ends at the current status, counts version + 1. */
  lemma AuditDeterminesRow(b: Behavior, n: nat, id: OrderId)
    requires IsBehavior(b) && WithoutPatch(b) && n < |b.states| && id in b.states[n].db
    ensures LogDetermines(b.states[n].db[id])
    ensures b.states[n].db[id].row.version <= Rank(b.states[n].db[id].row.status) <= 3
  {
    hide IsBehavior, WithoutPatch, StampsOf;
    AlwaysDetermined(b, n);
    var rec := b.states[n].db[id];
    assert LogDetermines(rec);
    LinkedProgress(rec.audit);
    LogRank(rec.audit, rec.row.version);
  }
}
