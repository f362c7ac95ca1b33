/** Which failure reports end in the dead-letter queue, and what has become of the order
    when a letter is buried. */
module PipelineDeadLetter {
  import opened OrderStateMachine
  import opened DistributedLock
  import opened OrderStore
  import opened OrderQueue
  import opened Pipeline
  import opened PipelineHistory
  import opened PipelineProgress
  import opened PipelineGateLimits
  import opened PipelinePatch

  /** findById answers with no row, or with a status a report can deal with. */
  predicate Buriable(db: Db, id: OrderId) {
    id !in db || Reportable(db[id].row.status)
  }

  /** The FAILED transition of a report is refused exactly when the status read is past
      the early ones; what a state lookup of a POS status ends in is refused too. */
  lemma RefusedIff(db: Db, run: Run)
    ensures ChangeOutcomeOf(db, ChangeOf(run, ToFailed)) == Refused <==> !Early(run.status)
  {
    FailsIffEarly(run.status);
  }

  // ----- a report's read, and what happened since -----

  /** The last of the first n steps in which the run read its order. */
  ghost function FoundAt(b: Behavior, n: nat, r: RunId): (j: Option<nat>)
    ensures j.Some? ==> j.value < n && j.value < |b.steps| && b.steps[j.value] == ByRun(r, FindOrder)
  {
    if n == 0 then None
    else if n <= |b.steps| && b.steps[n - 1] == ByRun(r, FindOrder) then Some(n - 1)
    else FoundAt(b, n - 1, r)
  }

  /** One of the first n steps is the run's letter. */
  ghost predicate Buries(b: Behavior, n: nat, r: RunId) {
    n > 0 && ((n <= |b.steps| && b.steps[n - 1] == ByRun(r, PublishDead)) || Buries(b, n - 1, r))
  }

  /** One of the steps from j to n is a PATCH of this order. */
  ghost predicate Patched(b: Behavior, j: nat, n: nat, id: OrderId)
    decreases n
  {
    j < n && ((n <= |b.steps| && b.steps[n - 1].PatchStatus? && b.steps[n - 1].orderId == id) || Patched(b, j, n - 1, id))
  }

  /** Since the read in step j nobody needs the order any more, or somebody has changed it. */
  ghost predicate Settled(b: Behavior, j: nat, n: nat, id: OrderId)
    requires j <= n < |b.states|
  {
    || id !in b.states[j].db
    || IsTerminal(b.states[j].db[id].row.status)
    || (id in b.states[n].db && b.states[j].db[id].row.version < b.states[n].db[id].row.version)
    || Patched(b, j, n, id)
  }

  /** The run holds what it read in step j, and that was not terminal. */
  ghost predicate Holds(b: Behavior, j: nat, run: Run) {
    j < |b.states| && run.payload.orderId in b.states[j].db &&
    var row := b.states[j].db[run.payload.orderId].row;
    run.status == row.status && run.version == row.version && !IsTerminal(row.status)
  }

  ghost predicate Traced(b: Behavior, n: nat, r: RunId)
    requires n < |b.states|
  {
    r in b.states[n].runs ==>
      var run := b.states[n].runs[r];
      var found := FoundAt(b, n, r);
      && (run.pc == Begin(ToFailed) || run.pc == Commit(ToFailed) ==> found.Some? && Holds(b, found.value, run))
      && (run.pc == Mark || run.pc == DeadLetterOut ==>
            found.Some? && found.value < |b.states| && Buriable(b.states[found.value].db, run.payload.orderId) &&
            Settled(b, found.value, n, run.payload.orderId))
  }

  /** How a failure handler gets from place to place. */
  lemma HandlerMoves(locks: Locks, db: Db, now: nat, run: Run, move: RunAct)
    requires RunCan(run, move)
    ensures var run', id := NextRun(locks, db, now, run, move), run.payload.orderId;
            && run'.payload == run.payload
            && (run'.pc == Begin(ToFailed) ==>
                  move.FindOrder? && id in db && run'.status == db[id].row.status && run'.version == db[id].row.version &&
                  !IsTerminal(db[id].row.status))
            && (run'.pc == Commit(ToFailed) ==>
                  move.BeginTx? && run.pc == Begin(ToFailed) && run'.status == run.status && run'.version == run.version)
            && (run'.pc == Mark ==>
                  (move.FindOrder? && (id !in db || IsTerminal(db[id].row.status))) ||
                  (move.ChangeStatus? && run.pc == Commit(ToFailed) && ChangeOutcomeOf(db, ChangeOf(run, ToFailed)) != Refused))
            && (run'.pc == DeadLetterOut ==> move.MarkDead? && run.pc == Mark)
  {
    hide InsertOutcomeOf, ChangeOutcomeOf, ChangeOf;
  }

  /** Only a commit or a PATCH changes a row's status, and a commit counts the version up. */
  lemma RowStep(s: Sys, st: Step, id: OrderId)
    requires Enabled(s, st) && id in s.db
    ensures id in Apply(s, st).db
    ensures var row, row' := s.db[id].row, Apply(s, st).db[id].row;
            row.version <= row'.version &&
            (row'.version == row.version && row'.status != row.status ==> st.PatchStatus? && st.orderId == id)
  {
    hide NextRun, NextLocks, NextDlq, NextRequest, NextClaims, NextJobs, PayloadFits, KeyTaken;
  }

  lemma {:induction false} RowSince(b: Behavior, j: nat, n: nat, id: OrderId)
    requires IsBehavior(b) && j <= n < |b.states| && id in b.states[j].db
    ensures id in b.states[n].db
    ensures var row, row' := b.states[j].db[id].row, b.states[n].db[id].row;
            row.version <= row'.version &&
            (row'.version == row.version && row'.status != row.status ==> Patched(b, j, n, id))
    decreases n
  {
    hide IsBehavior, Apply, Enabled, Init;
    FirstOf(b);
    if j < n {
      RowSince(b, j, n - 1, id);
      StepOf(b, n - 1);
      RowStep(b.states[n - 1], b.steps[n - 1], id);
    }
  }

  lemma SettledStays(b: Behavior, j: nat, n: nat, id: OrderId)
    requires IsBehavior(b) && j < n < |b.states| && Settled(b, j, n - 1, id)
    ensures Settled(b, j, n, id)
  {
    hide IsBehavior, Apply, Enabled;
    if id in b.states[j].db && id in b.states[n - 1].db {
      RowSince(b, n - 1, n, id);
    }
  }

  /** A FAILED commit, done or stale, settles the order. */
  lemma CommitSettles(b: Behavior, j: nat, n: nat, r: RunId)
    requires IsBehavior(b) && j < n < |b.states| && r in b.states[n - 1].runs && b.states[n - 1].runs[r].pc == Commit(ToFailed)
    requires Holds(b, j, b.states[n - 1].runs[r]) && b.steps[n - 1].ByRun? && b.steps[n - 1].r == r && b.steps[n - 1].move.ChangeStatus?
    requires ChangeOutcomeOf(b.states[n - 1].db, ChangeOf(b.states[n - 1].runs[r], ToFailed)) != Refused
    ensures Buriable(b.states[j].db, b.states[n - 1].runs[r].payload.orderId)
    ensures Settled(b, j, n, b.states[n - 1].runs[r].payload.orderId)
  {
    hide IsBehavior, Apply, Enabled, Patched, ChangeOutcomeOf;
    StepOf(b, n - 1);
    var run := b.states[n - 1].runs[r];
    var id := run.payload.orderId;
    RefusedIff(b.states[n - 1].db, run);
    RowSince(b, j, n - 1, id);
    RowSince(b, n - 1, n, id);
    CommitOrStale(b.states[n - 1], r, b.steps[n - 1].move.ackLost);
    if Patched(b, j, n - 1, id) {
      PatchedStays(b, j, n, id);
    }
  }

  lemma PatchedStays(b: Behavior, j: nat, n: nat, id: OrderId)
    requires 0 < n && Patched(b, j, n - 1, id)
    ensures Patched(b, j, n, id)
  {
  }

  lemma CommitOrStale(s: Sys, r: RunId, ackLost: bool)
    requires Enabled(s, ByRun(r, ChangeStatus(ackLost))) && s.runs[r].pc == Commit(ToFailed)
    requires s.runs[r].payload.orderId in s.db && ChangeOutcomeOf(s.db, ChangeOf(s.runs[r], ToFailed)) != Refused
    ensures var run, id := s.runs[r], s.runs[r].payload.orderId; var row := s.db[id].row;
            row.version != run.version || row.status != run.status ||
            (id in Apply(s, ByRun(r, ChangeStatus(ackLost))).db &&
             Apply(s, ByRun(r, ChangeStatus(ackLost))).db[id].row.version == run.version + 1)
  {
  }

  lemma {:induction false} AlwaysTraced(b: Behavior, n: nat, r: RunId)
    requires IsBehavior(b) && n < |b.states|
    ensures Traced(b, n, r)
  {
    hide IsBehavior, Apply, Enabled, Init, Settled, Holds, Buriable;
    FirstOf(b);
    if n == 0 {
      NoRunsYet(b.states[0]);
    } else {
      AlwaysTraced(b, n - 1, r);
      StepOf(b, n - 1);
      var s, st := b.states[n - 1], b.steps[n - 1];
      if st.ByRun? && st.r == r {
        OwnTrace(b, n, r);
      } else if r in b.states[n].runs {
        ForeignTrace(s, st, r);
        if r in s.runs && (s.runs[r].pc == Mark || s.runs[r].pc == DeadLetterOut) {
          SettledStays(b, FoundAt(b, n - 1, r).value, n, s.runs[r].payload.orderId);
        }
      }
    }
  }

  lemma NoRunsYet(s: Sys)
    requires Init(s)
    ensures s.runs == map[]
  {
  }

  /** A run others leave alone, or has just begun. */
  lemma ForeignTrace(s: Sys, st: Step, r: RunId)
    requires Enabled(s, st) && !(st.ByRun? && st.r == r) && r in Apply(s, st).runs
    ensures (r in s.runs && Apply(s, st).runs[r] == s.runs[r]) ||
            (r !in s.runs && (st.Deliver? || st.HandleFailure?) && st.r == r &&
             Apply(s, st).runs[r].pc in {Lock, CountRetry, Find(ToFailed)})
  {
    hide NextRun, NextDb, NextLocks, NextDlq, NextRequest, NextClaims, NextJobs;
  }

  lemma OwnMove(s: Sys, r: RunId, move: RunAct)
    requires Enabled(s, ByRun(r, move))
    ensures r in s.runs && RunCan(s.runs[r], move) && r in Apply(s, ByRun(r, move)).runs &&
            Apply(s, ByRun(r, move)).runs[r] == NextRun(s.locks, s.db, s.clock, s.runs[r], move)
  {
    hide NextRun, NextDb, NextLocks, NextDlq, RunCan;
  }

  lemma OwnTrace(b: Behavior, n: nat, r: RunId)
    requires IsBehavior(b) && 0 < n < |b.states| && Traced(b, n - 1, r)
    requires n <= |b.steps| && b.steps[n - 1].ByRun? && b.steps[n - 1].r == r
    ensures Traced(b, n, r)
  {
    hide IsBehavior, Apply, Enabled, NextRun, RunCan, ChangeOutcomeOf, ChangeOf, Patched;
    StepOf(b, n - 1);
    var s, move := b.states[n - 1], b.steps[n - 1].move;
    OwnMove(s, r, move);
    var run, run' := s.runs[r], b.states[n].runs[r];
    HandlerMoves(s.locks, s.db, s.clock, run, move);
    if move.ChangeStatus? && run'.pc == Mark {
      CommitSettles(b, FoundAt(b, n - 1, r).value, n, r);
    } else if move.MarkDead? && run'.pc == DeadLetterOut {
      SettledStays(b, FoundAt(b, n - 1, r).value, n, run.payload.orderId);
    }
  }

  // ----- a letter and its order -----

  lemma AtLetter(s: Sys, r: RunId)
    requires Enabled(s, ByRun(r, PublishDead))
    ensures r in s.runs && s.runs[r].pc == DeadLetterOut
    ensures exists at :: LetterId(s.runs[r].payload.orderId, at) in Apply(s, ByRun(r, PublishDead)).dlq
  {
    assert LetterId(s.runs[r].payload.orderId, s.clock) in Apply(s, ByRun(r, PublishDead)).dlq;
  }

  /** When a letter is buried, its handler has found no row or a status a report can deal
      with, and the order was not there or at its end then, or its version has moved since,
      or it was patched since. So without PATCH no job is buried whose order still is as the
      handler found it and waits for something; but as a stale version is swallowed, the
      order may have moved on with a worker. */
  lemma LetterSettles(b: Behavior, i: nat, r: RunId) returns (j: nat)
    requires IsBehavior(b) && i < |b.steps| && b.steps[i] == ByRun(r, PublishDead)
    ensures j < i < |b.states| && b.steps[j] == ByRun(r, FindOrder) && r in b.states[i].runs
    ensures var id := b.states[i].runs[r].payload.orderId;
            Buriable(b.states[j].db, id) && Settled(b, j, i, id) && (WithoutPatch(b) ==> !Patched(b, j, i, id))
  {
    hide IsBehavior, Apply, Enabled, Init, WithoutPatch;
    FirstOf(b);
    StepOf(b, i);
    AlwaysTraced(b, i, r);
    AtLetter(b.states[i], r);
    j := FoundAt(b, i, r).value;
    if WithoutPatch(b) {
      NeverPatched(b, j, i, b.states[i].runs[r].payload.orderId);
    }
  }

  lemma {:induction false} NeverPatched(b: Behavior, j: nat, n: nat, id: OrderId)
    requires WithoutPatch(b)
    ensures !Patched(b, j, n, id)
    decreases n
  {
    if j < n {
      NeverPatched(b, j, n - 1, id);
    }
  }

  // ----- exactly which reports are buried -----

  /** The move of a run whose command fails, with or without effect, or that crashes. */
  predicate Faulty(move: RunAct) {
    match move
    case Throw => true
    case Crash => true
    case ChangeStatus(ackLost) => ackLost
    case MarkDead(ackLost) => ackLost
    case _ => false
  }

  ghost predicate FaultFree(b: Behavior, n: nat, r: RunId) {
    forall i {:trigger b.steps[i]} :: 0 <= i < n && i < |b.steps| && b.steps[i].ByRun? && b.steps[i].r == r ==> !Faulty(b.steps[i].move)
  }

  /** A handler without faults: where it is tells what it has read and buried. */
  ghost predicate Handles(b: Behavior, n: nat, r: RunId)
    requires n < |b.states|
  {
    r in b.states[n].runs &&
    var run := b.states[n].runs[r];
    var found := FoundAt(b, n, r);
    match run.pc
    case Find(ToFailed) => found == None && !Buries(b, n, r)
    case Begin(ToFailed) => found.Some? && !Buries(b, n, r)
    case Commit(ToFailed) => found.Some? && !Buries(b, n, r)
    case Mark => found.Some? && !Buries(b, n, r)
    case DeadLetterOut => found.Some? && !Buries(b, n, r)
    case Ended =>
      found.Some? && found.value < |b.states| &&
      (Buries(b, n, r) <==> Buriable(b.states[found.value].db, run.payload.orderId))
    case _ => false
  }

  lemma {:induction false} NoStepsBefore(b: Behavior, h: nat, n: nat, r: RunId)
    requires IsBehavior(b) && n <= h < |b.states| && r !in b.states[h].runs
    ensures FoundAt(b, n, r) == None && !Buries(b, n, r)
    decreases n
  {
    hide IsBehavior, Apply, Enabled, Grows;
    if n > 0 {
      NoStepsBefore(b, h, n - 1, r);
      StepOf(b, n - 1);
      if b.steps[n - 1].ByRun? && b.steps[n - 1].r == r {
        OwnMove(b.states[n - 1], r, b.steps[n - 1].move);
        HistoryGrows(b, n - 1, h);
      }
    }
  }

  lemma BeginsHandling(b: Behavior, h: nat, r: RunId)
    requires IsBehavior(b) && h < |b.steps| && b.steps[h].HandleFailure? && b.steps[h].r == r
    requires MustDeadLetter(b.steps[h].error, b.steps[h].attempts)
    ensures h + 1 < |b.states| && Handles(b, h + 1, r)
  {
    hide IsBehavior, Init;
    FirstOf(b);
    StepOf(b, h);
    NoStepsBefore(b, h, h, r);
  }

  /** Where a handler's faultless move takes it. */
  lemma HandlerNext(locks: Locks, db: Db, now: nat, run: Run, move: RunAct)
    requires RunCan(run, move) && !Faulty(move)
    ensures var run' := NextRun(locks, db, now, run, move);
            && run'.payload == run.payload
            && (run.pc == Find(ToFailed) ==> move.FindOrder? && (run'.pc == Begin(ToFailed) || run'.pc == Mark))
            && (run.pc == Begin(ToFailed) ==> move.BeginTx? && run'.pc == Commit(ToFailed))
            && (run.pc == Commit(ToFailed) ==>
                  move.ChangeStatus? &&
                  run'.pc == if ChangeOutcomeOf(db, ChangeOf(run, ToFailed)) == Refused then Ended else Mark)
            && (run.pc == Mark ==> move.MarkDead? && run'.pc == DeadLetterOut)
            && (run.pc == DeadLetterOut ==> move.PublishDead? && run'.pc == Ended)
            && run.pc != Ended
  {
    hide InsertOutcomeOf, ChangeOutcomeOf, ChangeOf;
  }

  lemma OwnHandling(b: Behavior, n: nat, r: RunId)
    requires IsBehavior(b) && 0 < n < |b.states| && Handles(b, n - 1, r)
    requires n <= |b.steps| && b.steps[n - 1].ByRun? && b.steps[n - 1].r == r && !Faulty(b.steps[n - 1].move)
    ensures Handles(b, n, r)
  {
    hide IsBehavior, Apply, Enabled, NextRun, RunCan, ChangeOutcomeOf, ChangeOf, Settled, Faulty;
    StepOf(b, n - 1);
    var s, move := b.states[n - 1], b.steps[n - 1].move;
    OwnMove(s, r, move);
    HandlerNext(s.locks, s.db, s.clock, s.runs[r], move);
    AlwaysTraced(b, n - 1, r);
    RefusedIff(s.db, s.runs[r]);
  }

  lemma {:induction false} AlwaysHandles(b: Behavior, h: nat, n: nat, r: RunId)
    requires IsBehavior(b) && h < n < |b.states| && h < |b.steps| && b.steps[h].HandleFailure? && b.steps[h].r == r
    requires MustDeadLetter(b.steps[h].error, b.steps[h].attempts) && FaultFree(b, n, r)
    ensures Handles(b, n, r)
    decreases n
  {
    hide IsBehavior, Apply, Enabled, Init, Faulty, Buriable;
    FirstOf(b);
    if n == h + 1 {
      BeginsHandling(b, h, r);
    } else {
      AlwaysHandles(b, h, n - 1, r);
      StepOf(b, n - 1);
      var s, st := b.states[n - 1], b.steps[n - 1];
      if st.ByRun? && st.r == r {
        OwnHandling(b, n, r);
      } else {
        StaysThere(s, st, r);
        ForeignTrace(s, st, r);
      }
    }
  }

  lemma StaysThere(s: Sys, st: Step, r: RunId)
    requires Enabled(s, st) && r in s.runs
    ensures r in Apply(s, st).runs
  {
    hide NextRun, NextDb, NextLocks, NextDlq, NextRequest, NextClaims, NextJobs;
  }

  lemma {:induction false} LetterStays(b: Behavior, n: nat, r: RunId)
    requires IsBehavior(b) && n < |b.states| && Buries(b, n, r) && r in b.states[n].runs
    ensures exists at :: LetterId(b.states[n].runs[r].payload.orderId, at) in b.states[n].dlq
  {
    hide IsBehavior, Apply, Enabled, Init;
    FirstOf(b);
    StepOf(b, n - 1);
    var s, st := b.states[n - 1], b.steps[n - 1];
    if st == ByRun(r, PublishDead) {
      AtLetter(s, r);
      SamePayload(s, st, r);
    } else {
      BuriesMeans(b, n - 1, r);
      SamePayload(s, st, r);
      LetterStays(b, n - 1, r);
      LettersGrow(s, st);
      var at :| LetterId(s.runs[r].payload.orderId, at) in s.dlq;
    }
  }

  lemma {:induction false} BuriesMeans(b: Behavior, n: nat, r: RunId)
    requires IsBehavior(b) && n < |b.states| && Buries(b, n, r)
    ensures r in b.states[n].runs
  {
    hide IsBehavior, Apply, Enabled;
    StepOf(b, n - 1);
    if b.steps[n - 1] == ByRun(r, PublishDead) {
      AtLetter(b.states[n - 1], r);
    } else {
      BuriesMeans(b, n - 1, r);
    }
    StaysThere(b.states[n - 1], b.steps[n - 1], r);
  }

  lemma SamePayload(s: Sys, st: Step, r: RunId)
    requires Enabled(s, st) && r in s.runs
    ensures r in Apply(s, st).runs && Apply(s, st).runs[r].payload == s.runs[r].payload
  {
    hide NextDb, NextLocks, NextDlq, NextRequest, NextClaims, NextJobs, InsertOutcomeOf, ChangeOutcomeOf, AfterThrow, AfterChange;
  }

  lemma LettersGrow(s: Sys, st: Step)
    requires Enabled(s, st)
    ensures forall l :: l in s.dlq ==> l in Apply(s, st).dlq
  {
    hide NextRun, NextDb, NextLocks, NextRequest, NextClaims, NextJobs;
  }

  /** A report that must be dead-lettered, and whose commands all succeed, ends with a letter
      exactly when it read no row or a status a report can deal with: QUEUED, SAVED, FAILED
      or COMPLETED. Whatever others do in between makes no difference. */
  lemma BuriesIff(b: Behavior, h: nat, n: nat, r: RunId) returns (j: nat)
    requires IsBehavior(b) && h < n < |b.states| && h < |b.steps| && b.steps[h].HandleFailure? && b.steps[h].r == r
    requires (b.steps[h].error == BusinessLogic || b.steps[h].attempts >= 2) && FaultFree(b, n, r)
    requires r in b.states[n].runs && b.states[n].runs[r].pc == Ended
    ensures j < n && j < |b.steps| && j < |b.states| && b.steps[j] == ByRun(r, FindOrder)
    ensures var id := b.states[n].runs[r].payload.orderId;
            && (Buries(b, n, r) <==> Buriable(b.states[j].db, id))
            && (Buries(b, n, r) ==> exists at :: LetterId(id, at) in b.states[n].dlq)
  {
    hide IsBehavior, FaultFree, Buriable;
    AlwaysHandles(b, h, n, r);
    j := FoundAt(b, n, r).value;
    if Buries(b, n, r) {
      LetterStays(b, n, r);
    }
  }

  // ----- which reports count a retry -----

  /** A report that only counts, and one that never does. */
  predicate CountPlace(pc: Pc) {
    pc == CountRetry || pc == Ended || pc == Crashed
  }

  predicate LetterPlace(pc: Pc) {
    pc == Find(ToFailed) || pc == Begin(ToFailed) || pc == Commit(ToFailed) || pc == Mark || pc == DeadLetterOut ||
    pc == Ended || pc == Crashed
  }

  lemma PlacesStay(locks: Locks, db: Db, now: nat, run: Run, move: RunAct)
    requires RunCan(run, move)
    ensures CountPlace(run.pc) ==> CountPlace(NextRun(locks, db, now, run, move).pc) && move in {CountUp, Throw, Crash}
    ensures LetterPlace(run.pc) ==> LetterPlace(NextRun(locks, db, now, run, move).pc) && move != CountUp
  {
    hide InsertOutcomeOf, ChangeOutcomeOf, ChangeOf;
  }

  lemma {:induction false} ReportPlace(b: Behavior, h: nat, n: nat, r: RunId)
    requires IsBehavior(b) && h < n < |b.states| && h < |b.steps| && b.steps[h].HandleFailure? && b.steps[h].r == r
    ensures r in b.states[n].runs
    ensures if b.steps[h].error == BusinessLogic || b.steps[h].attempts >= 2 then LetterPlace(b.states[n].runs[r].pc)
            else CountPlace(b.states[n].runs[r].pc)
    ensures b.states[n].runs[r].payload.orderId == b.states[h + 1].runs[r].payload.orderId
    decreases n
  {
    hide IsBehavior, Init, CountPlace, LetterPlace, NextRun, RunCan, NextDb, NextLocks, NextDlq;
    FirstOf(b);
    StepOf(b, n - 1);
    if n == h + 1 {
      ReportBegins(b.states[h], b.steps[h]);
    } else {
      ReportPlace(b, h, n - 1, r);
      var s, st := b.states[n - 1], b.steps[n - 1];
      SamePayload(s, st, r);
      if st.ByRun? && st.r == r {
        OwnMove(s, r, st.move);
        PlacesStay(s.locks, s.db, s.clock, s.runs[r], st.move);
      } else {
        ForeignTrace(s, st, r);
      }
    }
  }

  lemma ReportBegins(s: Sys, st: Step)
    requires Enabled(s, st) && st.HandleFailure?
    ensures var run := Apply(s, st).runs[st.r];
            if st.error == BusinessLogic || st.attempts >= 2 then LetterPlace(run.pc) else CountPlace(run.pc)
  {
  }

  /** A retryable report with at most one attempt behind it does nothing but count a retry: no
      step of it changes a status, a version, a log or the dead-letter queue, and the one
      that counts adds one to its order's counter. */
  lemma RetryOnlyCounts(b: Behavior, h: nat, i: nat, r: RunId)
    requires IsBehavior(b) && h < i < |b.steps| && b.steps[h].HandleFailure? && b.steps[h].r == r
    requires b.steps[h].error == Retryable && b.steps[h].attempts <= 1
    requires b.steps[i].ByRun? && b.steps[i].r == r
    ensures i + 1 < |b.states| && b.steps[i].move in {CountUp, Throw, Crash} && r in b.states[i].runs
    ensures var s, s', id := b.states[i], b.states[i + 1], b.states[i].runs[r].payload.orderId;
            && s'.dlq == s.dlq && s'.db.Keys == s.db.Keys
            && (forall x :: x in s.db && x != id ==> s'.db[x] == s.db[x])
            && (id in s.db ==>
                  s'.db[id] == s.db[id].(row := s.db[id].row.(retryCount :=
                    s.db[id].row.retryCount + if b.steps[i].move == CountUp then 1 else 0)))
  {
    hide IsBehavior, Init, CountPlace, LetterPlace, NextRun, RunCan;
    FirstOf(b);
    StepOf(b, i);
    ReportPlace(b, h, i, r);
    var s := b.states[i];
    OwnMove(s, r, b.steps[i].move);
    PlacesStay(s.locks, s.db, s.clock, s.runs[r], b.steps[i].move);
  }

  /** A business error, and a report with two attempts or more, never counts a retry. */
  lemma LetterNeverCounts(b: Behavior, h: nat, i: nat, r: RunId)
    requires IsBehavior(b) && h < i < |b.steps| && b.steps[h].HandleFailure? && b.steps[h].r == r
    requires b.steps[h].error == BusinessLogic || b.steps[h].attempts >= 2
    ensures b.steps[i] != ByRun(r, CountUp)
  {
    hide IsBehavior, Init, CountPlace, LetterPlace, NextRun, RunCan, Apply;
    FirstOf(b);
    StepOf(b, i);
    ReportPlace(b, h, i, r);
    if b.steps[i] == ByRun(r, CountUp) {
      var s := b.states[i];
      OwnMove(s, r, CountUp);
      PlacesStay(s.locks, s.db, s.clock, s.runs[r], CountUp);
    }
  }

  // ----- the two outcomes do happen -----

  /** A handler at the mark goes on to its letter. */
  lemma Finishes(b: Behavior, r: RunId) returns (b': Behavior)
    requires IsBehavior(b) && r in Last(b).runs && Last(b).runs[r].pc == Mark
    ensures IsBehavior(b') && Extends(b, b')
    ensures var s, s' := Last(b), Last(b'); var run := s.runs[r];
            r in s'.runs && s'.runs[r].pc == Ended && s'.clock == s.clock &&
            s'.dlq == Bury(s.dlq, DeadLetter(run.payload, run.reason, run.attempts), s.clock)
  {
    hide IsBehavior, WithoutPatch, Apply, Enabled, Init, Extends;
    FirstOf(b);
    MarkStep(Last(b), r);
    var marked := Go(b, ByRun(r, MarkDead(false)));
    LetterStep(Last(marked), r);
    b' := Go(marked, ByRun(r, PublishDead));
    ExtendsTrans(b, marked, b');
  }

  lemma MarkStep(s: Sys, r: RunId)
    requires r in s.runs && s.runs[r].pc == Mark
    ensures var st := ByRun(r, MarkDead(false));
            Enabled(s, st) && Apply(s, st) == s.(runs := s.runs[r := s.runs[r].(pc := DeadLetterOut)], db := Apply(s, st).db)
  {
  }

  lemma LetterStep(s: Sys, r: RunId)
    requires r in s.runs && s.runs[r].pc == DeadLetterOut
    ensures var st := ByRun(r, PublishDead); var run := s.runs[r];
            Enabled(s, st) &&
            Apply(s, st) == s.(runs := s.runs[r := run.(pc := Ended)],
                               dlq := Bury(s.dlq, DeadLetter(run.payload, run.reason, run.attempts), s.clock))
  {
  }

  /** A report that finds nothing to fail. */
  lemma FindsDone(s: Sys, r: RunId)
    requires r in s.runs && s.runs[r].pc == Find(ToFailed)
    requires var id := s.runs[r].payload.orderId; id !in s.db || IsTerminal(s.db[id].row.status)
    ensures var st := ByRun(r, FindOrder);
            Enabled(s, st) && r in Apply(s, st).runs && Apply(s, st) == s.(runs := s.runs[r := Apply(s, st).runs[r]]) &&
            Apply(s, st).runs[r] == s.runs[r].(pc := Mark, status := Apply(s, st).runs[r].status,
                                               version := Apply(s, st).runs[r].version, readAt := Apply(s, st).runs[r].readAt)
  {
  }

  lemma RefusedStep(s: Sys, r: RunId)
    requires r in s.runs && s.runs[r].pc == Commit(ToFailed) && !Early(s.runs[r].status)
    ensures var st := ByRun(r, ChangeStatus(false));
            Enabled(s, st) && Apply(s, st) == s.(runs := s.runs[r := s.runs[r].(pc := Ended)])
  {
    RefusedIff(s.db, s.runs[r]);
    hide ChangeOutcomeOf, ChangeOf;
  }

  /** b' is b with the handler at its end, its letter buried or not. */
  ghost predicate EndsWith(b: Behavior, b': Behavior, r: RunId, buried: bool)
    requires b.states != [] && b'.states != [] && r in Last(b).runs
  {
    var s, s' := Last(b), Last(b');
    var run := s.runs[r];
    r in s'.runs && s'.runs[r].pc == Ended && s'.clock == s.clock &&
    s'.dlq == if buried then Bury(s.dlq, DeadLetter(run.payload, run.reason, run.attempts), s.clock) else s.dlq
  }

  lemma HandlerDone(b: Behavior, r: RunId) returns (b': Behavior)
    requires IsBehavior(b) && r in Last(b).runs && Last(b).runs[r].pc == Find(ToFailed)
    requires var s := Last(b); var id := s.runs[r].payload.orderId; id !in s.db || IsTerminal(s.db[id].row.status)
    ensures IsBehavior(b') && Extends(b, b') && b'.states != [] && EndsWith(b, b', r, true)
  {
    hide IsBehavior, WithoutPatch, Apply, Enabled, Init, Extends, Bury;
    FirstOf(b);
    FindsDone(Last(b), r);
    var found := Go(b, ByRun(r, FindOrder));
    b' := Finishes(found, r);
    ExtendsTrans(b, found, b');
    FirstOf(b');
  }

  lemma HandlerFails(b: Behavior, r: RunId) returns (b': Behavior)
    requires IsBehavior(b) && r in Last(b).runs && Last(b).runs[r].pc == Find(ToFailed)
    requires var s := Last(b); var id := s.runs[r].payload.orderId; id in s.db && Early(s.db[id].row.status)
    ensures IsBehavior(b') && Extends(b, b') && b'.states != [] && EndsWith(b, b', r, true)
  {
    hide IsBehavior, WithoutPatch, Apply, Enabled, Init, Extends, ChangeOf, Transition, Bury, Early;
    FirstOf(b);
    var s := Last(b);
    var row := s.db[s.runs[r].payload.orderId].row;
    FailsIffEarly(row.status);
    AskedOf(Having(s.runs[r], row, s.clock));
    var failed := Commits(b, r, ToFailed);
    b' := Finishes(failed, r);
    ExtendsTrans(b, failed, b');
    FirstOf(b');
  }

  lemma HandlerRefused(b: Behavior, r: RunId) returns (b': Behavior)
    requires IsBehavior(b) && r in Last(b).runs && Last(b).runs[r].pc == Find(ToFailed)
    requires var s := Last(b); var id := s.runs[r].payload.orderId; id in s.db && !Reportable(s.db[id].row.status)
    ensures IsBehavior(b') && Extends(b, b') && b'.states != [] && EndsWith(b, b', r, false)
  {
    hide IsBehavior, WithoutPatch, Apply, Enabled, Init, Extends, Early;
    FirstOf(b);
    var found := Reads(b, r, ToFailed);
    FirstOf(found);
    RefusedStep(Last(found), r);
    b' := Go(found, ByRun(r, ChangeStatus(false)));
    ExtendsTrans(b, found, b');
    FirstOf(b');
  }

  /** A handler that reads its order and moves on alone and without a fault. */
  lemma HandlerRuns(b: Behavior, r: RunId) returns (b': Behavior)
    requires IsBehavior(b) && r in Last(b).runs && Last(b).runs[r].pc == Find(ToFailed)
    ensures IsBehavior(b') && Extends(b, b') && b'.states != []
    ensures EndsWith(b, b', r, Buriable(Last(b).db, Last(b).runs[r].payload.orderId))
  {
    hide IsBehavior, Extends, EndsWith, Early, IsTerminal;
    FirstOf(b);
    var s := Last(b);
    var id := s.runs[r].payload.orderId;
    if id !in s.db || IsTerminal(s.db[id].row.status) {
      b' := HandlerDone(b, r);
    } else if Early(s.db[id].row.status) {
      b' := HandlerFails(b, r);
    } else {
      b' := HandlerRefused(b, r);
    }
  }

  lemma AskedOf(run: Run)
    ensures ChangeOf(run, ToFailed).expected == run.status && ChangeOf(run, ToFailed).next == Failed
  {
  }

  /** From every state, a report of exhausted retries that nobody disturbs and no command of
      which fails leaves its letter exactly when the order's row is missing or its status
      is one a report can deal with, and leaves the queue as it was otherwise. */
  lemma ExhaustedReport(b: Behavior, id: OrderId, reason: string) returns (b': Behavior, r: RunId)
    requires IsBehavior(b) && id in Last(b).jobs
    ensures IsBehavior(b') && Extends(b, b') && |b'.steps| > |b.steps| && r !in Last(b).runs
    ensures b'.steps[|b.steps|] == HandleFailure(r, id, 0, Retryable, reason, 2)
    ensures r in Last(b').runs && Last(b').runs[r].pc == Ended
    ensures var s := Last(b);
            Last(b').dlq == if Buriable(s.db, s.jobs[id].orderId)
                            then Bury(s.dlq, DeadLetter(s.jobs[id], reason, 2), s.clock) else s.dlq
  {
    hide IsBehavior, WithoutPatch, Apply, Enabled, Init, Extends, Buriable, Bury;
    FirstOf(b);
    r := Beyond(Last(b).runs.Keys);
    var st := HandleFailure(r, id, 0, Retryable, reason, 2);
    ReportStep(Last(b), r, id, reason);
    ExtendIsBehavior(b, st);
    var reported := Extend(b, st);
    assert reported.steps[|b.steps|] == st;
    b' := HandlerRuns(reported, r);
    SameStep(b, reported, b');
  }

  lemma ReportStep(s: Sys, r: RunId, id: OrderId, reason: string)
    requires r !in s.runs && id in s.jobs
    ensures var st := HandleFailure(r, id, 0, Retryable, reason, 2);
            Enabled(s, st) && Apply(s, st) == s.(runs := s.runs[r := NewRun(s.jobs[id], 0, Find(ToFailed), reason, 2)])
  {
  }

  /** An order at SENT_TO_POS whose worker has crashed; a redelivery only finds the duplicate
      or the lock, and a report of it is refused. */
  lemma SentUnburied(key: Key) returns (b: Behavior, r: RunId)
    ensures IsBehavior(b) && WithoutPatch(b) && 0 in Last(b).jobs && Last(b).jobs[0].orderId == 0
    ensures r in Last(b).runs && Last(b).runs[r].pc == Crashed
    ensures 0 in Last(b).db && Last(b).db[0].row.status == SentToPos && !Buriable(Last(b).db, 0) && Last(b).dlq == map[]
  {
    hide IsBehavior, WithoutPatch;
    b := Start(86_400_000, key);
    b := PublishOne(b, 0, key, false);
    b := InsertsAndSends(b);
    r := 0;
    b := Go(b, ByRun(r, Crash));
  }

  lemma InsertsAndSends(b: Behavior) returns (b': Behavior)
    requires IsBehavior(b) && 0 !in Last(b).runs && 0 in Last(b).jobs && Last(b).jobs[0].orderId == 0
    requires Last(b).locks == map[] && InsertOutcomeOf(Last(b).db, Last(b).jobs[0]) == Inserted
    ensures IsBehavior(b') && (WithoutPatch(b) ==> WithoutPatch(b'))
    ensures 0 in Last(b').runs && Last(b').runs[0].pc == Find(ToCompleted) && Last(b').jobs == Last(b).jobs
    ensures 0 in Last(b').db && Last(b').db[0].row.status == SentToPos && Last(b').dlq == Last(b).dlq
  {
    hide IsBehavior, WithoutPatch, Extends, InsertOutcomeOf;
    FirstOf(b);
    b' := Inserts(b, 0, 0);
    b' := CommitsFor(b', 0, 0, ToSaved, Saved);
    b' := CallsPos(b', 0);
    b' := CommitsFor(b', 0, 0, ToSent, SentToPos);
  }

  /** An order that the POS has set to COOKING through the orders endpoint before its worker
      got further than the insert: a PATCH that does the log no harm, and still the report
      of its failure is refused, in the lookup of a status that has no row in the table. */
  lemma CookingUnburied(key: Key) returns (b: Behavior)
    ensures IsBehavior(b) && HarmlessPatches(b) && 0 in Last(b).jobs && Last(b).jobs[0].orderId == 0
    ensures 0 in Last(b).db && Last(b).db[0].row.status == Cooking && Last(b).db[0].audit != []
    ensures End(Last(b).db[0].audit) == Queued && !Buriable(Last(b).db, 0) && Last(b).dlq == map[]
  {
    hide IsBehavior, WithoutPatch, HarmlessPatches;
    b := Start(86_400_000, key);
    b := PublishOne(b, 0, key, false);
    b := Inserts(b, 0, 0);
    b := Cooks(b);
  }

  lemma Cooks(b: Behavior) returns (b': Behavior)
    requires IsBehavior(b) && WithoutPatch(b) && 0 in Last(b).db
    ensures IsBehavior(b') && HarmlessPatches(b') && Last(b') == Last(b).(db := Patch(Last(b).db, 0, Cooking))
  {
    ExtendIsBehavior(b, PatchStatus(0, Cooking));
    b' := Extend(b, PatchStatus(0, Cooking));
    PosPatchesAreHarmless(b');
  }
}
