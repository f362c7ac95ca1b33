/** Why the theorems on progress exclude harmful PATCHes, and no others: from any state a
    harmful PATCH and one failure report lead to a log with FAILED after a status it may
    not follow; and such states are reached. */
module PipelinePatch {
  import opened OrderStateMachine
  import opened OrderStore
  import opened Pipeline
  import opened PipelineInvariant
  import opened PipelineProgress
  import opened PipelineGateLimits

  /** What a run has read before a transition. */
  function Having(run: Run, row: OrderRow, now: nat): Run {
    run.(status := row.status, version := row.version, readAt := now, startedAt := now)
  }

  /** A run about to read commits its transition, undisturbed. */
  lemma Commits(b: Behavior, r: RunId, stage: Stage) returns (b': Behavior)
    requires IsBehavior(b) && r in Last(b).runs && Last(b).runs[r].pc == Find(stage)
    requires Last(b).runs[r].payload.orderId in Last(b).db
    requires var row := Last(b).db[Last(b).runs[r].payload.orderId].row;
             var c := ChangeOf(Having(Last(b).runs[r], row, Last(b).clock), stage);
             c.expected == row.status && Allowed(c.expected, c.next)
    ensures IsBehavior(b') && Extends(b, b') && (WithoutPatch(b) ==> WithoutPatch(b'))
    ensures var s, s' := Last(b), Last(b'); var run := s.runs[r]; var id := run.payload.orderId;
            var run' := Having(run, s.db[id].row, s.clock); var c := ChangeOf(run', stage);
            s' == s.(runs := s.runs[r := run'.(pc := AfterChange(stage, Committed))],
                     db := Transition(s.db, c, s.clock, Author(r, run'))) &&
            ChangeOutcomeOf(s.db, c) == Committed
  {
    FirstOf(b);
    var s := Last(b);
    var run := Having(s.runs[r], s.db[s.runs[r].payload.orderId].row, s.clock);
    WouldCommit(s.db, run, stage);
    hide IsBehavior, WithoutPatch, Transition, ChangeOutcomeOf, Allowed, ChangeOf, AfterChange, Apply, Enabled;
    b' := Reads(b, r, stage);
    CommitStep(Last(b'), r, stage);
    SameChange(run, Last(b').runs[r], stage);
    b' := Go(b', ByRun(r, ChangeStatus(false)));
  }

  lemma Reads(b: Behavior, r: RunId, stage: Stage) returns (b': Behavior)
    requires IsBehavior(b) && r in Last(b).runs && Last(b).runs[r].pc == Find(stage)
    requires Last(b).runs[r].payload.orderId in Last(b).db
    requires var row := Last(b).db[Last(b).runs[r].payload.orderId].row;
             stage == ToFailed ==> row.status != Failed && row.status != Completed
    ensures IsBehavior(b') && Extends(b, b') && (WithoutPatch(b) ==> WithoutPatch(b'))
    ensures var s := Last(b); var run := s.runs[r];
            Last(b') == s.(runs := s.runs[r := Having(run, s.db[run.payload.orderId].row, s.clock).(pc := Commit(stage))])
  {
    FirstOf(b);
    FindStep(Last(b), r, stage);
    hide IsBehavior, WithoutPatch, Apply, Enabled, Init, Extends;
    var found := Go(b, ByRun(r, FindOrder));
    BeginStep(Last(found), r, stage);
    b' := Go(found, ByRun(r, BeginTx));
    ExtendsTrans(b, found, b');
  }

  lemma FindStep(s: Sys, r: RunId, stage: Stage)
    requires r in s.runs && s.runs[r].pc == Find(stage) && s.runs[r].payload.orderId in s.db
    requires var row := s.db[s.runs[r].payload.orderId].row;
             stage == ToFailed ==> row.status != Failed && row.status != Completed
    ensures var row := s.db[s.runs[r].payload.orderId].row; var st := ByRun(r, FindOrder);
            Enabled(s, st) && Apply(s, st) ==
            s.(runs := s.runs[r := s.runs[r].(status := row.status, version := row.version, readAt := s.clock, pc := Begin(stage))])
  {
  }

  lemma BeginStep(s: Sys, r: RunId, stage: Stage)
    requires r in s.runs && s.runs[r].pc == Begin(stage)
    ensures var st := ByRun(r, BeginTx);
            Enabled(s, st) && Apply(s, st) == s.(runs := s.runs[r := s.runs[r].(startedAt := s.clock, pc := Commit(stage))])
  {
  }

  lemma CommitStep(s: Sys, r: RunId, stage: Stage)
    requires r in s.runs && s.runs[r].pc == Commit(stage) && ChangeOutcomeOf(s.db, ChangeOf(s.runs[r], stage)) == Committed
    ensures Enabled(s, ByRun(r, ChangeStatus(false)))
    ensures Apply(s, ByRun(r, ChangeStatus(false))) ==
            s.(runs := s.runs[r := s.runs[r].(pc := AfterChange(stage, Committed))],
               db := Transition(s.db, ChangeOf(s.runs[r], stage), s.runs[r].startedAt, Author(r, s.runs[r])))
  {
    hide ChangeOutcomeOf, ChangeOf, Transition, AfterChange;
  }

  lemma SameChange(run: Run, run': Run, stage: Stage)
    requires run' == run.(pc := run'.pc)
    ensures ChangeOf(run', stage) == ChangeOf(run, stage)
  {
  }

  lemma WouldCommit(db: Db, run: Run, stage: Stage)
    requires run.payload.orderId in db && run.version == db[run.payload.orderId].row.version
    requires var c := ChangeOf(run, stage); c.expected == db[run.payload.orderId].row.status && Allowed(c.expected, c.next)
    requires run.status == db[run.payload.orderId].row.status
    ensures ChangeOutcomeOf(db, ChangeOf(run, stage)) == Committed
    ensures stage == ToFailed ==> run.status != Failed && run.status != Completed
  {
  }

  lemma PatchThenReport(b: Behavior, id: OrderId, status: Status, r: RunId) returns (b': Behavior)
    requires IsBehavior(b) && id in Last(b).db && id in Last(b).jobs && Last(b).jobs[id].orderId == id && r !in Last(b).runs
    ensures IsBehavior(b') && Extends(b, b') && |b'.steps| > |b.steps| && b'.steps[|b.steps|] == PatchStatus(id, status)
    ensures var s, s' := Last(b), Last(b');
            s' == s.(db := Patch(s.db, id, status), runs := s.runs[r := NewRun(s.jobs[id], 0, Find(ToFailed), "", 2)])
  {
    FirstOf(b);
    hide IsBehavior, WithoutPatch;
    ExtendIsBehavior(b, PatchStatus(id, status));
    var patched := Extend(b, PatchStatus(id, status));
    assert patched.steps[|b.steps|] == PatchStatus(id, status);
    b' := Go(patched, HandleFailure(r, id, 0, Retryable, "", 2));
  }

  lemma JobOf(s: Sys, id: OrderId)
    requires Inv(s) && id in s.db
    ensures id in s.jobs && s.jobs[id].orderId == id
  {
    hide LogMatches, Ordered, AuthorsFit, CreatedFrom, RunInv, UniqueKeys;
    assert RecordInv(s.clock, s.jobs, s.runs, id, s.db[id]);
  }

  /** Whatever the state, a harmful PATCH can be followed by a commit of FAILED after
      SENT_TO_POS, COMPLETED or FAILED. */
  lemma HarmfulPatchBreaks(b: Behavior, id: OrderId, status: Status) returns (b': Behavior)
    requires IsBehavior(b) && !HarmlessPatch(Last(b), PatchStatus(id, status))
    ensures IsBehavior(b') && Extends(b, b') && |b'.steps| > |b.steps| && b'.steps[|b.steps|] == PatchStatus(id, status)
    ensures id in Last(b).db && id in Last(b').db
    ensures var audit, audit' := Last(b).db[id].audit, Last(b').db[id].audit;
            audit != [] && |audit'| == |audit| + 1 && audit'[..|audit|] == audit && End(audit') == Failed &&
            (End(audit) == SentToPos || End(audit) == Completed || End(audit) == Failed) && !Allowed(End(audit), Failed)
  {
    HarmMeans(b, id, status);
    hide IsBehavior, WithoutPatch, HarmlessPatch, Extends;
    var r := Beyond(Last(b).runs.Keys);
    var reported := PatchThenReport(b, id, status, r);
    b' := CommitsFor(reported, r, id, ToFailed, Failed);
    SameStep(b, reported, b');
  }

  lemma HarmMeans(b: Behavior, id: OrderId, status: Status)
    requires IsBehavior(b) && b.states != [] && !HarmlessPatch(Last(b), PatchStatus(id, status))
    ensures var s := Last(b);
            && id in s.db && id in s.jobs && s.jobs[id].orderId == id && Early(status) && Allowed(status, Failed)
            && var audit := s.db[id].audit;
               audit != [] && (End(audit) == SentToPos || End(audit) == Completed || End(audit) == Failed) &&
               !Allowed(End(audit), Failed)
  {
    FirstOf(b);
    Reachable(b, |b.steps|);
    hide IsBehavior, Inv;
    JobOf(Last(b), id);
    EndOfWorkers(Last(b), id);
  }

  lemma SameStep(b1: Behavior, b2: Behavior, b3: Behavior)
    requires Extends(b1, b2) && Extends(b2, b3) && |b2.steps| > |b1.steps|
    ensures Extends(b1, b3) && |b3.steps| > |b1.steps| && b3.steps[|b1.steps|] == b2.steps[|b1.steps|]
  {
  }

  /** Logs hold worker statuses only. */
  lemma EndOfWorkers(s: Sys, id: OrderId)
    requires Inv(s) && id in s.db
    ensures s.db[id].audit != [] && End(s.db[id].audit) in {Queued, Saved, SentToPos, Completed, Failed}
  {
    hide StampsOf, Ordered, AuthorsFit, CreatedFrom, RunInv, UniqueKeys;
    assert RecordInv(s.clock, s.jobs, s.runs, id, s.db[id]);
    var audit := s.db[id].audit;
    assert |audit| > 1 ==> Allowed(audit[|audit| - 1].from.value, audit[|audit| - 1].to);
  }

  // ----- such states are reached -----

  lemma Enters(b: Behavior, r: RunId, id: OrderId) returns (b': Behavior)
    requires IsBehavior(b) && r !in Last(b).runs && id in Last(b).jobs && Last(b).jobs[id].orderId == id
    requires Last(b).locks == map[]
    ensures IsBehavior(b') && (WithoutPatch(b) ==> WithoutPatch(b'))
    ensures var s, s' := Last(b), Last(b');
            r in s'.runs && s' == s.(runs := s.runs[r := s'.runs[r]], locks := s'.locks) &&
            s'.runs[r].payload == s.jobs[id] && s'.runs[r].pc == BeginCreate
  {
    FirstOf(b);
    EnterSteps(Last(b), r, id);
    hide IsBehavior, WithoutPatch, Extends, Apply, Enabled, Init;
    var delivered := Go(b, Deliver(r, id, 0));
    b' := Go(delivered, ByRun(r, AcquireLock(false)));
  }

  lemma EnterSteps(s: Sys, r: RunId, id: OrderId)
    requires r !in s.runs && id in s.jobs && s.jobs[id].orderId == id && s.locks == map[]
    ensures var st, st2 := Deliver(r, id, 0), ByRun(r, AcquireLock(false));
            Enabled(s, st) && Enabled(Apply(s, st), st2) &&
            var s' := Apply(Apply(s, st), st2);
            r in s'.runs && s' == s.(runs := s.runs[r := s'.runs[r]], locks := s'.locks) &&
            s'.runs[r].payload == s.jobs[id] && s'.runs[r].pc == BeginCreate
  {
  }

  lemma Inserts(b: Behavior, r: RunId, id: OrderId) returns (b': Behavior)
    requires IsBehavior(b) && r !in Last(b).runs && id in Last(b).jobs && Last(b).jobs[id].orderId == id
    requires Last(b).locks == map[] && InsertOutcomeOf(Last(b).db, Last(b).jobs[id]) == Inserted
    ensures IsBehavior(b') && (WithoutPatch(b) ==> WithoutPatch(b'))
    ensures var s, s' := Last(b), Last(b');
            r in s'.runs && s'.runs[r].pc == Find(ToSaved) && s'.runs[r].payload == s.jobs[id] && s'.jobs == s.jobs && s'.dlq == s.dlq &&
            s'.db == s.db[id := NewRecord(s.jobs[id], s.clock, Author(r, s'.runs[r]))]
  {
    FirstOf(b);
    hide IsBehavior, WithoutPatch, InsertOutcomeOf, NewRecord, Extends;
    b' := Enters(b, r, id);
    b' := Go(b', ByRun(r, BeginTx));
    b' := Go(b', ByRun(r, InsertOrder(false)));
  }

  lemma CallsPos(b: Behavior, r: RunId) returns (b': Behavior)
    requires IsBehavior(b) && r in Last(b).runs && Last(b).runs[r].pc == PosReady
    ensures IsBehavior(b') && (WithoutPatch(b) ==> WithoutPatch(b'))
    ensures var s, s' := Last(b), Last(b');
            s' == s.(runs := s.runs[r := s.runs[r].(pc := Find(ToSent), posStarted := true, posAccepted := true, posResponse := "")])
  {
    FirstOf(b);
    EnterStep(Last(b), r);
    hide IsBehavior, WithoutPatch, Apply, Enabled, Init, Extends;
    var entered := Go(b, ByRun(r, EnterPos));
    CallStep(Last(entered), r);
    b' := Go(entered, ByRun(r, CallPos(true, "")));
  }

  lemma EnterStep(s: Sys, r: RunId)
    requires r in s.runs && s.runs[r].pc == PosReady
    ensures var st := ByRun(r, EnterPos);
            Enabled(s, st) && Apply(s, st) == s.(runs := s.runs[r := s.runs[r].(pc := PosCalling, posStarted := true)])
  {
  }

  lemma CallStep(s: Sys, r: RunId)
    requires r in s.runs && s.runs[r].pc == PosCalling
    ensures var st := ByRun(r, CallPos(true, ""));
            Enabled(s, st) &&
            Apply(s, st) == s.(runs := s.runs[r := s.runs[r].(pc := Find(ToSent), posAccepted := true, posResponse := "")])
  {
  }

  /** A run that has inserted takes the order to COMPLETED. */
  lemma Completes(b: Behavior, r: RunId, id: OrderId) returns (b': Behavior)
    requires IsBehavior(b) && r in Last(b).runs && Last(b).runs[r].pc == Find(ToSaved) && Last(b).runs[r].payload.orderId == id
    requires id in Last(b).db && Last(b).db[id].row.status == Queued && Last(b).db[id].audit != []
    ensures IsBehavior(b') && (WithoutPatch(b) ==> WithoutPatch(b'))
    ensures id in Last(b').db && Last(b').db[id].row.status == Completed
    ensures Last(b').db[id].audit != [] && End(Last(b').db[id].audit) == Completed
  {
    FirstOf(b);
    hide IsBehavior, WithoutPatch, Extends;
    b' := CommitsFor(b, r, id, ToSaved, Saved);
    b' := CallsPos(b', r);
    b' := Finishes(b', r, id);
  }

  lemma Finishes(b: Behavior, r: RunId, id: OrderId) returns (b': Behavior)
    requires IsBehavior(b) && r in Last(b).runs && Last(b).runs[r].pc == Find(ToSent) && Last(b).runs[r].payload.orderId == id
    requires id in Last(b).db && Last(b).db[id].row.status == Saved && Last(b).db[id].audit != []
    ensures IsBehavior(b') && (WithoutPatch(b) ==> WithoutPatch(b'))
    ensures id in Last(b').db && Last(b').db[id].row.status == Completed
    ensures Last(b').db[id].audit != [] && End(Last(b').db[id].audit) == Completed
  {
    FirstOf(b);
    hide IsBehavior, WithoutPatch, Extends;
    b' := CommitsFor(b, r, id, ToSent, SentToPos);
    b' := CommitsFor(b', r, id, ToCompleted, Completed);
  }

  /** The same, as far as the order's row and log go. */
  lemma CommitsFor(b: Behavior, r: RunId, id: OrderId, stage: Stage, next: Status) returns (b': Behavior)
    requires IsBehavior(b) && r in Last(b).runs && Last(b).runs[r].pc == Find(stage) && Last(b).runs[r].payload.orderId == id
    requires id in Last(b).db && Last(b).db[id].audit != [] && Allowed(Last(b).db[id].row.status, next)
    requires match stage
             case ToSaved => Last(b).db[id].row.status == Queued && next == Saved
             case ToSent => Last(b).db[id].row.status == Saved && next == SentToPos
             case ToCompleted => Last(b).db[id].row.status == SentToPos && next == Completed
             case ToFailed => next == Failed
    ensures IsBehavior(b') && Extends(b, b') && (WithoutPatch(b) ==> WithoutPatch(b'))
    ensures r in Last(b').runs && Last(b').runs[r].pc == AfterChange(stage, Committed) && Last(b').runs[r].payload.orderId == id
    ensures id in Last(b').db && Last(b').db[id].row.status == next && Last(b').jobs == Last(b).jobs && Last(b').dlq == Last(b).dlq
    ensures var audit, audit' := Last(b).db[id].audit, Last(b').db[id].audit;
            |audit'| == |audit| + 1 && audit'[..|audit|] == audit && End(audit') == next
  {
    FirstOf(b);
    b' := Commits(b, r, stage);
  }

  /** A behavior with a COMPLETED order, where the PATCH endpoint that takes any status can
      do harm; with the theorem before it, COMPLETED and FAILED end up in one log. */
  lemma HarmfulPatchHappens(key: Key) returns (b: Behavior)
    ensures IsBehavior(b) && HarmlessPatches(b) && 0 in Last(b).db && Last(b).db[0].row.status == Completed
    ensures Last(b).db[0].audit != [] && End(Last(b).db[0].audit) == Completed
    ensures !HarmlessPatch(Last(b), PatchStatus(0, Saved)) && !HarmlessPatch(Last(b), PatchStatus(0, Queued))
  {
    hide IsBehavior, WithoutPatch;
    b := Start(86_400_000, key);
    b := PublishOne(b, 0, key, false);
    b := Inserts(b, 0, 0);
    b := Completes(b, 0, 0);
    PosPatchesAreHarmless(b);
  }
}
