/** The per-order lock with expiry, over whole runs of the pipeline. */
module PipelineLock {
  import opened Redis
  import opened OrderStore
  import opened DistributedLock
  import opened Pipeline

  /** One process does not run the same job twice at once. */
  ghost predicate DistinctTokens(s: Sys) {
    forall r1, r2 :: r1 in s.runs && r2 in s.runs && r1 != r2 && Critical(s.runs[r1]) && Critical(s.runs[r2]) ==>
      HolderToken(s.runs[r1]) != HolderToken(s.runs[r2])
  }

  predicate WithinTtl(s: Sys, run: Run) {
    s.clock < run.acquiredAt + s.cfg.lockTtl
  }

  /** A full TTL lies between the two acquisitions. */
  predicate Apart(ttl: nat, run1: Run, run2: Run) {
    run1.acquiredAt + ttl <= run2.acquiredAt || run2.acquiredAt + ttl <= run1.acquiredAt
  }

  ghost predicate EntryFits(s: Sys, run: Run) {
    && run.acquiredAt <= s.clock
    && (WithinTtl(s, run) ==>
          run.payload.orderId in s.locks &&
          s.locks[run.payload.orderId] == Entry(HolderToken(run), run.acquiredAt + s.cfg.lockTtl))
  }

  ghost predicate LockInv(s: Sys) {
    && (forall r :: r in s.runs && Critical(s.runs[r]) ==> EntryFits(s, s.runs[r]))
    && (forall r1, r2 :: r1 in s.runs && r2 in s.runs && r1 != r2 && Critical(s.runs[r1]) && Critical(s.runs[r2]) &&
                         s.runs[r1].payload.orderId == s.runs[r2].payload.orderId ==>
          Apart(s.cfg.lockTtl, s.runs[r1], s.runs[r2]))
  }

  /** Only taking the lock makes a run critical. */
  lemma CriticalMoves(locks: Locks, db: Db, now: nat, run: Run, move: RunAct)
    requires RunCan(run, move) && !move.AcquireLock?
    ensures var run' := NextRun(locks, db, now, run, move);
            run'.acquiredAt == run.acquiredAt && run'.payload == run.payload && run'.workerId == run.workerId &&
            (Critical(run') ==> Critical(run)) && (move.ReleaseLock? ==> !Critical(run'))
  {
    hide InsertOutcomeOf, ChangeOutcomeOf;
  }

  lemma AcquireKeeps(s: Sys, r: RunId, ackLost: bool)
    requires LockInv(s) && Enabled(s, ByRun(r, AcquireLock(ackLost)))
    ensures LockInv(Apply(s, ByRun(r, AcquireLock(ackLost))))
  {
    hide NextDb, NextDlq, Critical;
    var s' := Apply(s, ByRun(r, AcquireLock(ackLost)));
    var run := s.runs[r];
    NotCriticalYet(run, s'.runs[r]);
    forall p | p in s.runs && p != r && Critical(s.runs[p]) ensures EntryFits(s', s.runs[p]) &&
      (s.runs[p].payload.orderId == run.payload.orderId && Critical(s'.runs[r]) ==> Apart(s.cfg.lockTtl, s.runs[p], s'.runs[r]))
    {
      assert EntryFits(s, s.runs[p]);
    }
  }

  lemma NotCriticalYet(run: Run, run': Run)
    requires run.pc == Lock && (run'.pc == Ended || run'.pc == BeginCreate)
    ensures !Critical(run) && (Critical(run') ==> run'.pc == BeginCreate)
  {
  }

  /** A run that moves without taking or releasing a lock. */
  lemma MoveKeeps(s: Sys, s': Sys, r: RunId)
    requires LockInv(s) && r in s.runs && r in s'.runs && s'.runs == s.runs[r := s'.runs[r]]
    requires s'.cfg == s.cfg && s'.clock == s.clock && s'.locks == s.locks
    requires var run, run' := s.runs[r], s'.runs[r];
             run'.acquiredAt == run.acquiredAt && run'.payload == run.payload && run'.workerId == run.workerId &&
             (Critical(run') ==> Critical(run))
    ensures LockInv(s')
  {
    hide Critical;
    forall p | p in s'.runs && Critical(s'.runs[p]) ensures EntryFits(s', s'.runs[p]) {
      assert EntryFits(s, s.runs[p]);
    }
  }

  lemma ReleaseKeeps(s: Sys, r: RunId)
    requires LockInv(s) && DistinctTokens(s) && Enabled(s, ByRun(r, ReleaseLock))
    ensures LockInv(Apply(s, ByRun(r, ReleaseLock)))
  {
    hide NextDb, NextDlq, Critical;
    var s' := Apply(s, ByRun(r, ReleaseLock));
    assert Critical(s.runs[r]) && !Critical(s'.runs[r]) by {
      AtUnlock(s.runs[r], s'.runs[r]);
    }
    forall p | p in s'.runs && Critical(s'.runs[p]) ensures EntryFits(s', s'.runs[p]) {
      assert EntryFits(s, s.runs[p]) && HolderToken(s.runs[p]) != HolderToken(s.runs[r]);
    }
  }

  lemma AtUnlock(run: Run, run': Run)
    requires run.pc == Unlock && run'.pc == Ended
    ensures Critical(run) && !Critical(run')
  {
  }

  lemma OtherStepKeeps(s: Sys, st: Step)
    requires LockInv(s) && Enabled(s, st) && !st.ByRun?
    ensures LockInv(Apply(s, st))
  {
    hide NextRequest, NextClaims, NextJobs, ReqCan;
    var s' := Apply(s, st);
    forall p | p in s'.runs && Critical(s'.runs[p]) ensures p in s.runs && s'.runs[p] == s.runs[p] && EntryFits(s', s'.runs[p]) {
      assert EntryFits(s, s.runs[p]);
    }
  }

  lemma LockStepKeeps(s: Sys, st: Step)
    requires LockInv(s) && DistinctTokens(s) && Enabled(s, st)
    ensures LockInv(Apply(s, st))
  {
    hide NextDb, NextDlq, NextRun, LockInv, DistinctTokens, Critical, RunCan;
    if !st.ByRun? {
      OtherStepKeeps(s, st);
    } else if st.move.AcquireLock? {
      AcquireKeeps(s, st.r, st.move.ackLost);
    } else if st.move.ReleaseLock? {
      ReleaseKeeps(s, st.r);
    } else {
      CriticalMoves(s.locks, s.db, s.clock, s.runs[st.r], st.move);
      MoveKeeps(s, Apply(s, st), st.r);
    }
  }

  lemma {:induction false} AlwaysLocked(b: Behavior, n: nat)
    requires IsBehavior(b) && n < |b.states| && forall i :: 0 <= i <= n ==> DistinctTokens(b.states[i])
    ensures LockInv(b.states[n])
  {
    FirstOf(b);
    hide IsBehavior, LockInv, Apply, Enabled, DistinctTokens, Init;
    if n > 0 {
      AlwaysLocked(b, n - 1);
      StepOf(b, n - 1);
      LockStepKeeps(b.states[n - 1], b.steps[n - 1]);
    } else {
      InitLocked(b.states[0]);
    }
  }

  lemma InitLocked(s: Sys)
    requires Init(s)
    ensures LockInv(s)
  {
  }

  /** Of two runs inside the critical section of one order, the one that took the lock
      first has outlived its TTL, by the time the other took it. A run within its TTL
      has its own entry in Redis, and a late release by the other leaves it there. */
  lemma LockWithExpiry(b: Behavior, n: nat, r1: RunId, r2: RunId)
    requires IsBehavior(b) && n < |b.states| && forall i :: 0 <= i <= n ==> DistinctTokens(b.states[i])
    requires r1 in b.states[n].runs && r2 in b.states[n].runs && r1 != r2
    requires Critical(b.states[n].runs[r1]) && Critical(b.states[n].runs[r2])
    requires b.states[n].runs[r1].payload.orderId == b.states[n].runs[r2].payload.orderId
    requires b.states[n].runs[r1].acquiredAt <= b.states[n].runs[r2].acquiredAt
    ensures var s := b.states[n]; var first, second := s.runs[r1], s.runs[r2]; var id := second.payload.orderId;
            && first.acquiredAt + s.cfg.lockTtl <= second.acquiredAt <= s.clock
            && !WithinTtl(s, first)
            && (WithinTtl(s, second) ==>
                  Live(s.locks, id, s.clock) && s.locks[id].value == HolderToken(second) &&
                  DelIfEquals(s.locks, id, HolderToken(first), s.clock) == s.locks)
  {
    AlwaysLocked(b, n);
    assert DistinctTokens(b.states[n]);
    TtlStays(b, n);
    hide Critical;
    assert EntryFits(b.states[n], b.states[n].runs[r1]) && EntryFits(b.states[n], b.states[n].runs[r2]);
  }

  /** The token decides: another run's release leaves the entry of a run within its TTL
      exactly when their tokens differ. */
  lemma ReleaseSparesIff(s: Sys, r1: RunId, r2: RunId)
    requires LockInv(s) && Enabled(s, ByRun(r1, ReleaseLock)) && r2 in s.runs && r1 != r2
    requires Critical(s.runs[r2]) && WithinTtl(s, s.runs[r2]) && s.runs[r1].payload.orderId == s.runs[r2].payload.orderId
    ensures Apply(s, ByRun(r1, ReleaseLock)).locks == s.locks <==> HolderToken(s.runs[r1]) != HolderToken(s.runs[r2])
  {
    hide NextRun, NextDb, NextDlq, Critical;
    assert EntryFits(s, s.runs[r2]);
  }

  lemma {:induction false} TtlStays(b: Behavior, n: nat)
    requires IsBehavior(b) && n < |b.states|
    ensures b.states[n].cfg == b.states[0].cfg && b.states[n].cfg.lockTtl > 0 && b.states[n].cfg.idempotencyTtl > 0
  {
    if n > 0 {
      TtlStays(b, n - 1);
      StepOf(b, n - 1);
    }
  }
}
