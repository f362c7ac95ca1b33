/** The running system behind the services: the real objects, and beside them the
    behavior they have shown so far. Every await of a service is a method here: other
    parties move first, then the command takes effect as one step of the pipeline.
    Valid says that the objects are in the state the behavior ends in. */
module LiveSystem {
  import opened Redis
  import opened OrderStateMachine
  import opened Pricing
  import opened OrderStore
  import opened DistributedLock
  import opened Idempotency
  import opened OrderQueue
  import opened OrderRepository
  import opened Pipeline
  import opened PipelineInvariant
  import opened PipelineGate

  datatype Party = Environment | RequestParty(q: ReqId) | RunParty(r: RunId)

  function PartyOf(st: Step): Party {
    match st
    case Tick(_) => Environment
    case PatchStatus(_, _) => Environment
    case Receive(q, _, _) => RequestParty(q)
    case ByRequest(q, _) => RequestParty(q)
    case Deliver(r, _, _) => RunParty(r)
    case HandleFailure(r, _, _, _, _, _) => RunParty(r)
    case ByRun(r, _) => RunParty(r)
  }

  /** b' goes on from b, and not by steps of this party. */
  ghost predicate OthersMove(b: Behavior, b': Behavior, me: Party) {
    Extends(b, b') && IsBehavior(b) && IsBehavior(b') && forall i :: |b.steps| <= i < |b'.steps| ==> PartyOf(b'.steps[i]) != me
  }

  /** What nobody else can touch: a party's own record. */
  lemma ForeignStep(s: Sys, st: Step, r: RunId, q: ReqId)
    requires Enabled(s, st)
    ensures PartyOf(st) != RunParty(r) && r in s.runs ==> r in Apply(s, st).runs && Apply(s, st).runs[r] == s.runs[r]
    ensures PartyOf(st) != RequestParty(q) && q in s.reqs ==> q in Apply(s, st).reqs && Apply(s, st).reqs[q] == s.reqs[q]
  {
  }

  lemma {:induction false} RunUntouched(b: Behavior, i: nat, n: nat, r: RunId)
    requires IsBehavior(b) && i <= n < |b.states| && |b.states| == |b.steps| + 1 && r in b.states[i].runs
    requires forall k :: i <= k < n ==> PartyOf(b.steps[k]) != RunParty(r)
    ensures r in b.states[n].runs && b.states[n].runs[r] == b.states[i].runs[r]
    decreases n
  {
    hide IsBehavior, Apply, Enabled, PartyOf;
    if i < n {
      RunUntouched(b, i, n - 1, r);
      StepOf(b, n - 1);
      ForeignStep(b.states[n - 1], b.steps[n - 1], r, 0);
    }
  }

  lemma {:induction false} RequestUntouched(b: Behavior, i: nat, n: nat, q: ReqId)
    requires IsBehavior(b) && i <= n < |b.states| && |b.states| == |b.steps| + 1 && q in b.states[i].reqs
    requires forall k :: i <= k < n ==> PartyOf(b.steps[k]) != RequestParty(q)
    ensures q in b.states[n].reqs && b.states[n].reqs[q] == b.states[i].reqs[q]
    decreases n
  {
    hide IsBehavior, Apply, Enabled, PartyOf;
    if i < n {
      RequestUntouched(b, i, n - 1, q);
      StepOf(b, n - 1);
      ForeignStep(b.states[n - 1], b.steps[n - 1], 0, q);
    }
  }

  /** Whatever the others do meanwhile, a run or request finds itself as it was. */
  lemma OthersKeepMine(b: Behavior, b': Behavior, r: RunId, q: ReqId)
    requires OthersMove(b, b', RunParty(r)) || OthersMove(b, b', RequestParty(q))
    ensures b.states != [] && b'.states != []
    ensures OthersMove(b, b', RunParty(r)) && r in Last(b).runs ==>
              r in Last(b').runs && Last(b').runs[r] == Last(b).runs[r]
    ensures OthersMove(b, b', RequestParty(q)) && q in Last(b).reqs ==>
              q in Last(b').reqs && Last(b').reqs[q] == Last(b).reqs[q]
  {
    FirstOf(b);
    FirstOf(b');
    hide IsBehavior, Apply, Enabled, PartyOf, Init;
    assert b'.states[|b.steps|] == Last(b);
    if OthersMove(b, b', RunParty(r)) && r in Last(b).runs {
      RunUntouched(b', |b.steps|, |b'.steps|, r);
    }
    if OthersMove(b, b', RequestParty(q)) && q in Last(b).reqs {
      RequestUntouched(b', |b.steps|, |b'.steps|, q);
    }
  }

  /** This entry is in the order's log. */
  ghost predicate InLog(db: Db, id: OrderId, entry: AuditRow) {
    id in db && entry in db[id].audit
  }

  // ----- what a step of the behavior was, and how it went -----

  /** The n-th step, from state n - 1 to state n, is this one. */
  ghost predicate StepAt(b: Behavior, n: nat, st: Step) {
    0 < n < |b.states| && n <= |b.steps| && b.steps[n - 1] == st
  }

  /** It put this letter in the dead-letter queue, or found one of this order and
      millisecond there. */
  ghost predicate BuriedAt(b: Behavior, n: nat, r: RunId, letter: DeadLetter) {
    StepAt(b, n, ByRun(r, PublishDead)) &&
    var id, before := LetterId(letter.payload.orderId, b.states[n - 1].clock), b.states[n - 1].dlq;
    b.states[n].dlq == if id in before then before else before[id := letter]
  }

  /** It released the lock: no live entry of the order holds this run's token after it. */
  ghost predicate ReleasedAt(b: Behavior, n: nat, r: RunId, payload: Payload, workerId: nat) {
    StepAt(b, n, ByRun(r, RunAct.ReleaseLock)) &&
    var s := b.states[n];
    !(Live(s.locks, payload.orderId, s.clock) && s.locks[payload.orderId].value == Token(workerId, payload.orderId))
  }

  /** It found the lock held. */
  ghost predicate BusyAt(b: Behavior, n: nat, r: RunId, payload: Payload) {
    StepAt(b, n, ByRun(r, RunAct.AcquireLock(false))) && Live(b.states[n - 1].locks, payload.orderId, b.states[n - 1].clock)
  }

  /** The database did not take the order. */
  ghost predicate RejectedAt(b: Behavior, n: nat, r: RunId, payload: Payload) {
    StepAt(b, n, ByRun(r, InsertOrder(false))) && InsertOutcomeOf(b.states[n - 1].db, payload) == Rejected
  }

  /** The version guard stopped the transition. */
  ghost predicate StaleAt(b: Behavior, n: nat, r: RunId, stage: Stage) {
    StepAt(b, n, ByRun(r, ChangeStatus(false))) && r in b.states[n - 1].runs && b.states[n - 1].runs[r].pc == Commit(stage) &&
    ChangeOutcomeOf(b.states[n - 1].db, ChangeOf(b.states[n - 1].runs[r], stage)) == Stale
  }

  /** It counted one retry of this order and changed nothing else in the tables. */
  ghost predicate CountedAt(b: Behavior, n: nat, r: RunId, id: OrderId) {
    StepAt(b, n, ByRun(r, CountUp)) && b.states[n].dlq == b.states[n - 1].dlq &&
    var db := b.states[n - 1].db;
    b.states[n].db == if id in db then db[id := db[id].(row := db[id].row.(retryCount := db[id].row.retryCount + 1))] else db
  }

  /** It gave the claim on the key back. */
  ghost predicate GivenBackAt(b: Behavior, n: nat, q: ReqId, key: Key) {
    StepAt(b, n, ByRequest(q, ReqAct.ReleaseClaim(false))) && PendingKey(key) !in b.states[n].claims
  }

  /** It found the key claimed. */
  ghost predicate ClaimedAt(b: Behavior, n: nat, q: ReqId, key: Key) {
    StepAt(b, n, ByRequest(q, Claim(false))) && Live(b.states[n - 1].claims, PendingKey(key), b.states[n - 1].clock)
  }

  /** It looked the key's response up, and this is the answer. */
  ghost predicate LookedUpAt(b: Behavior, n: nat, q: ReqId, key: Key, reply: Reply) {
    StepAt(b, n, ByRequest(q, LookUp)) &&
    var claims, now, k := b.states[n - 1].claims, b.states[n - 1].clock, ResponseKey(key);
    reply == if k !in claims || claims[k].expiresAt <= now then Conflict
             else match claims[k].value
               case Response(id) => ReplayedReply(id)
               case Pending(_) => ServerError
  }

  lemma LastStep(b: Behavior, b': Behavior, st: Step)
    requires |b.states| == |b.steps| + 1 && Enabled(Last(b), st) && b' == Extend(b, st)
    ensures |b'.states| == |b'.steps| + 1 && StepAt(b', |b'.steps|, st)
    ensures b'.states[|b'.steps| - 1] == Last(b) && b'.states[|b'.steps|] == Last(b')
  {
  }

  lemma BusyStep(b: Behavior, r: RunId)
    requires |b.states| == |b.steps| + 1 && r in Last(b).runs && Last(b).runs[r].pc == Lock
    requires Live(Last(b).locks, Last(b).runs[r].payload.orderId, Last(b).clock)
    ensures Enabled(Last(b), ByRun(r, RunAct.AcquireLock(false)))
    ensures var b' := Extend(b, ByRun(r, RunAct.AcquireLock(false))); BusyAt(b', |b'.steps|, r, Last(b).runs[r].payload)
  {
    var st := ByRun(r, RunAct.AcquireLock(false));
    LastStep(b, Extend(b, st), st);
    hide Extend, StepAt, Apply;
  }

  lemma LookedUpStep(b: Behavior, q: ReqId)
    requires |b.states| == |b.steps| + 1 && q in Last(b).reqs && Last(b).reqs[q].pc == LookingUp
    ensures Enabled(Last(b), ByRequest(q, LookUp))
    ensures var b', req := Extend(b, ByRequest(q, LookUp)), Last(b).reqs[q];
            LookedUpAt(b', |b'.steps|, q, req.cmd.key,
                       match CachedResponse(Last(b).claims, req.cmd.key, Last(b).clock)
                       case Absent => Conflict
                       case Found(id) => ReplayedReply(id)
                       case NotJson => ServerError)
  {
    LastStep(b, Extend(b, ByRequest(q, LookUp)), ByRequest(q, LookUp));
    hide Extend, StepAt, Apply, ResponseKey;
  }

  lemma ClaimedStep(b: Behavior, q: ReqId)
    requires |b.states| == |b.steps| + 1 && q in Last(b).reqs && Last(b).reqs[q].pc == Claiming
    requires Live(Last(b).claims, PendingKey(Last(b).reqs[q].cmd.key), Last(b).clock)
    ensures Enabled(Last(b), ByRequest(q, Claim(false)))
    ensures var b' := Extend(b, ByRequest(q, Claim(false))); ClaimedAt(b', |b'.steps|, q, Last(b).reqs[q].cmd.key)
  {
    LastStep(b, Extend(b, ByRequest(q, Claim(false))), ByRequest(q, Claim(false)));
    hide Extend, StepAt, Apply, PendingKey;
  }

  lemma CountedStep(b: Behavior, r: RunId)
    requires |b.states| == |b.steps| + 1 && Enabled(Last(b), ByRun(r, CountUp))
    ensures var b' := Extend(b, ByRun(r, CountUp)); CountedAt(b', |b'.steps|, r, Last(b).runs[r].payload.orderId)
  {
    LastStep(b, Extend(b, ByRun(r, CountUp)), ByRun(r, CountUp));
    hide Extend, StepAt, NextRun, NextLocks, RunCan;
  }

  lemma RunEffect(s: Sys, r: RunId, move: RunAct)
    requires r in s.runs && RunCan(s.runs[r], move)
    ensures var st := ByRun(r, move);
            Enabled(s, st) &&
            Apply(s, st) == s.(runs := s.runs[r := NextRun(s.locks, s.db, s.clock, s.runs[r], move)],
                               db := NextDb(s.db, s.clock, r, s.runs[r], move),
                               locks := NextLocks(s.locks, s.cfg.lockTtl, s.clock, s.runs[r], move),
                               dlq := NextDlq(s.dlq, s.clock, s.runs[r], move))
  {
    hide NextRun, NextDb, NextLocks, NextDlq, RunCan;
  }

  lemma RequestEffect(s: Sys, q: ReqId, act: ReqAct)
    requires q in s.reqs && ReqCan(s.reqs[q], act)
    ensures var st := ByRequest(q, act);
            Enabled(s, st) &&
            Apply(s, st) == s.(reqs := s.reqs[q := NextRequest(s.claims, s.clock, s.reqs[q], act)],
                               claims := NextClaims(s.claims, s.cfg.idempotencyTtl, s.clock, s.reqs[q], act),
                               jobs := NextJobs(s.jobs, s.reqs[q], act))
  {
    hide NextRequest, NextClaims, NextJobs, ReqCan;
  }

  lemma BuryEffect(s: Sys, r: RunId)
    requires r in s.runs && s.runs[r].pc == DeadLetterOut
    ensures var st, run := ByRun(r, PublishDead), s.runs[r];
            Enabled(s, st) &&
            Apply(s, st) == s.(runs := s.runs[r := run.(pc := Ended)],
                               dlq := OrderQueue.Bury(s.dlq, DeadLetter(run.payload, run.reason, run.attempts), s.clock))
  {
    hide OrderQueue.Bury;
  }

  /** The two steps that write orders touch nothing else but the run. */
  lemma ChangeEffect(s: Sys, r: RunId, stage: Stage, ackLost: bool)
    requires r in s.runs && s.runs[r].pc == Commit(stage)
    ensures var st, run := ByRun(r, ChangeStatus(ackLost)), s.runs[r];
            var c := ChangeOf(run, stage);
            Enabled(s, st) &&
            Apply(s, st) == s.(db := Transition(s.db, c, run.startedAt, Author(r, run)),
                               runs := s.runs[r := run.(pc := if ackLost then AfterThrow(run)
                                                              else AfterChange(stage, ChangeOutcomeOf(s.db, c)))])
  {
    hide Transition, ChangeOutcomeOf, ChangeOf, AfterThrow, AfterChange;
  }

  lemma InsertEffect(s: Sys, r: RunId, ackLost: bool)
    requires r in s.runs && s.runs[r].pc == CommitCreate
    ensures var st, run := ByRun(r, InsertOrder(ackLost)), s.runs[r];
            var done := InsertOutcomeOf(s.db, run.payload) == Inserted;
            Enabled(s, st) &&
            Apply(s, st) == s.(db := Insert(s.db, run.payload, run.startedAt, Author(r, run)),
                               runs := s.runs[r := run.(inserted := done, pc := if done && !ackLost then Find(ToSaved) else Unlock)])
  {
    hide Insert, InsertOutcomeOf;
  }

  lemma RejectedStep(b: Behavior, r: RunId)
    requires |b.states| == |b.steps| + 1 && Enabled(Last(b), ByRun(r, InsertOrder(false)))
    requires InsertOutcomeOf(Last(b).db, Last(b).runs[r].payload) == Rejected
    ensures var b' := Extend(b, ByRun(r, InsertOrder(false))); RejectedAt(b', |b'.steps|, r, Last(b).runs[r].payload)
  {
    LastStep(b, Extend(b, ByRun(r, InsertOrder(false))), ByRun(r, InsertOrder(false)));
    hide Extend, StepAt, Apply, InsertOutcomeOf;
  }

  lemma StaleStep(b: Behavior, r: RunId, stage: Stage)
    requires |b.states| == |b.steps| + 1 && r in Last(b).runs && Last(b).runs[r].pc == Commit(stage)
    requires ChangeOutcomeOf(Last(b).db, ChangeOf(Last(b).runs[r], stage)) == Stale
    ensures var b' := Extend(b, ByRun(r, ChangeStatus(false))); StaleAt(b', |b'.steps|, r, stage)
  {
    LastStep(b, Extend(b, ByRun(r, ChangeStatus(false))), ByRun(r, ChangeStatus(false)));
    hide Extend, StepAt, Apply, ChangeOf, ChangeOutcomeOf;
  }

  lemma BuriedStep(b: Behavior, r: RunId)
    requires |b.states| == |b.steps| + 1 && Enabled(Last(b), ByRun(r, PublishDead))
    ensures var b', run := Extend(b, ByRun(r, PublishDead)), Last(b).runs[r];
            BuriedAt(b', |b'.steps|, r, DeadLetter(run.payload, run.reason, run.attempts))
  {
    LastStep(b, Extend(b, ByRun(r, PublishDead)), ByRun(r, PublishDead));
    hide Extend, StepAt, NextRun, NextLocks, NextDb, RunCan;
  }

  datatype LockResult = Acquired | Busy | LockError
  datatype FindResult = FoundRow(row: OrderRow) | NoRow | FindError
  /** The retry policy around a POS call. */
  const MAX_RETRIES := 3

  datatype PosResult = PosAccepted(response: string) | PosFailed

  /** The behavior is one of the pipeline, and it ends in the state of the objects. */
  ghost predicate Agrees(w: Backend)
    requires w.b.states != []
    reads w, w.repo, w.lock, w.idempotency, w.queue
  {
    && w.repo.Valid() && IsBehavior(w.b)
    && var s := Last(w.b);
       s.cfg == Config(w.lock.ttl, w.idempotency.ttl) && s.clock == w.now &&
       s.claims == w.idempotency.entries && s.jobs == w.queue.main && s.dlq == w.queue.dlq &&
       s.locks == w.lock.entries && s.db == w.repo.Contents()
  }

  class Backend {
    const repo: OrderRepository
    const lock: DistributedLockService
    const idempotency: IdempotencyService
    const queue: OrderQueueService
    /** No command fails, the POS accepts each call, and the circuit stays closed. */
    const calm: bool
    /** The ids in the stores table. */
    const stores: set<StoreId>
    var now: nat
    ghost var b: Behavior

    ghost predicate Valid()
      reads this, repo, lock, idempotency, queue
    {
      |b.states| == |b.steps| + 1 && Agrees(this)
    }

    ghost function S(): Sys
      requires b.states != []
      reads this
    {
      Last(b)
    }

    /** The run r stands at this point, for this job. */
    ghost predicate At(r: RunId, payload: Payload, workerId: nat, pc: Pc)
      reads this
    {
      b.states != [] && r in S().runs && S().runs[r].payload == payload && S().runs[r].workerId == workerId &&
      S().runs[r].pc == pc
    }

    ghost function Me(r: RunId): Run
      requires b.states != [] && r in S().runs
      reads this
    {
      S().runs[r]
    }

    lemma Behaves()
      requires Valid()
      ensures IsBehavior(b)
    {
    }

    constructor (lockTtl: nat, idempotencyTtl: nat, now: nat, calm: bool, stores: set<StoreId>)
      requires lockTtl > 0 && idempotencyTtl > 0
      ensures Valid() && fresh(repo) && fresh(lock) && fresh(idempotency) && fresh(queue)
    {
      repo := new OrderRepository();
      lock := new DistributedLockService(lockTtl);
      idempotency := new IdempotencyService(idempotencyTtl);
      queue := new OrderQueueService();
      this.calm, this.stores, this.now := calm, stores, now;
      b := Behavior([Sys(Config(lockTtl, idempotencyTtl), now, map[], map[], map[], map[], map[], map[], map[])], []);
    }

    ghost method Record(st: Step)
      requires b.states != [] && IsBehavior(b) && Enabled(S(), st)
      modifies this`b
      ensures IsBehavior(b) && Extends(old(b), b) && b == Extend(old(b), st) && S() == Apply(old(S()), st)
    {
      ExtendIsBehavior(b, st);
      b := Extend(b, st);
    }

    /** What happens to the next command besides its own rules. */
    method AnyFault() returns (fault: Fault)
      ensures calm ==> fault == NoFault
    {
      fault := *;
      if calm {
        fault := NoFault;
      }
    }

    /** The command a run has sent fails without effect. */
    ghost method Throws(r: RunId)
      requires Valid() && r in S().runs && !Over(Me(r))
      modifies this`b
      ensures Valid() && Extends(old(b), b) && r in S().runs && Me(r) == old(Me(r)).(pc := AfterThrow(old(Me(r))))
    {
      hide IsBehavior, AfterThrow;
      Record(ByRun(r, Throw));
    }

    /** An await: any number of steps of anybody else. */
    method Yield(me: Party)
      requires Valid()
      modifies this, repo, lock, idempotency, queue
      ensures Valid() && OthersMove(old(b), b, me)
    {
    }

    method YieldRun(r: RunId)
      requires Valid() && r in S().runs
      modifies this, repo, lock, idempotency, queue
      ensures Valid() && Extends(old(b), b) && r in S().runs && Me(r) == old(Me(r))
    {
      Yield(RunParty(r));
      OthersKeepMine(old(b), b, r, 0);
    }

    // ----- the awaits of a worker run -----

    /** The queue hands a job to a worker. */
    method TakeJob(r: RunId, jobId: OrderId, workerId: nat) returns (payload: Payload)
      requires Valid() && r !in S().runs && jobId in queue.main
      modifies this`b
      ensures Valid() && Extends(old(b), b) && payload == queue.main[jobId] && At(r, payload, workerId, Lock)
    {
      hide IsBehavior;
      payload := queue.main[jobId];
      Record(Deliver(r, jobId, workerId));
    }

    /** A worker reports a job's failure. */
    method TakeFailure(r: RunId, jobId: OrderId, workerId: nat, error: ErrorKind, reason: string, attempts: nat)
      returns (payload: Payload)
      requires Valid() && r !in S().runs && jobId in queue.main
      modifies this`b
      ensures Valid() && Extends(old(b), b) && payload == queue.main[jobId]
      ensures At(r, payload, workerId, if MustDeadLetter(error, attempts) then Find(ToFailed) else CountRetry)
      ensures Me(r).reason == reason && Me(r).attempts == attempts
      ensures Enabled(Last(old(b)), HandleFailure(r, jobId, workerId, error, reason, attempts))
      ensures b == Extend(old(b), HandleFailure(r, jobId, workerId, error, reason, attempts))
    {
      hide IsBehavior;
      payload := queue.main[jobId];
      Record(HandleFailure(r, jobId, workerId, error, reason, attempts));
    }

    method AcquireLock(r: RunId, payload: Payload, workerId: nat) returns (res: LockResult)
      requires Valid() && At(r, payload, workerId, Lock)
      modifies this, repo, lock, idempotency, queue
      ensures Valid() && Extends(old(b), b)
      ensures At(r, payload, workerId, if res == Acquired then BeginCreate else Ended)
      ensures calm ==> res != LockError
      ensures res == Busy ==> BusyAt(b, |b.steps|, r, payload)
    {
      hide IsBehavior, Extend, Extends, Apply, Enabled, BusyAt;
      ghost var b0 := b;
      YieldRun(r);
      ghost var b1 := b;
      var fault := AnyFault();
      if fault.AbortsAt? {
        Throws(r);
        res := LockError;
      } else {
        RunEffect(S(), r, RunAct.AcquireLock(fault.AckLost?));
        var acquired := lock.Acquire(payload.orderId, Token(workerId, payload.orderId), now);
        res := if fault.AckLost? then LockError else if acquired then Acquired else Busy;
        if res == Busy {
          BusyStep(b1, r);
        }
        Record(ByRun(r, RunAct.AcquireLock(fault.AckLost?)));
      }
      ExtendsTrans(b0, b1, b);
    }

    method ReleaseLock(r: RunId, payload: Payload, workerId: nat) returns (ok: bool)
      requires Valid() && At(r, payload, workerId, Unlock)
      modifies this, repo, lock, idempotency, queue
      ensures Valid() && Extends(old(b), b) && At(r, payload, workerId, Ended)
      ensures calm ==> ok
      ensures ok ==> ReleasedAt(b, |b.steps|, r, payload, workerId)
    {
      hide IsBehavior, Apply, Enabled, Extend, Extends;
      ghost var b0 := b;
      YieldRun(r);
      var fault := AnyFault();
      ok := fault == NoFault;
      ghost var b1 := b;
      if fault.AbortsAt? {
        Throws(r);
      } else {
        RunEffect(S(), r, RunAct.ReleaseLock);
        lock.Release(payload.orderId, Token(workerId, payload.orderId), now);
        Record(ByRun(r, RunAct.ReleaseLock));
        LastStep(b1, b, ByRun(r, RunAct.ReleaseLock));
      }
      ExtendsTrans(b0, b1, b);
    }

    /** BEGIN: NOW() is fixed here. */
    method BeginTransaction(r: RunId, payload: Payload, workerId: nat, ghost pc: Pc) returns (startedAt: Option<nat>)
      requires Valid() && At(r, payload, workerId, pc) && (pc == BeginCreate || pc.Begin?)
      modifies this, repo, lock, idempotency, queue
      ensures Valid() && Extends(old(b), b) && r in S().runs
      ensures startedAt.Some? ==>
                Me(r) == old(Me(r)).(startedAt := startedAt.value,
                                     pc := if pc == BeginCreate then CommitCreate else Commit(pc.stage))
      ensures startedAt.None? ==> At(r, payload, workerId, AfterThrow(old(Me(r))))
      ensures calm ==> startedAt.Some?
    {
      hide IsBehavior;
      YieldRun(r);
      var fault := AnyFault();
      if fault != NoFault {
        Throws(r);
        return None;
      }
      startedAt := Some(now);
      Record(ByRun(r, BeginTx));
    }

    method CreateOrder(r: RunId, payload: Payload, workerId: nat, startedAt: nat) returns (res: CreateResult)
      requires Valid() && At(r, payload, workerId, CommitCreate) && Me(r).startedAt == startedAt
      modifies this, repo, lock, idempotency, queue
      ensures Valid() && Extends(old(b), b)
      ensures At(r, payload, workerId, if res == CreatedOrder then Find(ToSaved) else Unlock)
      ensures res == DuplicateOrder ==> KeyTaken(S().db, payload.key)
      ensures calm && res == CreateError ==> RejectedAt(b, |b.steps|, r, payload)
    {
      hide IsBehavior, Insert, InsertOutcomeOf, KeyTaken, Extend, Extends, RejectedAt, Enabled, Apply;
      ghost var b0 := b;
      YieldRun(r);
      ghost var b1 := b;
      var fault := AnyFault();
      ghost var before := repo.Contents();
      res := repo.CreateOrder(payload, startedAt, Actor(workerId, payload.orderId, r), fault);
      DuplicateStays(before, payload, startedAt, Actor(workerId, payload.orderId, r));
      if fault.AbortsAt? {
        Throws(r);
      } else {
        InsertEffect(S(), r, fault.AckLost?);
        if fault == NoFault && InsertOutcomeOf(before, payload) == Rejected {
          RejectedStep(b1, r);
        }
        Record(ByRun(r, InsertOrder(fault.AckLost?)));
      }
      ExtendsTrans(b0, b1, b);
    }

    method FindById(r: RunId, payload: Payload, workerId: nat, ghost stage: Stage) returns (res: FindResult)
      requires Valid() && At(r, payload, workerId, Find(stage))
      modifies this, repo, lock, idempotency, queue
      ensures Valid() && Extends(old(b), b) && r in S().runs
      ensures Me(r).reason == old(Me(r)).reason && Me(r).attempts == old(Me(r)).attempts
      ensures res.FoundRow? ==>
                Me(r) == old(Me(r)).(status := res.row.status, version := res.row.version, readAt := Me(r).readAt, pc := Me(r).pc) &&
                Me(r).pc == if stage == ToFailed && (res.row.status == Failed || res.row.status == Completed) then Mark
                            else Begin(stage)
      ensures res.NoRow? ==> At(r, payload, workerId, if stage == ToFailed then Mark else Unlock)
      ensures res.FindError? ==> At(r, payload, workerId, AfterThrow(old(Me(r))))
      ensures calm ==> !res.FindError?
      ensures stage != ToFailed ==> !res.NoRow?
    {
      hide IsBehavior, RunInv, RecordInv, Extend, Extends, Apply, Enabled;
      ghost var b0 := b;
      YieldRun(r);
      ghost var b1 := b;
      if stage != ToFailed {
        RowThere(b, r);
      }
      var fault := AnyFault();
      if fault != NoFault {
        Throws(r);
        ExtendsTrans(b0, b1, b);
        return FindError;
      }
      RunEffect(S(), r, FindOrder);
      var row := repo.FindById(payload.orderId);
      Record(ByRun(r, FindOrder));
      ExtendsTrans(b0, b1, b);
      return if row.Some? then FoundRow(row.value) else NoRow;
    }

    method TransitionStatus(r: RunId, payload: Payload, workerId: nat, c: Change, startedAt: nat, ghost stage: Stage)
      returns (res: ChangeResult)
      requires Valid() && At(r, payload, workerId, Commit(stage))
      requires Me(r).startedAt == startedAt && c == ChangeOf(Me(r), stage)
      modifies this, repo, lock, idempotency, queue
      ensures Valid() && Extends(old(b), b) && r in S().runs
      ensures res == ChangeError ==> Me(r) == old(Me(r)).(pc := AfterThrow(old(Me(r))))
      ensures res == ChangeDone ==> Me(r) == old(Me(r)).(pc := AfterChange(stage, Committed))
      ensures res == ChangeStale ==> Me(r) == old(Me(r)).(pc := AfterChange(stage, Stale))
      ensures res == ChangeRefused ==> Me(r) == old(Me(r)).(pc := AfterChange(stage, Refused))
      ensures res == ChangeRefused <==> !Allowed(c.expected, c.next)
      ensures calm ==> res != ChangeError
      ensures res == ChangeStale ==> StaleAt(b, |b.steps|, r, stage)
      ensures res == ChangeDone ==> InLog(S().db, payload.orderId, ChangeAudit(c, startedAt, Actor(workerId, payload.orderId, r)))
    {
      hide IsBehavior, StaleAt, Extend, Extends, Enabled, Apply, AfterThrow, AfterChange, ChangeOf;
      ghost var b0 := b;
      YieldRun(r);
      var fault := AnyFault();
      ghost var b1 := b;
      ChangeTarget(Me(r), stage);
      CommittedInLog(repo.Contents(), c, startedAt, Actor(workerId, payload.orderId, r));
      RefusedMeans(repo.Contents(), c);
      hide Transition, ChangeOutcomeOf, InLog, Allowed;
      res := repo.TransitionStatus(c, startedAt, Actor(workerId, payload.orderId, r), fault);
      if fault.AbortsAt? && res != ChangeRefused {
        Throws(r);
      } else {
        if res == ChangeStale {
          StaleStep(b1, r, stage);
        }
        ChangeEffect(S(), r, stage, res == ChangeError);
        Record(ByRun(r, ChangeStatus(res == ChangeError)));
      }
      ExtendsTrans(b0, b1, b);
    }

    method CallPos(r: RunId, payload: Payload, workerId: nat) returns (accepted: bool, response: string)
      requires Valid() && At(r, payload, workerId, PosCalling)
      modifies this, repo, lock, idempotency, queue
      ensures Valid() && Extends(old(b), b)
      ensures At(r, payload, workerId, if accepted then Find(ToSent) else PosCalling)
      ensures accepted ==> Me(r).posResponse == response && Me(r).posAccepted
      ensures calm ==> accepted
    {
      hide IsBehavior;
      YieldRun(r);
      accepted, response := *, *;
      accepted := accepted || calm;
      Record(ByRun(r, RunAct.CallPos(accepted, response)));
    }

    method Abandon(r: RunId, payload: Payload, workerId: nat, ghost pc: Pc)
      requires Valid() && At(r, payload, workerId, pc) && pc != Ended && pc != Crashed
      modifies this, repo, lock, idempotency, queue
      ensures Valid() && Extends(old(b), b) && At(r, payload, workerId, AfterThrow(old(Me(r))))
    {
      hide IsBehavior;
      YieldRun(r);
      Throws(r);
    }

    method EnterPos(r: RunId, payload: Payload, workerId: nat)
      requires Valid() && At(r, payload, workerId, PosReady)
      modifies this, repo, lock, idempotency, queue
      ensures Valid() && Extends(old(b), b) && At(r, payload, workerId, PosCalling)
    {
      hide IsBehavior;
      YieldRun(r);
      Record(ByRun(r, RunAct.EnterPos));
    }

    /** Execute of the circuit breaker: it calls the POS until the first acceptance or
        until the policy gives up; an open circuit gives up without a call. */
    method CallPosGuarded(r: RunId, payload: Payload, workerId: nat) returns (res: PosResult)
      requires Valid() && At(r, payload, workerId, PosReady)
      modifies this, repo, lock, idempotency, queue
      ensures Valid() && Extends(old(b), b)
      ensures res.PosAccepted? ==>
                At(r, payload, workerId, Find(ToSent)) && Me(r).posResponse == res.response && Me(r).posAccepted
      ensures res.PosFailed? ==> At(r, payload, workerId, Unlock)
      ensures calm ==> res.PosAccepted?
    {
      hide IsBehavior, Agrees, Extends;
      ghost var b0 := b;
      EnterPos(r, payload, workerId);
      for call := 0 to MAX_RETRIES + 1
        invariant Valid() && Extends(b0, b) && At(r, payload, workerId, PosCalling)
        invariant calm ==> call == 0
      {
        ghost var before := b;
        var circuitOpen: bool := *;
        if circuitOpen && !calm {
          break;
        }
        var accepted, response := CallPos(r, payload, workerId);
        ExtendsTrans(b0, before, b);
        if accepted {
          return PosAccepted(response);
        }
      }
      ghost var called := b;
      Abandon(r, payload, workerId, PosCalling);
      ExtendsTrans(b0, called, b);
      return PosFailed;
    }

    // ----- the awaits of a failure handler -----

    method CountRetryUp(r: RunId, payload: Payload, workerId: nat) returns (ok: bool)
      requires Valid() && At(r, payload, workerId, CountRetry)
      modifies this, repo, lock, idempotency, queue
      ensures Valid() && Extends(old(b), b) && At(r, payload, workerId, Ended)
      ensures calm ==> ok
      ensures ok ==> CountedAt(b, |b.steps|, r, payload.orderId)
    {
      hide IsBehavior, CountedAt, Extend, Extends, Apply, Enabled, OrderStore.IncrementRetryCount;
      ghost var b0 := b;
      YieldRun(r);
      var fault := AnyFault();
      ok := fault == NoFault;
      ghost var b1 := b;
      if fault.AbortsAt? {
        Throws(r);
      } else {
        RunEffect(S(), r, CountUp);
        CountedStep(b1, r);
        repo.IncrementRetryCount(payload.orderId);
        Record(ByRun(r, CountUp));
      }
      ExtendsTrans(b0, b1, b);
    }

    method MarkDlq(r: RunId, payload: Payload, workerId: nat, reason: string) returns (ok: bool)
      requires Valid() && At(r, payload, workerId, Mark) && Me(r).reason == reason
      modifies this, repo, lock, idempotency, queue
      ensures Valid() && Extends(old(b), b) && At(r, payload, workerId, if ok then DeadLetterOut else Ended)
      ensures Me(r).reason == reason && Me(r).attempts == old(Me(r)).attempts
      ensures calm ==> ok
    {
      hide IsBehavior, OrderStore.MarkDlq, Extend, Extends, Apply, Enabled;
      ghost var b0 := b;
      YieldRun(r);
      ghost var b1 := b;
      var fault := AnyFault();
      ok := fault == NoFault;
      if fault.AbortsAt? {
        Throws(r);
      } else {
        RunEffect(S(), r, MarkDead(!ok));
        repo.MarkDlq(payload.orderId, reason, now);
        Record(ByRun(r, MarkDead(!ok)));
      }
      ExtendsTrans(b0, b1, b);
    }

    method PublishToDlq(r: RunId, payload: Payload, workerId: nat, reason: string, attempts: nat) returns (ok: bool)
      requires Valid() && At(r, payload, workerId, DeadLetterOut) && Me(r).reason == reason && Me(r).attempts == attempts
      modifies this, repo, lock, idempotency, queue
      ensures Valid() && Extends(old(b), b) && At(r, payload, workerId, Ended)
      ensures calm ==> ok
      ensures ok ==> BuriedAt(b, |b.steps|, r, DeadLetter(payload, reason, attempts))
    {
      hide IsBehavior, Extend, Bury, Extends, BuriedAt, Apply, Enabled;
      ghost var b0 := b;
      YieldRun(r);
      var fault := AnyFault();
      ok := fault == NoFault;
      ghost var b1 := b;
      if fault.AbortsAt? {
        Throws(r);
      } else {
        BuryEffect(S(), r);
        BuriedStep(b1, r);
        queue.PublishToDlq(payload, reason, attempts, now);
        Record(ByRun(r, PublishDead));
      }
      ExtendsTrans(b0, b1, b);
    }

    // ----- the awaits of a request -----

    /** Request q stands at this point. */
    ghost predicate AtReq(q: ReqId, cmd: Command, orderId: OrderId, pc: ReqPc)
      reads this
    {
      b.states != [] && q in S().reqs && S().reqs[q].cmd == cmd && S().reqs[q].orderId == orderId && S().reqs[q].pc == pc
    }

    method YieldReq(q: ReqId)
      requires Valid() && q in S().reqs
      modifies this, repo, lock, idempotency, queue
      ensures Valid() && Extends(old(b), b) && q in S().reqs && S().reqs[q] == old(S().reqs[q])
    {
      Yield(RequestParty(q));
      OthersKeepMine(old(b), b, 0, q);
    }

    /** A request comes in, with a fresh UUID for its order. */
    method TakeRequest(q: ReqId, cmd: Command, orderId: OrderId)
      requires Valid() && q !in S().reqs && forall p :: p in S().reqs ==> S().reqs[p].orderId != orderId
      modifies this`b
      ensures Valid() && Extends(old(b), b) && AtReq(q, cmd, orderId, Claiming)
    {
      hide IsBehavior;
      Record(Receive(q, cmd, orderId));
    }

    /** None: the command failed, with or without effect. */
    method TryAcquire(q: ReqId, cmd: Command, orderId: OrderId) returns (isNew: Option<bool>)
      requires Valid() && AtReq(q, cmd, orderId, Claiming)
      modifies this, repo, lock, idempotency, queue
      ensures Valid() && Extends(old(b), b)
      ensures AtReq(q, cmd, orderId, if isNew == None then Answered(ServerError)
                                     else if isNew.value then Validating else LookingUp)
      ensures calm ==> isNew.Some?
      ensures isNew == Some(false) ==> ClaimedAt(b, |b.steps|, q, cmd.key)
    {
      hide IsBehavior, PendingKey, Apply, Enabled, Extend, Extends, ClaimedAt;
      ghost var b0 := b;
      YieldReq(q);
      ghost var b1 := b;
      var fault := AnyFault();
      if fault.AbortsAt? {
        isNew := None;
        RequestEffect(S(), q, Fail);
        Record(ByRequest(q, Fail));
      } else {
        RequestEffect(S(), q, Claim(fault.AckLost?));
        var claimed := idempotency.TryAcquire(cmd.key, orderId, now);
        isNew := if fault.AckLost? then None else Some(claimed);
        if isNew == Some(false) {
          ClaimedStep(b1, q);
        }
        Record(ByRequest(q, Claim(fault.AckLost?)));
      }
      ExtendsTrans(b0, b1, b);
    }

    method GetCachedResponse(q: ReqId, cmd: Command, orderId: OrderId) returns (reply: Reply)
      requires Valid() && AtReq(q, cmd, orderId, LookingUp)
      modifies this, repo, lock, idempotency, queue
      ensures Valid() && Extends(old(b), b) && AtReq(q, cmd, orderId, Answered(reply))
      ensures reply.ReplayedReply? || reply == Conflict || reply == ServerError
      ensures calm || reply != ServerError ==> LookedUpAt(b, |b.steps|, q, cmd.key, reply)
    {
      hide IsBehavior, ResponseKey, CachedResponse, Apply, Enabled, Extend, Extends, LookedUpAt;
      ghost var b0 := b;
      YieldReq(q);
      ghost var b1 := b;
      var fault := AnyFault();
      if fault != NoFault {
        reply := ServerError;
        RequestEffect(S(), q, Fail);
        Record(ByRequest(q, Fail));
      } else {
        RequestEffect(S(), q, LookUp);
        LookedUpStep(b1, q);
        var cached := idempotency.GetCachedResponse(cmd.key, now);
        match cached {
          case Absent => reply := Conflict;
          case Found(id) => reply := ReplayedReply(id);
          case NotJson => reply := ServerError;
        }
        Record(ByRequest(q, LookUp));
      }
      ExtendsTrans(b0, b1, b);
    }

    /** The validation's outcome, once the menus are there (None: reading them failed). */
    method Decide(q: ReqId, cmd: Command, orderId: OrderId, menus: Option<map<string, Menu>>, verdict: Checked)
      requires Valid() && AtReq(q, cmd, orderId, Validating)
      requires menus.Some? ==> verdict == CheckedOf(menus.value, cmd.cart, cmd.requested)
      modifies this, repo, lock, idempotency, queue
      ensures Valid() && Extends(old(b), b)
      ensures AtReq(q, cmd, orderId,
                    if menus.None? then Releasing(Unavailable)
                    else if verdict.Valid? then Publishing(Payload(orderId, cmd.storeId, cmd.key, cmd.requested, verdict.calculated, verdict.items))
                    else Releasing(Unprocessable))
    {
      hide IsBehavior, CheckedOf;
      YieldReq(q);
      if menus.None? {
        Record(ByRequest(q, Fail));
      } else {
        Record(ByRequest(q, Check(menus.value)));
      }
    }

    method PublishOrder(q: ReqId, cmd: Command, orderId: OrderId, payload: Payload) returns (ok: bool)
      requires Valid() && AtReq(q, cmd, orderId, Publishing(payload)) && payload.orderId == orderId
      modifies this, repo, lock, idempotency, queue
      ensures Valid() && Extends(old(b), b)
      ensures AtReq(q, cmd, orderId, if ok then Caching else Releasing(Unavailable))
      ensures calm ==> ok
      ensures ok ==> orderId in S().jobs && S().jobs[orderId] == payload
    {
      hide IsBehavior, ReqInv;
      YieldReq(q);
      NotPublishedYet(b, q);
      var fault := AnyFault();
      ok := fault == NoFault;
      if fault.AbortsAt? {
        Record(ByRequest(q, Fail));
      } else {
        var _ := queue.PublishOrder(payload);
        Record(ByRequest(q, PublishJob(!ok)));
      }
    }

    method SetCompleted(q: ReqId, cmd: Command, orderId: OrderId) returns (ok: bool)
      requires Valid() && AtReq(q, cmd, orderId, Caching)
      modifies this, repo, lock, idempotency, queue
      ensures Valid() && Extends(old(b), b)
      ensures AtReq(q, cmd, orderId, if ok then Answered(AcceptedReply(orderId)) else Releasing(Unavailable))
      ensures calm ==> ok
    {
      hide IsBehavior, ResponseKey;
      YieldReq(q);
      var fault := AnyFault();
      ok := fault == NoFault;
      if fault.AbortsAt? {
        Record(ByRequest(q, Fail));
      } else {
        idempotency.SetCompleted(cmd.key, orderId, now);
        Record(ByRequest(q, CacheReply(!ok)));
      }
    }

    method ReleaseClaim(q: ReqId, cmd: Command, orderId: OrderId, reply: Reply) returns (answer: Reply)
      requires Valid() && AtReq(q, cmd, orderId, Releasing(reply))
      modifies this, repo, lock, idempotency, queue
      ensures Valid() && Extends(old(b), b) && AtReq(q, cmd, orderId, Answered(answer))
      ensures answer == reply || answer == ServerError
      ensures calm ==> answer == reply
      ensures answer == reply && reply != ServerError ==> GivenBackAt(b, |b.steps|, q, cmd.key)
    {
      hide IsBehavior, PendingKey;
      YieldReq(q);
      ghost var b1 := b;
      var fault := AnyFault();
      if fault.AbortsAt? {
        Record(ByRequest(q, Fail));
        return ServerError;
      }
      idempotency.Release(cmd.key);
      Record(ByRequest(q, ReqAct.ReleaseClaim(fault.AckLost?)));
      LastStep(b1, b, ByRequest(q, ReqAct.ReleaseClaim(fault.AckLost?)));
      return if fault.AckLost? then ServerError else reply;
    }
  }

  /** An order that its worker has inserted does not go away. */
  lemma RowThere(b: Behavior, r: RunId)
    requires IsBehavior(b) && b.states != [] && r in Last(b).runs && PastCreate(Last(b).runs[r].pc)
    ensures Last(b).runs[r].payload.orderId in Last(b).db
  {
    hide IsBehavior, RecordInv, UniqueKeys, ReadFits;
    FirstOf(b);
    Reachable(b, |b.steps|);
    assert RunInv(Last(b).clock, Last(b).jobs, Last(b).db, r, Last(b).runs[r]);
  }

  lemma NotPublishedYet(b: Behavior, q: ReqId)
    requires IsBehavior(b) && b.states != [] && q in Last(b).reqs && Last(b).reqs[q].pc.Publishing?
    ensures Last(b).reqs[q].orderId !in Last(b).jobs
  {
    hide IsBehavior;
    FirstOf(b);
    AlwaysFits(b, |b.steps|);
    assert RequestFits(Last(b).jobs, Last(b).reqs[q]);
    FreshJob(Last(b), q);
  }

  lemma RefusedMeans(db: Db, c: Change)
    ensures forall fault :: ChangeResultOf(ChangeOutcomeOf(db, c), fault) == ChangeRefused <==> !Allowed(c.expected, c.next)
  {
  }

  lemma CommittedInLog(db: Db, c: Change, now: nat, author: Actor)
    ensures ChangeOutcomeOf(db, c) == Committed ==> InLog(Transition(db, c, now, author), c.orderId, ChangeAudit(c, now, author))
  {
  }

  lemma DuplicateStays(db: Db, p: Payload, now: nat, author: Actor)
    ensures InsertOutcomeOf(db, p) == Duplicate ==> KeyTaken(Insert(db, p, now, author), p.key)
  {
  }
}
