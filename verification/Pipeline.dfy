/** The order pipeline as a step relation: requests, worker runs and failure
    handlers interleave freely, one step per Redis command and per database
    statement or commit. Runs stay in the state after they end, so a state also
    tells what every run has done so far. */
module Pipeline {
  import opened Redis
  import opened OrderStateMachine
  import opened Pricing
  import opened OrderStore
  import opened DistributedLock
  import opened Idempotency
  import opened OrderQueue

  type ReqId = nat
  type RunId = nat

  /** Time is in milliseconds, the two TTLs too. */
  datatype Config = Config(lockTtl: nat, idempotencyTtl: nat)

  // ----- API requests: CreateOrderService.execute -----

  datatype Command = Command(key: Key, storeId: StoreId, requested: real, cart: seq<CartItem>)

  datatype Reply =
    | AcceptedReply(orderId: OrderId)
    | ReplayedReply(orderId: OrderId)
    | Conflict
    | Unprocessable
    | Unavailable
    | ServerError

  /** Where a request is: the await it is about to perform. */
  datatype ReqPc =
    | Claiming
    | LookingUp
    | Validating
    | Publishing(payload: Payload)
    | Caching
    | Releasing(reply: Reply)
    | Answered(reply: Reply)
    | Dropped

  datatype Request = Request(
    cmd: Command, orderId: OrderId, pc: ReqPc, claimed: bool, claimedAt: nat, published: bool)

  // ----- worker runs and failure handlers: ProcessOrderService -----

  datatype Stage = ToSaved | ToSent | ToCompleted | ToFailed

  datatype Pc =
    | Lock
    | BeginCreate
    | CommitCreate
    | Find(stage: Stage)
    | Begin(stage: Stage)
    | Commit(stage: Stage)
    | PosReady
    | PosCalling
    | Unlock
    | CountRetry
    | Mark
    | DeadLetterOut
    | Ended
    | Crashed

  datatype Run = Run(
    payload: Payload, workerId: nat, pc: Pc,
    acquiredAt: nat,              // when the lock was taken
    status: Status, version: nat, // as last read
    readAt: nat,                  // when they were read
    startedAt: nat,               // NOW() of the open transaction
    inserted: bool, posStarted: bool, posAccepted: bool,
    posResponse: string, reason: string, attempts: nat)

  /** Errors as handleFailure sorts them. */
  datatype ErrorKind = BusinessLogic | Retryable

  function MustDeadLetter(error: ErrorKind, attemptsMade: nat): bool {
    error == BusinessLogic || attemptsMade >= 2
  }

  function NewRun(payload: Payload, workerId: nat, pc: Pc, reason: string, attempts: nat): Run {
    Run(payload, workerId, pc, 0, Queued, 0, 0, 0, false, false, false, "", reason, attempts)
  }

  function HolderToken(run: Run): Token {
    Token(run.workerId, run.payload.orderId)
  }

  function Author(r: RunId, run: Run): Actor {
    Actor(run.workerId, run.payload.orderId, r)
  }

  /** The transitionStatus call a run makes at a stage. */
  function ChangeOf(run: Run, stage: Stage): Change {
    var id := run.payload.orderId;
    match stage
    case ToSaved => Change(id, Queued, Saved, run.version, None, None)
    case ToSent => Change(id, Saved, SentToPos, run.version, Some(run.posResponse), None)
    case ToCompleted => Change(id, SentToPos, Completed, run.version, None, None)
    case ToFailed => Change(id, run.status, Failed, run.version, None, Some(run.reason))
  }

  /** Between taking the lock and releasing it. */
  predicate Critical(run: Run) {
    match run.pc
    case BeginCreate | CommitCreate | PosReady | PosCalling | Unlock => true
    case Find(stage) => stage != ToFailed
    case Begin(stage) => stage != ToFailed
    case Commit(stage) => stage != ToFailed
    case _ => false
  }

  predicate Over(run: Run) {
    run.pc == Ended || run.pc == Crashed
  }

  // ----- the whole system -----

  datatype Sys = Sys(
    cfg: Config, clock: nat,
    claims: Claims, reqs: map<ReqId, Request>,
    jobs: Jobs, dlq: Letters,
    locks: Locks, db: Db, runs: map<RunId, Run>)

  predicate Init(s: Sys) {
    s.cfg.lockTtl > 0 && s.cfg.idempotencyTtl > 0 &&
    s.claims == map[] && s.reqs == map[] && s.jobs == map[] && s.dlq == map[] &&
    s.locks == map[] && s.db == map[] && s.runs == map[]
  }

  /** ackLost: the command took effect but its caller saw an error. */
  datatype ReqAct =
    | Claim(ackLost: bool)
    | LookUp
    | Check(menus: map<string, Menu>)
    | PublishJob(ackLost: bool)
    | CacheReply(ackLost: bool)
    | ReleaseClaim(ackLost: bool)
    | Fail
    | Drop

  datatype RunAct =
    | AcquireLock(ackLost: bool)
    | BeginTx
    | InsertOrder(ackLost: bool)
    | FindOrder
    | ChangeStatus(ackLost: bool)
    | EnterPos
    | CallPos(accepted: bool, response: string)
    | ReleaseLock
    | Throw
    | Crash
    // failure handlers
    | CountUp
    | MarkDead(ackLost: bool)
    | PublishDead

  datatype Step =
    | Tick(ms: nat)
    | PatchStatus(orderId: OrderId, status: Status)
    | Receive(q: ReqId, cmd: Command, newOrderId: OrderId)
    | ByRequest(q: ReqId, act: ReqAct)
    // the queue delivers at least once: any published job, any number of times
    | Deliver(r: RunId, jobId: OrderId, workerId: nat)
    // a failure report may come at any time, with any error and attempt count
    | HandleFailure(r: RunId, jobId: OrderId, workerId: nat, error: ErrorKind, reason: string, attempts: nat)
    | ByRun(r: RunId, move: RunAct)

  predicate ReqCan(req: Request, act: ReqAct) {
    match act
    case Claim(_) => req.pc == Claiming
    case LookUp => req.pc == LookingUp
    case Check(_) => req.pc == Validating
    case PublishJob(_) => req.pc.Publishing?
    case CacheReply(_) => req.pc == Caching
    case ReleaseClaim(_) => req.pc.Releasing?
    case Fail => !req.pc.Answered? && req.pc != Dropped
    case Drop => !req.pc.Answered?
  }

  predicate RunCan(run: Run, move: RunAct) {
    match move
    case AcquireLock(_) => run.pc == Lock
    case BeginTx => run.pc == BeginCreate || run.pc.Begin?
    case InsertOrder(_) => run.pc == CommitCreate
    case FindOrder => run.pc.Find?
    case ChangeStatus(_) => run.pc.Commit?
    case EnterPos => run.pc == PosReady
    case CallPos(_, _) => run.pc == PosCalling
    case ReleaseLock => run.pc == Unlock
    case Throw => !Over(run)
    case Crash => !Over(run)
    case CountUp => run.pc == CountRetry
    case MarkDead(_) => run.pc == Mark
    case PublishDead => run.pc == DeadLetterOut
  }

  predicate Enabled(s: Sys, st: Step) {
    match st
    case Tick(_) => true
    case PatchStatus(_, _) => true
    // order ids are fresh UUIDs
    case Receive(q, cmd, id) => q !in s.reqs && forall p :: p in s.reqs ==> s.reqs[p].orderId != id
    case ByRequest(q, act) => q in s.reqs && ReqCan(s.reqs[q], act)
    case Deliver(r, id, _) => r !in s.runs && id in s.jobs
    case HandleFailure(r, id, _, _, _, _) => r !in s.runs && id in s.jobs
    case ByRun(r, move) => r in s.runs && RunCan(s.runs[r], move)
  }

  function PayloadOf(req: Request, v: Checked): Payload
    requires v.Valid?
  {
    Payload(req.orderId, req.cmd.storeId, req.cmd.key, req.cmd.requested, v.calculated, v.items)
  }

  // ----- what a request's step does to the request, the claims and the jobs -----

  function NextRequest(claims: Claims, now: nat, req: Request, act: ReqAct): Request
    requires ReqCan(req, act)
  {
    match act
    case Claim(ackLost) =>
      // the key may be set, but this request does not know that it holds it
      if ackLost then req.(pc := Answered(ServerError))
      else if Live(claims, PendingKey(req.cmd.key), now) then req.(pc := LookingUp)
      else req.(pc := Validating, claimed := true, claimedAt := now)
    case LookUp =>
      req.(pc := Answered(match CachedResponse(claims, req.cmd.key, now)
                          case Absent => Conflict
                          case Found(id) => ReplayedReply(id)
                          case NotJson => ServerError))
    case Check(menus) =>
      var verdict := CheckedOf(menus, req.cmd.cart, req.cmd.requested);
      req.(pc := if verdict.Valid? then Publishing(PayloadOf(req, verdict)) else Releasing(Unprocessable))
    case PublishJob(ackLost) =>
      req.(published := true, pc := if ackLost then Releasing(Unavailable) else Caching)
    case CacheReply(ackLost) =>
      req.(pc := if ackLost then Releasing(Unavailable) else Answered(AcceptedReply(req.orderId)))
    case ReleaseClaim(ackLost) => req.(pc := Answered(if ackLost then ServerError else req.pc.reply))
    case Fail =>
      // inside the try block an error releases the claim, outside it goes straight out
      if req.pc == Validating || req.pc.Publishing? || req.pc == Caching then req.(pc := Releasing(Unavailable))
      else req.(pc := Answered(ServerError))
    case Drop => req.(pc := Dropped)
  }

  function NextClaims(claims: Claims, ttl: nat, now: nat, req: Request, act: ReqAct): Claims {
    match act
    case Claim(_) => SetNx(claims, PendingKey(req.cmd.key), Pending(req.orderId), ttl, now)
    case CacheReply(_) => SetEx(claims, ResponseKey(req.cmd.key), Response(req.orderId), ttl, now)
    case ReleaseClaim(_) => Del(claims, PendingKey(req.cmd.key))
    case _ => claims
  }

  function NextJobs(jobs: Jobs, req: Request, act: ReqAct): Jobs
    requires ReqCan(req, act)
  {
    if act.PublishJob? then Publish(jobs, req.pc.payload) else jobs
  }

  // ----- what a run's step does to the run, the tables, the locks and the DLQ -----

  /** Where a run goes when its transitionStatus call returns. */
  function AfterChange(stage: Stage, outcome: ChangeOutcome): Pc {
    match stage
    case ToSaved => if outcome == Committed then PosReady else Unlock
    case ToSent => if outcome == Committed then Find(ToCompleted) else Unlock
    case ToCompleted => Unlock
    // moveToDlq swallows a stale version and rethrows everything else
    case ToFailed => if outcome == Refused then Ended else Mark
  }

  /** Where an exception takes a run: the finally block releases the lock. */
  function AfterThrow(run: Run): Pc {
    if Critical(run) && run.pc != Unlock then Unlock else Ended
  }

  function AfterFind(db: Db, run: Run, now: nat): Run
    requires run.pc.Find?
  {
    var id := run.payload.orderId;
    if id !in db then run.(pc := if run.pc.stage == ToFailed then Mark else Unlock)
    else
      var row := db[id].row;
      var done := run.pc.stage == ToFailed && (row.status == Failed || row.status == Completed);
      run.(status := row.status, version := row.version, readAt := now, pc := if done then Mark else Begin(run.pc.stage))
  }

  function NextRun(locks: Locks, db: Db, now: nat, run: Run, move: RunAct): Run
    requires RunCan(run, move)
  {
    match move
    case AcquireLock(ackLost) =>
      // an error of the lock command comes before the try block
      if ackLost || Live(locks, run.payload.orderId, now) then run.(pc := Ended)
      else run.(pc := BeginCreate, acquiredAt := now)
    case BeginTx =>
      run.(startedAt := now, pc := if run.pc == BeginCreate then CommitCreate else Commit(run.pc.stage))
    case InsertOrder(ackLost) =>
      var done := InsertOutcomeOf(db, run.payload) == Inserted;
      run.(inserted := done, pc := if done && !ackLost then Find(ToSaved) else Unlock)
    case FindOrder => AfterFind(db, run, now)
    case ChangeStatus(ackLost) =>
      run.(pc := if ackLost then AfterThrow(run)
                 else AfterChange(run.pc.stage, ChangeOutcomeOf(db, ChangeOf(run, run.pc.stage))))
    case EnterPos => run.(pc := PosCalling, posStarted := true)
    case CallPos(accepted, response) =>
      // after a failure the retry policy may call again, or give up by throwing
      if accepted then run.(pc := Find(ToSent), posAccepted := true, posResponse := response) else run
    case ReleaseLock => run.(pc := Ended)
    case Throw => run.(pc := AfterThrow(run))
    case Crash => run.(pc := Crashed)
    case CountUp => run.(pc := Ended)
    case MarkDead(ackLost) => run.(pc := if ackLost then Ended else DeadLetterOut)
    case PublishDead => run.(pc := Ended)
  }

  function NextDb(db: Db, now: nat, r: RunId, run: Run, move: RunAct): Db
    requires RunCan(run, move)
  {
    match move
    case InsertOrder(_) => Insert(db, run.payload, run.startedAt, Author(r, run))
    case ChangeStatus(_) => Transition(db, ChangeOf(run, run.pc.stage), run.startedAt, Author(r, run))
    case CountUp => IncrementRetryCount(db, run.payload.orderId)
    case MarkDead(_) => OrderStore.MarkDlq(db, run.payload.orderId, run.reason, now)
    case _ => db
  }

  function NextLocks(locks: Locks, ttl: nat, now: nat, run: Run, move: RunAct): Locks {
    match move
    case AcquireLock(_) => SetNx(locks, run.payload.orderId, HolderToken(run), ttl, now)
    case ReleaseLock => DelIfEquals(locks, run.payload.orderId, HolderToken(run), now)
    case _ => locks
  }

  function NextDlq(dlq: Letters, now: nat, run: Run, move: RunAct): Letters {
    if move.PublishDead? then Bury(dlq, DeadLetter(run.payload, run.reason, run.attempts), now) else dlq
  }

  function Apply(s: Sys, st: Step): Sys
    requires Enabled(s, st)
  {
    match st
    case Tick(ms) => s.(clock := s.clock + ms)
    case PatchStatus(id, status) => s.(db := Patch(s.db, id, status))
    case Receive(q, cmd, id) => s.(reqs := s.reqs[q := Request(cmd, id, Claiming, false, 0, false)])
    case ByRequest(q, act) =>
      s.(reqs := s.reqs[q := NextRequest(s.claims, s.clock, s.reqs[q], act)],
         claims := NextClaims(s.claims, s.cfg.idempotencyTtl, s.clock, s.reqs[q], act),
         jobs := NextJobs(s.jobs, s.reqs[q], act))
    case Deliver(r, id, worker) => s.(runs := s.runs[r := NewRun(s.jobs[id], worker, Lock, "", 0)])
    case HandleFailure(r, id, worker, error, reason, attempts) =>
      s.(runs := s.runs[r := NewRun(s.jobs[id], worker,
                                    if MustDeadLetter(error, attempts) then Find(ToFailed) else CountRetry,
                                    reason, attempts)])
    case ByRun(r, move) =>
      s.(runs := s.runs[r := NextRun(s.locks, s.db, s.clock, s.runs[r], move)],
         db := NextDb(s.db, s.clock, r, s.runs[r], move),
         locks := NextLocks(s.locks, s.cfg.lockTtl, s.clock, s.runs[r], move),
         dlq := NextDlq(s.dlq, s.clock, s.runs[r], move))
  }

  // ----- whole runs of the system -----

  datatype Behavior = Behavior(states: seq<Sys>, steps: seq<Step>)

  ghost predicate IsBehavior(b: Behavior) {
    |b.states| == |b.steps| + 1 && Init(b.states[0]) &&
    forall i {:trigger b.steps[i]} :: 0 <= i < |b.steps| ==> Enabled(b.states[i], b.steps[i]) && b.states[i + 1] == Apply(b.states[i], b.steps[i])
  }

  ghost predicate WithoutPatch(b: Behavior) {
    forall i :: 0 <= i < |b.steps| ==> !b.steps[i].PatchStatus?
  }

  /** The n-th step of a behavior leads from its n-th state to the next. */
  lemma StepOf(b: Behavior, n: nat)
    requires IsBehavior(b) && n + 1 < |b.states|
    ensures n < |b.steps| && Enabled(b.states[n], b.steps[n]) && b.states[n + 1] == Apply(b.states[n], b.steps[n])
  {
    assert Enabled(b.states[n], b.steps[n]);
  }

  lemma FirstOf(b: Behavior)
    requires IsBehavior(b)
    ensures |b.states| == |b.steps| + 1 && Init(b.states[0])
  {
  }

  ghost function Last(b: Behavior): Sys
    requires b.states != []
  {
    b.states[|b.states| - 1]
  }

  ghost function Extend(b: Behavior, st: Step): Behavior
    requires b.states != [] && Enabled(Last(b), st)
  {
    Behavior(b.states + [Apply(Last(b), st)], b.steps + [st])
  }

  /** b' goes on from b. */
  ghost predicate Extends(b: Behavior, b': Behavior) {
    b.states <= b'.states && b.steps <= b'.steps
  }

  lemma ExtendIsBehavior(b: Behavior, st: Step)
    requires IsBehavior(b) && Enabled(Last(b), st)
    ensures IsBehavior(Extend(b, st)) && Extends(b, Extend(b, st))
  {
  }

  lemma ExtendsTrans(b1: Behavior, b2: Behavior, b3: Behavior)
    requires Extends(b1, b2) && Extends(b2, b3)
    ensures Extends(b1, b3)
  {
  }
}
