/** The idempotency gate and the amounts, over whole runs of the pipeline. */
module PipelineGate {
  import opened Pricing
  import opened OrderStore
  import opened OrderQueue
  import opened Idempotency
  import opened Pipeline
  import opened PipelineInvariant

  // ----- requests, jobs and cached responses belong together -----

  predicate AmountsAgree(p: Payload) {
    p.calculated == OrderTotal(p.items) && p.requested == Won(p.calculated)
  }

  ghost predicate RequestFits(jobs: Jobs, req: Request) {
    && (req.published ==> req.claimed && req.orderId in jobs && jobs[req.orderId].key == req.cmd.key)
    && match req.pc
       case Claiming => !req.claimed && !req.published
       case LookingUp => !req.claimed && !req.published
       case Validating => req.claimed && !req.published
       case Publishing(p) =>
         req.claimed && !req.published && p.orderId == req.orderId && p.key == req.cmd.key && AmountsAgree(p)
       case Caching => req.published
       case Releasing(reply) => req.claimed && (reply == Unprocessable || reply == Unavailable)
       case Answered(AcceptedReply(id)) => req.published && id == req.orderId
       case Answered(ReplayedReply(id)) => id in jobs && jobs[id].key == req.cmd.key
       case _ => true
  }

  ghost predicate ReqInv(s: Sys) {
    && (forall p, q :: p in s.reqs && q in s.reqs && s.reqs[p].orderId == s.reqs[q].orderId ==> p == q)
    && (forall q :: q in s.reqs ==> RequestFits(s.jobs, s.reqs[q]))
    && (forall id :: id in s.jobs ==> JobFits(s, id))
    && (forall k :: k in s.claims && s.claims[k].value.Response? ==> ResponseFits(s.jobs, k, s.claims[k].value.orderId))
  }

  ghost predicate JobFits(s: Sys, id: OrderId) {
    id in s.jobs && s.jobs[id].orderId == id && AmountsAgree(s.jobs[id]) &&
    exists q :: q in s.reqs && s.reqs[q].published && s.reqs[q].orderId == id
  }

  ghost predicate ResponseFits(jobs: Jobs, k: string, id: OrderId) {
    id in jobs && k == ResponseKey(jobs[id].key)
  }

  lemma ResponseBelongs(jobs: Jobs, claims: Claims, key: Key, now: nat)
    requires forall k :: k in claims && claims[k].value.Response? ==> ResponseFits(jobs, k, claims[k].value.orderId)
    ensures CachedResponse(claims, key, now).Found? ==>
              CachedResponse(claims, key, now).orderId in jobs && jobs[CachedResponse(claims, key, now).orderId].key == key
  {
    if CachedResponse(claims, key, now).Found? {
      KeysInjective(key, jobs[claims[ResponseKey(key)].value.orderId].key);
    }
  }

  lemma RequestMoves(jobs: Jobs, claims: Claims, now: nat, req: Request, act: ReqAct)
    requires RequestFits(jobs, req) && ReqCan(req, act)
    requires forall k :: k in claims && claims[k].value.Response? ==> ResponseFits(jobs, k, claims[k].value.orderId)
    requires act.PublishJob? ==> req.orderId !in jobs
    ensures RequestFits(NextJobs(jobs, req, act), NextRequest(claims, now, req, act))
  {
    if act.LookUp? {
      ResponseBelongs(jobs, claims, req.cmd.key, now);
    }
    if act.Check? {
      AcceptedIff(act.menus, req.cmd.cart, req.cmd.requested);
    }
  }

  lemma RequestStable(jobs: Jobs, jobs': Jobs, req: Request)
    requires RequestFits(jobs, req) && JobsGrow(jobs, jobs')
    ensures RequestFits(jobs', req)
  {
  }

  lemma FreshJob(s: Sys, q: ReqId)
    requires ReqInv(s) && q in s.reqs && !s.reqs[q].published
    ensures s.reqs[q].orderId !in s.jobs
  {
    assert !JobFits(s, s.reqs[q].orderId);
  }

  lemma RequestStepKeeps(s: Sys, q: ReqId, act: ReqAct)
    requires ReqInv(s) && Enabled(s, ByRequest(q, act))
    ensures ReqInv(Apply(s, ByRequest(q, act)))
  {
    var s' := Apply(s, ByRequest(q, act));
    var req, req' := s.reqs[q], s'.reqs[q];
    assert RequestFits(s.jobs, req);
    if act.PublishJob? {
      FreshJob(s, q);
    }
    RequestMoves(s.jobs, s.claims, s.clock, req, act);
    SameIdentity(s.claims, s.clock, req, act);
    hide NextRequest, RequestFits;
    forall p | p in s'.reqs ensures RequestFits(s'.jobs, s'.reqs[p]) {
      if p != q {
        RequestStable(s.jobs, s'.jobs, s.reqs[p]);
      }
    }
    forall id | id in s'.jobs ensures JobFits(s', id) {
      JobStays(s, s', q, id, act);
    }
    forall k | k in s'.claims && s'.claims[k].value.Response? ensures ResponseFits(s'.jobs, k, s'.claims[k].value.orderId) {
      ResponseStays(s, s', q, k, act);
    }
  }

  lemma SameIdentity(claims: Claims, now: nat, req: Request, act: ReqAct)
    requires ReqCan(req, act)
    ensures var req' := NextRequest(claims, now, req, act);
            req'.orderId == req.orderId && req'.cmd == req.cmd && (req.published ==> req'.published) &&
            (act.PublishJob? ==> req'.published) && (!act.Claim? ==> req'.claimed == req.claimed && req'.claimedAt == req.claimedAt)
  {
  }

  lemma JobStays(s: Sys, s': Sys, q: ReqId, id: OrderId, act: ReqAct)
    requires ReqInv(s) && Enabled(s, ByRequest(q, act)) && s' == Apply(s, ByRequest(q, act)) && id in s'.jobs
    ensures JobFits(s', id)
  {
    SameIdentity(s.claims, s.clock, s.reqs[q], act);
    assert RequestFits(s.jobs, s.reqs[q]);
    hide NextRequest, NextClaims;
    if id in s.jobs {
      assert JobFits(s, id);
      var p :| p in s.reqs && s.reqs[p].published && s.reqs[p].orderId == id;
      assert p in s'.reqs && s'.reqs[p].published && s'.reqs[p].orderId == id;
    } else {
      assert s'.reqs[q].published && s'.reqs[q].orderId == id;
    }
  }

  lemma ResponseStays(s: Sys, s': Sys, q: ReqId, k: string, act: ReqAct)
    requires ReqInv(s) && Enabled(s, ByRequest(q, act)) && s' == Apply(s, ByRequest(q, act))
    requires k in s'.claims && s'.claims[k].value.Response?
    ensures ResponseFits(s'.jobs, k, s'.claims[k].value.orderId)
  {
    assert RequestFits(s.jobs, s.reqs[q]);
    hide NextRequest, JobFits;
  }

  lemma ReceiveKeeps(s: Sys, st: Step)
    requires ReqInv(s) && Enabled(s, st) && st.Receive?
    ensures ReqInv(Apply(s, st))
  {
    hide RequestFits, ResponseFits;
    var s' := Apply(s, st);
    NewRequestFits(s.jobs, s'.reqs[st.q]);
    forall id | id in s'.jobs ensures JobFits(s', id) {
      assert JobFits(s, id);
      var p :| p in s.reqs && s.reqs[p].published && s.reqs[p].orderId == id;
      assert p in s'.reqs && s'.reqs[p] == s.reqs[p];
    }
  }

  lemma ReqStepKeeps(s: Sys, st: Step)
    requires ReqInv(s) && Enabled(s, st)
    ensures ReqInv(Apply(s, st))
  {
    if st.ByRequest? {
      RequestStepKeeps(s, st.q, st.act);
    } else if st.Receive? {
      ReceiveKeeps(s, st);
    } else {
      ElsewhereKeeps(s, st);
    }
  }

  lemma ElsewhereKeeps(s: Sys, st: Step)
    requires ReqInv(s) && Enabled(s, st) && !st.ByRequest? && !st.Receive?
    ensures ReqInv(Apply(s, st))
  {
    hide RequestFits, ResponseFits, NextRun, NextDb, NextLocks, NextDlq, RunCan, NewRun;
    var s' := Apply(s, st);
    forall id | id in s'.jobs ensures JobFits(s', id) {
      assert JobFits(s, id);
    }
  }

  lemma NewRequestFits(jobs: Jobs, req: Request)
    requires req.pc == Claiming && !req.claimed && !req.published
    ensures RequestFits(jobs, req)
  {
  }

  lemma {:induction false} AlwaysFits(b: Behavior, n: nat)
    requires IsBehavior(b) && n < |b.states|
    ensures ReqInv(b.states[n])
  {
    FirstOf(b);
    if n > 0 {
      hide IsBehavior, ReqInv, Apply, Enabled;
      AlwaysFits(b, n - 1);
      StepOf(b, n - 1);
      ReqStepKeeps(b.states[n - 1], b.steps[n - 1]);
    }
  }

  /** Every accepted or replayed response carries the id of a job that was published
      for the request's own key; no assumption on faults or expiry. */
  lemma RepliesNameJobs(b: Behavior, n: nat, q: ReqId)
    requires IsBehavior(b) && n < |b.states| && q in b.states[n].reqs && b.states[n].reqs[q].pc.Answered?
    ensures var s := b.states[n]; var req := s.reqs[q];
            match req.pc.reply
            case AcceptedReply(id) => id == req.orderId && id in s.jobs && s.jobs[id].key == req.cmd.key
            case ReplayedReply(id) => id in s.jobs && s.jobs[id].key == req.cmd.key
            case _ => true
  {
    hide Apply, Enabled;
    AlwaysFits(b, n);
    assert RequestFits(b.states[n].jobs, b.states[n].reqs[q]);
  }

  // ----- at most one job per key and TTL -----

  /** The claim has not been given back. */
  predicate Holding(req: Request) {
    req.claimed && (req.pc.Answered? ==> req.pc.reply.AcceptedReply?)
  }

  predicate ClaimsApart(ttl: nat, req1: Request, req2: Request) {
    req1.claimedAt + ttl <= req2.claimedAt || req2.claimedAt + ttl <= req1.claimedAt
  }

  /** While the claim lasts, its Redis key is there at least as long. */
  ghost predicate ClaimFits(s: Sys, req: Request) {
    var k := PendingKey(req.cmd.key);
    s.clock < req.claimedAt + s.cfg.idempotencyTtl ==>
      k in s.claims && req.claimedAt + s.cfg.idempotencyTtl <= s.claims[k].expiresAt
  }

  ghost predicate ClaimsPast(s: Sys, key: Key) {
    forall q :: q in s.reqs && s.reqs[q].cmd.key == key && s.reqs[q].claimed ==> s.reqs[q].claimedAt <= s.clock
  }

  ghost predicate PublishersHold(s: Sys, key: Key) {
    forall q :: q in s.reqs && s.reqs[q].cmd.key == key && s.reqs[q].published ==> Holding(s.reqs[q])
  }

  ghost predicate ClaimsKept(s: Sys, key: Key) {
    forall q :: q in s.reqs && s.reqs[q].cmd.key == key && Holding(s.reqs[q]) ==> ClaimFits(s, s.reqs[q])
  }

  ghost predicate HoldersApart(s: Sys, key: Key) {
    forall p, q :: p in s.reqs && q in s.reqs && p != q && s.reqs[p].cmd.key == key && s.reqs[q].cmd.key == key &&
                   Holding(s.reqs[p]) && Holding(s.reqs[q]) ==>
      ClaimsApart(s.cfg.idempotencyTtl, s.reqs[p], s.reqs[q])
  }

  ghost predicate GateInv(s: Sys, key: Key) {
    ClaimsPast(s, key) && PublishersHold(s, key) && ClaimsKept(s, key) && HoldersApart(s, key)
  }

  /** What goes wrong between publish and caching shows as a request that gives its
      claim back although its job is out. */
  ghost predicate NoLateRelease(s: Sys, key: Key) {
    forall q :: q in s.reqs && s.reqs[q].cmd.key == key && s.reqs[q].published ==> !s.reqs[q].pc.Releasing?
  }

  /** A claim is given back only while it lasts. */
  ghost predicate TimelyRelease(s: Sys, st: Step, key: Key) {
    st.ByRequest? && st.act.ReleaseClaim? && st.q in s.reqs && s.reqs[st.q].cmd.key == key ==>
      s.clock < s.reqs[st.q].claimedAt + s.cfg.idempotencyTtl
  }

  ghost predicate WellTimed(b: Behavior, n: nat, key: Key)
    requires IsBehavior(b) && n < |b.states|
  {
    (forall i :: 0 <= i <= n ==> NoLateRelease(b.states[i], key)) &&
    (forall i {:trigger b.steps[i]} :: 0 <= i < n ==> TimelyRelease(b.states[i], b.steps[i], key))
  }

  /** The entry of a claim outlives every step but this key's own claim and release. */
  lemma EntryStays(s: Sys, q: ReqId, act: ReqAct, key: Key)
    requires Enabled(s, ByRequest(q, act)) && (s.reqs[q].cmd.key != key || (!act.Claim? && !act.ReleaseClaim?))
    ensures var claims' := NextClaims(s.claims, s.cfg.idempotencyTtl, s.clock, s.reqs[q], act); var k := PendingKey(key);
            k in s.claims ==>
              k in claims' && (claims'[k] == s.claims[k] || claims'[k].expiresAt == s.clock + s.cfg.idempotencyTtl)
  {
    KeysInjective(s.reqs[q].cmd.key, key);
  }

  /** A request stays a holder unless its release goes through. */
  lemma HolderMoves(claims: Claims, now: nat, req: Request, act: ReqAct)
    requires ReqCan(req, act) && !act.Claim?
    requires act.Fail? ==> !req.pc.Releasing? || !req.published
    requires req.published ==> Holding(req)
    requires act.ReleaseClaim? ==> !req.published
    requires req.pc.Releasing? ==> !req.pc.reply.AcceptedReply?
    requires req.pc.Caching? ==> req.published
    requires req.pc.Publishing? ==> req.claimed
    requires req.pc == LookingUp || req.pc == Claiming ==> !req.claimed
    ensures var req' := NextRequest(claims, now, req, act);
            && (Holding(req') ==> Holding(req))
            && (req'.published ==> Holding(req'))
            && (act.ReleaseClaim? ==> !Holding(req'))
            && req'.claimedAt == req.claimedAt && req'.claimed == req.claimed
  {
  }

  lemma GateClaim(s: Sys, q: ReqId, ackLost: bool, key: Key)
    requires GateInv(s, key) && Enabled(s, ByRequest(q, Claim(ackLost))) && s.reqs[q].cmd.key == key
    requires !s.reqs[q].published && !s.reqs[q].claimed
    ensures GateInv(Apply(s, ByRequest(q, Claim(ackLost))), key)
  {
    hide NextJobs, PendingKey, Holding;
    var s' := Apply(s, ByRequest(q, Claim(ackLost)));
    Unclaimed(s.reqs[q], s'.reqs[q]);
    forall p | p in s'.reqs && p != q && s'.reqs[p].cmd.key == key && Holding(s'.reqs[p])
      ensures s'.reqs[p] == s.reqs[p] && ClaimFits(s', s.reqs[p]) &&
              (s'.reqs[q].claimed ==> ClaimsApart(s.cfg.idempotencyTtl, s.reqs[p], s'.reqs[q]))
    {
      assert ClaimFits(s, s.reqs[p]);
    }
  }

  /** Before its claim a request holds nothing, after it perhaps. */
  lemma Unclaimed(req: Request, req': Request)
    requires !req.published && req'.published == req.published
    ensures Holding(req') ==> req'.claimed
  {
  }

  lemma GateRelease(s: Sys, q: ReqId, ackLost: bool, key: Key)
    requires GateInv(s, key) && Enabled(s, ByRequest(q, ReleaseClaim(ackLost))) && s.reqs[q].cmd.key == key
    requires s.reqs[q].claimed && !s.reqs[q].published && !s.reqs[q].pc.reply.AcceptedReply?
    requires s.clock < s.reqs[q].claimedAt + s.cfg.idempotencyTtl
    ensures GateInv(Apply(s, ByRequest(q, ReleaseClaim(ackLost))), key)
  {
    var s' := Apply(s, ByRequest(q, ReleaseClaim(ackLost)));
    forall p | p in s'.reqs && s'.reqs[p].cmd.key == key && Holding(s'.reqs[p])
      ensures p != q && ClaimFits(s', s'.reqs[p])
    {
      assert ClaimsApart(s.cfg.idempotencyTtl, s.reqs[p], s.reqs[q]);
    }
  }

  /** The request moved without claiming or giving back, as far as this key can see. */
  ghost predicate QuietMove(req: Request, req': Request, key: Key) {
    req'.cmd == req.cmd &&
    (req.cmd.key == key ==>
       req'.claimedAt == req.claimedAt && req'.claimed == req.claimed &&
       (Holding(req') ==> Holding(req)) && (req'.published ==> Holding(req')))
  }

  /** The entry of every claim on the key is there as long as before, or longer. */
  ghost predicate EntryLasts(s: Sys, s': Sys, key: Key) {
    var k := PendingKey(key);
    k in s.claims ==>
      k in s'.claims && (s'.claims[k] == s.claims[k] || s'.claims[k].expiresAt == s.clock + s.cfg.idempotencyTtl)
  }

  ghost predicate OneMoved(s: Sys, s': Sys, q: ReqId, key: Key) {
    q in s.reqs && q in s'.reqs && s'.reqs == s.reqs[q := s'.reqs[q]] && s'.cfg == s.cfg && s'.clock == s.clock &&
    QuietMove(s.reqs[q], s'.reqs[q], key)
  }

  lemma QuietClaimsPast(s: Sys, s': Sys, q: ReqId, key: Key)
    requires ClaimsPast(s, key) && OneMoved(s, s', q, key)
    ensures ClaimsPast(s', key)
  {
    hide Holding;
  }

  lemma QuietPublishersHold(s: Sys, s': Sys, q: ReqId, key: Key)
    requires PublishersHold(s, key) && OneMoved(s, s', q, key)
    ensures PublishersHold(s', key)
  {
    hide Holding;
  }

  lemma QuietClaimsKept(s: Sys, s': Sys, q: ReqId, key: Key)
    requires ClaimsPast(s, key) && ClaimsKept(s, key) && OneMoved(s, s', q, key) && EntryLasts(s, s', key)
    ensures ClaimsKept(s', key)
  {
    hide Holding, PendingKey;
    forall p | p in s'.reqs && s'.reqs[p].cmd.key == key && Holding(s'.reqs[p]) ensures ClaimFits(s', s'.reqs[p]) {
      assert ClaimFits(s, s.reqs[p]);
      HoldingClaimed(s.reqs[p]);
    }
  }

  lemma QuietHoldersApart(s: Sys, s': Sys, q: ReqId, key: Key)
    requires HoldersApart(s, key) && OneMoved(s, s', q, key)
    ensures HoldersApart(s', key)
  {
    hide Holding;
  }

  lemma GateQuiet(s: Sys, q: ReqId, act: ReqAct, key: Key)
    requires GateInv(s, key) && Enabled(s, ByRequest(q, act))
    requires s.reqs[q].cmd.key != key || (!act.Claim? && !act.ReleaseClaim?)
    requires QuietMove(s.reqs[q], NextRequest(s.claims, s.clock, s.reqs[q], act), key)
    ensures GateInv(Apply(s, ByRequest(q, act)), key)
  {
    var s' := Apply(s, ByRequest(q, act));
    EntryStays(s, q, act, key);
    hide NextRequest, NextClaims, NextJobs, ReqCan, PendingKey, QuietMove, ClaimsPast, PublishersHold, ClaimsKept, HoldersApart;
    assert EntryLasts(s, s', key) && OneMoved(s, s', q, key);
    hide EntryLasts, OneMoved;
    QuietClaimsPast(s, s', q, key);
    QuietPublishersHold(s, s', q, key);
    QuietClaimsKept(s, s', q, key);
    QuietHoldersApart(s, s', q, key);
  }

  lemma HoldingClaimed(req: Request)
    requires Holding(req)
    ensures req.claimed
  {
  }

  lemma GateOther(s: Sys, st: Step, key: Key)
    requires GateInv(s, key) && Enabled(s, st) && !st.ByRequest?
    ensures GateInv(Apply(s, st), key)
  {
    hide NextDb, NextRun, NextLocks, NextDlq, RunCan, NewRun, Holding, PendingKey;
    var s' := Apply(s, st);
    if st.Receive? {
      NewHoldsNothing(s'.reqs[st.q]);
    }
    forall p | p in s'.reqs && s'.reqs[p].cmd.key == key && Holding(s'.reqs[p])
      ensures p in s.reqs && s'.reqs[p] == s.reqs[p] && ClaimFits(s', s'.reqs[p])
    {
      assert ClaimFits(s, s.reqs[p]);
    }
  }

  lemma NewHoldsNothing(req: Request)
    requires !req.claimed
    ensures !Holding(req)
  {
  }

  /** A step by a request of this key that is not its claim: the hypotheses of the gate
      make it a holder's move or an orderly release. */
  lemma GateOwn(s: Sys, q: ReqId, act: ReqAct, key: Key)
    requires GateInv(s, key) && ReqInv(s) && Enabled(s, ByRequest(q, act)) && s.reqs[q].cmd.key == key && !act.Claim?
    requires NoLateRelease(s, key) && NoLateRelease(Apply(s, ByRequest(q, act)), key)
    requires TimelyRelease(s, ByRequest(q, act), key)
    ensures GateInv(Apply(s, ByRequest(q, act)), key)
  {
    hide JobFits, ResponseFits, ClaimFits, ClaimsApart, NextClaims, NextJobs;
    var req := s.reqs[q];
    assert RequestFits(s.jobs, req);
    if act.ReleaseClaim? {
      GateRelease(s, q, act.ackLost, key);
    } else {
      assert NextRequest(s.claims, s.clock, req, act) == Apply(s, ByRequest(q, act)).reqs[q];
      HolderMoves(s.claims, s.clock, req, act);
      SameIdentity(s.claims, s.clock, req, act);
      GateQuiet(s, q, act, key);
    }
  }

  lemma GateStepKeeps(s: Sys, st: Step, key: Key)
    requires GateInv(s, key) && ReqInv(s) && Enabled(s, st)
    requires NoLateRelease(s, key) && NoLateRelease(Apply(s, st), key) && TimelyRelease(s, st, key)
    ensures GateInv(Apply(s, st), key)
  {
    hide Apply, GateInv, JobFits, ResponseFits, NoLateRelease, TimelyRelease;
    if !st.ByRequest? {
      GateOther(s, st, key);
    } else if s.reqs[st.q].cmd.key == key && !st.act.Claim? {
      GateOwn(s, st.q, st.act, key);
    } else if s.reqs[st.q].cmd.key == key {
      assert RequestFits(s.jobs, s.reqs[st.q]);
      GateClaim(s, st.q, st.act.ackLost, key);
    } else {
      SameIdentity(s.claims, s.clock, s.reqs[st.q], st.act);
      GateQuiet(s, st.q, st.act, key);
    }
  }

  lemma {:induction false} AlwaysGated(b: Behavior, n: nat, key: Key)
    requires IsBehavior(b) && n < |b.states| && WellTimed(b, n, key)
    ensures GateInv(b.states[n], key)
  {
    FirstOf(b);
    hide IsBehavior, ReqInv, GateInv, Apply, Enabled, NoLateRelease, TimelyRelease, Init;
    if n > 0 {
      AlwaysGated(b, n - 1, key);
      AlwaysFits(b, n - 1);
      StepOf(b, n - 1);
      GateStepKeeps(b.states[n - 1], b.steps[n - 1], key);
    } else {
      InitGated(b.states[0], key);
    }
  }

  lemma InitGated(s: Sys, key: Key)
    requires Init(s)
    ensures GateInv(s, key)
  {
  }

  /** The gate: over any interleaving of requests, failed validations that let the next
      one in included, two jobs for one key come from claims at least a TTL apart,
      provided no request gives its claim back after publishing and none gives it
      back after it ran out. */
  lemma OneJobPerKeyAndTtl(b: Behavior, n: nat, key: Key, id1: OrderId, id2: OrderId)
    requires IsBehavior(b) && n < |b.states| && WellTimed(b, n, key)
    requires id1 in b.states[n].jobs && id2 in b.states[n].jobs && id1 != id2
    requires b.states[n].jobs[id1].key == key && b.states[n].jobs[id2].key == key
    ensures var s := b.states[n];
            exists q1, q2 :: q1 in s.reqs && q2 in s.reqs &&
              s.reqs[q1].orderId == id1 && s.reqs[q2].orderId == id2 && s.reqs[q1].published && s.reqs[q2].published &&
              s.reqs[q1].cmd.key == key && s.reqs[q2].cmd.key == key &&
              ClaimsApart(s.cfg.idempotencyTtl, s.reqs[q1], s.reqs[q2])
  {
    hide Apply, Enabled, WellTimed;
    var s := b.states[n];
    AlwaysGated(b, n, key);
    AlwaysFits(b, n);
    assert JobFits(s, id1) && JobFits(s, id2);
    var q1 :| q1 in s.reqs && s.reqs[q1].published && s.reqs[q1].orderId == id1;
    var q2 :| q2 in s.reqs && s.reqs[q2].published && s.reqs[q2].orderId == id2;
    assert RequestFits(s.jobs, s.reqs[q1]) && RequestFits(s.jobs, s.reqs[q2]);
    assert Holding(s.reqs[q1]) && Holding(s.reqs[q2]);
  }
}
