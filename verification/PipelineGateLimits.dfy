/** Why the gate theorem has its two conditions: from any state that is about to break
    one of them, the system can go on to publish two jobs for one key whose claims are
    less than a TTL apart; and such states are reached. */
module PipelineGateLimits {
  import opened Redis
  import opened Pricing
  import opened OrderStore
  import opened Idempotency
  import opened Pipeline
  import opened PipelineGate
  import opened PipelineLock

  /** Two requests have published different jobs for the key, on claims less than a TTL apart. */
  ghost predicate GateBroken(s: Sys, key: Key, q1: ReqId, q2: ReqId) {
    && q1 in s.reqs && q2 in s.reqs && s.reqs[q1].published && s.reqs[q2].published
    && s.reqs[q1].orderId != s.reqs[q2].orderId
    && s.reqs[q1].orderId in s.jobs && s.jobs[s.reqs[q1].orderId].key == key
    && s.reqs[q2].orderId in s.jobs && s.jobs[s.reqs[q2].orderId].key == key
    && !ClaimsApart(s.cfg.idempotencyTtl, s.reqs[q1], s.reqs[q2])
  }

  /** So far nobody has broken either condition for this key. */
  ghost predicate Orderly(b: Behavior, key: Key) {
    IsBehavior(b) && |b.states| == |b.steps| + 1 && WellTimed(b, |b.steps|, key)
  }

  lemma Start(idempotencyTtl: nat, key: Key) returns (b: Behavior)
    requires idempotencyTtl > 0
    ensures IsBehavior(b) && Orderly(b, key) && WithoutPatch(b)
    ensures Last(b) == Sys(Config(1, idempotencyTtl), 0, map[], map[], map[], map[], map[], map[], map[])
  {
    b := Behavior([Sys(Config(1, idempotencyTtl), 0, map[], map[], map[], map[], map[], map[], map[])], []);
  }

  lemma Go(b: Behavior, st: Step) returns (b': Behavior)
    requires IsBehavior(b) && Enabled(Last(b), st)
    ensures IsBehavior(b') && Extends(b, b') && Last(b') == Apply(Last(b), st)
    ensures WithoutPatch(b) && !st.PatchStatus? ==> WithoutPatch(b')
  {
    ExtendIsBehavior(b, st);
    b' := Extend(b, st);
  }

  /** The carts of this module are empty, so their total is 0. */
  lemma EmptyCart(menus: map<string, Menu>, requested: real)
    ensures CheckedOf(menus, [], requested) == if requested == 0.0 then Valid(0, []) else AmountMismatch(requested, 0)
  {
    assert EnrichAll(menus, []) == [];
  }

  /** Neither a request nor an order of this number is there yet. */
  ghost predicate Unused(s: Sys, q: nat) {
    q !in s.reqs && q !in s.jobs && forall p :: p in s.reqs ==> s.reqs[p].orderId != q
  }

  lemma {:induction false} Beyond(s: set<nat>) returns (bound: nat)
    ensures forall n :: n in s ==> n < bound
    decreases |s|
  {
    if s == {} {
      bound := 0;
    } else {
      var x :| x in s;
      var rest := Beyond(s - {x});
      bound := if x < rest then rest else x + 1;
      assert forall n :: n in s ==> n == x || n in s - {x};
    }
  }

  lemma SomeUnused(s: Sys) returns (q: nat)
    ensures Unused(s, q)
  {
    var orderIds := set p | p in s.reqs :: s.reqs[p].orderId;
    var taken := s.reqs.Keys + s.jobs.Keys + orderIds;
    q := Beyond(taken);
    assert q !in taken;
    forall p | p in s.reqs ensures s.reqs[p].orderId != q {
      assert s.reqs[p].orderId in orderIds;
    }
  }

  /** A request comes in and wins the claim. */
  lemma ClaimOne(b: Behavior, q: ReqId, cmd: Command) returns (b': Behavior)
    requires IsBehavior(b) && Unused(Last(b), q) && !Live(Last(b).claims, PendingKey(cmd.key), Last(b).clock)
    ensures IsBehavior(b') && Extends(b, b') && (WithoutPatch(b) ==> WithoutPatch(b'))
    ensures var s, s' := Last(b), Last(b'); var k := PendingKey(cmd.key);
            s' == s.(reqs := s.reqs[q := Request(cmd, q, Validating, true, s.clock, false)],
                     claims := s.claims[k := Entry(Pending(q), s.clock + s.cfg.idempotencyTtl)])
  {
    hide IsBehavior, PendingKey, WithoutPatch;
    b' := Go(b, Receive(q, cmd, q));
    b' := Go(b', ByRequest(q, Claim(false)));
  }

  /** It goes on and publishes. */
  lemma PublishOne(b: Behavior, q: ReqId, key: Key, ackLost: bool) returns (b': Behavior)
    requires IsBehavior(b) && Unused(Last(b), q) && !Live(Last(b).claims, PendingKey(key), Last(b).clock)
    ensures IsBehavior(b') && Extends(b, b') && (WithoutPatch(b) ==> WithoutPatch(b'))
    ensures var s, s' := Last(b), Last(b');
            s' == s.(jobs := s.jobs[q := Payload(q, "", key, 0.0, 0, [])], claims := s'.claims,
                     reqs := s.reqs[q := Request(Command(key, "", 0.0, []), q, if ackLost then Releasing(Unavailable) else Caching, true, s.clock, true)])
  {
    hide IsBehavior, PendingKey, CheckedOf, WithoutPatch;
    b' := ClaimOne(b, q, Command(key, "", 0.0, []));
    EmptyCart(map[], 0.0);
    b' := Go(b', ByRequest(q, Check(map[])));
    b' := Go(b', ByRequest(q, PublishJob(ackLost)));
  }

  /** q gives its claim back and a new request publishes at once. */
  lemma ReleaseThenPublish(b: Behavior, q: ReqId) returns (b': Behavior, r: ReqId)
    requires IsBehavior(b) && q in Last(b).reqs && Last(b).reqs[q].pc.Releasing?
    ensures IsBehavior(b') && Extends(b, b') && Unused(Last(b), r)
    ensures var s, s' := Last(b), Last(b'); var key := s.reqs[q].cmd.key;
            s' == s.(jobs := s.jobs[r := Payload(r, "", key, 0.0, 0, [])], claims := s'.claims,
                     reqs := s.reqs[q := s.reqs[q].(pc := Answered(s.reqs[q].pc.reply))]
                                   [r := Request(Command(key, "", 0.0, []), r, Caching, true, s.clock, true)])
  {
    FirstOf(b);
    hide IsBehavior, PendingKey, WithoutPatch;
    r := SomeUnused(Last(b));
    var released := Go(b, ByRequest(q, ReleaseClaim(false)));
    b' := PublishOne(released, r, Last(b).reqs[q].cmd.key, false);
  }

  lemma {:induction false} ClaimedInPast(b: Behavior, n: nat, q: ReqId)
    requires IsBehavior(b) && n < |b.states| && q in b.states[n].reqs && b.states[n].reqs[q].claimed
    ensures b.states[n].reqs[q].claimedAt <= b.states[n].clock
  {
    FirstOf(b);
    if n > 0 {
      StepOf(b, n - 1);
      hide IsBehavior;
      ClaimStep(b.states[n - 1], b.steps[n - 1], q);
      if q in b.states[n - 1].reqs && b.states[n - 1].reqs[q].claimed {
        ClaimedInPast(b, n - 1, q);
      }
    }
  }

  lemma ClaimStep(s: Sys, st: Step, q: ReqId)
    requires Enabled(s, st) && q in Apply(s, st).reqs && Apply(s, st).reqs[q].claimed
    ensures s.clock <= Apply(s, st).clock
    ensures Apply(s, st).reqs[q].claimedAt == s.clock ||
            (q in s.reqs && s.reqs[q].claimed && s.reqs[q].claimedAt == Apply(s, st).reqs[q].claimedAt)
  {
    hide NextClaims, NextJobs, NextRun, NextDb, NextLocks, NextDlq, RunCan, CheckedOf;
  }

  /** A request about to give its claim back although its job is out, within the TTL:
      the release lets a second job through. */
  lemma LateReleaseOpensGate(b: Behavior, q: ReqId) returns (b': Behavior, r: ReqId)
    requires IsBehavior(b) && q in Last(b).reqs && Last(b).reqs[q].pc.Releasing? && Last(b).reqs[q].published
    requires Last(b).clock < Last(b).reqs[q].claimedAt + Last(b).cfg.idempotencyTtl
    ensures IsBehavior(b') && Extends(b, b') && GateBroken(Last(b'), Last(b).reqs[q].cmd.key, q, r)
  {
    FirstOf(b);
    AlwaysFits(b, |b.steps|);
    TtlStays(b, |b.steps|);
    var s := Last(b);
    assert RequestFits(s.jobs, s.reqs[q]);
    ClaimedInPast(b, |b.steps|, q);
    hide IsBehavior, ReqInv, RequestFits, Apply, Enabled;
    b', r := ReleaseThenPublish(b, q);
  }

  /** Time passes until the key's claim has expired. */
  lemma WaitOut(b: Behavior, key: Key) returns (b': Behavior)
    requires IsBehavior(b)
    ensures IsBehavior(b') && Extends(b, b') && !Live(Last(b').claims, PendingKey(key), Last(b').clock)
    ensures Last(b').reqs == Last(b).reqs && Last(b').jobs == Last(b).jobs && Last(b').cfg == Last(b).cfg
  {
    FirstOf(b);
    hide IsBehavior, PendingKey;
    var s := Last(b);
    b' := Go(b, Tick(if PendingKey(key) in s.claims then s.claims[PendingKey(key)].expiresAt else 0));
  }

  /** A request about to give its claim back, published or not, may be slow: once its
      claim has run out, others claim and publish, and its release, an unconditional
      DEL, deletes a claim that is not its own. No fault is needed. */
  lemma SlowReleaseOpensGate(b: Behavior, q: ReqId) returns (b': Behavior, r1: ReqId, r2: ReqId)
    requires IsBehavior(b) && q in Last(b).reqs && Last(b).reqs[q].pc.Releasing?
    ensures IsBehavior(b') && Extends(b, b') && r1 != q && r2 != q && GateBroken(Last(b'), Last(b).reqs[q].cmd.key, r1, r2)
  {
    FirstOf(b);
    TtlStays(b, |b.steps|);
    hide IsBehavior, Apply, Enabled, PendingKey;
    b' := WaitOut(b, Last(b).reqs[q].cmd.key);
    r1 := SomeUnused(Last(b'));
    b' := PublishOne(b', r1, Last(b).reqs[q].cmd.key, false);
    b', r2 := ReleaseThenPublish(b', q);
  }

  /** The first kind is reached when the acknowledgement of a publish is lost. */
  lemma LateReleaseHappens(key: Key) returns (b: Behavior)
    ensures IsBehavior(b) && 0 in Last(b).reqs && Last(b).reqs[0].cmd.key == key
    ensures Last(b).reqs[0].pc.Releasing? && Last(b).reqs[0].published
    ensures Last(b).clock < Last(b).reqs[0].claimedAt + Last(b).cfg.idempotencyTtl
  {
    hide IsBehavior, PendingKey;
    b := Start(86_400_000, key);
    b := PublishOne(b, 0, key, true);
  }

  /** The second when a cart fails its validation. */
  lemma SlowReleaseHappens(key: Key) returns (b: Behavior)
    ensures IsBehavior(b) && 0 in Last(b).reqs && Last(b).reqs[0].cmd.key == key
    ensures Last(b).reqs[0].pc == Releasing(Unprocessable) && !Last(b).reqs[0].published
  {
    hide IsBehavior, PendingKey;
    b := Start(86_400_000, key);
    b := ClaimOne(b, 0, Command(key, "", 1.0, []));
    EmptyCart(map[], 1.0);
    b := Go(b, ByRequest(0, Check(map[])));
  }

  // ----- the theorem's bound is met -----

  lemma OrderlyMeans(b: Behavior, key: Key)
    requires Orderly(b, key)
    ensures IsBehavior(b) && |b.states| == |b.steps| + 1 && WellTimed(b, |b.steps|, key) && NoLateRelease(Last(b), key)
  {
    assert Last(b) == b.states[|b.steps|];
  }

  /** Steps that break neither. */
  ghost predicate Harmless(s: Sys, st: Step) {
    match st
    case Tick(_) => true
    case Receive(_, _, _) => true
    case ByRequest(q, Claim(_)) => true
    case ByRequest(q, Check(_)) => q in s.reqs && !s.reqs[q].published
    case ByRequest(q, PublishJob(ackLost)) => !ackLost
    case ByRequest(q, CacheReply(ackLost)) => !ackLost
    case ByRequest(q, LookUp) => true
    case _ => false
  }

  lemma StaysTimely(s: Sys, st: Step, key: Key)
    requires NoLateRelease(s, key) && Enabled(s, st) && Harmless(s, st)
    ensures NoLateRelease(Apply(s, st), key)
  {
    hide NextClaims, NextJobs, CheckedOf;
  }

  /** One more state and step, orderly themselves. */
  lemma ExtendOrderly(b: Behavior, b': Behavior, key: Key)
    requires Orderly(b, key) && IsBehavior(b') && Extends(b, b') && |b'.steps| == |b.steps| + 1 && |b'.states| == |b.states| + 1
    requires NoLateRelease(Last(b'), key) && !(b'.steps[|b.steps|].ByRequest? && b'.steps[|b.steps|].act.ReleaseClaim?)
    ensures Orderly(b', key)
  {
    var n := |b.steps|;
    assert WellTimed(b, n, key) && b'.steps[n] == b'.steps[|b'.steps| - 1];
    assert TimelyRelease(b'.states[n], b'.steps[n], key);
    hide IsBehavior, NoLateRelease, TimelyRelease;
    forall i | 0 <= i <= n + 1 ensures NoLateRelease(b'.states[i], key) {
      assert i <= n ==> b'.states[i] == b.states[i];
    }
    forall i | 0 <= i < n + 1 ensures TimelyRelease(b'.states[i], b'.steps[i], key) {
      assert i < n ==> b'.states[i] == b.states[i] && b'.steps[i] == b.steps[i];
    }
  }

  lemma GoOrderly(b: Behavior, st: Step, key: Key) returns (b': Behavior)
    requires Orderly(b, key) && Enabled(Last(b), st) && Harmless(Last(b), st)
    ensures Orderly(b', key) && Last(b') == Apply(Last(b), st)
  {
    OrderlyMeans(b, key);
    StaysTimely(Last(b), st, key);
    hide IsBehavior, Apply, Enabled, NoLateRelease, WellTimed, Orderly;
    ExtendIsBehavior(b, st);
    b' := Extend(b, st);
    ExtendOrderly(b, b', key);
  }

  lemma OrderlyClaim(b: Behavior, q: ReqId, cmd: Command) returns (b': Behavior)
    requires Orderly(b, cmd.key) && Unused(Last(b), q) && !Live(Last(b).claims, PendingKey(cmd.key), Last(b).clock)
    ensures Orderly(b', cmd.key)
    ensures var s := Last(b);
            Last(b') == s.(reqs := s.reqs[q := Request(cmd, q, Validating, true, s.clock, false)],
                           claims := s.claims[PendingKey(cmd.key) := Entry(Pending(q), s.clock + s.cfg.idempotencyTtl)])
  {
    hide Orderly, PendingKey;
    b' := GoOrderly(b, Receive(q, cmd, q), cmd.key);
    b' := GoOrderly(b', ByRequest(q, Claim(false)), cmd.key);
  }

  lemma OrderlyPublish(b: Behavior, q: ReqId, key: Key) returns (b': Behavior)
    requires Orderly(b, key) && Unused(Last(b), q) && !Live(Last(b).claims, PendingKey(key), Last(b).clock)
    ensures Orderly(b', key)
    ensures var s := Last(b);
            Last(b') == s.(jobs := s.jobs[q := Payload(q, "", key, 0.0, 0, [])],
                           reqs := s.reqs[q := Request(Command(key, "", 0.0, []), q, Caching, true, s.clock, true)],
                           claims := s.claims[PendingKey(key) := Entry(Pending(q), s.clock + s.cfg.idempotencyTtl)])
  {
    hide Orderly, PendingKey, CheckedOf;
    b' := OrderlyClaim(b, q, Command(key, "", 0.0, []));
    EmptyCart(map[], 0.0);
    b' := GoOrderly(b', ByRequest(q, Check(map[])), key);
    b' := GoOrderly(b', ByRequest(q, PublishJob(false)), key);
  }

  /** A TTL is exactly the distance at which two jobs for one key can follow each other
      in a run that keeps both conditions. */
  lemma TwoJobsATtlApart(key: Key) returns (b: Behavior)
    ensures IsBehavior(b) && |b.states| == |b.steps| + 1 && WellTimed(b, |b.steps|, key)
    ensures var s := Last(b);
            0 in s.reqs && 1 in s.reqs && 0 in s.jobs && 1 in s.jobs && s.jobs[0].key == key && s.jobs[1].key == key &&
            s.reqs[0].orderId == 0 && s.reqs[1].orderId == 1 && s.reqs[0].published && s.reqs[1].published &&
            s.reqs[1].claimedAt == s.reqs[0].claimedAt + s.cfg.idempotencyTtl
  {
    b := Start(86_400_000, key);
    hide Orderly, PendingKey, IsBehavior, WellTimed;
    b := OrderlyPublish(b, 0, key);
    b := GoOrderly(b, Tick(86_400_000), key);
    b := OrderlyPublish(b, 1, key);
    OrderlyMeans(b, key);
  }
}
