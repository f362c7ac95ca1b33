/** What a request that finds its key claimed is answered with: the response cached last
    for the key, which need not be that of the claim's holder. */
module PipelineReplay {
  import opened Redis
  import opened OrderStateMachine
  import opened Pricing
  import opened OrderStore
  import opened Idempotency
  import opened Pipeline
  import opened PipelineGate
  import opened PipelineGateLimits
  import opened PipelineLock

  // ----- the response key over a whole run -----

  /** Step i caches a response for this key. */
  ghost predicate Caches(b: Behavior, i: nat, key: Key) {
    i < |b.steps| && i < |b.states| && b.steps[i].ByRequest? && b.steps[i].act.CacheReply? &&
    b.steps[i].q in b.states[i].reqs && b.states[i].reqs[b.steps[i].q].cmd.key == key
  }

  /** The last of the first n steps that does. */
  ghost function LastCached(b: Behavior, n: nat, key: Key): (i: Option<nat>)
    ensures i.Some? ==> i.value < n && Caches(b, i.value, key) && forall j :: i.value < j < n ==> !Caches(b, j, key)
    ensures i.None? ==> forall j :: 0 <= j < n ==> !Caches(b, j, key)
  {
    if n == 0 then None
    else if Caches(b, n - 1, key) then Some(n - 1)
    else LastCached(b, n - 1, key)
  }

  ghost function CachedId(b: Behavior, i: nat, key: Key): OrderId
    requires Caches(b, i, key)
  {
    b.states[i].reqs[b.steps[i].q].orderId
  }

  /** No request uses the one other key whose claim shares this key's response key. */
  ghost predicate Undisturbed(s: Sys, key: Key) {
    forall q :: q in s.reqs ==> s.reqs[q].cmd.key != key + ":response"
  }

  /** What the last caching step left is there until it is written over. */
  ghost predicate ResponseFrom(b: Behavior, n: nat, key: Key)
    requires n < |b.states|
  {
    var s := b.states[n];
    var k := ResponseKey(key);
    var last := LastCached(b, n, key);
    && (k in s.claims && s.claims[k].value.Response? ==>
          last.Some? && s.claims[k] == Entry(Response(CachedId(b, last.value, key)), b.states[last.value].clock + s.cfg.idempotencyTtl))
    && (Undisturbed(s, key) ==> (last.Some? ==> k in s.claims) && (k in s.claims ==> s.claims[k].value.Response?))
  }

  /** What one step does to the response key. */
  lemma ResponseStep(s: Sys, st: Step, key: Key)
    requires Enabled(s, st)
    ensures var claims' := Apply(s, st).claims; var k := ResponseKey(key);
            if st.ByRequest? && st.act.CacheReply? && s.reqs[st.q].cmd.key == key
            then k in claims' && claims'[k] == Entry(Response(s.reqs[st.q].orderId), s.clock + s.cfg.idempotencyTtl)
            else (k in claims' && claims'[k].value.Response? ==> k in s.claims && claims'[k] == s.claims[k]) &&
                 (Undisturbed(s, key) ==> (k in claims' <==> k in s.claims) && (k in s.claims ==> claims'[k] == s.claims[k]))
  {
    if st.ByRequest? {
      KeysInjective(s.reqs[st.q].cmd.key, key);
      ClaimOverResponseIff(s.reqs[st.q].cmd.key, key);
      hide PendingKey, ResponseKey;
    }
  }

  lemma UndisturbedBefore(s: Sys, st: Step, key: Key)
    requires Enabled(s, st) && Undisturbed(Apply(s, st), key)
    ensures Undisturbed(s, key)
  {
    hide NextClaims, NextJobs, NextRun, NextDb, NextLocks, NextDlq, RunCan;
    forall q | q in s.reqs ensures s.reqs[q].cmd.key != key + ":response" {
      CommandStays(s, st, q);
    }
  }

  lemma CommandStays(s: Sys, st: Step, q: ReqId)
    requires Enabled(s, st) && q in s.reqs
    ensures q in Apply(s, st).reqs && Apply(s, st).reqs[q].cmd == s.reqs[q].cmd && Apply(s, st).reqs[q].orderId == s.reqs[q].orderId
  {
    hide NextClaims, NextJobs, NextRun, NextDb, NextLocks, NextDlq, RunCan, CheckedOf;
  }

  lemma {:induction false} AlwaysFromLast(b: Behavior, n: nat, key: Key)
    requires IsBehavior(b) && n < |b.states|
    ensures ResponseFrom(b, n, key)
  {
    FirstOf(b);
    if n > 0 {
      AlwaysFromLast(b, n - 1, key);
      StepOf(b, n - 1);
      hide IsBehavior, Init;
      ResponseStep(b.states[n - 1], b.steps[n - 1], key);
      if Undisturbed(b.states[n], key) {
        UndisturbedBefore(b.states[n - 1], b.steps[n - 1], key);
      }
      hide Apply, Enabled, ResponseKey, Undisturbed;
      TtlStays(b, n - 1);
      TtlStays(b, n);
    }
  }

  /** Step n answers a request that found its key claimed. */
  ghost predicate LooksUp(b: Behavior, n: nat, q: ReqId, key: Key)
    requires IsBehavior(b)
  {
    n < |b.steps| && b.steps[n] == ByRequest(q, LookUp) && q in b.states[n].reqs && b.states[n].reqs[q].cmd.key == key
  }

  ghost function ReplyAt(b: Behavior, n: nat, q: ReqId, key: Key): Reply
    requires IsBehavior(b) && LooksUp(b, n, q, key)
  {
    LookUpAnswers(b, n, q, key);
    b.states[n + 1].reqs[q].pc.reply
  }

  lemma LookUpAnswers(b: Behavior, n: nat, q: ReqId, key: Key)
    requires IsBehavior(b) && LooksUp(b, n, q, key)
    ensures n + 1 < |b.states| && q in b.states[n + 1].reqs && b.states[n + 1].reqs[q].pc.Answered?
    ensures var s := b.states[n];
            b.states[n + 1].reqs[q].pc.reply ==
            match CachedResponse(s.claims, key, s.clock)
            case Absent => Conflict
            case Found(id) => ReplayedReply(id)
            case NotJson => ServerError
  {
    FirstOf(b);
    StepOf(b, n);
    hide CachedResponse;
  }

  /** The whole answer: the order of the last response cached for the key while its TTL
      lasts, a conflict otherwise. Requests with the colliding key can take the replay
      away, but never put another order in its place. */
  lemma ReplayIsLastCached(b: Behavior, n: nat, q: ReqId, key: Key)
    requires IsBehavior(b) && LooksUp(b, n, q, key)
    ensures var s, reply, last := b.states[n], ReplyAt(b, n, q, key), LastCached(b, n, key);
            && (reply.ReplayedReply? ==>
                  last.Some? && reply.orderId == CachedId(b, last.value, key) &&
                  s.clock < b.states[last.value].clock + s.cfg.idempotencyTtl)
            && (Undisturbed(s, key) ==>
                  reply == if last.Some? && s.clock < b.states[last.value].clock + s.cfg.idempotencyTtl
                           then ReplayedReply(CachedId(b, last.value, key)) else Conflict)
  {
    FirstOf(b);
    LookUpAnswers(b, n, q, key);
    AlwaysFromLast(b, n, key);
  }

  // ----- the holder of the claim and the order replayed -----

  lemma PublishedStep(s: Sys, st: Step, r: ReqId)
    requires ReqInv(s) && Enabled(s, st) && r in s.reqs && s.reqs[r].published
    ensures r in Apply(s, st).reqs && Apply(s, st).reqs[r].published && Apply(s, st).reqs[r].claimedAt == s.reqs[r].claimedAt
    ensures Apply(s, st).reqs[r].cmd == s.reqs[r].cmd && Apply(s, st).reqs[r].orderId == s.reqs[r].orderId
  {
    hide JobFits, ResponseFits, NextClaims, NextJobs, NextRun, NextDb, NextLocks, NextDlq, RunCan, CheckedOf;
    assert RequestFits(s.jobs, s.reqs[r]);
  }

  /** A published request keeps its claim time, command and order. */
  lemma {:induction false} PublishedStays(b: Behavior, i: nat, n: nat, r: ReqId)
    requires IsBehavior(b) && i <= n < |b.states| && r in b.states[i].reqs && b.states[i].reqs[r].published
    ensures r in b.states[n].reqs && b.states[n].reqs[r].published
    ensures b.states[n].reqs[r].claimedAt == b.states[i].reqs[r].claimedAt
    ensures b.states[n].reqs[r].cmd == b.states[i].reqs[r].cmd && b.states[n].reqs[r].orderId == b.states[i].reqs[r].orderId
    decreases n
  {
    hide IsBehavior, ReqInv, Apply, Enabled;
    if i < n {
      PublishedStays(b, i, n - 1, r);
      AlwaysFits(b, n - 1);
      StepOf(b, n - 1);
      PublishedStep(b.states[n - 1], b.steps[n - 1], r);
    }
  }

  /** Who cached has published before, on a claim of its own. */
  lemma CacherPublished(b: Behavior, i: nat, n: nat, key: Key)
    requires IsBehavior(b) && Caches(b, i, key) && i <= n < |b.states|
    ensures var r := b.steps[i].q; var s := b.states[n];
            && r in s.reqs && s.reqs[r].published && s.reqs[r].cmd.key == key && s.reqs[r].orderId == CachedId(b, i, key)
            && s.reqs[r].claimedAt <= b.states[i].clock
  {
    FirstOf(b);
    StepOf(b, i);
    AlwaysFits(b, i);
    var r := b.steps[i].q;
    assert RequestFits(b.states[i].jobs, b.states[i].reqs[r]);
    ClaimedInPast(b, i, r);
    hide IsBehavior, Apply, ReqInv;
    PublishedStays(b, i, n, r);
  }

  /** While a published request's claim lasts, a look-up of its key is answered with its
      order exactly when it was the last to cache. An order of another request was
      cached longer after that request's claim than the present claim is old, so a
      key whose requests cache within d ms of claiming replays the holder's order from
      d ms after its claim on. */
  lemma ReplayNamesHolderIff(b: Behavior, n: nat, q: ReqId, key: Key, p: ReqId)
    requires IsBehavior(b) && LooksUp(b, n, q, key) && n < |b.states| && WellTimed(b, n, key)
    requires p in b.states[n].reqs && b.states[n].reqs[p].published && b.states[n].reqs[p].cmd.key == key
    requires b.states[n].clock < b.states[n].reqs[p].claimedAt + b.states[n].cfg.idempotencyTtl
    ensures var s, reply, last := b.states[n], ReplyAt(b, n, q, key), LastCached(b, n, key);
            var holder := s.reqs[p];
            && (reply == ReplayedReply(holder.orderId) ==> last.Some? && b.steps[last.value].q == p)
            && (Undisturbed(s, key) && last.Some? && b.steps[last.value].q == p ==> reply == ReplayedReply(holder.orderId))
            && (reply.ReplayedReply? && reply.orderId != holder.orderId ==>
                  last.Some? && b.steps[last.value].q in s.reqs &&
                  var other := s.reqs[b.steps[last.value].q];
                  other.claimedAt + s.cfg.idempotencyTtl <= holder.claimedAt &&
                  b.states[last.value].clock - other.claimedAt > s.clock - holder.claimedAt)
  {
    ReplayIsLastCached(b, n, q, key);
    AlwaysFits(b, n);
    AlwaysGated(b, n, key);
    var last := LastCached(b, n, key);
    if last.Some? {
      CacherPublished(b, last.value, n, key);
    }
    hide IsBehavior, WellTimed, LastCached, RequestFits, JobFits, ResponseFits, ClaimFits, Undisturbed;
  }

  // ----- the replay of an older order does happen -----

  /** From every orderly state where the key's response outlives its claim, the next two
      requests with the key are a new job and a replay of the old order. */
  lemma StaleReplayFollows(b: Behavior, key: Key, id: OrderId) returns (b': Behavior, p: ReqId, q: ReqId)
    requires Orderly(b, key) && CachedResponse(Last(b).claims, key, Last(b).clock) == Found(id)
    requires !Live(Last(b).claims, PendingKey(key), Last(b).clock)
    ensures Orderly(b', key) && p in Last(b').reqs && q in Last(b').reqs
    ensures var s := Last(b');
            && s.reqs[p].published && s.reqs[p].cmd.key == key && s.reqs[p].claimedAt == s.clock
            && s.reqs[q].cmd.key == key && s.reqs[q].pc == Answered(ReplayedReply(id)) && s.reqs[p].orderId != id
  {
    OrderlyMeans(b, key);
    AlwaysFits(b, |b.steps|);
    var s := Last(b);
    ResponseBelongs(s.jobs, s.claims, key, s.clock);
    TtlStays(b, |b.steps|);
    hide Orderly, WellTimed, IsBehavior, ReqInv, NoLateRelease, CheckedOf;
    p := SomeUnused(s);
    b' := OrderlyPublish(b, p, key);
    q := SomeUnused(Last(b'));
    b' := LooksUpNext(b', q, key, id);
  }

  lemma LooksUpNext(b: Behavior, q: ReqId, key: Key, id: OrderId) returns (b': Behavior)
    requires Orderly(b, key) && Unused(Last(b), q) && Live(Last(b).claims, PendingKey(key), Last(b).clock)
    requires CachedResponse(Last(b).claims, key, Last(b).clock) == Found(id)
    ensures Orderly(b', key) && q in Last(b').reqs && Last(b').reqs[q].cmd.key == key
    ensures Last(b').clock == Last(b).clock && Last(b').reqs[q].pc == Answered(ReplayedReply(id))
    ensures forall p :: p in Last(b).reqs ==> p in Last(b').reqs && Last(b').reqs[p] == Last(b).reqs[p]
  {
    hide Orderly, CachedResponse, PendingKey;
    b' := GoOrderly(b, Receive(q, Command(key, "", 0.0, []), q), key);
    b' := GoOrderly(b', ByRequest(q, Claim(false)), key);
    b' := GoOrderly(b', ByRequest(q, LookUp), key);
  }

  /** Ten milliseconds between claim and publish are enough: no fault, no release. */
  lemma StaleReplayHappens(key: Key) returns (b: Behavior)
    ensures Orderly(b, key) && CachedResponse(Last(b).claims, key, Last(b).clock) == Found(0)
    ensures !Live(Last(b).claims, PendingKey(key), Last(b).clock)
  {
    b := Start(86_400_000, key);
    hide Orderly, IsBehavior, CheckedOf, PendingKey;
    b := OrderlyClaim(b, 0, Command(key, "", 0.0, []));
    b := GoOrderly(b, Tick(10), key);
    b := PublishesAndCaches(b, key);
    b := GoOrderly(b, Tick(86_399_990), key);
    KeysApart(key);
  }

  lemma KeysApart(key: Key)
    ensures PendingKey(key) != ResponseKey(key)
  {
    assert |PendingKey(key)| < |ResponseKey(key)|;
  }

  lemma PublishesAndCaches(b: Behavior, key: Key) returns (b': Behavior)
    requires Orderly(b, key) && 0 in Last(b).reqs
    requires Last(b).reqs[0] == Request(Command(key, "", 0.0, []), 0, Validating, true, 0, false)
    ensures Orderly(b', key) && Last(b').clock == Last(b).clock && Last(b').cfg == Last(b).cfg
    ensures Last(b').claims == Last(b).claims[ResponseKey(key) := Entry(Response(0), Last(b).clock + Last(b).cfg.idempotencyTtl)]
  {
    hide Orderly, CheckedOf, ResponseKey;
    EmptyCart(map[], 0.0);
    b' := GoOrderly(b, ByRequest(0, Check(map[])), key);
    b' := GoOrderly(b', ByRequest(0, PublishJob(false)), key);
    b' := GoOrderly(b', ByRequest(0, CacheReply(false)), key);
  }
}
