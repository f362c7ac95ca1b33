/** CreateOrderService.execute: the request's code, await by await, over the live
    backend and the menu catalog. */
module CreateOrderService {
  import opened OrderStateMachine
  import opened Pricing
  import opened OrderStore
  import opened Pipeline
  import opened PipelineGate
  import opened PipelineHistory
  import opened LiveSystem
  import opened MenuKeys
  import opened MenuTable
  import opened MenuCache

  /** The catalog's entry for this cart: what one state of the menus table answers, read for a
      fill that was stored less than 300 s ago. */
  ghost predicate Answered300(catalog: MenuCatalog, cmd: Command)
    reads catalog
  {
    var key := CacheKey(cmd.storeId, MenuIds(cmd.cart));
    key in catalog.fills &&
    var fill := catalog.fills[key];
    CurrentAt(catalog.states, fill.read, fill.readAt) &&
    fill.readAt <= fill.storedAt <= catalog.now < fill.storedAt + 300_000
  }

  /** That state of the table. */
  ghost function TableFor(catalog: MenuCatalog, cmd: Command): Table
    requires Answered300(catalog, cmd)
    reads catalog
  {
    catalog.states[catalog.fills[CacheKey(cmd.storeId, MenuIds(cmd.cart))].read].table
  }

  /** In that state this store sells the cart, with these lines, at the client's amount. */
  ghost predicate SoldAs(catalog: MenuCatalog, cmd: Command, items: seq<Item>)
    reads catalog
  {
    Answered300(catalog, cmd) && Lines(TableFor(catalog, cmd), cmd.storeId, cmd.cart, items) &&
    cmd.requested == Won(OrderTotal(items))
  }

  /** In that state this store does not sell the cart at the client's amount. */
  ghost predicate NotSold(catalog: MenuCatalog, cmd: Command)
    reads catalog
  {
    Answered300(catalog, cmd) && !Sells(TableFor(catalog, cmd), cmd.storeId, cmd.cart, cmd.requested)
  }

  /** The verdict on an answer of the catalog, in terms of the table. */
  lemma VerdictOf(table: Table, found: map<string, Menu>, cmd: Command)
    requires CanonicalIds(table)
    requires AllUuids(MenuIds(cmd.cart)) ==> found == FindMenusByIds(table, MenuIds(cmd.cart), cmd.storeId)
    requires forall id :: id in found ==> UuidShaped(id)
    ensures var verdict := CheckedOf(found, cmd.cart, cmd.requested);
            && (verdict.Valid? ==>
                  Lines(table, cmd.storeId, cmd.cart, verdict.items) && verdict.calculated == OrderTotal(verdict.items) &&
                  cmd.requested == Won(OrderTotal(verdict.items)))
            && (AllUuids(MenuIds(cmd.cart)) && !verdict.Valid? ==> !Sells(table, cmd.storeId, cmd.cart, cmd.requested))
  {
    hide CheckedOf, FindMenusByIds, Lines, Sells, CanonicalIds, UuidShaped;
    var verdict := CheckedOf(found, cmd.cart, cmd.requested);
    VerdictIs(found, cmd.cart, cmd.requested);
    if verdict.Valid? {
      forall id | id in MenuIds(cmd.cart) ensures UuidShaped(id) {
        var k :| 0 <= k < |cmd.cart| && MenuIds(cmd.cart)[k] == id;
        assert Orderable(found, cmd.cart[k]);
      }
    }
    AcceptedIffSells(table, cmd.storeId, cmd.cart, cmd.requested);
  }

  lemma JobKept(b: Behavior, b': Behavior, id: OrderId)
    requires IsBehavior(b) && IsBehavior(b') && Extends(b, b') && b.states != [] && b'.states != [] && id in Last(b).jobs
    ensures id in Last(b').jobs && Last(b').jobs[id] == Last(b).jobs[id]
  {
    hide IsBehavior, Init;
    FirstOf(b);
    FirstOf(b');
    assert b'.states[|b.steps|] == Last(b);
    JobLasts(b', |b.steps|, |b'.steps|, id);
  }

  /** The n-th step found the request's key claimed. */
  ghost predicate LostClaim(b: Behavior, q: ReqId, key: Key) {
    exists n :: 0 <= n <= |b.steps| && ClaimedAt(b, n, q, key)
  }

  lemma LostStays(b: Behavior, b': Behavior, q: ReqId, key: Key)
    requires Extends(b, b') && ClaimedAt(b, |b.steps|, q, key)
    ensures LostClaim(b', q, key)
  {
    var n := |b.steps|;
    assert b'.states[n - 1] == b.states[n - 1] && b'.steps[n - 1] == b.steps[n - 1];
    assert ClaimedAt(b', n, q, key);
  }

  class CreateOrderService {
    const backend: Backend
    const catalog: MenuCatalog

    constructor (backend: Backend, catalog: MenuCatalog)
      ensures this.backend == backend && this.catalog == catalog
    {
      this.backend, this.catalog := backend, catalog;
    }

    /** execute: claim, validate, publish, cache; any error in between gives the claim
        back. The id is a fresh UUID. */
    method Execute(q: ReqId, cmd: Command, orderId: OrderId) returns (reply: Reply)
      requires backend.Valid() && catalog.Valid() && q !in backend.S().reqs
      requires forall p :: p in backend.S().reqs ==> backend.S().reqs[p].orderId != orderId
      modifies backend, backend.repo, backend.lock, backend.idempotency, backend.queue, catalog
      ensures backend.Valid() && catalog.Valid() && Extends(old(backend.b), backend.b)
      ensures backend.AtReq(q, cmd, orderId, Answered(reply))
      ensures reply.AcceptedReply? ==>
                reply.orderId == orderId && orderId in backend.S().jobs && backend.S().jobs[orderId].key == cmd.key
      ensures reply.ReplayedReply? ==>
                reply.orderId in backend.S().jobs && backend.S().jobs[reply.orderId].key == cmd.key
      ensures reply.AcceptedReply? ==> Accepts(cmd, orderId)
      ensures reply == Unprocessable ==> AllUuids(MenuIds(cmd.cart)) ==> NotSold(catalog, cmd)
      ensures reply == Unprocessable || reply == Unavailable ==> GivenBackAt(backend.b, |backend.b.steps|, q, cmd.key)
      ensures backend.calm && reply == Unavailable ==> !Answerable(cmd.storeId, MenuIds(cmd.cart))
      ensures backend.calm && (reply.ReplayedReply? || reply == Conflict || reply == ServerError) ==> LostClaim(backend.b, q, cmd.key)
    {
      hide IsBehavior, Agrees, Accepts, NotSold, GivenBackAt, LostClaim, AllUuids, Answerable;
      backend.TakeRequest(q, cmd, orderId);
      reply := Run(q, cmd, orderId);
      backend.Behaves();
      RepliesNameJobs(backend.b, |backend.b.steps|, q);
    }

    /** The job published for a command has the command's key, store and amount, and the lines that
        this store sells it as. */
    ghost predicate Accepts(cmd: Command, orderId: OrderId)
      reads backend, catalog
    {
      backend.b.states != [] && orderId in backend.S().jobs &&
      var job := backend.S().jobs[orderId];
      job.orderId == orderId && job.key == cmd.key && job.storeId == cmd.storeId && job.requested == cmd.requested &&
      job.calculated == OrderTotal(job.items) && SoldAs(catalog, cmd, job.items)
    }

    lemma AcceptsNow(cmd: Command, orderId: OrderId, job: Payload)
      requires backend.b.states != [] && orderId in backend.S().jobs && backend.S().jobs[orderId] == job
      requires job == Payload(orderId, cmd.storeId, cmd.key, cmd.requested, OrderTotal(job.items), job.items)
      requires SoldAs(catalog, cmd, job.items)
      ensures Accepts(cmd, orderId)
    {
      hide SoldAs, OrderTotal;
    }

    method Run(q: ReqId, cmd: Command, orderId: OrderId) returns (reply: Reply)
      requires backend.Valid() && catalog.Valid() && backend.AtReq(q, cmd, orderId, Claiming)
      modifies backend, backend.repo, backend.lock, backend.idempotency, backend.queue, catalog
      ensures backend.Valid() && catalog.Valid() && Extends(old(backend.b), backend.b)
      ensures backend.AtReq(q, cmd, orderId, Answered(reply))
      ensures reply.AcceptedReply? ==> Accepts(cmd, orderId)
      ensures reply == Unprocessable ==> AllUuids(MenuIds(cmd.cart)) ==> NotSold(catalog, cmd)
      ensures reply == Unprocessable || reply == Unavailable ==> GivenBackAt(backend.b, |backend.b.steps|, q, cmd.key)
      ensures backend.calm && reply == Unavailable ==> !Answerable(cmd.storeId, MenuIds(cmd.cart))
      ensures backend.calm && (reply.ReplayedReply? || reply == Conflict || reply == ServerError) ==> LostClaim(backend.b, q, cmd.key)
    {
      hide IsBehavior, Agrees, Accepts, NotSold, GivenBackAt, ClaimedAt, LostClaim, AllUuids, Answerable;
      var isNew := backend.TryAcquire(q, cmd, orderId);
      if isNew == None {
        return ServerError;
      }
      if !isNew.value {
        ghost var lost := backend.b;
        reply := backend.GetCachedResponse(q, cmd, orderId);
        LostStays(lost, backend.b, q, cmd.key);
        return;
      }
      reply := WithClaim(q, cmd, orderId);
    }

    /** The try block and its catch. */
    method WithClaim(q: ReqId, cmd: Command, orderId: OrderId) returns (reply: Reply)
      requires backend.Valid() && catalog.Valid() && backend.AtReq(q, cmd, orderId, Validating)
      modifies backend, backend.repo, backend.lock, backend.idempotency, backend.queue, catalog
      ensures backend.Valid() && catalog.Valid() && Extends(old(backend.b), backend.b)
      ensures backend.AtReq(q, cmd, orderId, Answered(reply))
      ensures reply.AcceptedReply? ==> Accepts(cmd, orderId)
      ensures reply == Unprocessable ==> AllUuids(MenuIds(cmd.cart)) ==> NotSold(catalog, cmd)
      ensures reply == Unprocessable || reply == Unavailable ==> GivenBackAt(backend.b, |backend.b.steps|, q, cmd.key)
      ensures backend.calm && reply == Unavailable ==> !Answerable(cmd.storeId, MenuIds(cmd.cart))
      ensures reply.AcceptedReply? || reply == Unprocessable || reply == Unavailable || (reply == ServerError && !backend.calm)
    {
      hide IsBehavior, Agrees, Extends, Accepts, SoldAs, NotSold, GivenBackAt, AllUuids, Answerable, OrderTotal, MenuIds, Last;
      ghost var b0 := backend.b;
      var verdict := Validated(q, cmd, orderId);
      ghost var b1 := backend.b;
      if verdict.None? {
        reply := backend.ReleaseClaim(q, cmd, orderId, Unavailable);
        ExtendsTrans(b0, b1, backend.b);
        return;
      }
      if !verdict.value.Valid? {
        reply := backend.ReleaseClaim(q, cmd, orderId, Unprocessable);
        ExtendsTrans(b0, b1, backend.b);
        return;
      }
      var payload := Payload(orderId, cmd.storeId, cmd.key, cmd.requested, verdict.value.calculated, verdict.value.items);
      var queued := PublishAndCache(q, cmd, orderId, payload);
      ExtendsTrans(b0, b1, backend.b);
      if queued {
        AcceptsNow(cmd, orderId, payload);
        return AcceptedReply(orderId);
      }
      ghost var b2 := backend.b;
      reply := backend.ReleaseClaim(q, cmd, orderId, Unavailable);
      ExtendsTrans(b0, b2, backend.b);
    }

    method PublishAndCache(q: ReqId, cmd: Command, orderId: OrderId, payload: Payload) returns (ok: bool)
      requires backend.Valid() && backend.AtReq(q, cmd, orderId, Publishing(payload)) && payload.orderId == orderId
      modifies backend, backend.repo, backend.lock, backend.idempotency, backend.queue
      ensures backend.Valid() && Extends(old(backend.b), backend.b)
      ensures backend.AtReq(q, cmd, orderId, if ok then Answered(AcceptedReply(orderId)) else Releasing(Unavailable))
      ensures backend.calm ==> ok
      ensures ok ==> orderId in backend.S().jobs && backend.S().jobs[orderId] == payload
    {
      hide IsBehavior, Agrees;
      ok := backend.PublishOrder(q, cmd, orderId, payload);
      if ok {
        ghost var published := backend.b;
        backend.Behaves();
        ok := backend.SetCompleted(q, cmd, orderId);
        backend.Behaves();
        JobKept(published, backend.b, orderId);
      }
    }

    /** validateAndEnrichItems with its menu lookup; None when the lookup failed. */
    method Validated(q: ReqId, cmd: Command, orderId: OrderId) returns (verdict: Option<Checked>)
      requires backend.Valid() && catalog.Valid() && backend.AtReq(q, cmd, orderId, Validating)
      modifies backend, backend.repo, backend.lock, backend.idempotency, backend.queue, catalog
      ensures backend.Valid() && catalog.Valid() && Extends(old(backend.b), backend.b)
      ensures verdict.None? ==> backend.AtReq(q, cmd, orderId, Releasing(Unavailable))
      ensures verdict.Some? && !verdict.value.Valid? ==> backend.AtReq(q, cmd, orderId, Releasing(Unprocessable))
      ensures verdict.Some? && verdict.value.Valid? ==>
                backend.AtReq(q, cmd, orderId,
                  Publishing(Payload(orderId, cmd.storeId, cmd.key, cmd.requested, verdict.value.calculated, verdict.value.items)))
      ensures verdict.Some? && verdict.value.Valid? ==>
                SoldAs(catalog, cmd, verdict.value.items) && verdict.value.calculated == OrderTotal(verdict.value.items)
      ensures verdict.Some? && !verdict.value.Valid? ==> AllUuids(MenuIds(cmd.cart)) ==> NotSold(catalog, cmd)
      ensures backend.calm && verdict.None? ==> !Answerable(cmd.storeId, MenuIds(cmd.cart))
    {
      hide IsBehavior, Agrees, CheckedOf, Later, Answerable, CurrentAt, EntryFits, FindMenusByIds, CacheKey, Lines, Sells,
           UuidShaped, AllUuids, CanonicalIds, OrderTotal, Won;
      var menuIds := MenuIds(cmd.cart);
      var fault: MenuFault := *;
      if backend.calm {
        fault := NoMenuFault;
      }
      var menus, hit := catalog.GetMenusCached(menuIds, cmd.storeId, fault);
      if menus.None? {
        backend.Decide(q, cmd, orderId, None, MenuNotFound(""));
        return None;
      }
      var checked := ValidateAndEnrichItems(menus.value, cmd.cart, cmd.requested);
      EntryRead(catalog.states, catalog.now, CacheKey(cmd.storeId, menuIds), catalog.redis[CacheKey(cmd.storeId, menuIds)],
                catalog.fills[CacheKey(cmd.storeId, menuIds)]);
      VerdictOf(TableFor(catalog, cmd), menus.value, cmd);
      backend.Decide(q, cmd, orderId, menus, checked);
      return Some(checked);
    }
  }
}
