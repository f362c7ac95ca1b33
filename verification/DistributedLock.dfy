/** DistributedLockService: one lock per order id, held under a token, with expiry. */
module DistributedLock {
  import opened Redis
  import opened OrderStore

  /** `${workerId}:${jobId}`; the job id is fixed by the order id. */
  datatype Token = Token(workerId: nat, jobId: OrderId)

  type Locks = map<OrderId, Entry<Token>>

  class DistributedLockService {
    const ttl: nat
    var entries: Locks

    constructor (ttl: nat)
      ensures this.ttl == ttl && entries == map[]
    {
      this.ttl := ttl;
      entries := map[];
    }

    /** SET NX EX in one command: wins exactly when nobody's unexpired entry is there. */
    method Acquire(orderId: OrderId, holder: Token, now: nat) returns (acquired: bool)
      modifies this
      ensures acquired == !Live(old(entries), orderId, now)
      ensures entries == SetNx(old(entries), orderId, holder, ttl, now)
      ensures acquired <==> orderId !in old(entries) || old(entries)[orderId].expiresAt <= now
      ensures entries == if acquired then old(entries)[orderId := Entry(holder, now + ttl)] else old(entries)
    {
      if orderId in entries && now < entries[orderId].expiresAt {
        return false;
      }
      entries := entries[orderId := Entry(holder, now + ttl)];
      return true;
    }

    /** The compare-and-delete script. */
    method Release(orderId: OrderId, holder: Token, now: nat)
      modifies this
      ensures entries == DelIfEquals(old(entries), orderId, holder, now)
      ensures entries == if orderId in old(entries) && old(entries)[orderId].value == holder && now < old(entries)[orderId].expiresAt
                         then old(entries) - {orderId} else old(entries)
    {
      if orderId in entries && now < entries[orderId].expiresAt {
        if entries[orderId].value == holder {
          entries := entries - {orderId};
        }
      }
    }
  }
}
