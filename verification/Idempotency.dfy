/** IdempotencyService: the claim on a key and the cached response of a key live
    in one Redis key space, told apart only by the shape of the Redis key. */
module Idempotency {
  import opened Redis
  import opened OrderStore

  /** What a Redis string holds: a bare order id, or a JSON response with one. */
  datatype Value = Pending(orderId: OrderId) | Response(orderId: OrderId)

  type Claims = map<string, Entry<Value>>

  function PendingKey(key: Key): string {
    "idempotency:" + key
  }

  function ResponseKey(key: Key): string {
    "idempotency:" + key + ":response"
  }

  /** NotJson: JSON.parse throws on a bare order id. */
  datatype Cached = Absent | Found(orderId: OrderId) | NotJson

  function CachedResponse(claims: Claims, key: Key, now: nat): Cached {
    if !Live(claims, ResponseKey(key), now) then Absent
    else match claims[ResponseKey(key)].value
      case Response(orderId) => Found(orderId)
      case Pending(_) => NotJson
  }

  class IdempotencyService {
    const ttl: nat
    var entries: Claims

    constructor (ttl: nat)
      ensures this.ttl == ttl && entries == map[]
    {
      this.ttl := ttl;
      entries := map[];
    }

    method TryAcquire(key: Key, orderId: OrderId, now: nat) returns (isNew: bool)
      modifies this
      ensures isNew == !Live(old(entries), PendingKey(key), now)
      ensures entries == SetNx(old(entries), PendingKey(key), Pending(orderId), ttl, now)
      ensures isNew <==> PendingKey(key) !in old(entries) || old(entries)[PendingKey(key)].expiresAt <= now
      ensures entries == if isNew then old(entries)[PendingKey(key) := Entry(Pending(orderId), now + ttl)] else old(entries)
    {
      var k := PendingKey(key);
      if k in entries && now < entries[k].expiresAt {
        return false;
      }
      entries := entries[k := Entry(Pending(orderId), now + ttl)];
      return true;
    }

    /** An unconditional DEL: it does not ask whose claim it is. */
    method Release(key: Key)
      modifies this
      ensures entries == Del(old(entries), PendingKey(key)) == old(entries) - {PendingKey(key)}
    {
      entries := entries - {PendingKey(key)};
    }

    method SetCompleted(key: Key, orderId: OrderId, now: nat)
      modifies this
      ensures entries == SetEx(old(entries), ResponseKey(key), Response(orderId), ttl, now)
      ensures entries == old(entries)[ResponseKey(key) := Entry(Response(orderId), now + ttl)]
    {
      entries := entries[ResponseKey(key) := Entry(Response(orderId), now + ttl)];
    }

    method GetCachedResponse(key: Key, now: nat) returns (cached: Cached)
      ensures cached == CachedResponse(entries, key, now)
      ensures cached == Absent <==> ResponseKey(key) !in entries || entries[ResponseKey(key)].expiresAt <= now
      ensures cached.Found? ==> entries[ResponseKey(key)].value == Response(cached.orderId)
      ensures cached == NotJson ==> entries[ResponseKey(key)].value.Pending?
    {
      var k := ResponseKey(key);
      if k !in entries || entries[k].expiresAt <= now {
        return Absent;
      }
      match entries[k].value {
        case Response(orderId) => return Found(orderId);
        case Pending(_) => return NotJson;
      }
    }
  }

  lemma KeysInjective(a: Key, b: Key)
    ensures PendingKey(a) == PendingKey(b) ==> a == b
    ensures ResponseKey(a) == ResponseKey(b) ==> a == b
  {
    var n := |"idempotency:"|;
    assert PendingKey(a)[n..] == a && PendingKey(b)[n..] == b;
    var la, lb := |ResponseKey(a)| - |":response"|, |ResponseKey(b)| - |":response"|;
    assert ResponseKey(a)[n..la] == a && ResponseKey(b)[n..lb] == b;
  }

  /** The two shapes are not disjoint: the claim on one key sits where another key's
      response belongs exactly when the first is the second with ":response" after it. */
  lemma ClaimOverResponseIff(a: Key, b: Key)
    ensures PendingKey(a) == ResponseKey(b) <==> a == b + ":response"
  {
    assert ResponseKey(b) == PendingKey(b + ":response");
    KeysInjective(a, b + ":response");
  }
}
