/** getMenusCached: menus by id and store, cached for a TTL. */
module MenuCache {
  import opened Redis
  import opened OrderStateMachine
  import opened Pricing
  import opened MenuKeys
  import opened MenuTable

  const MENU_CACHE_TTL := 300_000

  type Cache = map<string, Entry<map<string, Menu>>>

  /** The fill of a cache entry: the request that missed, the state of the menus table its
      query read and when, and when the answer was stored. */
  datatype Fill = Fill(storeId: string, menuIds: seq<string>, read: nat, readAt: nat, storedAt: nat)

  /** The menus table over time: every state so far, with the time it began. */
  datatype TableState = TableState(table: Table, since: nat)

  ghost predicate History(states: seq<TableState>, now: nat) {
    states != [] && states[|states| - 1].since <= now &&
    (forall i, j :: 0 <= i <= j < |states| ==> states[i].since <= states[j].since) &&
    // the id column is of type UUID
    (forall i :: 0 <= i < |states| ==> CanonicalIds(states[i].table))
  }

  /** State i is the table's state at time t. */
  ghost predicate CurrentAt(states: seq<TableState>, i: nat, t: nat) {
    i < |states| && states[i].since <= t && (i + 1 < |states| ==> t <= states[i + 1].since)
  }

  /** The entry is what this fill read and stored, and it lives a TTL from then. */
  ghost predicate EntryFits(states: seq<TableState>, now: nat, key: string, entry: Entry<map<string, Menu>>, fill: Fill) {
    && Answerable(fill.storeId, fill.menuIds) && key == CacheKey(fill.storeId, fill.menuIds)
    && CurrentAt(states, fill.read, fill.readAt) && fill.readAt <= fill.storedAt <= now
    && entry.value == FindMenusByIds(states[fill.read].table, fill.menuIds, fill.storeId)
    && entry.expiresAt == fill.storedAt + MENU_CACHE_TTL
  }

  /** Errors of the Redis read, the query and the Redis write. */
  datatype MenuFault = NoMenuFault | GetFails | QueryFails | SetFails(stored: bool)

  /** Everything the catalog holds at one moment. */
  datatype Moment = Moment(now: nat, states: seq<TableState>, redis: Cache, fills: map<string, Fill>)

  /** m' comes after m: time has not gone back, what the menus table was before it was, and
      every entry is as it was or has been filled since. */
  ghost predicate Later(m: Moment, m': Moment) {
    && m.now <= m'.now && m.states <= m'.states
    && (forall i :: |m.states| <= i < |m'.states| ==> m.now <= m'.states[i].since)
    && (forall key :: key in m'.redis && key in m'.fills ==>
          (key in m.redis && key in m.fills && m'.redis[key] == m.redis[key] && m'.fills[key] == m.fills[key]) ||
          m.now <= m'.fills[key].storedAt)
  }

  lemma LaterTrans(m1: Moment, m2: Moment, m3: Moment)
    requires Later(m1, m2) && Later(m2, m3) && m2.redis.Keys == m2.fills.Keys
    ensures Later(m1, m3)
  {
    assert forall i :: |m1.states| <= i < |m2.states| ==> m3.states[i] == m2.states[i];
  }

  lemma LaterStore(m1: Moment, m2: Moment, key: string, entry: Entry<map<string, Menu>>, fill: Fill)
    requires Later(m1, m2) && m1.now <= fill.storedAt && m2.redis.Keys == m2.fills.Keys
    ensures Later(m1, m2.(redis := m2.redis[key := entry], fills := m2.fills[key := fill]))
  {
  }

  class MenuCatalog {
    var now: nat
    var menus: Table
    var redis: Cache
    ghost var states: seq<TableState>
    ghost var fills: map<string, Fill>

    ghost predicate Valid()
      reads this
    {
      && History(states, now) && states != [] && states[|states| - 1].table == menus
      && fills.Keys == redis.Keys
      && forall key :: key in redis ==> EntryFits(states, now, key, redis[key], fills[key])
    }

    ghost function Present(): Moment
      reads this
    {
      Moment(now, states, redis, fills)
    }

    constructor (menus: Table, now: nat)
      requires CanonicalIds(menus)
      ensures Valid() && this.now == now && this.menus == menus && redis == map[]
    {
      this.now, this.menus, redis, states, fills := now, menus, map[], [TableState(menus, now)], map[];
    }

    /** Time passes; the menus table and, through other requests, the cache change. */
    method Interfere()
      requires Valid()
      modifies this
      ensures Valid() && Later(old(Present()), Present())
    {
    }

    /** The query on the table as it is now. */
    method FindMenus(menuIds: seq<string>, storeId: string, fails: bool) returns (rows: Option<map<string, Menu>>)
      ensures rows.None? <==> menuIds != [] && (fails || !Answerable(storeId, menuIds))
      ensures rows.Some? ==> rows.value == FindMenusByIds(menus, menuIds, storeId)
      ensures rows.Some? ==> Answerable(storeId, menuIds)
    {
      if menuIds == [] {
        return Some(map[]);
      }
      if fails || !Answerable(storeId, menuIds) {
        return None;
      }
      return Some(FindMenusByIds(menus, menuIds, storeId));
    }

    /** SET of an answer read before. */
    method Store(menuIds: seq<string>, storeId: string, rows: map<string, Menu>, ghost read: nat, ghost readAt: nat)
      requires Valid() && Answerable(storeId, menuIds) && CurrentAt(states, read, readAt) && readAt <= now
      requires rows == FindMenusByIds(states[read].table, menuIds, storeId)
      modifies this`redis, this`fills
      ensures Valid()
      ensures redis == old(redis)[CacheKey(storeId, menuIds) := Entry(rows, now + MENU_CACHE_TTL)]
      ensures fills == old(fills)[CacheKey(storeId, menuIds) := Fill(storeId, menuIds, read, readAt, now)]
    {
      hide EntryFits, FindMenusByIds, CacheKey, Answerable, CurrentAt, History;
      var key := CacheKey(storeId, menuIds);
      redis := redis[key := Entry(rows, now + MENU_CACHE_TTL)];
      fills := fills[key := Fill(storeId, menuIds, read, readAt, now)];
      MissFits(states, now, storeId, menuIds, redis[key], fills[key]);
    }

    /** The miss: read the table, wait, store. */
    method Refill(menuIds: seq<string>, storeId: string, fault: MenuFault) returns (found: Option<map<string, Menu>>)
      requires Valid() && fault != GetFails
      modifies this
      ensures Valid() && Later(old(Present()), Present())
      ensures found.None? <==> fault.SetFails? || (menuIds != [] && (fault == QueryFails || !Answerable(storeId, menuIds)))
      ensures var key := CacheKey(storeId, menuIds);
              found.Some? ==>
                (key in redis && key in fills && redis[key] == Entry(found.value, now + 300_000) &&
                 fills[key].storedAt == now && old(now) <= fills[key].readAt && CurrentAt(states, fills[key].read, fills[key].readAt) &&
                 found.value == FindMenusByIds(states[fills[key].read].table, menuIds, storeId))
    {
      hide EntryFits, FindMenusByIds, CacheKey, Answerable, CurrentAt, History, Later;
      Interfere();
      ghost var atRead := Present();
      found := FindMenus(menuIds, storeId, fault == QueryFails);
      if found == None {
        return;
      }
      LastIsCurrent(states, now);
      ghost var read := |states| - 1;
      Interfere();
      StillCurrent(atRead, Present(), read);
      LaterTrans(old(Present()), atRead, Present());
      if fault != SetFails(false) {
        ghost var atStore := Present();
        Store(menuIds, storeId, found.value, read, atRead.now);
        LaterStore(old(Present()), atStore, CacheKey(storeId, menuIds), redis[CacheKey(storeId, menuIds)], fills[CacheKey(storeId, menuIds)]);
      }
      if fault.SetFails? {
        found := None;
      }
    }

    /** None: a command failed, or the query did, as it does for anything PostgreSQL cannot
        read as a UUID. Otherwise the answer is the database's to this very request, on
        the table state of its read. On a hit the read is that of the fill that stored
        the entry, and less than a TTL has passed since it was stored; on a miss the read
        is this call's, and the answer is stored. */
    method GetMenusCached(menuIds: seq<string>, storeId: string, fault: MenuFault)
      returns (found: Option<map<string, Menu>>, hit: bool)
      requires Valid()
      modifies this
      ensures Valid() && Later(old(Present()), Present())
      ensures var key := CacheKey(storeId, menuIds);
              hit ==>
                (found.Some? && key in redis && key in fills && found.value == redis[key].value &&
                 fills[key].storedAt <= now < fills[key].storedAt + 300_000)
      ensures found.None? <==>
                fault == GetFails ||
                (!hit && (fault.SetFails? || (menuIds != [] && (fault == QueryFails || !Answerable(storeId, menuIds)))))
      ensures var key := CacheKey(storeId, menuIds);
              !hit && found.Some? ==>
                (key in redis && key in fills && redis[key] == Entry(found.value, now + 300_000) &&
                 fills[key].storedAt == now && old(now) <= fills[key].readAt)
      ensures var key := CacheKey(storeId, menuIds);
              found.Some? && AllUuids(menuIds) ==>
                (key in fills && CurrentAt(states, fills[key].read, fills[key].readAt) &&
                 found.value == FindMenusByIds(states[fills[key].read].table, menuIds, storeId))
      ensures found.Some? ==> forall id :: id in found.value ==> UuidShaped(id)
      ensures found.Some? ==> CacheKey(storeId, menuIds) in redis && CacheKey(storeId, menuIds) in fills
    {
      hide EntryFits, FindMenusByIds, CacheKey, Answerable, CurrentAt, History, Later, UuidShaped, AllUuids;
      var key := CacheKey(storeId, menuIds);
      Interfere();
      if fault == GetFails {
        return None, false;
      }
      if key in redis && now < redis[key].expiresAt {
        HitAgrees(states, now, storeId, menuIds, redis[key], fills[key]);
        AnswersAreUuids(states, now, key, redis[key], fills[key]);
        return Some(redis[key].value), true;
      }
      ghost var missed := Present();
      hit := false;
      found := Refill(menuIds, storeId, fault);
      if found.Some? {
        AnswersAreUuids(states, now, key, redis[key], fills[key]);
      }
      LaterTrans(old(Present()), missed, Present());
      TimeGoesOn(old(Present()), missed);
    }
  }

  lemma TimeGoesOn(m: Moment, m': Moment)
    requires Later(m, m')
    ensures m.now <= m'.now
  {
  }

  lemma StillCurrent(m: Moment, m': Moment, i: nat)
    requires Later(m, m') && CurrentAt(m.states, i, m.now)
    ensures CurrentAt(m'.states, i, m.now) && m'.states[i] == m.states[i] && m.now <= m'.now
  {
  }

  lemma LastIsCurrent(states: seq<TableState>, now: nat)
    requires History(states, now)
    ensures CurrentAt(states, |states| - 1, now)
  {
  }

  lemma MissFits(states: seq<TableState>, now: nat, storeId: string, menuIds: seq<string>,
                 entry: Entry<map<string, Menu>>, fill: Fill)
    requires Answerable(storeId, menuIds) && fill.storeId == storeId && fill.menuIds == menuIds
    requires CurrentAt(states, fill.read, fill.readAt) && fill.readAt <= now == fill.storedAt
    requires entry == Entry(FindMenusByIds(states[fill.read].table, menuIds, storeId), now + MENU_CACHE_TTL)
    ensures EntryFits(states, now, CacheKey(storeId, menuIds), entry, fill)
  {
  }

  lemma EntryRead(states: seq<TableState>, now: nat, key: string, entry: Entry<map<string, Menu>>, fill: Fill)
    requires History(states, now) && EntryFits(states, now, key, entry, fill)
    ensures CurrentAt(states, fill.read, fill.readAt) && fill.read < |states| && CanonicalIds(states[fill.read].table)
    ensures fill.readAt <= fill.storedAt <= now
  {
    hide CanonicalIds;
  }

  lemma AnswersAreUuids(states: seq<TableState>, now: nat, key: string, entry: Entry<map<string, Menu>>, fill: Fill)
    requires History(states, now) && EntryFits(states, now, key, entry, fill)
    ensures forall id :: id in entry.value ==> UuidShaped(id)
  {
    hide Canon, UuidShaped;
    assert CanonicalIds(states[fill.read].table);
  }

  /** A hit is the database's answer to this very request, on the table state that the
      fill of the entry read, although another request may have filled it. */
  lemma HitAgrees(states: seq<TableState>, now: nat, storeId: string, menuIds: seq<string>,
                  entry: Entry<map<string, Menu>>, fill: Fill)
    requires EntryFits(states, now, CacheKey(storeId, menuIds), entry, fill)
    ensures AllUuids(menuIds) ==>
              CurrentAt(states, fill.read, fill.readAt) &&
              entry.value == FindMenusByIds(states[fill.read].table, menuIds, storeId)
    ensures fill.storedAt <= now && entry.expiresAt == fill.storedAt + MENU_CACHE_TTL
  {
    hide CacheKey, FindMenusByIds;
    if AllUuids(menuIds) {
      CacheKeyIff(storeId, menuIds, fill.storeId, fill.menuIds);
      QueryByElements(states[fill.read].table, menuIds, fill.menuIds, storeId);
    }
  }
}
