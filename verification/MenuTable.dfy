/** The menus table, the query on it, and what the cart check makes of the query's answer. */
module MenuTable {
  import opened Pricing
  import opened MenuKeys

  datatype MenuRow = MenuRow(storeId: string, menu: Menu)

  type Table = map<string, MenuRow>

  /** PostgreSQL reads a UUID in either case and answers in lower case. */
  function Canon(id: string): string {
    seq(|id|, i requires 0 <= i < |id| => if 'A' <= id[i] <= 'F' then id[i] - 'A' + 'a' else id[i])
  }

  function FindMenusByIds(table: Table, menuIds: seq<string>, storeId: string): map<string, Menu> {
    map id | id in table && table[id].storeId == Canon(storeId) && (exists m <- menuIds :: Canon(m) == id) :: table[id].menu
  }

  /** What findMenusByIds can answer: no ids at all, or UUIDs throughout. */
  predicate Answerable(storeId: string, menuIds: seq<string>) {
    menuIds == [] || (UuidShaped(storeId) && AllUuids(menuIds))
  }

  /** An id is in the answer exactly when its row is one of this store's and some requested id
      spells it; and what comes with it is the row's menu. */
  lemma FoundIff(table: Table, menuIds: seq<string>, storeId: string, id: string)
    ensures id in FindMenusByIds(table, menuIds, storeId) <==>
              id in table && table[id].storeId == Canon(storeId) && exists i :: 0 <= i < |menuIds| && Canon(menuIds[i]) == id
    ensures id in FindMenusByIds(table, menuIds, storeId) ==> FindMenusByIds(table, menuIds, storeId)[id] == table[id].menu
  {
    if exists m <- menuIds :: Canon(m) == id {
      var m :| m in menuIds && Canon(m) == id;
      var i :| 0 <= i < |menuIds| && menuIds[i] == m;
    }
  }

  lemma QueryByElements(table: Table, ids1: seq<string>, ids2: seq<string>, storeId: string)
    requires multiset(ids1) == multiset(ids2)
    ensures FindMenusByIds(table, ids1, storeId) == FindMenusByIds(table, ids2, storeId)
  {
    forall m ensures m in ids1 <==> m in ids2 {
      if m in ids1 { SameElements(ids1, ids2, m); }
      if m in ids2 { SameElements(ids2, ids1, m); }
    }
  }

  /** Ids as PostgreSQL writes them. */
  ghost predicate CanonicalIds(table: Table) {
    forall id :: id in table ==> Canon(id) == id && UuidShaped(id)
  }

  // ----- what the cart check makes of the answer -----

  /** This store sells the menu under just this id. */
  ghost predicate Sold(table: Table, storeId: string, item: CartItem) {
    item.menuId in table && table[item.menuId].storeId == Canon(storeId) && table[item.menuId].menu.isAvailable
  }

  /** The lines are the cart's, at the names and prices of this store's menus in the table. */
  ghost predicate Lines(table: Table, storeId: string, cart: seq<CartItem>, items: seq<Item>) {
    |items| == |cart| &&
    forall k :: 0 <= k < |cart| ==>
      Sold(table, storeId, cart[k]) &&
      items[k] == Item(cart[k].menuId, table[cart[k].menuId].menu.name, table[cart[k].menuId].menu.unitPrice, cart[k].quantity)
  }

  /** The cart sells at this amount. */
  ghost predicate Sells(table: Table, storeId: string, cart: seq<CartItem>, requested: real) {
    exists items :: Lines(table, storeId, cart, items) && requested == Won(OrderTotal(items))
  }

  lemma OrderableIffSold(table: Table, menuIds: seq<string>, storeId: string, item: CartItem)
    requires CanonicalIds(table) && item.menuId in menuIds
    ensures Orderable(FindMenusByIds(table, menuIds, storeId), item) <==> Sold(table, storeId, item)
    ensures Sold(table, storeId, item) ==>
              item.menuId in FindMenusByIds(table, menuIds, storeId) &&
              FindMenusByIds(table, menuIds, storeId)[item.menuId] == table[item.menuId].menu
  {
    hide FindMenusByIds, Canon;
    FoundIff(table, menuIds, storeId, item.menuId);
    var i :| 0 <= i < |menuIds| && menuIds[i] == item.menuId;
  }

  /** A cart checked against the query's answer is accepted exactly when this store sells every
      line and the client's amount is the exact sum at the table's prices; the lines kept
      are these. So a line that is not this store's is never accepted. */
  lemma AcceptedIffSells(table: Table, storeId: string, cart: seq<CartItem>, requested: real)
    requires CanonicalIds(table)
    ensures var verdict := CheckedOf(FindMenusByIds(table, MenuIds(cart), storeId), cart, requested);
            && (verdict.Valid? <==> Sells(table, storeId, cart, requested))
            && (verdict.Valid? ==>
                  Lines(table, storeId, cart, verdict.items) && verdict.calculated == OrderTotal(verdict.items) &&
                  requested == Won(OrderTotal(verdict.items)))
  {
    hide FindMenusByIds, CheckedOf, Sold, OrderTotal, Won;
    var menus := FindMenusByIds(table, MenuIds(cart), storeId);
    forall k | 0 <= k < |cart|
      ensures Orderable(menus, cart[k]) <==> Sold(table, storeId, cart[k])
      ensures Sold(table, storeId, cart[k]) ==> SoldMeans(table, menus, cart[k])
    {
      assert MenuIds(cart)[k] in MenuIds(cart);
      OrderableIffSold(table, MenuIds(cart), storeId, cart[k]);
      if Sold(table, storeId, cart[k]) {
        InTable(table, storeId, cart[k]);
      }
    }
    VerdictIs(menus, cart, requested);
    var verdict := CheckedOf(menus, cart, requested);
    if verdict.Valid? {
      assert Lines(table, storeId, cart, verdict.items);
    }
    forall items | Lines(table, storeId, cart, items) ensures forall k :: 0 <= k < |cart| ==> Orderable(menus, cart[k]) {
    }
    if items :| Lines(table, storeId, cart, items) && requested == Won(OrderTotal(items)) {
      assert items == TotalLines(menus, cart);
    }
  }

  predicate SoldMeans(table: Table, menus: map<string, Menu>, item: CartItem) {
    item.menuId in table && item.menuId in menus && menus[item.menuId] == table[item.menuId].menu
  }

  lemma InTable(table: Table, storeId: string, item: CartItem)
    requires Sold(table, storeId, item)
    ensures item.menuId in table
  {
  }

  /** The menu a line means is there, in this store, available. */
  ghost predicate Offered(table: Table, storeId: string, item: CartItem) {
    Canon(item.menuId) in table && table[Canon(item.menuId)].storeId == Canon(storeId) && table[Canon(item.menuId)].menu.isAvailable
  }

  /** The query finds a menu by any spelling of its id, the cart check only by the one the
      database writes. */
  lemma OrderableIffCanonical(table: Table, menuIds: seq<string>, storeId: string, item: CartItem)
    requires CanonicalIds(table) && item.menuId in menuIds && Offered(table, storeId, item)
    ensures Canon(item.menuId) in FindMenusByIds(table, menuIds, storeId)
    ensures Orderable(FindMenusByIds(table, menuIds, storeId), item) <==> Canon(item.menuId) == item.menuId
  {
  }

  function MenuIds(cart: seq<CartItem>): (ids: seq<string>)
    ensures |ids| == |cart| && forall i :: 0 <= i < |cart| ==> ids[i] == cart[i].menuId
  {
    seq(|cart|, i requires 0 <= i < |cart| => cart[i].menuId)
  }

  /** A cart of offered menus is refused as MenuNotFound exactly when one of its ids is in
      another spelling, and the error names the first such id. */
  lemma NotFoundIffMisspelled(table: Table, storeId: string, cart: seq<CartItem>, requested: real)
    requires CanonicalIds(table) && forall item <- cart :: Offered(table, storeId, item)
    ensures var verdict := CheckedOf(FindMenusByIds(table, MenuIds(cart), storeId), cart, requested);
            && (verdict.MenuNotFound? <==> exists i :: 0 <= i < |cart| && Canon(cart[i].menuId) != cart[i].menuId)
            && (verdict.MenuNotFound? ==>
                  exists i :: 0 <= i < |cart| && verdict.menuId == cart[i].menuId && Canon(cart[i].menuId) != cart[i].menuId &&
                    forall j :: 0 <= j < i ==> Canon(cart[j].menuId) == cart[j].menuId)
            && !verdict.MenuUnavailable?
  {
    hide FindMenusByIds, Canon, Offered;
    var ids := MenuIds(cart);
    var menus := FindMenusByIds(table, ids, storeId);
    forall i | 0 <= i < |cart| ensures Orderable(menus, cart[i]) <==> Canon(cart[i].menuId) == cart[i].menuId {
      assert cart[i] in cart && ids[i] in ids;
      OrderableIffCanonical(table, ids, storeId, cart[i]);
    }
    var k := FirstRefused(menus, cart);
    if k < |cart| {
      assert cart[k] in cart && ids[k] in ids;
      MisspelledIsMissing(table, ids, storeId, cart[k]);
    }
  }

  lemma MisspelledIsMissing(table: Table, menuIds: seq<string>, storeId: string, item: CartItem)
    requires CanonicalIds(table) && Canon(item.menuId) != item.menuId
    ensures item.menuId !in FindMenusByIds(table, menuIds, storeId)
  {
  }

  const UPPER_CASE := "AAAAAAAA-AAAA-4AAA-8AAA-AAAAAAAAAAAA"
  const LOWER_CASE := "aaaaaaaa-aaaa-4aaa-8aaa-aaaaaaaaaaaa"

  lemma TwoSpellings()
    ensures UuidShaped(UPPER_CASE) && UuidShaped(LOWER_CASE) && UPPER_CASE != LOWER_CASE
    ensures Canon(UPPER_CASE) == LOWER_CASE && Canon(LOWER_CASE) == LOWER_CASE
  {
    assert UPPER_CASE[0] != LOWER_CASE[0];
  }

  /** One id in upper case, valid for the database and refused by the cart check. */
  lemma UpperCaseNotFound(storeId: string, name: string) returns (table: Table)
    ensures UuidShaped(UPPER_CASE) && CanonicalIds(table) && Offered(table, storeId, CartItem(UPPER_CASE, 1))
    ensures CheckedOf(FindMenusByIds(table, MenuIds([CartItem(UPPER_CASE, 1)]), storeId), [CartItem(UPPER_CASE, 1)], 0.0) ==
            MenuNotFound(UPPER_CASE)
  {
    hide Canon, UuidShaped, CheckedOf, FindMenusByIds, MenuIds;
    TwoSpellings();
    table := SmallTable(storeId, LOWER_CASE, UPPER_CASE, name);
    Refused(table, storeId, CartItem(UPPER_CASE, 1));
  }

  lemma SmallTable(storeId: string, id: string, other: string, name: string) returns (table: Table)
    requires UuidShaped(id) && Canon(id) == id && Canon(other) == id
    ensures CanonicalIds(table) && Offered(table, storeId, CartItem(other, 1))
  {
    hide Canon;
    table := map[id := MenuRow(Canon(storeId), Menu(id, name, 0, true))];
  }

  lemma Refused(table: Table, storeId: string, item: CartItem)
    requires CanonicalIds(table) && Offered(table, storeId, item) && Canon(item.menuId) != item.menuId
    ensures CheckedOf(FindMenusByIds(table, MenuIds([item]), storeId), [item], 0.0) == MenuNotFound(item.menuId)
  {
    hide Canon, CheckedOf, FindMenusByIds, MenuIds, Offered, CanonicalIds;
    var cart := [item];
    assert cart[0] == item;
    NotFoundIffMisspelled(table, storeId, cart, 0.0);
  }
}
