/** Amount validation: prices are NUMERIC(10,2) won, carried here as whole jeon
    (1 won = 100 jeon); the client's amount is any decimal number. */
module Pricing {
  datatype Menu = Menu(id: string, name: string, unitPrice: int, isAvailable: bool)
  datatype CartItem = CartItem(menuId: string, quantity: int)
  datatype Item = Item(menuId: string, menuName: string, unitPrice: int, quantity: int)

  datatype Checked =
    | Valid(calculated: int, items: seq<Item>)
    | MenuNotFound(menuId: string)
    | MenuUnavailable(menuName: string)
    | AmountMismatch(requested: real, calculated: int)

  /** Amount in won of a whole number of jeon. */
  function Won(jeon: int): real {
    jeon as real / 100.0
  }

  function LineTotal(item: Item): int {
    item.unitPrice * item.quantity
  }

  function OrderTotal(items: seq<Item>): int {
    if items == [] then 0 else OrderTotal(items[..|items| - 1]) + LineTotal(items[|items| - 1])
  }

  predicate Orderable(menus: map<string, Menu>, item: CartItem) {
    item.menuId in menus && menus[item.menuId].isAvailable
  }

  function Enrich(menus: map<string, Menu>, item: CartItem): Item
    requires Orderable(menus, item)
  {
    var menu := menus[item.menuId];
    Item(item.menuId, menu.name, menu.unitPrice, item.quantity)
  }

  function EnrichAll(menus: map<string, Menu>, cart: seq<CartItem>): (items: seq<Item>)
    requires forall item <- cart :: Orderable(menus, item)
    ensures |items| == |cart|
  {
    seq(|cart|, i requires 0 <= i < |cart| => Enrich(menus, cart[i]))
  }

  /** Position of the first line that cannot be ordered, the cart's length if none. */
  function FirstRefused(menus: map<string, Menu>, cart: seq<CartItem>): (i: nat)
    ensures i <= |cart| && forall j :: 0 <= j < i ==> Orderable(menus, cart[j])
    ensures i < |cart| ==> !Orderable(menus, cart[i])
  {
    if cart == [] then 0
    else
      var n := |cart| - 1;
      var i := FirstRefused(menus, cart[..n]);
      if i < n || !Orderable(menus, cart[n]) then i else n + 1
  }

  /** The first line that cannot be ordered decides the error; only a cart without
      such a line gets its total compared with the client's. */
  function CheckedOf(menus: map<string, Menu>, cart: seq<CartItem>, requested: real): Checked {
    var i := FirstRefused(menus, cart);
    if i < |cart| then
      if cart[i].menuId in menus then MenuUnavailable(menus[cart[i].menuId].name) else MenuNotFound(cart[i].menuId)
    else
      var items := EnrichAll(menus, cart);
      if requested == Won(OrderTotal(items)) then Valid(OrderTotal(items), items)
      else AmountMismatch(requested, OrderTotal(items))
  }

  method ValidateAndEnrichItems(menus: map<string, Menu>, cart: seq<CartItem>, requested: real)
    returns (verdict: Checked)
    ensures verdict == CheckedOf(menus, cart, requested)
  {
    var calculatedTotal := 0;
    var enrichedItems: seq<Item> := [];
    for i := 0 to |cart|
      invariant forall j :: 0 <= j < i ==> Orderable(menus, cart[j])
      invariant |enrichedItems| == i && forall j :: 0 <= j < i ==> enrichedItems[j] == Enrich(menus, cart[j])
      invariant calculatedTotal == OrderTotal(enrichedItems)
    {
      var item := cart[i];
      assert item in cart;
      if item.menuId !in menus {
        return MenuNotFound(item.menuId);
      }
      var menu := menus[item.menuId];
      if !menu.isAvailable {
        return MenuUnavailable(menu.name);
      }
      calculatedTotal := calculatedTotal + menu.unitPrice * item.quantity;
      var line := Item(item.menuId, menu.name, menu.unitPrice, item.quantity);
      assert (enrichedItems + [line])[..i] == enrichedItems;
      enrichedItems := enrichedItems + [line];
    }
    assert enrichedItems == EnrichAll(menus, cart);
    if requested != Won(calculatedTotal) {
      return AmountMismatch(requested, calculatedTotal);
    }
    return Valid(calculatedTotal, enrichedItems);
  }

  /** Accepted means: every line can be ordered and the client's amount is the exact
      sum. The lines kept are the cart's, in order and at the menu's price, repeated
      menus included. */
  lemma AcceptedIff(menus: map<string, Menu>, cart: seq<CartItem>, requested: real)
    ensures CheckedOf(menus, cart, requested).Valid? <==>
            (forall i :: 0 <= i < |cart| ==> Orderable(menus, cart[i])) &&
            (forall item <- cart :: Orderable(menus, item)) &&
            requested == Won(OrderTotal(EnrichAll(menus, cart)))
    ensures var v := CheckedOf(menus, cart, requested); v.Valid? ==>
              v.calculated == OrderTotal(v.items) && requested == Won(v.calculated) && |v.items| == |cart| &&
              forall i :: 0 <= i < |cart| ==>
                cart[i].menuId in menus && v.items[i].menuId == cart[i].menuId &&
                v.items[i].quantity == cart[i].quantity && v.items[i].unitPrice == menus[cart[i].menuId].unitPrice
  {
  }

  /** The lines of a cart at the menus' prices, as far as there are menus. */
  ghost function TotalLines(menus: map<string, Menu>, cart: seq<CartItem>): (items: seq<Item>)
    requires forall k :: 0 <= k < |cart| ==> Orderable(menus, cart[k])
    ensures |items| == |cart| && forall k :: 0 <= k < |cart| ==>
              cart[k].menuId in menus &&
              items[k] == Item(cart[k].menuId, menus[cart[k].menuId].name, menus[cart[k].menuId].unitPrice, cart[k].quantity)
  {
    assert forall item <- cart :: Orderable(menus, item);
    EnrichAll(menus, cart)
  }

  /** Every verdict, from the cart: the first line that cannot be ordered decides between the
      two menu errors and is named in it; without one the amounts are compared, and a
      mismatch names the client's amount and the exact total. */
  lemma VerdictIs(menus: map<string, Menu>, cart: seq<CartItem>, requested: real)
    ensures var verdict := CheckedOf(menus, cart, requested);
            && (forall k :: 0 <= k < |cart| && !Orderable(menus, cart[k]) && (forall j :: 0 <= j < k ==> Orderable(menus, cart[j])) ==>
                  verdict == if cart[k].menuId !in menus then MenuNotFound(cart[k].menuId)
                             else MenuUnavailable(menus[cart[k].menuId].name))
            && ((forall k :: 0 <= k < |cart| ==> Orderable(menus, cart[k])) ==>
                  var items := TotalLines(menus, cart);
                  verdict == if requested == Won(OrderTotal(items)) then Valid(OrderTotal(items), items)
                             else AmountMismatch(requested, OrderTotal(items)))
            && (verdict.Valid? || verdict.AmountMismatch? <==> forall k :: 0 <= k < |cart| ==> Orderable(menus, cart[k]))
  {
    var i := FirstRefused(menus, cart);
    if i < |cart| {
      assert !Orderable(menus, cart[i]);
      forall k | 0 <= k < |cart| && !Orderable(menus, cart[k]) && (forall j :: 0 <= j < k ==> Orderable(menus, cart[j])) ensures k == i {
      }
    } else {
      assert forall item <- cart :: Orderable(menus, item);
    }
  }
}
