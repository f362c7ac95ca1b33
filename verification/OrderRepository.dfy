/** OrderRepository over the three tables. Each method runs one transaction statement
    by statement, rolls back on any error, and is proved to do what the transaction
    functions of OrderStore say. */
module OrderRepository {
  import opened OrderStateMachine
  import opened Pricing
  import opened OrderStore

  datatype ItemRow = ItemRow(orderId: OrderId, item: Item)
  datatype TransitionRow = TransitionRow(orderId: OrderId, entry: AuditRow)

  function ItemsOf(rows: seq<ItemRow>, id: OrderId): seq<Item> {
    if rows == [] then []
    else
      var last := rows[|rows| - 1];
      ItemsOf(rows[..|rows| - 1], id) + if last.orderId == id then [last.item] else []
  }

  function AuditOf(rows: seq<TransitionRow>, id: OrderId): seq<AuditRow> {
    if rows == [] then []
    else
      var last := rows[|rows| - 1];
      AuditOf(rows[..|rows| - 1], id) + if last.orderId == id then [last.entry] else []
  }

  lemma ItemsOfAppend(rows: seq<ItemRow>, row: ItemRow, id: OrderId)
    ensures ItemsOf(rows + [row], id) == ItemsOf(rows, id) + if row.orderId == id then [row.item] else []
  {
    assert (rows + [row])[..|rows|] == rows;
  }

  lemma AuditOfAppend(rows: seq<TransitionRow>, row: TransitionRow, id: OrderId)
    ensures AuditOf(rows + [row], id) == AuditOf(rows, id) + if row.orderId == id then [row.entry] else []
  {
    assert (rows + [row])[..|rows|] == rows;
  }

  lemma {:induction false} NoItemsWithout(rows: seq<ItemRow>, id: OrderId)
    requires forall row <- rows :: row.orderId != id
    ensures ItemsOf(rows, id) == []
  {
    if rows != [] {
      NoItemsWithout(rows[..|rows| - 1], id);
    }
  }

  lemma {:induction false} NoAuditWithout(rows: seq<TransitionRow>, id: OrderId)
    requires forall row <- rows :: row.orderId != id
    ensures AuditOf(rows, id) == []
  {
    if rows != [] {
      NoAuditWithout(rows[..|rows| - 1], id);
    }
  }

  ghost function Tables(orders: map<OrderId, OrderRow>, items: seq<ItemRow>, audit: seq<TransitionRow>): Db {
    map id | id in orders :: Record(orders[id], ItemsOf(items, id), AuditOf(audit, id))
  }

  /** The tables after one order's row, items and log entries changed. */
  lemma TablesWrite(orders: map<OrderId, OrderRow>, items: seq<ItemRow>, audit: seq<TransitionRow>,
                    items': seq<ItemRow>, audit': seq<TransitionRow>, id: OrderId, rec: Record)
    requires ItemsOf(items', id) == rec.items && AuditOf(audit', id) == rec.audit
    requires forall x :: x != id ==> ItemsOf(items', x) == ItemsOf(items, x) && AuditOf(audit', x) == AuditOf(audit, x)
    ensures Tables(orders[id := rec.row], items', audit') == Tables(orders, items, audit)[id := rec]
  {
  }

  lemma KeyTakenIn(orders: map<OrderId, OrderRow>, items: seq<ItemRow>, audit: seq<TransitionRow>, key: Key)
    ensures KeyTaken(Tables(orders, items, audit), key) <==> exists id :: id in orders && orders[id].key == key
  {
    var db := Tables(orders, items, audit);
    forall id ensures id in db && db[id].row.key == key <==> id in orders && orders[id].key == key {
    }
  }

  /** What the database does to a transaction besides its own rules: nothing, an error
      at some statement, or a commit whose acknowledgement is lost. */
  datatype Fault = NoFault | AbortsAt(statement: nat) | AckLost

  datatype CreateResult = CreatedOrder | DuplicateOrder | CreateError

  function CreateResultOf(outcome: InsertOutcome, fault: Fault): CreateResult {
    if fault.AbortsAt? then CreateError
    else match outcome
      case Inserted => if fault.AckLost? then CreateError else CreatedOrder
      case Duplicate => DuplicateOrder
      case Rejected => CreateError
  }

  datatype ChangeResult = ChangeDone | ChangeRefused | ChangeStale | ChangeError

  function ChangeResultOf(outcome: ChangeOutcome, fault: Fault): ChangeResult {
    if outcome == Refused then ChangeRefused
    else if fault.AbortsAt? then ChangeError
    else match outcome
      case Committed => if fault.AckLost? then ChangeError else ChangeDone
      case _ => ChangeStale
  }

  class OrderRepository {
    var orders: map<OrderId, OrderRow>
    var orderItems: seq<ItemRow>
    var transitions: seq<TransitionRow>

    ghost predicate Valid()
      reads this
    {
      // foreign keys
      (forall row <- orderItems :: row.orderId in orders) && (forall row <- transitions :: row.orderId in orders)
    }

    ghost function Contents(): Db
      reads this
    {
      Tables(orders, orderItems, transitions)
    }

    constructor ()
      ensures Valid() && Contents() == map[]
    {
      orders, orderItems, transitions := map[], [], [];
    }

    method FindById(id: OrderId) returns (row: Option<OrderRow>)
      requires Valid()
      ensures row == if id in Contents() then Some(Contents()[id].row) else None
    {
      row := if id in orders then Some(orders[id]) else None;
    }

    /** TX #1: order row, item rows one by one, first audit row, commit. */
    method CreateOrder(p: Payload, now: nat, author: Actor, fault: Fault) returns (r: CreateResult)
      requires Valid()
      modifies this
      ensures Valid()
      ensures r == CreateResultOf(InsertOutcomeOf(old(Contents()), p), fault)
      ensures Contents() == if fault.AbortsAt? then old(Contents()) else Insert(old(Contents()), p, now, author)
    {
      hide ItemFits, UniqueKeys;
      var orders0, orderItems0, transitions0 := orders, orderItems, transitions;
      if fault == AbortsAt(0) {
        return CreateError;
      }
      // NUMERIC range and CHECKs of orders
      if !AmountFits(ToNumeric(p.requested)) || !AmountFits(p.calculated) {
        return CreateError;
      }
      // ON CONFLICT (idempotency_key) DO NOTHING
      KeyTakenIn(orders, orderItems, transitions, p.key);
      hide KeyTaken;
      if exists id :: id in orders && orders[id].key == p.key {
        return if fault.AbortsAt? then CreateError else DuplicateOrder;
      }
      // primary key
      if p.orderId in orders {
        return CreateError;
      }
      var row := NewRecord(p, now, author).row;
      orders := orders[p.orderId := row];
      NoItemsWithout(orderItems0, p.orderId);

      var allIn := InsertItems(p.orderId, p.items, fault);
      if !allIn || fault.AbortsAt? {
        orders, orderItems, transitions := orders0, orderItems0, transitions0;
        return CreateError;
      }
      InsertTransition(p.orderId, None, Queued, now, author, None);
      r := if fault.AckLost? then CreateError else CreatedOrder;
      NoAuditWithout(transitions0, p.orderId);
      TablesWrite(orders0, orderItems0, transitions0, orderItems, transitions, p.orderId, NewRecord(p, now, author));
    }

    /** The loop over the items, up to the first the database does not take. */
    method InsertItems(id: OrderId, items: seq<Item>, fault: Fault) returns (ok: bool)
      requires Valid() && id in orders && ItemsOf(orderItems, id) == []
      modifies this`orderItems
      ensures Valid()
      ensures fault.AbortsAt? || (ok <==> forall item <- items :: ItemFits(item))
      ensures ok ==> ItemsOf(orderItems, id) == items
      ensures forall x :: x != id ==> ItemsOf(orderItems, x) == ItemsOf(old(orderItems), x)
    {
      hide ItemFits;
      ghost var before := orderItems;
      for i := 0 to |items|
        invariant Valid()
        invariant ItemsOf(orderItems, id) == items[..i] && forall item <- items[..i] :: ItemFits(item)
        invariant forall x :: x != id ==> ItemsOf(orderItems, x) == ItemsOf(before, x)
      {
        if fault == AbortsAt(i + 1) || !ItemFits(items[i]) {
          return false;
        }
        InsertItem(id, items[i]);
        assert items[..i + 1] == items[..i] + [items[i]];
      }
      assert items[..|items|] == items;
      ok := true;
    }

    method InsertItem(id: OrderId, item: Item)
      requires Valid() && id in orders
      modifies this`orderItems
      ensures Valid()
      ensures forall x :: ItemsOf(orderItems, x) == ItemsOf(old(orderItems), x) + if x == id then [item] else []
    {
      ghost var before := orderItems;
      orderItems := orderItems + [ItemRow(id, item)];
      forall x ensures ItemsOf(orderItems, x) == ItemsOf(before, x) + if x == id then [item] else [] {
        ItemsOfAppend(before, ItemRow(id, item), x);
      }
    }

    method InsertTransition(id: OrderId, from: Option<Status>, to: Status, now: nat, author: Actor, reason: Option<string>)
      requires Valid() && id in orders
      modifies this`transitions
      ensures Valid()
      ensures transitions == old(transitions) + [TransitionRow(id, AuditRow(from, to, now, author, reason))]
      ensures forall x :: AuditOf(transitions, x) ==
                          AuditOf(old(transitions), x) + if x == id then [AuditRow(from, to, now, author, reason)] else []
    {
      ghost var before := transitions;
      var row := TransitionRow(id, AuditRow(from, to, now, author, reason));
      transitions := transitions + [row];
      forall x ensures AuditOf(transitions, x) == AuditOf(before, x) + if x == id then [row.entry] else [] {
        AuditOfAppend(before, row, x);
      }
    }

    /** UPDATE orders SET ... WHERE id, status and version match. */
    method UpdateOrders(c: Change, now: nat) returns (rowCount: nat)
      modifies this`orders
      ensures rowCount == if c.orderId in old(orders) && old(orders)[c.orderId].status == c.expected &&
                             old(orders)[c.orderId].version == c.version then 1 else 0
      ensures orders == if rowCount == 1 then old(orders)[c.orderId := ChangedRow(old(orders)[c.orderId], c, now)]
                        else old(orders)
    {
      rowCount := 0;
      if c.orderId in orders {
        var row := orders[c.orderId];
        if row.status == c.expected && row.version == c.version {
          var updated := row.(status := c.next, version := row.version + 1, stamps := Stamp(row.stamps, c.next, now));
          if c.posResponse.Some? {
            updated := updated.(posResponse := c.posResponse);
          }
          if c.reason.Some? && c.reason.value != "" {
            updated := updated.(failureReason := c.reason);
          }
          orders := orders[c.orderId := updated];
          rowCount := 1;
        }
      }
    }

    /** Validate, update under the version guard, append to the audit log, commit. */
    method TransitionStatus(c: Change, now: nat, author: Actor, fault: Fault) returns (r: ChangeResult)
      requires Valid()
      modifies this
      ensures Valid()
      ensures r == ChangeResultOf(ChangeOutcomeOf(old(Contents()), c), fault)
      ensures Contents() == if fault.AbortsAt? then old(Contents()) else Transition(old(Contents()), c, now, author)
    {
      var orders0, transitions0 := orders, transitions;
      if Validate(c.expected, c.next, false) != Fine {
        return ChangeRefused;
      }
      if fault == AbortsAt(0) {
        return ChangeError;
      }
      var rowCount := UpdateOrders(c, now);
      if rowCount == 0 {
        return if fault.AbortsAt? then ChangeError else ChangeStale;
      }
      if fault.AbortsAt? {
        orders, transitions := orders0, transitions0;
        return ChangeError;
      }
      InsertTransition(c.orderId, Some(c.expected), c.next, now, author, c.reason);
      r := if fault.AckLost? then ChangeError else ChangeDone;
      TablesWrite(orders0, orderItems, transitions0, orderItems, transitions, c.orderId,
                  Transition(old(Contents()), c, now, author)[c.orderId]);
    }

    method MarkDlq(id: OrderId, reason: string, now: nat)
      requires Valid()
      modifies this`orders
      ensures Valid() && Contents() == OrderStore.MarkDlq(old(Contents()), id, reason, now)
    {
      if id in orders {
        orders := orders[id := orders[id].(dlqAt := Some(now), failureReason := Some(reason))];
      }
    }

    method IncrementRetryCount(id: OrderId)
      requires Valid()
      modifies this`orders
      ensures Valid() && Contents() == OrderStore.IncrementRetryCount(old(Contents()), id)
    {
      if id in orders {
        orders := orders[id := orders[id].(retryCount := orders[id].retryCount + 1)];
      }
    }
  }
}
