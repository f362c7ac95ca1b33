/** The orders, order_items and order_state_transitions tables, one record per
    order id, with each transaction as a function. */
module OrderStore {
  import opened OrderStateMachine
  import opened Pricing

  type OrderId = nat
  type StoreId = string
  type Key = string

  /** The transaction's author: what the worker_id and job_id columns hold, and
      which run of that worker it was (the columns alone do not tell reruns apart). */
  datatype Actor = Actor(workerId: nat, jobId: OrderId, run: nat)

  datatype Payload = Payload(
    orderId: OrderId, storeId: StoreId, key: Key, requested: real, calculated: int, items: seq<Item>)

  datatype Column = QueuedAt | SavedAt | SentToPosAt | CompletedAt | FailedAt

  datatype OrderRow = OrderRow(
    key: Key, storeId: StoreId, status: Status, requested: int, calculated: int, version: nat,
    stamps: map<Column, nat>, retryCount: nat, dlqAt: Option<nat>,
    posResponse: Option<string>, failureReason: Option<string>)

  datatype AuditRow = AuditRow(from: Option<Status>, to: Status, at: nat, author: Actor, reason: Option<string>)

  datatype Record = Record(row: OrderRow, items: seq<Item>, audit: seq<AuditRow>)

  type Db = map<OrderId, Record>

  function TimestampColumn(status: Status): Option<Column> {
    match status
    case Queued => Some(QueuedAt)
    case Saved => Some(SavedAt)
    case SentToPos => Some(SentToPosAt)
    case Completed => Some(CompletedAt)
    case Failed => Some(FailedAt)
    case _ => None
  }

  function Stamp(stamps: map<Column, nat>, status: Status, at: nat): map<Column, nat> {
    match TimestampColumn(status)
    case Some(column) => stamps[column := at]
    case None => stamps
  }

  /** The value a NUMERIC(10,2) column keeps, in jeon, if it is in range. */
  const NUMERIC_LIMIT := 10_000_000_000

  function ToNumeric(won: real): int {
    if won >= 0.0 then (won * 100.0 + 0.5).Floor else -((-won) * 100.0 + 0.5).Floor
  }

  predicate AmountFits(jeon: int) {
    0 <= jeon < NUMERIC_LIMIT
  }

  /** CHECK constraints of order_items, with the generated subtotal column. */
  predicate ItemFits(item: Item) {
    AmountFits(item.unitPrice) && item.quantity > 0 && AmountFits(LineTotal(item))
  }

  predicate PayloadFits(p: Payload) {
    AmountFits(ToNumeric(p.requested)) && AmountFits(p.calculated) && forall item <- p.items :: ItemFits(item)
  }

  predicate KeyTaken(db: Db, key: Key) {
    exists id :: id in db && db[id].row.key == key
  }

  /** Outcome of createOrder: Rejected is an error from the database. */
  datatype InsertOutcome = Inserted | Duplicate | Rejected

  /** The row's types and CHECKs come before the conflict on the key, the primary key and the
      items' CHECKs after it. */
  function InsertOutcomeOf(db: Db, p: Payload): InsertOutcome {
    if !AmountFits(ToNumeric(p.requested)) || !AmountFits(p.calculated) then Rejected
    else if KeyTaken(db, p.key) then Duplicate
    else if p.orderId in db || !PayloadFits(p) then Rejected
    else Inserted
  }

  function NewRecord(p: Payload, now: nat, author: Actor): Record {
    Record(
      OrderRow(p.key, p.storeId, Queued, ToNumeric(p.requested), p.calculated, 0,
               map[QueuedAt := now], 0, None, None, None),
      p.items,
      [AuditRow(None, Queued, now, author, None)])
  }

  /** TX #1. NOW() is the transaction's start time. */
  function Insert(db: Db, p: Payload, now: nat, author: Actor): Db {
    if InsertOutcomeOf(db, p) == Inserted then db[p.orderId := NewRecord(p, now, author)] else db
  }

  datatype Change = Change(
    orderId: OrderId, expected: Status, next: Status, version: nat,
    posResponse: Option<string>, reason: Option<string>)

  /** Outcome of transitionStatus: Refused is the state machine's error,
      Stale is StaleOrderVersionError. */
  datatype ChangeOutcome = Committed | Refused | Stale

  function ChangeOutcomeOf(db: Db, c: Change): ChangeOutcome {
    if !Allowed(c.expected, c.next) then Refused
    else if c.orderId in db && db[c.orderId].row.status == c.expected && db[c.orderId].row.version == c.version
    then Committed
    else Stale
  }

  function ChangedRow(row: OrderRow, c: Change, now: nat): OrderRow {
    row.(status := c.next, version := row.version + 1, stamps := Stamp(row.stamps, c.next, now),
         posResponse := if c.posResponse.Some? then c.posResponse else row.posResponse,
         // an empty reason is falsy and leaves the column alone
         failureReason := if c.reason.Some? && c.reason.value != "" then c.reason else row.failureReason)
  }

  function ChangeAudit(c: Change, now: nat, author: Actor): AuditRow {
    AuditRow(Some(c.expected), c.next, now, author, c.reason)
  }

  function Transition(db: Db, c: Change, now: nat, author: Actor): Db {
    if ChangeOutcomeOf(db, c) != Committed then db
    else
      var current := db[c.orderId];
      db[c.orderId := Record(ChangedRow(current.row, c, now), current.items, current.audit + [ChangeAudit(c, now, author)])]
  }

  function WithRow(db: Db, id: OrderId, row: OrderRow): Db
    requires id in db
  {
    db[id := db[id].(row := row)]
  }

  function MarkDlq(db: Db, id: OrderId, reason: string, now: nat): Db {
    if id in db then WithRow(db, id, db[id].row.(dlqAt := Some(now), failureReason := Some(reason))) else db
  }

  function IncrementRetryCount(db: Db, id: OrderId): Db {
    if id in db then WithRow(db, id, db[id].row.(retryCount := db[id].row.retryCount + 1)) else db
  }

  /** The PATCH endpoints: a bare UPDATE of the status column. */
  function Patch(db: Db, id: OrderId, status: Status): Db {
    if id in db then WithRow(db, id, db[id].row.(status := status)) else db
  }

  // ----- what every transaction keeps -----

  ghost predicate UniqueKeys(db: Db) {
    forall a, b :: a in db && b in db && db[a].row.key == db[b].row.key ==> a == b
  }

  /** The row's timestamps as its audit log tells them. */
  function StampsOf(audit: seq<AuditRow>): map<Column, nat> {
    if audit == [] then map[]
    else Stamp(StampsOf(audit[..|audit| - 1]), audit[|audit| - 1].to, audit[|audit| - 1].at)
  }

  ghost predicate Ordered(audit: seq<AuditRow>) {
    forall i, j :: 0 <= i <= j < |audit| ==> audit[i].at <= audit[j].at
  }

  /** Every row of the log but the first uses an edge of the table; the first creates. */
  ghost predicate EdgesAllowed(audit: seq<AuditRow>) {
    |audit| > 0 && audit[0].from == None && audit[0].to == Queued &&
    forall i :: 0 < i < |audit| ==> audit[i].from.Some? && Allowed(audit[i].from.value, audit[i].to)
  }

  ghost predicate Linked(audit: seq<AuditRow>) {
    forall i {:trigger audit[i].from} :: 0 < i < |audit| ==> audit[i].from == Some(audit[i - 1].to)
  }

  /** The audit log accounts for version and timestamps, whoever wrote the status. */
  ghost predicate LogMatches(rec: Record) {
    && |rec.audit| == rec.row.version + 1
    && EdgesAllowed(rec.audit)
    && rec.row.stamps == StampsOf(rec.audit)
  }

  /** The log also accounts for the status. */
  ghost predicate LogDetermines(rec: Record) {
    LogMatches(rec) && Linked(rec.audit) && rec.row.status == rec.audit[|rec.audit| - 1].to
  }

  /** rec' is rec or a later state of the same order. */
  ghost predicate RecordGrows(rec: Record, rec': Record) {
    && rec'.row.key == rec.row.key
    && rec'.row.requested == rec.row.requested && rec'.row.calculated == rec.row.calculated
    && rec'.items == rec.items
    && rec.audit <= rec'.audit
  }

  ghost predicate Grows(db: Db, db': Db) {
    forall id :: id in db ==> id in db' && RecordGrows(db[id], db'[id])
  }

  lemma InsertKeeps(db: Db, p: Payload, now: nat, author: Actor)
    requires UniqueKeys(db)
    ensures UniqueKeys(Insert(db, p, now, author)) && Grows(db, Insert(db, p, now, author))
    ensures LogDetermines(NewRecord(p, now, author))
  {
    var rec := NewRecord(p, now, author);
    assert rec.audit[..0] == [];
    assert StampsOf(rec.audit) == Stamp(StampsOf(rec.audit[..0]), Queued, now);
  }

  /** The bare row updates keep every log, whatever status they write. */
  lemma BareUpdateKeeps(db: Db, id: OrderId, row: OrderRow)
    requires UniqueKeys(db) && id in db
    requires row == db[id].row.(status := row.status, retryCount := row.retryCount, dlqAt := row.dlqAt, failureReason := row.failureReason)
    ensures UniqueKeys(WithRow(db, id, row)) && Grows(db, WithRow(db, id, row))
    ensures LogMatches(db[id]) ==> LogMatches(WithRow(db, id, row)[id])
  {
  }

  lemma GrowsRefl(db: Db)
    ensures Grows(db, db)
  {
  }

  lemma ExtendStamps(audit: seq<AuditRow>, entry: AuditRow)
    ensures StampsOf(audit + [entry]) == Stamp(StampsOf(audit), entry.to, entry.at)
  {
    assert (audit + [entry])[..|audit|] == audit;
  }

  lemma TransitionKeeps(db: Db, c: Change, now: nat, author: Actor)
    requires UniqueKeys(db)
    requires c.orderId in db ==> LogMatches(db[c.orderId])
    ensures UniqueKeys(Transition(db, c, now, author)) && Grows(db, Transition(db, c, now, author))
    ensures c.orderId in db ==> LogMatches(Transition(db, c, now, author)[c.orderId])
    ensures c.orderId in db && LogDetermines(db[c.orderId]) ==> LogDetermines(Transition(db, c, now, author)[c.orderId])
  {
    TransitionGrows(db, c, now, author);
    hide UniqueKeys, Grows, LogMatches, LogDetermines, ChangedRow, ChangeAudit;
    if ChangeOutcomeOf(db, c) == Committed {
      TransitionLog(db, c, now, author);
    }
  }

  lemma TransitionGrows(db: Db, c: Change, now: nat, author: Actor)
    requires UniqueKeys(db)
    ensures UniqueKeys(Transition(db, c, now, author)) && Grows(db, Transition(db, c, now, author))
  {
    hide Allowed, Stamp;
  }

  lemma TransitionLog(db: Db, c: Change, now: nat, author: Actor)
    requires ChangeOutcomeOf(db, c) == Committed && LogMatches(db[c.orderId])
    ensures var rec, rec' := db[c.orderId], Transition(db, c, now, author)[c.orderId];
            LogMatches(rec') && (LogDetermines(rec) ==> LogDetermines(rec'))
  {
    var audit, entry := db[c.orderId].audit, ChangeAudit(c, now, author);
    ExtendStamps(audit, entry);
    ExtendEdges(audit, entry);
    hide EdgesAllowed, StampsOf, Stamp, Linked, Allowed;
    ExtendLinks(audit, entry);
  }

  lemma ExtendEdges(audit: seq<AuditRow>, entry: AuditRow)
    requires EdgesAllowed(audit) && entry.from.Some? && Allowed(entry.from.value, entry.to)
    ensures EdgesAllowed(audit + [entry])
  {
  }

  lemma ExtendLinks(audit: seq<AuditRow>, entry: AuditRow)
    ensures audit != [] && Linked(audit) && entry.from == Some(End(audit)) ==> Linked(audit + [entry])
  {
  }

  /** Row i is the log's last row into the column's status. */
  ghost predicate LastInto(audit: seq<AuditRow>, column: Column, i: int) {
    0 <= i < |audit| && TimestampColumn(audit[i].to) == Some(column) &&
    forall j :: i < j < |audit| ==> TimestampColumn(audit[j].to) != Some(column)
  }

  lemma LastIntoStays(audit: seq<AuditRow>, column: Column)
    requires audit != [] && TimestampColumn(End(audit)) != Some(column)
    ensures forall i :: LastInto(audit[..|audit| - 1], column, i) ==> LastInto(audit, column, i)
  {
    hide TimestampColumn;
    var front := audit[..|audit| - 1];
    assert forall i :: 0 <= i < |front| ==> front[i] == audit[i];
  }

  /** A column is set exactly when the log has a row into its status, and then it
      holds the time of the last such row. */
  lemma {:induction false} StampSetIff(audit: seq<AuditRow>, column: Column)
    ensures column in StampsOf(audit) <==> exists i :: 0 <= i < |audit| && TimestampColumn(audit[i].to) == Some(column)
    ensures column in StampsOf(audit) ==> exists i :: LastInto(audit, column, i) && StampsOf(audit)[column] == audit[i].at
  {
    if audit != [] {
      var n := |audit| - 1;
      var front := audit[..n];
      StampSetIff(front, column);
      hide TimestampColumn;
      if TimestampColumn(audit[n].to) == Some(column) {
        assert LastInto(audit, column, n) && StampsOf(audit)[column] == audit[n].at;
      } else {
        LastIntoStays(audit, column);
        assert forall i :: 0 <= i < n ==> front[i] == audit[i];
        if column in StampsOf(front) {
          var i :| LastInto(front, column, i) && StampsOf(front)[column] == front[i].at;
          assert LastInto(audit, column, i) && StampsOf(audit)[column] == audit[i].at;
        }
      }
    }
  }

  // ----- what a well-formed log says about an order's history -----

  /** The status of row i may follow the one before it. */
  ghost predicate Follows(audit: seq<AuditRow>, i: nat)
    requires 0 < i < |audit|
  {
    Allowed(audit[i - 1].to, audit[i].to)
  }

  /** The statuses of the log are a walk through the table from QUEUED, whatever
      statuses its rows say they came from. */
  ghost predicate Progress(audit: seq<AuditRow>) {
    |audit| > 0 && audit[0].to == Queued && forall i :: 0 < i < |audit| ==> Follows(audit, i)
  }

  /** The status the log ends at. */
  function End(audit: seq<AuditRow>): Status
    requires audit != []
  {
    audit[|audit| - 1].to
  }

  lemma LinkedProgress(audit: seq<AuditRow>)
    requires EdgesAllowed(audit) && Linked(audit)
    ensures Progress(audit)
  {
    forall i | 0 < i < |audit| ensures Follows(audit, i) {
      assert audit[i].from == Some(audit[i - 1].to);
    }
  }

  lemma ExtendProgress(audit: seq<AuditRow>, entry: AuditRow)
    requires Progress(audit) && Allowed(End(audit), entry.to)
    ensures Progress(audit + [entry])
  {
    var longer := audit + [entry];
    forall i | 0 < i < |longer| ensures Follows(longer, i) {
      assert i < |audit| ==> Follows(audit, i);
    }
  }

  /** The version is bounded by the rank of the status, so by 3. */
  lemma {:induction false} LogRank(audit: seq<AuditRow>, i: nat)
    requires Progress(audit) && i < |audit|
    ensures i <= Rank(audit[i].to) <= 3
  {
    if i > 0 {
      LogRank(audit, i - 1);
      assert Follows(audit, i);
    }
  }

  /** The whole shape of a history: nothing follows a terminal status, each status
      occurs once, and only COMPLETED follows SENT_TO_POS. */
  lemma {:induction false} LogShape(audit: seq<AuditRow>, i: nat, j: nat)
    requires Progress(audit) && i < j < |audit|
    ensures !IsTerminal(audit[i].to)
    ensures audit[i].to != audit[j].to
    ensures audit[i].to == SentToPos ==> audit[j].to == Completed
    ensures audit[j].to == Completed ==> audit[j - 1].to == SentToPos
    ensures Rank(audit[i].to) < Rank(audit[j].to)
  {
    assert Follows(audit, j);
    if i < j - 1 {
      LogShape(audit, i, j - 1);
    }
  }

  function Statuses(audit: seq<AuditRow>): seq<Status> {
    seq(|audit|, i requires 0 <= i < |audit| => audit[i].to)
  }

  /** There are six histories. */
  lemma LogIsOneOfSix(audit: seq<AuditRow>)
    requires Progress(audit)
    ensures Statuses(audit) in {[Queued], [Queued, Saved], [Queued, Saved, SentToPos], [Queued, Saved, SentToPos, Completed],
                                [Queued, Failed], [Queued, Saved, Failed]}
  {
    LogRank(audit, |audit| - 1);
    var statuses := Statuses(audit);
    if |audit| > 1 { assert Follows(audit, 1); Edges(audit[0].to, audit[1].to); }
    if |audit| > 2 { assert Follows(audit, 2); Edges(audit[1].to, audit[2].to); }
    if |audit| > 3 { assert Follows(audit, 3); Edges(audit[2].to, audit[3].to); }
    hide Allowed, Progress, Follows;
    assert statuses[0] == Queued;
    if |audit| == 1 { assert statuses == [statuses[0]]; }
    if |audit| == 2 { assert statuses == [statuses[0], statuses[1]]; }
    if |audit| == 3 { assert statuses == [statuses[0], statuses[1], statuses[2]]; }
    if |audit| == 4 { assert statuses == [statuses[0], statuses[1], statuses[2], statuses[3]]; }
  }

  /** An order goes in exactly when its key and its id are new, the two amounts fit
      NUMERIC(10,2), and so does every line's price and subtotal, of a positive quantity. A
      taken key is noticed only behind amounts that fit. */
  lemma InsertedIff(db: Db, p: Payload)
    ensures var fits := 0 <= ToNumeric(p.requested) < 10_000_000_000 && 0 <= p.calculated < 10_000_000_000;
            && (InsertOutcomeOf(db, p) == Duplicate <==> fits && exists id :: id in db && db[id].row.key == p.key)
            && (InsertOutcomeOf(db, p) == Inserted <==>
                  fits && (forall id :: id in db ==> db[id].row.key != p.key && id != p.orderId) &&
                  forall item <- p.items ::
                    item.quantity >= 1 && 0 <= item.unitPrice < 10_000_000_000 && item.unitPrice * item.quantity < 10_000_000_000)
  {
    hide ToNumeric;
    forall item | item in p.items
      ensures ItemFits(item) <==>
        item.quantity >= 1 && 0 <= item.unitPrice < 10_000_000_000 && item.unitPrice * item.quantity < 10_000_000_000
    {
      if item.quantity >= 1 && item.unitPrice >= 0 {
        assert item.unitPrice * item.quantity >= 0;
      }
    }
  }

  /** The redrive endpoint's transition is refused whatever the database holds. */
  lemma RedriveRefused(db: Db, c: Change, now: nat, author: Actor)
    requires c.expected == Failed && c.next == Queued
    ensures ChangeOutcomeOf(db, c) == Refused && Transition(db, c, now, author) == db
  {
  }
}
