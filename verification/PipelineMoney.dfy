/** The money and the lines of an order, from the client's cart to the rows and the POS. */
module PipelineMoney {
  import opened Pricing
  import opened OrderStore
  import opened Pipeline
  import opened PipelineInvariant
  import opened PipelineHistory
  import opened PipelineGate
  import opened LegacyPos

  // ----- every job comes out of the check of its client's cart -----

  /** Step i is request q's check, and p is what it publishes. */
  ghost predicate ChecksTo(b: Behavior, i: nat, q: ReqId, p: Payload) {
    i < |b.steps| && i < |b.states| && b.steps[i].ByRequest? && b.steps[i].q == q && b.steps[i].act.Check? &&
    q in b.states[i].reqs &&
    var req := b.states[i].reqs[q];
    var verdict := CheckedOf(b.steps[i].act.menus, req.cmd.cart, req.cmd.requested);
    verdict.Valid? && p == PayloadOf(req, verdict)
  }

  /** A request gets to publishing by its check only. */
  lemma IntoPublishing(s: Sys, st: Step, q: ReqId)
    requires Enabled(s, st) && q in Apply(s, st).reqs && Apply(s, st).reqs[q].pc.Publishing?
    ensures q in s.reqs
    ensures var pc := Apply(s, st).reqs[q].pc;
            s.reqs[q].pc == pc ||
            (st.ByRequest? && st.q == q && st.act.Check? &&
             var req := s.reqs[q];
             var verdict := CheckedOf(st.act.menus, req.cmd.cart, req.cmd.requested);
             verdict.Valid? && pc.payload == PayloadOf(req, verdict))
  {
    hide NextClaims, NextJobs, NextRun, NextDb, NextLocks, NextDlq, RunCan, CheckedOf, PayloadOf;
  }

  lemma {:induction false} PublishingWasChecked(b: Behavior, n: nat, q: ReqId) returns (i: nat)
    requires IsBehavior(b) && n < |b.states| && q in b.states[n].reqs && b.states[n].reqs[q].pc.Publishing?
    ensures i < n && ChecksTo(b, i, q, b.states[n].reqs[q].pc.payload)
  {
    FirstOf(b);
    StepOf(b, n - 1);
    hide IsBehavior;
    IntoPublishing(b.states[n - 1], b.steps[n - 1], q);
    hide Apply, Enabled, CheckedOf, PayloadOf;
    if b.states[n - 1].reqs[q].pc == b.states[n].reqs[q].pc {
      i := PublishingWasChecked(b, n - 1, q);
    } else {
      i := n - 1;
    }
  }

  /** A job gets into the queue by a publish only, and stays as it is. */
  lemma IntoJobs(s: Sys, st: Step, id: OrderId)
    requires Enabled(s, st) && id in Apply(s, st).jobs
    ensures (id in s.jobs && Apply(s, st).jobs[id] == s.jobs[id]) ||
            (st.ByRequest? && st.q in s.reqs && s.reqs[st.q].pc == Publishing(Apply(s, st).jobs[id]))
  {
    hide NextRequest, NextClaims, NextRun, NextDb, NextLocks, NextDlq, RunCan;
  }

  lemma {:induction false} JobWasChecked(b: Behavior, n: nat, id: OrderId) returns (i: nat, q: ReqId)
    requires IsBehavior(b) && n < |b.states| && id in b.states[n].jobs
    ensures i < n && ChecksTo(b, i, q, b.states[n].jobs[id])
  {
    FirstOf(b);
    StepOf(b, n - 1);
    hide IsBehavior;
    var s, st := b.states[n - 1], b.steps[n - 1];
    IntoJobs(s, st, id);
    hide Apply, Enabled, ChecksTo;
    if id in s.jobs && b.states[n].jobs[id] == s.jobs[id] {
      i, q := JobWasChecked(b, n - 1, id);
    } else {
      q := st.q;
      i := PublishingWasChecked(b, n - 1, q);
    }
  }

  /** The rows of an order are the cart its client sent, checked against one set of menus:
      the cart's lines in order at these menus' prices, the client's amount, its key and
      store, and a total that is the exact sum and the client's amount. */
  lemma OrderIsTheCart(b: Behavior, n: nat, id: OrderId) returns (i: nat, q: ReqId)
    requires IsBehavior(b) && n < |b.states| && id in b.states[n].db
    ensures i < n && i < |b.steps| && b.steps[i].ByRequest? && b.steps[i].q == q && b.steps[i].act.Check? && q in b.states[i].reqs
    ensures var rec, req, menus := b.states[n].db[id], b.states[i].reqs[q], b.steps[i].act.menus;
            && req.orderId == id && rec.row.key == req.cmd.key && rec.row.storeId == req.cmd.storeId
            && rec.row.requested == ToNumeric(req.cmd.requested) == rec.row.calculated == OrderTotal(rec.items)
            && req.cmd.requested == Won(rec.row.calculated)
            && |rec.items| == |req.cmd.cart|
            && forall k :: 0 <= k < |rec.items| ==>
                 var line, item := req.cmd.cart[k], rec.items[k];
                 line.menuId in menus && menus[line.menuId].isAvailable &&
                 item == Item(line.menuId, menus[line.menuId].name, menus[line.menuId].unitPrice, line.quantity)
  {
    Reachable(b, n);
    var s := b.states[n];
    assert CreatedFrom(s.db[id], s.jobs[id]) && id in s.jobs by {
      AuditAccounts(b, n, id);
    }
    i, q := JobWasChecked(b, n, id);
    MoneyConserved(b, n, id);
    hide IsBehavior, Inv, Apply, Enabled;
    var req := b.states[i].reqs[q];
    AcceptedIff(b.steps[i].act.menus, req.cmd.cart, req.cmd.requested);
    assert s.jobs[id].orderId == id by { AlwaysFits(b, n); assert JobFits(s, id); }
  }

  /** Money is conserved end to end: whatever cart was sent, an order's row holds the
      requested amount, the calculated amount and the sum over its item rows, and the
      three are equal. */
  lemma MoneyConserved(b: Behavior, n: nat, id: OrderId)
    requires IsBehavior(b) && n < |b.states| && id in b.states[n].db
    ensures var rec := b.states[n].db[id];
            rec.row.requested == rec.row.calculated == OrderTotal(rec.items) && 0 <= rec.row.calculated < 10_000_000_000 &&
            forall i :: 0 <= i < |rec.items| ==>
              rec.items[i].quantity >= 1 && 0 <= rec.items[i].unitPrice < 10_000_000_000 &&
              0 <= rec.items[i].unitPrice * rec.items[i].quantity < 10_000_000_000
  {
    hide Apply, Enabled, RunInv, LogMatches, Ordered, AuthorsFit, RequestFits;
    Reachable(b, n);
    AlwaysFits(b, n);
    var s := b.states[n];
    assert RecordInv(s.clock, s.jobs, s.runs, id, s.db[id]);
    assert JobFits(s, id);
    WonAndBack(s.jobs[id].calculated);
    forall i | 0 <= i < |s.db[id].items| ensures ItemFits(s.db[id].items[i]) {
      assert s.db[id].items[i] in s.jobs[id].items;
    }
  }

  /** Whenever a run is calling the POS, the legacy message for its order carries exact
      jeon amounts and a TOTAL that is the sum of its lines. */
  lemma PosMessageAddsUp(b: Behavior, n: nat, r: RunId, fp: Doubles, orderDate: string)
    requires IsBehavior(b) && n < |b.states| && r in b.states[n].runs && b.states[n].runs[r].pc == PosCalling
    requires Conforming(fp)
    ensures var p := b.states[n].runs[r].payload; var m := BuildMessage(fp, p, orderDate);
            m.storeId == p.storeId && m.orderDate == orderDate &&
            m.total == p.calculated == LinesTotal(m.items) && |m.items| == |p.items| &&
            forall i :: 0 <= i < |p.items| ==>
              m.items[i] == Line(p.items[i].menuId, p.items[i].quantity, p.items[i].unitPrice)
  {
    hide Apply, Enabled, LogMatches, Ordered, AuthorsFit, RequestFits, BuildMessage, Conforming, LinesTotal;
    Reachable(b, n);
    AlwaysFits(b, n);
    var s := b.states[n];
    var p := s.runs[r].payload;
    assert RunInv(s.clock, s.jobs, s.db, r, s.runs[r]);
    assert RecordInv(s.clock, s.jobs, s.runs, p.orderId, s.db[p.orderId]);
    assert JobFits(s, p.orderId);
    MessageAddsUp(fp, p, orderDate);
  }

  lemma WonAndBack(jeon: int)
    requires jeon >= 0
    ensures ToNumeric(Won(jeon)) == jeon
  {
    assert Won(jeon) * 100.0 == jeon as real;
  }
}
