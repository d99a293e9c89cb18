/** Where line items and gateway payments come from: facts about every reachable state that
    say what may still happen to a pending order. */
module OrderTrail {
  import opened Schema
  import opened Statements
  import opened FeeProtocol
  import opened FeeInvariants
  import opened FeeRuns

  /** A payment with line items has had them inserted and has not been rejected. */
  predicate ItemsBacked(payments: seq<Payment>, items: seq<LineItem>, itemised: set<PaymentId>) {
    forall it :: it in items ==> it.payment in itemised && !StatusIn(payments, it.payment, {Rejected})
  }

  predicate Behind(orders: seq<Order>, k: nat, p: PaymentId) {
    k < |orders| && !orders[k].stage.Quoted? && orders[k].payment == p
  }

  predicate Ordered(orders: seq<Order>, p: PaymentId) { exists k :: 0 <= k < |orders| && Behind(orders, k, p) }

  /** Every gateway payment belongs to an order, and a linked order's has its order id. */
  predicate OrdersBacked(payments: seq<Payment>, orders: seq<Order>) {
    && (forall p :: 0 <= p < |payments| && payments[p].gateway.Online() ==> Ordered(orders, p))
    && (forall k :: 0 <= k < |orders| && orders[k].stage.Linked? ==>
          orders[k].payment < |payments| && payments[orders[k].payment].orderId.Some?)
  }

  predicate Trail(s: Fees) { ItemsBacked(s.payments, s.items, s.itemised) && OrdersBacked(s.payments, s.orders) }

  // ---- Requests ----


  /** The rows a request selects. */
  function Chosen(s: Fees, step: Step): seq<Quote>
    requires step.SClaim? || step.SCollect?
  {
    Select(s.ledger, step.tenant, step.student, step.ids)
  }

  /** The payment an accepted request inserts, and the tables it leaves. */
  function Request(s: Fees, step: Step): Payment
    requires Accepts(s, step)
  {
    var quotes := Chosen(s, step);
    var gateway := if step.SClaim? then Upi else Offline;
    Payment(step.tenant, step.student, gateway, QuoteSum(quotes), PendingVerification, None, None, None)
  }

  function RequestNotes(s: Fees, step: Step): seq<Event>
    requires Accepts(s, step)
  {
    if step.SClaim? then [PaymentNote(PaymentClaimed, |s.payments|, Request(s, step))] else []
  }

  function Held(s: Fees, step: Step): Option<Fees>
    requires Accepts(s, step)
  {
    Hold(s, true, Request(s, step), step.ids, Chosen(s, step), RequestNotes(s, step))
  }

  /** Both requests hold the rows first; a collection then pays at once. */
  lemma AcceptedApply(s: Fees, step: Step)
    requires References(s) && Accepts(s, step)
    ensures CanHold(s, Request(s, step), step.ids, Chosen(s, step))
    ensures Held(s, step).Some? && |Held(s, step).value.payments| == |s.payments| + 1
    ensures Apply(s, true, step) == if step.SClaim? then Held(s, step).value else Pay(Held(s, step).value, |s.payments|)
  {
    HoldSucceeds(s, true, Request(s, step), step.ids, Chosen(s, step), RequestNotes(s, step));
  }

  lemma RefusedApply(s: Fees, step: Step)
    requires (step.SClaim? || step.SCollect?) && !Accepts(s, step)
    ensures Apply(s, true, step) == s
  {
  }

  /** Only the statements of create_payment_order touch orders. */
  lemma StepKeepsOrders(s: Fees, step: Step)
    requires References(s) && !OrderStep(step)
    ensures Apply(s, true, step).orders == s.orders
  {
    match step
    case SClaim(_, _, _) => if Accepts(s, step) { AcceptedApply(s, step); } else { RefusedApply(s, step); }
    case SCollect(_, _, _, _) => if Accepts(s, step) { AcceptedApply(s, step); } else { RefusedApply(s, step); }
    case SSweep(expired) => SweepKeepsOrders(s, expired);
    case _ =>
  }

  lemma {:induction false} SweepKeepsOrders(s: Fees, expired: seq<PaymentId>)
    ensures Sweep(s, expired).orders == s.orders
  {
    if expired == [] {
    } else {
      SweepKeepsOrders(s, expired[..|expired| - 1]);
    }
  }

  // ---- Line items ----

  lemma HoldBacksItems(s: Fees, pay: Payment, ids: seq<LedgerId>, quotes: seq<Quote>, notes: seq<Event>)
    requires References(s) && CanHold(s, pay, ids, quotes) && ItemsBacked(s.payments, s.items, s.itemised)
    ensures Hold(s, true, pay, ids, quotes, notes).Some?
    ensures var t := Hold(s, true, pay, ids, quotes, notes).value; ItemsBacked(t.payments, t.items, t.itemised)
  {
    HoldItems(s, true, pay, ids, quotes, notes);
  }

  lemma AcceptedBacksItems(s: Fees, step: Step)
    requires References(s) && Accepts(s, step) && ItemsBacked(s.payments, s.items, s.itemised)
    ensures var t := Apply(s, true, step); ItemsBacked(t.payments, t.items, t.itemised)
  {
    AcceptedApply(s, step);
    HoldBacksItems(s, Request(s, step), step.ids, Chosen(s, step), RequestNotes(s, step));
  }

  lemma {:induction false} SweepBacksItems(s: Fees, expired: seq<PaymentId>)
    requires ItemsBacked(s.payments, s.items, s.itemised)
    ensures var t := Sweep(s, expired); ItemsBacked(t.payments, t.items, t.itemised)
  {
    if expired == [] {
    } else {
      SweepBacksItems(s, expired[..|expired| - 1]);
    }
  }

  lemma ItemiseBacksItems(s: Fees, k: nat)
    requires OrdersOk(s) && PaymentsOk(s) && ItemsBacked(s.payments, s.items, s.itemised)
    ensures var t := ItemiseOrder(s, true, k); ItemsBacked(t.payments, t.items, t.itemised)
  {
    if AtStage(s, k, Opened) {
      var o := s.orders[k];
      assert QuotesFit(s.ledger, o) && StageFits(s.payments, s.itemised, o);
      assert PaymentOk(s.payments[o.payment], o.payment in s.itemised);
      LinesMembers(o.tenant, o.payment, o.quotes);
    }
  }

  lemma RejectBacksItems(s: Fees, tenant: TenantId, p: PaymentId)
    requires References(s) && ItemsBacked(s.payments, s.items, s.itemised)
    ensures var t := Reject(s, tenant, p).0; ItemsBacked(t.payments, t.items, t.itemised)
  {
    if Awaiting(s, tenant, p) {
      forall it | it in s.items && it.payment == p ensures it.tenant == tenant { assert ItemOk(s, it); }
    }
  }

  lemma OrderBacksItems(s: Fees, step: Step)
    requires References(s) && OrdersOk(s) && PaymentsOk(s) && ItemsBacked(s.payments, s.items, s.itemised)
        && OrderStep(step)
    ensures var t := Apply(s, true, step); ItemsBacked(t.payments, t.items, t.itemised)
  {
    match step
    case SOpen(k) => assert forall it :: it in s.items ==> ItemOk(s, it);
    case SItemise(k) => ItemiseBacksItems(s, k);
    case SLink(k, _) => if AtStage(s, k, Itemised) { assert StageFits(s.payments, s.itemised, s.orders[k]); }
    case _ =>
  }

  lemma StepBacksItems(s: Fees, step: Step)
    requires References(s) && OrdersOk(s) && PaymentsOk(s) && ItemsBacked(s.payments, s.items, s.itemised)
    ensures var t := Apply(s, true, step); ItemsBacked(t.payments, t.items, t.itemised)
  {
    match step
    case SClaim(_, _, _) => if Accepts(s, step) { AcceptedBacksItems(s, step); } else { RefusedApply(s, step); }
    case SCollect(_, _, _, _) => if Accepts(s, step) { AcceptedBacksItems(s, step); } else { RefusedApply(s, step); }
    case SReject(tenant, p) => RejectBacksItems(s, tenant, p);
    case SSweep(expired) => SweepBacksItems(s, expired);
    case _ => if OrderStep(step) { OrderBacksItems(s, step); }
  }

  // ---- Orders ----

  /** Payments keep gateway and order id, and no online payment is added. */
  lemma SameOrdersBacked(s: Fees, t: Fees)
    requires OrdersBacked(s.payments, s.orders) && t.orders == s.orders && |s.payments| <= |t.payments|
    requires forall p :: 0 <= p < |s.payments| ==>
               t.payments[p].gateway == s.payments[p].gateway && t.payments[p].orderId == s.payments[p].orderId
    requires forall p :: |s.payments| <= p < |t.payments| ==> !t.payments[p].gateway.Online()
    ensures OrdersBacked(t.payments, t.orders)
  {
  }

  lemma OpenBacksOrder(s: Fees, k: nat)
    requires OrdersBacked(s.payments, s.orders)
    ensures var t := OpenOrder(s, k); OrdersBacked(t.payments, t.orders)
  {
    if AtStage(s, k, Quoted) {
      var t := OpenOrder(s, k);
      assert Behind(t.orders, k, |s.payments|);
      forall p | 0 <= p < |s.payments| && t.payments[p].gateway.Online() ensures Ordered(t.orders, p) {
        var j :| 0 <= j < |s.orders| && Behind(s.orders, j, p);
        assert Behind(t.orders, j, p);
      }
    }
  }

  /** Orders are only added or moved along; a payment that gets an order id keeps one. */
  lemma StageBacksOrders(s: Fees, t: Fees)
    requires OrdersBacked(s.payments, s.orders) && |t.payments| == |s.payments| && |s.orders| <= |t.orders|
    requires forall k :: 0 <= k < |s.orders| ==>
               t.orders[k].payment == s.orders[k].payment && (s.orders[k].stage.Quoted? <==> t.orders[k].stage.Quoted?)
    requires forall k :: 0 <= k < |t.orders| && t.orders[k].stage.Linked? ==>
               || (k < |s.orders| && s.orders[k].stage.Linked?)
               || (t.orders[k].payment < |t.payments| && t.payments[t.orders[k].payment].orderId.Some?)
    requires forall p :: 0 <= p < |s.payments| ==>
               t.payments[p].gateway == s.payments[p].gateway
                   && (s.payments[p].orderId.Some? ==> t.payments[p].orderId.Some?)
    ensures OrdersBacked(t.payments, t.orders)
  {
    forall p | 0 <= p < |t.payments| && t.payments[p].gateway.Online() ensures Ordered(t.orders, p) {
      var j :| 0 <= j < |s.orders| && Behind(s.orders, j, p);
      assert Behind(t.orders, j, p);
    }
  }

  lemma AcceptedKeepsOrders(s: Fees, step: Step)
    requires References(s) && Accepts(s, step) && OrdersBacked(s.payments, s.orders)
    ensures var t := Apply(s, true, step); OrdersBacked(t.payments, t.orders)
  {
    AcceptedApply(s, step);
    SameOrdersBacked(s, Apply(s, true, step));
  }

  lemma OrderBacksOrders(s: Fees, step: Step)
    requires OrdersBacked(s.payments, s.orders) && OrderStep(step)
    ensures var t := Apply(s, true, step); OrdersBacked(t.payments, t.orders)
  {
    match step
    case SOpen(k) => OpenBacksOrder(s, k);
    case _ => StageBacksOrders(s, Apply(s, true, step));
  }

  lemma StepBacksOrders(s: Fees, step: Step)
    requires References(s) && OrdersBacked(s.payments, s.orders)
    ensures var t := Apply(s, true, step); OrdersBacked(t.payments, t.orders)
  {
    if OrderStep(step) { OrderBacksOrders(s, step); } else { TransactionBacksOrders(s, step); }
  }

  lemma TransactionBacksOrders(s: Fees, step: Step)
    requires References(s) && OrdersBacked(s.payments, s.orders) && !OrderStep(step)
    ensures var t := Apply(s, true, step); OrdersBacked(t.payments, t.orders)
  {
    var t := Apply(s, true, step);
    match step
    case SClaim(_, _, _) => if Accepts(s, step) { AcceptedKeepsOrders(s, step); } else { RefusedApply(s, step); }
    case SCollect(_, _, _, _) => if Accepts(s, step) { AcceptedKeepsOrders(s, step); } else { RefusedApply(s, step); }
    case SSweep(expired) =>
      SweepKeepsOrders(s, expired);
      SweepKeepsIds(s, expired);
      SameOrdersBacked(s, t);
    case _ => SameOrdersBacked(s, t);
  }

  lemma {:induction false} RunKeepsTrail(s: Fees, steps: seq<Step>)
    requires Inv(s) && Trail(s)
    ensures Inv(Run(s, true, steps)) && Trail(Run(s, true, steps))
  {
    RunKeepsInv(s, steps);
    if steps == [] {
    } else {
      var t := Run(s, true, steps[..|steps| - 1]);
      RunKeepsTrail(s, steps[..|steps| - 1]);
      StepBacksItems(t, steps[|steps| - 1]);
      StepBacksOrders(t, steps[|steps| - 1]);
    }
  }

  lemma ReachableSound(steps: seq<Step>)
    ensures Inv(Run(EMPTY, true, steps)) && Trail(Run(EMPTY, true, steps))
  {
    Initially();
    RunKeepsTrail(EMPTY, steps);
  }

  // ---- The life of a line item ----

  predicate OnRow(s: Fees, p: PaymentId, l: LedgerId) { exists it :: it in s.items && it.payment == p && it.row == l }

  lemma SameRow(items: seq<LineItem>, a: LineItem, b: LineItem)
    requires OneItemPerRow(items) && a in items && b in items && a.row == b.row
    ensures a == b
  {
  }

  /** A webhook for order id `order` and gateway payment id `gatewayPayment` books `p`: it is
      pending, the order id is its own, and no other payment has that gateway payment id. */
  predicate Books(s: Fees, order: nat, gatewayPayment: nat, p: PaymentId) {
    && StatusIn(s.payments, p, {Initiated}) && s.payments[p].orderId == Some(order)
    && forall q :: 0 <= q < |s.payments| && q != p ==> s.payments[q].gatewayPaymentId != Some(gatewayPayment)
  }

  /** An accepted claim or collection takes the row over from a payment that is not live. */
  predicate TakenOver(s: Fees, step: Step, it: LineItem) {
    Accepts(s, step) && it.tenant == step.tenant && it.row in step.ids && StatusIn(s.payments, it.payment, DEAD)
  }

  /** The step rejects the payment or times it out. */
  predicate Struck(s: Fees, step: Step, p: PaymentId) {
    && StatusIn(s.payments, p, {Initiated, PendingVerification})
    && StatusIn(Apply(s, true, step).payments, p, {Rejected, Failed})
  }

  lemma AcceptedItems(s: Fees, step: Step, it: LineItem)
    requires References(s) && Accepts(s, step) && it in s.items
    ensures it in Apply(s, true, step).items <==> !TakenOver(s, step, it)
    ensures !Struck(s, step, it.payment)
  {
    AcceptedApply(s, step);
    var quotes := Chosen(s, step);
    HoldSucceeds(s, true, Request(s, step), step.ids, quotes, RequestNotes(s, step));
    LinesMembers(step.tenant, |s.payments|, quotes);
    assert ItemOk(s, it);
  }

  lemma {:induction false} SweepItems(s: Fees, expired: seq<PaymentId>, it: LineItem)
    requires References(s) && it in s.items
    ensures |Sweep(s, expired).payments| == |s.payments|
    ensures it in Sweep(s, expired).items <==>
              !(StatusIn(s.payments, it.payment, {Initiated, Processing})
                && StatusIn(Sweep(s, expired).payments, it.payment, {Failed}))
  {
    assert ItemOk(s, it);
    if expired == [] {
    } else {
      SweepItems(s, expired[..|expired| - 1], it);
      SweepKeepsIds(s, expired[..|expired| - 1]);
    }
  }

  lemma RejectItems(s: Fees, tenant: TenantId, p: PaymentId, it: LineItem)
    requires References(s) && it in s.items
    ensures it in Reject(s, tenant, p).0.items <==> !Struck(s, SReject(tenant, p), it.payment)
  {
    assert ItemOk(s, it);
  }

  lemma OrderItems(s: Fees, step: Step, it: LineItem)
    requires References(s) && OrderStep(step) && it in s.items
    ensures it in Apply(s, true, step).items && !Struck(s, step, it.payment)
  {
    assert ItemOk(s, it);
  }

  /** A line item goes exactly when its row is taken over or its payment is struck. */
  lemma ItemStaysIff(s: Fees, step: Step, it: LineItem)
    requires References(s) && PaymentsOk(s) && it in s.items
    ensures it in Apply(s, true, step).items <==> !TakenOver(s, step, it) && !Struck(s, step, it.payment)
  {
    if OrderStep(step) { OrderItems(s, step, it); } else { TransactionItems(s, step, it); }
  }

  lemma TransactionItems(s: Fees, step: Step, it: LineItem)
    requires References(s) && PaymentsOk(s) && it in s.items && !OrderStep(step)
    ensures it in Apply(s, true, step).items <==> !TakenOver(s, step, it) && !Struck(s, step, it.payment)
  {
    assert ItemOk(s, it) && PaymentOk(s.payments[it.payment], it.payment in s.itemised);
    match step
    case SClaim(_, _, _) => if Accepts(s, step) { AcceptedItems(s, step, it); } else { RefusedApply(s, step); }
    case SCollect(_, _, _, _) => if Accepts(s, step) { AcceptedItems(s, step, it); } else { RefusedApply(s, step); }
    case SSweep(expired) => SweepItems(s, expired, it); SweepKeepsIds(s, expired);
    case SReject(tenant, p) => RejectItems(s, tenant, p, it);
    case _ =>
  }

  /** The order whose statement inserts this line. */
  predicate Inserts(s: Fees, step: Step, it: LineItem) {
    && step.SItemise? && AtStage(s, step.k, Opened) && s.orders[step.k].payment == it.payment
    && Quote(it.row, it.amount) in s.orders[step.k].quotes
  }

  lemma {:induction false} SweepAddsNoItem(s: Fees, expired: seq<PaymentId>, it: LineItem)
    requires it in Sweep(s, expired).items
    ensures it in s.items
  {
    if expired == [] {
    } else {
      SweepAddsNoItem(s, expired[..|expired| - 1], it);
    }
  }

  lemma AcceptedNewItem(s: Fees, step: Step, it: LineItem)
    requires References(s) && Accepts(s, step) && it in Apply(s, true, step).items && it !in s.items
    ensures it.payment == |s.payments| && it.row < |s.ledger| && s.ledger[it.row].status.Payable()
  {
    AcceptedApply(s, step);
    HoldItems(s, true, Request(s, step), step.ids, Chosen(s, step), RequestNotes(s, step));
  }

  /** A new line item belongs to a new payment on a payable row, or to an order just itemised. */
  lemma NewItem(s: Fees, step: Step, it: LineItem)
    requires References(s) && it in Apply(s, true, step).items && it !in s.items
    ensures Inserts(s, step, it)
         || (it.payment == |s.payments| && it.row < |s.ledger| && s.ledger[it.row].status.Payable() && Accepts(s, step))
  {
    match step
    case SClaim(_, _, _) => if Accepts(s, step) { AcceptedNewItem(s, step, it); } else { RefusedApply(s, step); }
    case SCollect(_, _, _, _) => if Accepts(s, step) { AcceptedNewItem(s, step, it); } else { RefusedApply(s, step); }
    case SSweep(expired) => SweepAddsNoItem(s, expired, it);
    case SItemise(k) =>
      if AtStage(s, k, Opened) { LinesMembers(s.orders[k].tenant, s.orders[k].payment, s.orders[k].quotes); }
    case _ =>
  }
}
