/** Runs that show what the protocol does not promise. */
module FeeExamples {
  import opened Schema
  import opened Statements
  import opened FeeProtocol
  import opened FeeRuns

  /** The tables right after create_payment_order inserted its payment, when all there is
      is one payable row of positive amount. */
  predicate Fresh(row: LedgerRow) { row.status.Pending? && row.payment.None? && row.amountDue > 0 }

  function QuoteOf(row: LedgerRow): Quote { Quote(0, row.amountDue) }

  function OrderOf(row: LedgerRow, stage: OrderStage): Order {
    Order(row.tenant, row.student, Mock, [QuoteOf(row)], stage, 0)
  }

  function PendingOf(row: LedgerRow, order: Option<nat>): Payment {
    Payment(row.tenant, row.student, Mock, row.amountDue, Initiated, order, None, None)
  }

  function LineOf(row: LedgerRow, p: PaymentId): LineItem { LineItem(row.tenant, p, 0, row.amountDue) }

  function Billed(row: LedgerRow): Fees { Fees([row], [], [], map[], [], [], [], {}) }

  function Opened(row: LedgerRow): Fees {
    Billed(row).(payments := [PendingOf(row, None)], orders := [OrderOf(row, OrderStage.Opened)])
  }

  function Linked(row: LedgerRow, order: nat): Fees {
    Billed(row).(payments := [PendingOf(row, Some(order))], items := [LineOf(row, 0)],
                 orders := [OrderOf(row, OrderStage.Linked)], itemised := {0})
  }

  lemma SelectRow(row: LedgerRow)
    requires Fresh(row)
    ensures Select([row], row.tenant, row.student, [0]) == [QuoteOf(row)] && QuoteSum([QuoteOf(row)]) == row.amountDue
  {
  }

  lemma InsertOne(items: seq<LineItem>, row: LedgerRow, p: PaymentId, guard: bool)
    requires !Clashes(items, LineOf(row, p), guard)
    ensures Insert(items, Lines(row.tenant, p, [QuoteOf(row)]), guard) == Some(items + [LineOf(row, p)])
  {
  }

  lemma Quoting(row: LedgerRow, guard: bool)
    requires Fresh(row)
    ensures Reaches(Billed(row), guard, Billed(row).(orders := [OrderOf(row, Quoted)]))
  {
    assert Yields(Billed(row), guard, [], Billed(row));
    SelectRow(row);
    ReachStep(Billed(row), guard, Billed(row), SQuote(row.tenant, row.student, Mock, [0]));
    assert QuoteOrder(Billed(row), row.tenant, row.student, Mock, [0])
        == Billed(row).(orders := [OrderOf(row, Quoted)]);
  }

  lemma Opening(row: LedgerRow, guard: bool)
    requires Fresh(row)
    ensures Reaches(Billed(row), guard, Opened(row))
  {
    var quoted := Billed(row).(orders := [OrderOf(row, Quoted)]);
    Quoting(row, guard);
    SelectRow(row);
    ReachStep(Billed(row), guard, quoted, SOpen(0));
    assert OpenOrder(quoted, 0) == Opened(row);
  }

  lemma Itemising(row: LedgerRow)
    requires Fresh(row)
    ensures ItemiseOrder(Opened(row), true, 0) == Filled(row)
  {
    InsertOne([], row, 0, true);
  }

  function Filled(row: LedgerRow): Fees {
    Opened(row).(items := [LineOf(row, 0)], itemised := {0}, orders := [OrderOf(row, Itemised)])
  }

  lemma Filling(row: LedgerRow)
    requires Fresh(row)
    ensures Reaches(Billed(row), true, Filled(row))
  {
    Opening(row, true);
    Itemising(row);
    ReachStep(Billed(row), true, Opened(row), SItemise(0));
  }

  lemma Linking(row: LedgerRow, order: nat)
    requires Fresh(row)
    ensures Reaches(Billed(row), true, Linked(row, order))
  {
    Filling(row);
    assert LinkOrder(Filled(row), 0, order) == Linked(row, order);
    ReachStep(Billed(row), true, Filled(row), SLink(0, order));
  }

  lemma DeskSupersedes(row: LedgerRow, order: nat)
    requires Fresh(row)
    ensures var b := Collect(Linked(row, order), true, row.tenant, row.student, [0], METHODS[0]).0;
            |b.payments| == 2 && b.payments[0] == PendingOf(row, Some(order)) && b.payments[1].status.Paid?
            && b.payments[1].gatewayPaymentId.None? && b.items == [LineOf(row, 1)]
  {
    var a := Linked(row, order);
    var doomed := DeadItemsOn(a, row.tenant, [0]);
    assert a.items[0] in doomed && a.items[..0] == [];
    assert Without(a.items, doomed) == [];
    var pay := Payment(row.tenant, row.student, Offline, row.amountDue, PendingVerification, None, None, None);
    SelectRow(row);
    InsertOne([], row, 1, true);
    assert !HeldLive(a, row.tenant, [0]);
    var held := Hold(a, true, pay, [0], [QuoteOf(row)], []);
    assert held.value.items == [LineOf(row, 1)] && held.value.payments == a.payments + [pay];
    assert Collect(a, true, row.tenant, row.student, [0], METHODS[0]).0 == Pay(held.value, 1);
  }

  lemma LateWebhook(b: Fees, row: LedgerRow, order: nat, gatewayPayment: nat)
    requires |b.payments| == 2 && b.payments[0] == PendingOf(row, Some(order)) && b.payments[1].gatewayPaymentId.None?
    ensures var s := Webhook(b, order, gatewayPayment, 0).0;
            s.items == b.items && |s.payments| == 2 && s.payments[1] == b.payments[1]
            && s.payments[0].status.Paid? && s.payments[0].amount == row.amountDue
  {
  }

  /** The desk has taken the row from the order, which is still pending. */
  predicate TakenAtDesk(row: LedgerRow, order: nat, b: Fees) {
    && |b.payments| == 2 && b.payments[0] == PendingOf(row, Some(order)) && b.payments[1].status.Paid?
    && b.payments[1].gatewayPaymentId.None? && b.items == [LineOf(row, 1)]
  }

  lemma ReachTakenAtDesk(row: LedgerRow, order: nat)
    requires Fresh(row)
    ensures exists b :: Reaches(Billed(row), true, b) && TakenAtDesk(row, order, b)
  {
    Linking(row, order);
    DeskSupersedes(row, order);
    ReachStep(Billed(row), true, Linked(row, order), SCollect(row.tenant, row.student, [0], METHODS[0]));
  }

  /** Whatever the row and the order, a state can be reached in which the parent has paid
      twice: the order was linked, its row was then collected at the desk, and the webhook
      still came. The gateway payment is paid with no line item left, which
      money_reconciliation flags, guard or no guard. */
  lemma DeskAndGatewayBothPaid(row: LedgerRow, order: nat, gatewayPayment: nat)
    requires Fresh(row)
    ensures exists s :: Reaches(Billed(row), true, s) && |s.payments| == 2
              && s.payments[0].status.Paid? && s.payments[1].status.Paid?
              && ItemSum(s.items, 0) == 0 && 0 in AmountMismatch(s)
  {
    ReachTakenAtDesk(row, order);
    var b :| Reaches(Billed(row), true, b) && TakenAtDesk(row, order, b);
    LateWebhook(b, row, order, gatewayPayment);
    ReachStep(Billed(row), true, b, SWebhook(order, gatewayPayment, 0));
    NoItemsNoSum([LineOf(row, 1)], 0);
  }

  /** The order is pending but has lost its only line to a payment that keeps none, and the
      row is unpaid. */
  predicate Orphaned(row: LedgerRow, order: nat, b: Fees) {
    && |b.ledger| == 1 && b.ledger[0].status.Payable() && b.items == []
    && |b.payments| == 2 && b.payments[0] == PendingOf(row, Some(order)) && b.payments[1].gatewayPaymentId.None?
  }

  lemma ClaimSupersedes(row: LedgerRow, order: nat)
    requires Fresh(row)
    ensures var b := SubmitClaim(Linked(row, order), true, row.tenant, row.student, [0]).0;
            && b.ledger == [row] && b.items == [LineOf(row, 1)] && |b.payments| == 2
            && b.payments[0] == PendingOf(row, Some(order)) && Awaiting(b, row.tenant, 1)
            && b.payments[1].gatewayPaymentId.None?
  {
    var a := Linked(row, order);
    var doomed := DeadItemsOn(a, row.tenant, [0]);
    assert a.items[0] in doomed && a.items[..0] == [];
    assert Without(a.items, doomed) == [];
    SelectRow(row);
    InsertOne([], row, 1, true);
    assert !HeldLive(a, row.tenant, [0]);
  }

  lemma RejectOrphans(row: LedgerRow, order: nat, b: Fees)
    requires b.ledger == [row] && Fresh(row) && b.items == [LineOf(row, 1)] && |b.payments| == 2
    requires b.payments[0] == PendingOf(row, Some(order)) && Awaiting(b, row.tenant, 1)
        && b.payments[1].gatewayPaymentId.None?
    ensures Orphaned(row, order, Apply(b, true, SReject(row.tenant, 1)))
  {
    var doomed := set it | it in b.items && it.tenant == row.tenant && it.payment == 1;
    assert b.items[0] in doomed && b.items[..0] == [];
    assert Without(b.items, doomed) == [];
  }

  lemma ReachOrphaned(row: LedgerRow, order: nat)
    requires Fresh(row)
    ensures exists b :: Reaches(Billed(row), true, b) && Orphaned(row, order, b)
  {
    Linking(row, order);
    ClaimSupersedes(row, order);
    ReachStep(Billed(row), true, Linked(row, order), SClaim(row.tenant, row.student, [0]));
    var b := SubmitClaim(Linked(row, order), true, row.tenant, row.student, [0]).0;
    RejectOrphans(row, order, b);
    ReachStep(Billed(row), true, b, SReject(row.tenant, 1));
  }

  lemma OrphanGetsPaid(row: LedgerRow, order: nat, gatewayPayment: nat, b: Fees)
    requires Orphaned(row, order, b)
    ensures var s := Webhook(b, order, gatewayPayment, 0).0;
            |s.payments| == 2 && s.payments[0].status.Paid? && s.items == [] && s.ledger == b.ledger
  {
  }

  /** Whatever the row and the order, a state can be reached in which the order is paid and
      its row is still owed: a claim took the row, was rejected, and the webhook still came. */
  lemma PaidButStillOwed(row: LedgerRow, order: nat, gatewayPayment: nat)
    requires Fresh(row)
    ensures exists s :: Reaches(Billed(row), true, s) && |s.payments| == 2 && |s.ledger| == 1
              && s.payments[0].status.Paid? && s.items == [] && s.ledger[0].status.Payable()
  {
    ReachOrphaned(row, order);
    var b :| Reaches(Billed(row), true, b) && Orphaned(row, order, b);
    OrphanGetsPaid(row, order, gatewayPayment, b);
    ReachStep(Billed(row), true, b, SWebhook(order, gatewayPayment, 0));
  }

  /** All there is is a row charging `price` and a claim of it for what it charged before. */
  predicate ClaimedAt(row: LedgerRow, price: Paise, b: Fees) {
    && b.ledger == [row.(amountDue := price)] && b.items == [LineOf(row, 0)] && |b.payments| == 1
    && Awaiting(b, row.tenant, 0)
  }

  lemma ClaimBilled(row: LedgerRow)
    requires Fresh(row)
    ensures ClaimedAt(row, row.amountDue, SubmitClaim(Billed(row), true, row.tenant, row.student, [0]).0)
  {
    SelectRow(row);
    InsertOne([], row, 0, true);
    assert Without([], DeadItemsOn(Billed(row), row.tenant, [0])) == [];
    assert !HeldLive(Billed(row), row.tenant, [0]);
    assert row.(amountDue := row.amountDue) == row;
  }

  lemma RepriceClaimed(row: LedgerRow, price: Paise, b: Fees)
    requires Fresh(row) && ClaimedAt(row, row.amountDue, b)
    ensures ClaimedAt(row, price, Apply(b, true, SReprice(row.tenant, row.student, map[0 := price])))
  {
    assert b.ledger[0] == row;
  }

  lemma ReachClaimedAt(row: LedgerRow)
    requires Fresh(row)
    ensures exists a :: Reaches(Billed(row), true, a) && ClaimedAt(row, row.amountDue, a)
  {
    assert Yields(Billed(row), true, [], Billed(row));
    ReachStep(Billed(row), true, Billed(row), SClaim(row.tenant, row.student, [0]));
    ClaimBilled(row);
  }

  lemma ReachRepriced(row: LedgerRow, price: Paise)
    requires Fresh(row)
    ensures exists b :: Reaches(Billed(row), true, b) && ClaimedAt(row, price, b)
  {
    ReachClaimedAt(row);
    var a :| Reaches(Billed(row), true, a) && ClaimedAt(row, row.amountDue, a);
    RepriceClaimed(row, price, a);
    ReachStep(Billed(row), true, a, SReprice(row.tenant, row.student, map[0 := price]));
  }

  lemma ApproveRepriced(row: LedgerRow, price: Paise, b: Fees)
    requires ClaimedAt(row, price, b)
    ensures var s := Approve(b, row.tenant, 0).0;
            && |s.ledger| == 1 && s.ledger[0].status.Settled? && s.ledger[0].amountDue == price
            && s.items == [LineOf(row, 0)]
  {
    assert b.items[0] in b.items;
  }

  /** Whatever the row and the price, a state can be reached in which the row is settled and
      charges that price, although its line item was paid for what it charged before: the
      student's discounts were changed between claim and approval. */
  lemma SettledAtAnotherPrice(row: LedgerRow, price: Paise)
    requires Fresh(row)
    ensures exists s :: Reaches(Billed(row), true, s) && |s.ledger| == 1 && s.ledger[0].status.Settled?
              && s.ledger[0].amountDue == price && s.items == [LineOf(row, 0)]
  {
    ReachRepriced(row, price);
    var b :| Reaches(Billed(row), true, b) && ClaimedAt(row, price, b);
    ApproveRepriced(row, price, b);
    ReachStep(Billed(row), true, b, SApprove(row.tenant, 0));
  }

  /** The row has been waived while its order stayed pending. */
  predicate WaivedUnderOrder(row: LedgerRow, order: nat, b: Fees) {
    |b.ledger| == 1 && b.ledger[0].status.Waived? && b.items == [LineOf(row, 0)]
        && b.payments == [PendingOf(row, Some(order))]
  }

  lemma WaiveLinked(row: LedgerRow, order: nat)
    requires Fresh(row)
    ensures WaivedUnderOrder(row, order, Apply(Linked(row, order), true, SWaive(row.tenant, row.student, [0], "x")))
  {
    SelectRow(row);
    var a := Linked(row, order);
    assert !HeldLive(a, row.tenant, [0]);
    assert "x"[0] in "x" && !Blank("x");
  }

  lemma ReachWaivedBy(row: LedgerRow, order: nat, a: Fees, step: Step)
    requires Reaches(Billed(row), true, a) && WaivedUnderOrder(row, order, Apply(a, true, step))
    ensures exists b :: Reaches(Billed(row), true, b) && WaivedUnderOrder(row, order, b)
  {
    ReachStep(Billed(row), true, a, step);
  }

  lemma ReachWaived(row: LedgerRow, order: nat)
    requires Fresh(row)
    ensures exists b :: Reaches(Billed(row), true, b) && WaivedUnderOrder(row, order, b)
  {
    Linking(row, order);
    WaiveLinked(row, order);
    ReachWaivedBy(row, order, Linked(row, order), SWaive(row.tenant, row.student, [0], "x"));
  }

  /** Waived is not the end: a row waived while an older order for it is pending is paid
      when that order's webhook arrives. */
  lemma WaivedRowGetsPaid(row: LedgerRow, order: nat, gatewayPayment: nat)
    requires Fresh(row)
    ensures exists b :: Reaches(Billed(row), true, b) && WaivedUnderOrder(row, order, b)
              && |Webhook(b, order, gatewayPayment, 0).0.ledger| == 1
              && Webhook(b, order, gatewayPayment, 0).0.ledger[0].status.Settled?
  {
    ReachWaived(row, order);
    var b :| Reaches(Billed(row), true, b) && WaivedUnderOrder(row, order, b);
    var pay := b.payments[0].(gatewayPaymentId := Some(gatewayPayment));
    assert Webhook(b, order, gatewayPayment, 0).0 == Pay(b.(payments := b.payments[0 := pay]), 0);
    assert b.items[0] in b.items;
  }

  lemma ClaimOpened(row: LedgerRow)
    requires Fresh(row)
    ensures var a := SubmitClaim(Opened(row), false, row.tenant, row.student, [0]).0;
            a.items == [LineOf(row, 1)] && a.orders == Opened(row).orders && |a.payments| == 2
            && a.payments[0] == PendingOf(row, None)
            && a.payments[1].status.PendingVerification? && a.payments[1].gatewayPaymentId.None?
  {
    SelectRow(row);
    InsertOne([], row, 1, false);
    assert Without([], DeadItemsOn(Opened(row), row.tenant, [0])) == [];
    assert !HeldLive(Opened(row), row.tenant, [0]);
  }

  lemma LateItem(a: Fees, row: LedgerRow, order: nat)
    requires a.items == [LineOf(row, 1)] && a.orders == Opened(row).orders && |a.payments| == 2
    requires a.payments[0] == PendingOf(row, None)
    ensures var b := LinkOrder(ItemiseOrder(a, false, 0), 0, order);
            b.items == [LineOf(row, 1), LineOf(row, 0)] && |b.payments| == 2 && b.payments[1] == a.payments[1]
            && b.payments[0] == PendingOf(row, Some(order))
  {
    InsertOne(a.items, row, 0, false);
  }

  /** The order that `a` left opened inserts its line items and gets its order id. */
  predicate LateOrder(row: LedgerRow, order: nat, b: Fees) {
    && b.items == [LineOf(row, 1), LineOf(row, 0)] && |b.payments| == 2
    && b.payments[0] == PendingOf(row, Some(order))
    && b.payments[1].status.PendingVerification? && b.payments[1].gatewayPaymentId.None?
  }

  lemma ReachItemised(s: Fees, a: Fees)
    requires Reaches(s, false, a)
    ensures Reaches(s, false, ItemiseOrder(a, false, 0))
  {
    ReachStep(s, false, a, SItemise(0));
  }

  lemma ReachLate(s: Fees, a: Fees, order: nat)
    requires Reaches(s, false, a)
    ensures Reaches(s, false, LinkOrder(a, 0, order))
  {
    ReachStep(s, false, a, SLink(0, order));
  }

  lemma ReachClaimed(row: LedgerRow)
    requires Fresh(row)
    ensures Reaches(Billed(row), false, SubmitClaim(Opened(row), false, row.tenant, row.student, [0]).0)
  {
    Opening(row, false);
    ReachStep(Billed(row), false, Opened(row), SClaim(row.tenant, row.student, [0]));
  }

  lemma BothItems(row: LedgerRow, order: nat)
    requires Fresh(row)
    ensures exists b :: Reaches(Billed(row), false, b) && LateOrder(row, order, b)
  {
    ReachClaimed(row);
    ClaimOpened(row);
    var a := SubmitClaim(Opened(row), false, row.tenant, row.student, [0]).0;
    LateItem(a, row, order);
    ReachItemised(Billed(row), a);
    ReachLate(Billed(row), ItemiseOrder(a, false, 0), order);
  }

  /** Without migration 032's constraint a row can end up held by two live payments, one
      of them paid: a claim arrives between an order's payment and its line items. */
  lemma GuardNeeded(row: LedgerRow, order: nat, gatewayPayment: nat)
    requires Fresh(row)
    ensures exists s :: Reaches(Billed(row), false, s)
              && StatusIn(s.payments, 0, {Paid}) && StatusIn(s.payments, 1, {PendingVerification})
              && CountOn(s.items, 0, With(s, LIVE)) == 2
  {
    BothItems(row, order);
    var b :| Reaches(Billed(row), false, b) && LateOrder(row, order, b);
    LateWebhook(b, row, order, gatewayPayment);
    ReachStep(Billed(row), false, b, SWebhook(order, gatewayPayment, 0));
    var s := Webhook(b, order, gatewayPayment, 0).0;
    TwoOn(LineOf(row, 1), LineOf(row, 0), With(s, LIVE));
  }

  lemma TwoOn(a: LineItem, b: LineItem, payments: set<PaymentId>)
    requires a.row == b.row && a.payment in payments && b.payment in payments
    ensures CountOn([a, b], a.row, payments) == 2
  {
    assert [a, b][..1] == [a];
    assert [a][..0] == [];
    assert CountOn([], a.row, payments) == 0;
    assert CountOn([a], a.row, payments) == 1;
  }
}
