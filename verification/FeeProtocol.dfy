/** The fee-money protocol as a state machine.

    Each `async with conn.transaction()` body is one step. `create_payment_order` runs
    outside a transaction, so it is four steps that anything may come between. `guard`
    says whether migration 032's UNIQUE (tenant_id, ledger_id) is in force. */
module FeeProtocol {
  import opened Schema
  import opened Statements

  const GRACE_DAYS := 5

  /** How far one run of create_payment_order has come. */
  datatype OrderStage = Quoted | Opened | Itemised | Linked | Aborted

  /** `payment` means something from `Opened` on. */
  datatype Order = Order(
    tenant: TenantId, student: StudentId, gateway: Gateway, quotes: seq<Quote>,
    stage: OrderStage, payment: PaymentId)

  /** The shared tables. `bin` and `itemised` are history, not tables: every line item
      ever deleted, and the payments whose line items have been inserted. */
  datatype Fees = Fees(
    ledger: seq<LedgerRow>, payments: seq<Payment>, items: seq<LineItem>,
    counters: map<TenantId, nat>, orders: seq<Order>, log: seq<Event>,
    bin: seq<LineItem>, itemised: set<PaymentId>)

  const EMPTY := Fees([], [], [], map[], [], [], [], {})

  datatype Outcome =
    | Done(payment: PaymentId) | Applied | Ignored
    | NothingSelected | NotPayable | AlreadyHeld | NotAwaitingVerification
    | BadMethod | NoReason | UniqueViolation

  const METHODS := ["cash", "cheque", "upi", "bank_transfer", "card"]

  predicate Blank(text: string) { forall c :: c in text ==> c in " \t\n\r" }

  // ---- Pieces the transactions share ----

  function StatusIn(payments: seq<Payment>, p: PaymentId, statuses: set<PaymentStatus>): bool {
    p < |payments| && payments[p].status in statuses
  }

  const LIVE := {PendingVerification, Processing, Paid}
  const DEAD := {Rejected, Failed, Refunded, Initiated}

  /** The double-claim test: a live payment holds one of the rows. */
  predicate HeldLiveIn(items: seq<LineItem>, payments: seq<Payment>, tenant: TenantId, ids: seq<LedgerId>) {
    exists it :: it in items && it.tenant == tenant && it.row in ids && StatusIn(payments, it.payment, LIVE)
  }

  predicate HeldLive(s: Fees, tenant: TenantId, ids: seq<LedgerId>) { HeldLiveIn(s.items, s.payments, tenant, ids) }

  /** The line items a claim or a collection supersedes. */
  function DeadItemsOn(s: Fees, tenant: TenantId, ids: seq<LedgerId>): set<LineItem> {
    set it | it in s.items && it.tenant == tenant && it.row in ids && StatusIn(s.payments, it.payment, DEAD)
  }

  function ItemsOf(items: seq<LineItem>, p: PaymentId): set<LineItem> {
    set it | it in items && it.payment == p
  }

  function LastNumber(counters: map<TenantId, nat>, tenant: TenantId): nat {
    if tenant in counters then counters[tenant] else 0
  }

  function Delete(s: Fees, doomed: set<LineItem>): Fees {
    s.(items := Without(s.items, doomed), bin := s.bin + Only(s.items, doomed))
  }

  /** Rejections and timeouts carry no amount. */
  function NotedAmount(kind: EventType, pay: Payment): Paise {
    if kind.PaymentRejected? || kind.PaymentTimeout? then 0 else pay.amount
  }

  function PaymentNote(kind: EventType, p: PaymentId, pay: Payment): Event {
    Event(pay.tenant, kind, p, pay.student, NotedAmount(kind, pay), if pay.receipt.Some? then pay.receipt.value else 0)
  }

  /** Insert a payment that holds the quoted rows, superseding dead items on them. */
  function Hold(s: Fees, guard: bool, pay: Payment, ids: seq<LedgerId>, quotes: seq<Quote>,
                notes: seq<Event>): Option<Fees> {
    var p := |s.payments|;
    var t := Delete(s, DeadItemsOn(s, pay.tenant, ids));
    match Insert(t.items, Lines(pay.tenant, p, quotes), guard)
    case None => None
    case Some(items) =>
      Some(t.(payments := s.payments + [pay], items := items, itemised := s.itemised + {p}, log := s.log + notes))
  }

  /** Every ledger row with a line item of `p` becomes paid by `p`. */
  function Settle(ledger: seq<LedgerRow>, items: seq<LineItem>, p: PaymentId): seq<LedgerRow> {
    seq(|ledger|, l requires 0 <= l < |ledger| =>
      if exists it :: it in items && it.payment == p && it.row == l
      then ledger[l].(status := Settled, payment := Some(p)) else ledger[l])
  }

  /** Next receipt number, payment paid, its rows paid, FEE_PAID emitted. */
  function Pay(s: Fees, p: PaymentId): Fees
    requires p < |s.payments|
  {
    var n := LastNumber(s.counters, s.payments[p].tenant) + 1;
    var paid := s.payments[p].(status := Paid, receipt := Some(n));
    s.(counters := s.counters[paid.tenant := n],
       payments := s.payments[p := paid],
       ledger := Settle(s.ledger, s.items, p),
       log := s.log + [PaymentNote(FeePaid, p, paid)])
  }

  /** A payment fails for good: its status changes, its line items go, an event says so. */
  function Kill(s: Fees, p: PaymentId, status: PaymentStatus, kind: EventType, doomed: set<LineItem>): Fees
    requires p < |s.payments|
  {
    var dead := s.payments[p].(status := status);
    Delete(s, doomed).(payments := s.payments[p := dead], log := s.log + [PaymentNote(kind, p, dead)])
  }

  // ---- The transactions ----

  /** parent_payment.submit_claim */
  function SubmitClaim(s: Fees, guard: bool, tenant: TenantId, student: StudentId,
                       ids: seq<LedgerId>): (Fees, Outcome) {
    var quotes := Select(s.ledger, tenant, student, ids);
    if ids == [] then (s, NothingSelected)
    else if |quotes| != |ids| then (s, NotPayable)
    else if HeldLive(s, tenant, ids) then (s, AlreadyHeld)
    else
      var p := |s.payments|;
      var pay := Payment(tenant, student, Upi, QuoteSum(quotes), PendingVerification, None, None, None);
      match Hold(s, guard, pay, ids, quotes, [PaymentNote(PaymentClaimed, p, pay)])
      case None => (s, UniqueViolation)
      case Some(t) => (t, Done(p))
  }

  /** fee_collection.record_offline_payment: hold the rows, then pay at once. */
  function Collect(s: Fees, guard: bool, tenant: TenantId, student: StudentId, ids: seq<LedgerId>,
                   how: string): (Fees, Outcome) {
    var quotes := Select(s.ledger, tenant, student, ids);
    if how !in METHODS then (s, BadMethod)
    else if ids == [] then (s, NothingSelected)
    else if |quotes| != |ids| then (s, NotPayable)
    else if HeldLive(s, tenant, ids) then (s, AlreadyHeld)
    else
      var p := |s.payments|;
      var pay := Payment(tenant, student, Offline, QuoteSum(quotes), PendingVerification, None, None, None);
      match Hold(s, guard, pay, ids, quotes, [])
      case None => (s, UniqueViolation)
      case Some(t) => (Pay(t, p), Done(p))
  }

  predicate Awaiting(s: Fees, tenant: TenantId, p: PaymentId) {
    p < |s.payments| && s.payments[p].tenant == tenant && s.payments[p].status.PendingVerification?
  }

  /** parent_payment.approve */
  function Approve(s: Fees, tenant: TenantId, p: PaymentId): (Fees, Outcome) {
    if Awaiting(s, tenant, p) then (Pay(s, p), Done(p)) else (s, NotAwaitingVerification)
  }

  /** parent_payment.reject */
  function Reject(s: Fees, tenant: TenantId, p: PaymentId): (Fees, Outcome) {
    if Awaiting(s, tenant, p)
    then (Kill(s, p, Rejected, PaymentRejected, set it | it in s.items && it.tenant == tenant && it.payment == p),
          Done(p))
    else (s, NotAwaitingVerification)
  }

  /** fee_collection.waive_fees */
  function Waive(s: Fees, tenant: TenantId, student: StudentId, ids: seq<LedgerId>, reason: string): (Fees, Outcome) {
    var quotes := Select(s.ledger, tenant, student, ids);
    if Blank(reason) then (s, NoReason)
    else if ids == [] then (s, NothingSelected)
    else if |quotes| != |ids| then (s, NotPayable)
    else if HeldLive(s, tenant, ids) then (s, AlreadyHeld)
    else (s.(ledger := WaiveRows(s.ledger, tenant, student, ids),
             log := s.log + [Event(tenant, Unlisted("FEE_WAIVED"), 0, student, QuoteSum(quotes), 0)]), Applied)
  }

  function WaiveRows(ledger: seq<LedgerRow>, tenant: TenantId, student: StudentId, ids: seq<LedgerId>): seq<LedgerRow> {
    seq(|ledger|, l requires 0 <= l < |ledger| =>
      if ledger[l].tenant == tenant && ledger[l].student == student && l in ids
      then ledger[l].(status := Waived) else ledger[l])
  }

  /** payment._mark_payment_success. `pick` is the payment the order-id lookup returned;
      there is no UNIQUE on gateway_order_id, so it is any payment with that order id. */
  function Webhook(s: Fees, order: nat, gatewayPayment: nat, pick: PaymentId): (Fees, Outcome) {
    if pick >= |s.payments| || s.payments[pick].orderId != Some(order) then (s, Ignored)
    else if s.payments[pick].status.Paid? then (s, Done(pick))
    else if !s.payments[pick].status.Initiated? && !s.payments[pick].status.Processing? then (s, Ignored)
    else if exists q :: 0 <= q < |s.payments| && q != pick && s.payments[q].gatewayPaymentId == Some(gatewayPayment)
    then (s, Ignored)
    else (Pay(s.(payments := s.payments[pick := s.payments[pick].(gatewayPaymentId := Some(gatewayPayment))]), pick),
          Done(pick))
  }

  /** scheduler.gateway_payment_sweep: `expired` lists the payments past the time limit, in
      the order the UPDATE returns them. */
  function Sweep(s: Fees, expired: seq<PaymentId>): Fees {
    if expired == [] then s else
      var t := Sweep(s, expired[..|expired| - 1]);
      var p := expired[|expired| - 1];
      if StatusIn(t.payments, p, {Initiated, Processing})
      then Kill(t, p, Failed, PaymentTimeout, ItemsOf(t.items, p)) else t
  }

  /** scheduler.fee_lifecycle_advance, its two UPDATEs, on one row. */
  function AdvanceRow(row: LedgerRow, today: int): LedgerRow {
    var r := if row.status.Pending? && row.dueDate.Some?
               && row.dueDate.value <= today && row.dueDate.value > today - GRACE_DAYS
             then row.(status := Due) else row;
    if (r.status.Pending? || r.status.Due?) && r.dueDate.Some? && r.dueDate.value <= today - GRACE_DAYS
    then r.(status := Overdue) else r
  }

  function Advance(ledger: seq<LedgerRow>, today: int): seq<LedgerRow> {
    seq(|ledger|, l requires 0 <= l < |ledger| => AdvanceRow(ledger[l], today))
  }

  /** finance.set_student_discounts, its UPDATE: unpaid rows of the student get new amounts. */
  function Reprice(ledger: seq<LedgerRow>, tenant: TenantId, student: StudentId,
                   prices: map<LedgerId, Paise>): seq<LedgerRow> {
    seq(|ledger|, l requires 0 <= l < |ledger| =>
      if l in prices && Matches(ledger[l], tenant, student) then ledger[l].(amountDue := prices[l]) else ledger[l])
  }

  // ---- create_payment_order, statement by statement ----

  /** Read and validate the ledger rows. No live-payment check is made. */
  function QuoteOrder(s: Fees, tenant: TenantId, student: StudentId, gateway: Gateway, ids: seq<LedgerId>): Fees {
    var quotes := Select(s.ledger, tenant, student, ids);
    if !gateway.Online() || ids == [] || |quotes| != |ids| then s
    else s.(orders := s.orders + [Order(tenant, student, gateway, quotes, Quoted, 0)])
  }

  predicate AtStage(s: Fees, k: nat, stage: OrderStage) { k < |s.orders| && s.orders[k].stage == stage }

  /** INSERT INTO fee_payments. */
  function OpenOrder(s: Fees, k: nat): Fees {
    if !AtStage(s, k, Quoted) then s else
      var o := s.orders[k];
      s.(payments := s.payments + [Payment(o.tenant, o.student, o.gateway, QuoteSum(o.quotes), Initiated, None, None,
                                           None)],
         orders := s.orders[k := o.(stage := Opened, payment := |s.payments|)])
  }

  /** INSERT INTO fee_payment_items; a unique violation ends the request. */
  function ItemiseOrder(s: Fees, guard: bool, k: nat): Fees {
    if !AtStage(s, k, Opened) then s else
      var o := s.orders[k];
      match Insert(s.items, Lines(o.tenant, o.payment, o.quotes), guard)
      case None => s.(orders := s.orders[k := o.(stage := Aborted)])
      case Some(items) =>
        s.(items := items, itemised := s.itemised + {o.payment}, orders := s.orders[k := o.(stage := Itemised)])
  }

  /** UPDATE fee_payments SET gateway_order_id, once the gateway has answered. */
  function LinkOrder(s: Fees, k: nat, order: nat): Fees {
    if !AtStage(s, k, Itemised) || s.orders[k].payment >= |s.payments| then s else
      var o := s.orders[k];
      s.(payments := s.payments[o.payment := s.payments[o.payment].(orderId := Some(order))],
         orders := s.orders[k := o.(stage := Linked)])
  }

  // ---- Runs ----

  datatype Step =
    | SClaim(tenant: TenantId, student: StudentId, ids: seq<LedgerId>)
    | SCollect(tenant: TenantId, student: StudentId, ids: seq<LedgerId>, how: string)
    | SApprove(tenant: TenantId, payment: PaymentId)
    | SReject(tenant: TenantId, payment: PaymentId)
    | SWaive(tenant: TenantId, student: StudentId, ids: seq<LedgerId>, reason: string)
    | SWebhook(order: nat, gatewayPayment: nat, pick: PaymentId)
    | SSweep(expired: seq<PaymentId>)
    | SAdvance(today: int)
    | SReprice(tenant: TenantId, student: StudentId, prices: map<LedgerId, Paise>)
    | SQuote(tenant: TenantId, student: StudentId, gateway: Gateway, ids: seq<LedgerId>)
    | SOpen(k: nat)
    | SItemise(k: nat)
    | SLink(k: nat, order: nat)
    /** a ledger row inserted by a generator, a levy or the year rollover */
    | SBill(row: LedgerRow)
    /** any other event appended to the log */
    | SEmit(event: Event)

  predicate OrderStep(step: Step) { step.SQuote? || step.SOpen? || step.SItemise? || step.SLink? }

  function Apply(s: Fees, guard: bool, step: Step): Fees {
    match step
    case SClaim(tenant, student, ids) => SubmitClaim(s, guard, tenant, student, ids).0
    case SCollect(tenant, student, ids, how) => Collect(s, guard, tenant, student, ids, how).0
    case SApprove(tenant, p) => Approve(s, tenant, p).0
    case SReject(tenant, p) => Reject(s, tenant, p).0
    case SWaive(tenant, student, ids, reason) => Waive(s, tenant, student, ids, reason).0
    case SWebhook(order, gatewayPayment, pick) => Webhook(s, order, gatewayPayment, pick).0
    case SSweep(expired) => Sweep(s, expired)
    case SAdvance(today) => s.(ledger := Advance(s.ledger, today))
    case SReprice(tenant, student, prices) => s.(ledger := Reprice(s.ledger, tenant, student, prices))
    case SQuote(tenant, student, gateway, ids) => QuoteOrder(s, tenant, student, gateway, ids)
    case SOpen(k) => OpenOrder(s, k)
    case SItemise(k) => ItemiseOrder(s, guard, k)
    case SLink(k, order) => LinkOrder(s, k, order)
    case SBill(row) => if row.status.Pending? && row.payment.None? then s.(ledger := s.ledger + [row]) else s
    case SEmit(event) => if event.kind.PaymentEvent() then s else s.(log := s.log + [event])
  }

  /** The checks a claim or a desk collection makes before it writes anything. */
  predicate Accepts(s: Fees, step: Step) {
    && (step.SClaim? || (step.SCollect? && step.how in METHODS))
    && step.ids != [] && |Select(s.ledger, step.tenant, step.student, step.ids)| == |step.ids|
    && !HeldLive(s, step.tenant, step.ids)
  }

  function Run(s: Fees, guard: bool, steps: seq<Step>): Fees {
    if steps == [] then s else
      Apply(Run(s, guard, steps[..|steps| - 1]), guard, steps[|steps| - 1])
  }
}
