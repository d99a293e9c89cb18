/** What every step of the fee protocol keeps. */
module FeeInvariants {
  import opened Schema
  import opened Statements
  import opened FeeProtocol

  // ---- The invariants ----

  // Each one is stated on the tables it is about, so a step that leaves those alone
  // keeps it without further ado.

  predicate ItemFits(ledger: seq<LedgerRow>, payments: seq<Payment>, it: LineItem) {
    && it.payment < |payments| && it.row < |ledger|
    && it.tenant == payments[it.payment].tenant == ledger[it.row].tenant
    && payments[it.payment].student == ledger[it.row].student
  }

  predicate ReferencesOf(ledger: seq<LedgerRow>, payments: seq<Payment>, items: seq<LineItem>, bin: seq<LineItem>) {
    && (forall it :: it in items ==> ItemFits(ledger, payments, it))
    && (forall it :: it in bin ==> it.payment < |payments|)
  }

  predicate QuotesFit(ledger: seq<LedgerRow>, o: Order) {
    && o.gateway.Online() && DistinctRows(o.quotes)
    && (forall q :: q in o.quotes ==>
          q.row < |ledger| && ledger[q.row].tenant == o.tenant && ledger[q.row].student == o.student)
  }

  predicate StageFits(payments: seq<Payment>, itemised: set<PaymentId>, o: Order) {
    !o.stage.Quoted? ==>
      && o.payment < |payments|
      && payments[o.payment].tenant == o.tenant && payments[o.payment].student == o.student
      && payments[o.payment].gateway == o.gateway && payments[o.payment].amount == QuoteSum(o.quotes)
      && (o.stage.Opened? || o.stage.Aborted? ==> o.payment !in itemised)
      && (o.stage.Itemised? || o.stage.Linked? ==> o.payment in itemised)
  }

  predicate OrdersOf(ledger: seq<LedgerRow>, payments: seq<Payment>, itemised: set<PaymentId>, orders: seq<Order>) {
    && (forall k :: 0 <= k < |orders| ==> QuotesFit(ledger, orders[k]) && StageFits(payments, itemised, orders[k]))
    && (forall j, k :: 0 <= j < k < |orders| && !orders[j].stage.Quoted? && !orders[k].stage.Quoted? ==>
          orders[j].payment != orders[k].payment)
  }

  /** A ledger row is paid exactly when a line item on it belongs to a paid payment, and
      then its payment_id is that payment; a claimed row is still payable. */
  predicate SettlementOf(ledger: seq<LedgerRow>, payments: seq<Payment>, items: seq<LineItem>) {
    && (forall l :: 0 <= l < |ledger| ==>
          && (ledger[l].status.Settled? <==> ledger[l].payment.Some?)
          && (ledger[l].status.Settled? ==>
                exists it :: it in items && it.row == l && StatusIn(payments, it.payment, {Paid})))
    && (forall it :: it in items && it.row < |ledger| && StatusIn(payments, it.payment, {Paid}) ==>
          ledger[it.row].status.Settled? && ledger[it.row].payment == Some(it.payment))
    && (forall it :: it in items && it.row < |ledger| && StatusIn(payments, it.payment, {PendingVerification}) ==>
          ledger[it.row].status.Payable())
  }

  predicate PaymentOk(pay: Payment, itemised: bool) {
    && (if pay.gateway.Online() then pay.status in {Initiated, Paid, Failed}
        else pay.status in {PendingVerification, Paid, Rejected})
    && (pay.orderId.Some? ==> pay.gateway.Online())
    && (pay.orderId.Some? || pay.status in LIVE ==> itemised)
  }

  predicate PaymentsOf(payments: seq<Payment>, itemised: set<PaymentId>) {
    forall p :: 0 <= p < |payments| ==> PaymentOk(payments[p], p in itemised)
  }

  /** Every line item ever inserted is still there or in the bin, and together they add
      up to the amount of their payment. */
  predicate ConservedOf(payments: seq<Payment>, items: seq<LineItem>, bin: seq<LineItem>, itemised: set<PaymentId>) {
    && (forall p :: p in itemised ==> p < |payments|)
    && (forall p :: 0 <= p < |payments| ==>
          ItemSum(items, p) + ItemSum(bin, p) == if p in itemised then payments[p].amount else 0)
    && (forall it :: it in bin && it.payment < |payments| && !payments[it.payment].gateway.Online() ==>
          payments[it.payment].status.Rejected?)
  }

  predicate Issued(payments: seq<Payment>, p: PaymentId, tenant: TenantId, n: nat) {
    p < |payments| && payments[p].tenant == tenant && payments[p].receipt == Some(n)
  }

  predicate InUse(payments: seq<Payment>, tenant: TenantId, n: nat) {
    exists p :: 0 <= p < |payments| && Issued(payments, p, tenant, n)
  }

  /** Each tenant's receipt numbers on paid payments are 1..last_number, each used once. */
  ghost predicate ReceiptsOf(payments: seq<Payment>, counters: map<TenantId, nat>) {
    && (forall p :: 0 <= p < |payments| ==>
          && (payments[p].receipt.Some? <==> payments[p].status.Paid?)
          && (payments[p].receipt.Some? ==> 1 <= payments[p].receipt.value <= LastNumber(counters, payments[p].tenant)))
    && (forall p, q ::
          0 <= p < q < |payments| && payments[p].receipt.Some? && payments[p].tenant == payments[q].tenant ==>
            payments[p].receipt != payments[q].receipt)
    && (forall tenant, n :: 1 <= n <= LastNumber(counters, tenant) ==> InUse(payments, tenant, n))
  }

  /** How many events of a kind the log must hold about a payment. */
  function Expected(pay: Payment, kind: EventType): nat {
    if (kind.FeePaid? && pay.status.Paid?) || (kind.PaymentClaimed? && pay.gateway.Upi?)
       || (kind.PaymentRejected? && pay.status.Rejected?) || (kind.PaymentTimeout? && pay.status.Failed?)
    then 1 else 0
  }

  predicate NoteOk(payments: seq<Payment>, e: Event) {
    && e.subject < |payments|
    && e.tenant == payments[e.subject].tenant && e.student == payments[e.subject].student
    && e.amount == NotedAmount(e.kind, payments[e.subject])
    && (e.kind.FeePaid? ==> payments[e.subject].receipt == Some(e.receipt))
  }

  /** The log reports each change of a payment's status once, truthfully. */
  ghost predicate JournalOf(payments: seq<Payment>, log: seq<Event>) {
    && (forall e :: e in log && e.kind.PaymentEvent() ==> NoteOk(payments, e))
    && (forall p, kind: EventType :: 0 <= p < |payments| && kind.PaymentEvent() ==>
          CountEvents(log, kind, p) == Expected(payments[p], kind))
  }

  predicate ItemOk(s: Fees, it: LineItem) { ItemFits(s.ledger, s.payments, it) }
  predicate References(s: Fees) { ReferencesOf(s.ledger, s.payments, s.items, s.bin) }
  predicate OrdersOk(s: Fees) { OrdersOf(s.ledger, s.payments, s.itemised, s.orders) }
  predicate Settlement(s: Fees) { SettlementOf(s.ledger, s.payments, s.items) }
  predicate PaymentsOk(s: Fees) { PaymentsOf(s.payments, s.itemised) }
  predicate Conserved(s: Fees) { ConservedOf(s.payments, s.items, s.bin, s.itemised) }
  ghost predicate ReceiptsOk(s: Fees) { ReceiptsOf(s.payments, s.counters) }
  ghost predicate Journal(s: Fees) { JournalOf(s.payments, s.log) }

  ghost predicate Inv(s: Fees) {
    && References(s) && OneItemPerRow(s.items) && OrdersOk(s) && Settlement(s)
    && PaymentsOk(s) && Conserved(s) && ReceiptsOk(s) && Journal(s)
  }

  lemma Initially()
    ensures Inv(EMPTY)
  {
  }

  // ---- Log and receipts under a change of one payment ----

  lemma JournalAppend(s: Fees, t: Fees, e: Event, p: PaymentId)
    requires Journal(s) && p < |s.payments| && |t.payments| == |s.payments|
    requires t.log == s.log + [e] && e.kind.PaymentEvent() && e.subject == p && NoteOk(t.payments, e)
    requires t.payments == s.payments[p := t.payments[p]]
    requires s.payments[p].tenant == t.payments[p].tenant && s.payments[p].student == t.payments[p].student
    requires s.payments[p].amount == t.payments[p].amount
    requires s.payments[p].receipt.Some? ==> t.payments[p].receipt == s.payments[p].receipt
    requires forall kind: EventType :: kind.PaymentEvent() ==>
               Expected(t.payments[p], kind) == Expected(s.payments[p], kind) + if kind == e.kind then 1 else 0
    ensures Journal(t)
  {
  }

  lemma FreshUncounted(s: Fees, kind: EventType)
    requires Journal(s) && kind.PaymentEvent()
    ensures CountEvents(s.log, kind, |s.payments|) == 0
  {
    CountEventsPositive(s.log, kind, |s.payments|);
    forall i | 0 <= i < |s.log| && s.log[i].kind == kind ensures s.log[i].subject != |s.payments| {
      assert s.log[i] in s.log;
    }
  }

  /** Appending a payment whose events are exactly those appended with it. */
  lemma JournalGrow(s: Fees, t: Fees, pay: Payment, notes: seq<Event>)
    requires Journal(s) && t.payments == s.payments + [pay] && t.log == s.log + notes
    requires |notes| <= 1
    requires notes != [] ==> notes[0] == PaymentNote(PaymentClaimed, |s.payments|, pay)
    requires forall kind: EventType :: kind.PaymentEvent() ==>
               Expected(pay, kind) == if notes != [] && kind.PaymentClaimed? then 1 else 0
    ensures Journal(t)
  {
    var p := |s.payments|;
    forall q, kind: EventType | 0 <= q < |t.payments| && kind.PaymentEvent()
      ensures CountEvents(t.log, kind, q) == Expected(t.payments[q], kind)
    {
      if notes == [] {
        assert t.log == s.log;
      } else {
        assert notes == [notes[0]];
        CountEventsSnoc(s.log, notes[0], kind, q);
      }
      FreshUncounted(s, kind);
      if q < p {
        assert CountEvents(s.log, kind, q) == Expected(s.payments[q], kind);
      }
    }
    forall e | e in t.log && e.kind.PaymentEvent() ensures NoteOk(t.payments, e) {
      if e in s.log { assert NoteOk(s.payments, e); } else { assert e == notes[0]; }
    }
  }

  lemma ReceiptsFramed(s: Fees, t: Fees)
    requires ReceiptsOk(s) && t.counters == s.counters && |s.payments| <= |t.payments|
    requires forall p :: 0 <= p < |s.payments| ==>
               && t.payments[p].receipt == s.payments[p].receipt && t.payments[p].tenant == s.payments[p].tenant
               && (t.payments[p].status.Paid? <==> s.payments[p].status.Paid?)
    requires forall p :: |s.payments| <= p < |t.payments| ==> t.payments[p].receipt.None? && !t.payments[p].status.Paid?
    ensures ReceiptsOk(t)
  {
    forall tenant, n | 1 <= n <= LastNumber(t.counters, tenant) ensures InUse(t.payments, tenant, n) {
      assert InUse(s.payments, tenant, n);
      var p :| 0 <= p < |s.payments| && Issued(s.payments, p, tenant, n);
      assert Issued(t.payments, p, tenant, n);
    }
  }

  /** Tenants, students, gateways and amounts never change. */
  predicate Stable(s: Fees, t: Fees) {
    && |s.ledger| <= |t.ledger| && |s.payments| <= |t.payments|
    && (forall l :: 0 <= l < |s.ledger| ==>
          t.ledger[l].tenant == s.ledger[l].tenant && t.ledger[l].student == s.ledger[l].student)
    && (forall p :: 0 <= p < |s.payments| ==>
          && t.payments[p].tenant == s.payments[p].tenant && t.payments[p].student == s.payments[p].student
          && t.payments[p].gateway == s.payments[p].gateway && t.payments[p].amount == s.payments[p].amount)
  }

  /** Orders stay sound when payments are appended, paid or failed. */
  lemma OrdersFramed(s: Fees, t: Fees)
    requires OrdersOk(s) && Stable(s, t) && t.orders == s.orders
    requires forall p :: p < |s.payments| ==> (p in t.itemised <==> p in s.itemised)
    ensures OrdersOk(t)
  {
  }

  // ---- Deleting line items ----

  lemma DeleteSums(s: Fees, doomed: set<LineItem>, p: PaymentId)
    ensures var t := Delete(s, doomed);
            ItemSum(t.items, p) + ItemSum(t.bin, p) == ItemSum(s.items, p) + ItemSum(s.bin, p)
  {
    DeleteConserves(s.items, doomed, p);
    ItemSumConcat(s.bin, Only(s.items, doomed), p);
  }

  // ---- Holding rows: claims and the first half of a desk collection ----

  predicate CanHold(s: Fees, pay: Payment, ids: seq<LedgerId>, quotes: seq<Quote>) {
    && quotes == Select(s.ledger, pay.tenant, pay.student, ids)
    && !HeldLive(s, pay.tenant, ids)
    && !pay.gateway.Online() && pay.amount == QuoteSum(quotes) && pay.status.PendingVerification?
    && pay.orderId.None? && pay.gatewayPaymentId.None? && pay.receipt.None?
  }

  lemma EveryStatusIsLiveOrDead(status: PaymentStatus)
    ensures status in LIVE <==> status !in DEAD
  {
  }

  /** After the live check and the supersede delete, no line item is left on the rows,
      because live and dead statuses are all the statuses there are. */
  lemma RowsFreed(s: Fees, pay: Payment, ids: seq<LedgerId>, quotes: seq<Quote>)
    requires References(s) && CanHold(s, pay, ids, quotes)
    ensures forall it, q :: it in Without(s.items, DeadItemsOn(s, pay.tenant, ids)) && q in quotes ==> it.row != q.row
  {
    forall it, q | it in s.items && q in quotes && it.row == q.row
      ensures it in DeadItemsOn(s, pay.tenant, ids)
    {
      assert ItemOk(s, it) && it.tenant == pay.tenant && it.row in ids;
      assert !StatusIn(s.payments, it.payment, LIVE);
      EveryStatusIsLiveOrDead(s.payments[it.payment].status);
    }
  }

  /** The insert of a claim or a desk collection never trips a UNIQUE constraint. */
  lemma HoldSucceeds(s: Fees, guard: bool, pay: Payment, ids: seq<LedgerId>, quotes: seq<Quote>, notes: seq<Event>)
    requires References(s) && CanHold(s, pay, ids, quotes)
    ensures Hold(s, guard, pay, ids, quotes, notes).Some?
    ensures Hold(s, guard, pay, ids, quotes, notes).value.items
         == Without(s.items, DeadItemsOn(s, pay.tenant, ids)) + Lines(pay.tenant, |s.payments|, quotes)
  {
    RowsFreed(s, pay, ids, quotes);
    InsertSucceeds(Without(s.items, DeadItemsOn(s, pay.tenant, ids)), pay.tenant, |s.payments|, quotes, guard);
  }

  /** One item per row survives a hold without any help from the guard. */
  lemma HoldKeepsOneItemPerRow(s: Fees, pay: Payment, ids: seq<LedgerId>, quotes: seq<Quote>)
    requires References(s) && OneItemPerRow(s.items) && CanHold(s, pay, ids, quotes)
    ensures OneItemPerRow(Without(s.items, DeadItemsOn(s, pay.tenant, ids)) + Lines(pay.tenant, |s.payments|, quotes))
  {
    RowsFreed(s, pay, ids, quotes);
    WithoutKeepsOneItemPerRow(s.items, DeadItemsOn(s, pay.tenant, ids));
    var rest: seq<LineItem> := Without(s.items, DeadItemsOn(s, pay.tenant, ids));
    var lines: seq<LineItem> := Lines(pay.tenant, |s.payments|, quotes);
    forall i, j | 0 <= i < j < |rest + lines| ensures (rest + lines)[i].row != (rest + lines)[j].row {
      if i < |rest| <= j {
        assert rest[i] in rest && quotes[j - |rest|] in quotes;
      }
    }
  }

  lemma LinesMembers(tenant: TenantId, p: PaymentId, quotes: seq<Quote>)
    ensures forall it :: it in Lines(tenant, p, quotes) ==>
              it.tenant == tenant && it.payment == p && Quote(it.row, it.amount) in quotes
  {
  }

  lemma HoldItems(s: Fees, guard: bool, pay: Payment, ids: seq<LedgerId>, quotes: seq<Quote>, notes: seq<Event>)
    requires References(s) && CanHold(s, pay, ids, quotes)
    ensures Hold(s, guard, pay, ids, quotes, notes).Some?
    ensures var t := Hold(s, guard, pay, ids, quotes, notes).value;
            forall it :: it in t.items ==>
              || (it in s.items && it !in DeadItemsOn(s, pay.tenant, ids))
              || (it.payment == |s.payments| && it.tenant == pay.tenant && Quote(it.row, it.amount) in quotes)
  {
    HoldSucceeds(s, guard, pay, ids, quotes, notes);
    LinesMembers(pay.tenant, |s.payments|, quotes);
  }

  lemma HoldConserves(s: Fees, guard: bool, pay: Payment, ids: seq<LedgerId>, quotes: seq<Quote>, notes: seq<Event>)
    requires References(s) && PaymentsOk(s) && Conserved(s) && CanHold(s, pay, ids, quotes)
    ensures Hold(s, guard, pay, ids, quotes, notes).Some?
    ensures Conserved(Hold(s, guard, pay, ids, quotes, notes).value)
  {
    HoldSucceeds(s, guard, pay, ids, quotes, notes);
    var n := |s.payments|;
    var doomed := DeadItemsOn(s, pay.tenant, ids);
    var t := Hold(s, guard, pay, ids, quotes, notes).value;
    forall p | 0 <= p < |t.payments|
      ensures ItemSum(t.items, p) + ItemSum(t.bin, p) == if p in t.itemised then t.payments[p].amount else 0
    {
      DeleteSums(s, doomed, p);
      ItemSumConcat(Without(s.items, doomed), Lines(pay.tenant, n, quotes), p);
      LinesSum(pay.tenant, n, quotes, p);
      if p == n {
        NoItemsNoSum(s.items, n);
        NoItemsNoSum(s.bin, n);
      }
    }
    forall it | it in t.bin && it.payment < |t.payments| && !t.payments[it.payment].gateway.Online()
      ensures t.payments[it.payment].status.Rejected?
    {
      assert it in s.bin || it in doomed;
      assert it.payment < n;
      assert PaymentOk(s.payments[it.payment], it.payment in s.itemised);
    }
  }

  lemma HoldKeepsReferences(s: Fees, guard: bool, pay: Payment, ids: seq<LedgerId>, quotes: seq<Quote>,
                            notes: seq<Event>)
    requires References(s) && CanHold(s, pay, ids, quotes)
    ensures Hold(s, guard, pay, ids, quotes, notes).Some?
    ensures References(Hold(s, guard, pay, ids, quotes, notes).value)
  {
    HoldItems(s, guard, pay, ids, quotes, notes);
    var t := Hold(s, guard, pay, ids, quotes, notes).value;
    forall it | it in t.items ensures ItemOk(t, it) {
      if it in s.items { assert ItemOk(s, it); }
    }
  }

  lemma SettlementAfterDelete(ledger: seq<LedgerRow>, payments: seq<Payment>, items: seq<LineItem>,
                              doomed: set<LineItem>)
    requires SettlementOf(ledger, payments, items)
    requires forall it :: it in doomed ==> !StatusIn(payments, it.payment, {Paid})
    ensures SettlementOf(ledger, payments, Without(items, doomed))
  {
  }

  /** A new claim on payable rows. */
  lemma SettlementAfterClaim(ledger: seq<LedgerRow>, payments: seq<Payment>, items: seq<LineItem>, pay: Payment,
                             lines: seq<LineItem>)
    requires SettlementOf(ledger, payments, items) && pay.status.PendingVerification?
    requires forall it :: it in items ==> it.payment < |payments|
    requires forall it :: it in lines ==>
               it.payment == |payments| && it.row < |ledger| && ledger[it.row].status.Payable()
    ensures SettlementOf(ledger, payments + [pay], items + lines)
  {
  }

  lemma HoldKeepsSettlement(s: Fees, guard: bool, pay: Payment, ids: seq<LedgerId>, quotes: seq<Quote>,
                            notes: seq<Event>)
    requires References(s) && Settlement(s) && CanHold(s, pay, ids, quotes)
    ensures Hold(s, guard, pay, ids, quotes, notes).Some?
    ensures Settlement(Hold(s, guard, pay, ids, quotes, notes).value)
  {
    HoldSucceeds(s, guard, pay, ids, quotes, notes);
    LinesMembers(pay.tenant, |s.payments|, quotes);
    var doomed := DeadItemsOn(s, pay.tenant, ids);
    SettlementAfterDelete(s.ledger, s.payments, s.items, doomed);
    SettlementAfterClaim(s.ledger, s.payments, Without(s.items, doomed), pay, Lines(pay.tenant, |s.payments|, quotes));
  }

  lemma HoldKeepsPayments(s: Fees, guard: bool, pay: Payment, ids: seq<LedgerId>, quotes: seq<Quote>, notes: seq<Event>)
    requires References(s) && OrdersOk(s) && PaymentsOk(s) && ReceiptsOk(s) && CanHold(s, pay, ids, quotes)
    ensures Hold(s, guard, pay, ids, quotes, notes).Some?
    ensures var t := Hold(s, guard, pay, ids, quotes, notes).value; OrdersOk(t) && PaymentsOk(t) && ReceiptsOk(t)
  {
    HoldSucceeds(s, guard, pay, ids, quotes, notes);
    var t := Hold(s, guard, pay, ids, quotes, notes).value;
    OrdersFramed(s, t);
    ReceiptsFramed(s, t);
  }

  lemma HoldKeepsInv(s: Fees, guard: bool, pay: Payment, ids: seq<LedgerId>, quotes: seq<Quote>, notes: seq<Event>)
    requires Inv(s) && CanHold(s, pay, ids, quotes)
    requires notes == if pay.gateway.Upi? then [PaymentNote(PaymentClaimed, |s.payments|, pay)] else []
    ensures Hold(s, guard, pay, ids, quotes, notes).Some?
    ensures Inv(Hold(s, guard, pay, ids, quotes, notes).value)
  {
    HoldSucceeds(s, guard, pay, ids, quotes, notes);
    HoldKeepsOneItemPerRow(s, pay, ids, quotes);
    HoldConserves(s, guard, pay, ids, quotes, notes);
    HoldKeepsReferences(s, guard, pay, ids, quotes, notes);
    HoldKeepsSettlement(s, guard, pay, ids, quotes, notes);
    HoldKeepsPayments(s, guard, pay, ids, quotes, notes);
    JournalGrow(s, Hold(s, guard, pay, ids, quotes, notes).value, pay, notes);
  }

  // ---- Paying ----

  predicate CanPay(s: Fees, p: PaymentId) {
    && p < |s.payments| && p in s.itemised
    && (s.payments[p].status.PendingVerification? || s.payments[p].status.Initiated?)
    && (s.payments[p].gateway.Online() <==> s.payments[p].status.Initiated?)
  }

  lemma PayKeepsReceipts(s: Fees, p: PaymentId)
    requires ReceiptsOk(s) && CanPay(s, p)
    ensures ReceiptsOk(Pay(s, p))
  {
    var t := Pay(s, p);
    var own := s.payments[p].tenant;
    assert forall tenant ::
        LastNumber(t.counters, tenant) == LastNumber(s.counters, tenant) + if tenant == own then 1 else 0;
    forall tenant, n | 1 <= n <= LastNumber(t.counters, tenant) ensures InUse(t.payments, tenant, n) {
      if tenant == own && n == LastNumber(t.counters, own) {
        assert Issued(t.payments, p, tenant, n);
      } else {
        assert InUse(s.payments, tenant, n);
        var q :| 0 <= q < |s.payments| && Issued(s.payments, q, tenant, n);
        assert Issued(t.payments, q, tenant, n);
      }
    }
  }

  lemma PayKeepsSettlement(s: Fees, p: PaymentId)
    requires References(s) && OneItemPerRow(s.items) && Settlement(s) && CanPay(s, p)
    ensures Settlement(Pay(s, p)) && References(Pay(s, p))
  {
  }

  lemma PayKeepsInv(s: Fees, p: PaymentId)
    requires Inv(s) && CanPay(s, p)
    ensures Inv(Pay(s, p))
  {
    var t := Pay(s, p);
    PayKeepsReceipts(s, p);
    PayKeepsSettlement(s, p);
    JournalAppend(s, t, PaymentNote(FeePaid, p, t.payments[p]), p);
    OrdersFramed(s, t);
    assert Conserved(t) by {
      forall q | 0 <= q < |t.payments|
        ensures ItemSum(t.items, q) + ItemSum(t.bin, q) == if q in t.itemised then t.payments[q].amount else 0
      {
        assert t.payments[q].amount == s.payments[q].amount;
      }
    }
  }

  // ---- Rejection and timeout ----

  predicate CanKill(s: Fees, p: PaymentId, status: PaymentStatus, kind: EventType, doomed: set<LineItem>) {
    && p < |s.payments| && doomed == ItemsOf(s.items, p)
    && ((s.payments[p].status.PendingVerification? && status.Rejected? && kind.PaymentRejected?)
        || (s.payments[p].status.Initiated? && status.Failed? && kind.PaymentTimeout?))
  }

  lemma KillKeepsTables(s: Fees, p: PaymentId, status: PaymentStatus, kind: EventType, doomed: set<LineItem>)
    requires References(s) && Settlement(s) && CanKill(s, p, status, kind, doomed)
    ensures References(Kill(s, p, status, kind, doomed)) && Settlement(Kill(s, p, status, kind, doomed))
  {
  }

  lemma KillKeepsInv(s: Fees, p: PaymentId, status: PaymentStatus, kind: EventType, doomed: set<LineItem>)
    requires Inv(s) && CanKill(s, p, status, kind, doomed)
    ensures Inv(Kill(s, p, status, kind, doomed))
  {
    var t := Kill(s, p, status, kind, doomed);
    assert PaymentOk(s.payments[p], p in s.itemised);
    KillKeepsTables(s, p, status, kind, doomed);
    OrdersFramed(s, t);
    WithoutKeepsOneItemPerRow(s.items, doomed);
    ReceiptsFramed(s, t);
    JournalAppend(s, t, PaymentNote(kind, p, t.payments[p]), p);
    assert Conserved(t) by {
      forall q | 0 <= q < |t.payments|
        ensures ItemSum(t.items, q) + ItemSum(t.bin, q) == if q in t.itemised then t.payments[q].amount else 0
      {
        DeleteSums(s, doomed, q);
      }
    }
  }

  // ---- Changes to ledger rows that no paid or claimed line item sits on ----

  predicate RowTouched(s: Fees, l: LedgerId, r: LedgerRow) {
    l < |s.ledger| &&
    var o := s.ledger[l];
    && r.tenant == o.tenant && r.student == o.student && r.payment == o.payment
    && (r.status == o.status
        || (o.status.Payable() && r.status.Payable())
        || (o.status.Payable() && r.status.Waived?
            && !exists it :: it in s.items && it.row == l && StatusIn(s.payments, it.payment, LIVE)))
  }

  lemma TouchKeepsInv(s: Fees, ledger: seq<LedgerRow>)
    requires Inv(s) && |ledger| == |s.ledger|
    requires forall l :: 0 <= l < |ledger| ==> RowTouched(s, l, ledger[l])
    ensures Inv(s.(ledger := ledger))
  {
    var t := s.(ledger := ledger);
    forall it | it in t.items ensures ItemOk(t, it) {
      assert ItemOk(s, it);
      assert RowTouched(s, it.row, ledger[it.row]);
    }
    forall l | 0 <= l < |t.ledger|
      ensures t.ledger[l].status.Settled? <==> t.ledger[l].payment.Some?
      ensures t.ledger[l].status.Settled? ==> s.ledger[l].status.Settled?
    {
      assert RowTouched(s, l, ledger[l]);
    }
    forall it | it in t.items && StatusIn(t.payments, it.payment, {Paid})
      ensures t.ledger[it.row].status.Settled? && t.ledger[it.row].payment == Some(it.payment)
    {
      assert ItemOk(s, it) && RowTouched(s, it.row, ledger[it.row]);
    }
    forall it | it in t.items && StatusIn(t.payments, it.payment, {PendingVerification})
      ensures t.ledger[it.row].status.Payable()
    {
      assert ItemOk(s, it) && RowTouched(s, it.row, ledger[it.row]);
      assert StatusIn(s.payments, it.payment, LIVE);
    }
    forall l | 0 <= l < |s.ledger|
      ensures ledger[l].tenant == s.ledger[l].tenant && ledger[l].student == s.ledger[l].student {
      assert RowTouched(s, l, ledger[l]);
    }
    OrdersFramed(s, t);
  }

  lemma BillKeepsInv(s: Fees, row: LedgerRow)
    requires Inv(s) && row.status.Pending? && row.payment.None?
    ensures Inv(s.(ledger := s.ledger + [row]))
  {
  }

  lemma EmitKeepsInv(s: Fees, e: Event)
    requires Inv(s) && !e.kind.PaymentEvent()
    ensures Inv(s.(log := s.log + [e]))
  {
  }

  // ---- The statements of create_payment_order ----

  lemma QuoteKeepsInv(s: Fees, tenant: TenantId, student: StudentId, gateway: Gateway, ids: seq<LedgerId>)
    requires Inv(s)
    ensures Inv(QuoteOrder(s, tenant, student, gateway, ids))
  {
  }

  lemma OpenKeepsTables(s: Fees, k: nat)
    requires References(s) && Settlement(s) && AtStage(s, k, Quoted)
    ensures References(OpenOrder(s, k)) && Settlement(OpenOrder(s, k))
  {
  }

  lemma OpenKeepsOrders(s: Fees, k: nat)
    requires OrdersOk(s) && PaymentsOk(s) && Conserved(s) && AtStage(s, k, Quoted)
    ensures OrdersOk(OpenOrder(s, k)) && PaymentsOk(OpenOrder(s, k))
  {
  }

  lemma OpenKeepsBooks(s: Fees, k: nat)
    requires References(s) && OrdersOk(s) && Conserved(s) && ReceiptsOk(s) && Journal(s) && AtStage(s, k, Quoted)
    ensures Conserved(OpenOrder(s, k)) && ReceiptsOk(OpenOrder(s, k)) && Journal(OpenOrder(s, k))
  {
    var t := OpenOrder(s, k);
    var n := |s.payments|;
    assert QuotesFit(s.ledger, s.orders[k]) && StageFits(s.payments, s.itemised, s.orders[k]);
    ReceiptsFramed(s, t);
    JournalGrow(s, t, t.payments[n], []);
    NoItemsNoSum(s.items, n);
    NoItemsNoSum(s.bin, n);
  }

  lemma OpenKeepsInv(s: Fees, k: nat)
    requires Inv(s)
    ensures Inv(OpenOrder(s, k))
  {
    if AtStage(s, k, Quoted) {
      OpenKeepsTables(s, k);
      OpenKeepsOrders(s, k);
      OpenKeepsBooks(s, k);
    }
  }

  /** Only this statement leans on the guard. */
  lemma ItemiseKeepsOneItemPerRow(s: Fees, k: nat)
    requires References(s) && OneItemPerRow(s.items) && OrdersOk(s)
    ensures OneItemPerRow(ItemiseOrder(s, true, k).items)
  {
    if AtStage(s, k, Opened) {
      var o := s.orders[k];
      assert QuotesFit(s.ledger, o) && StageFits(s.payments, s.itemised, o);
      var lines := Lines(o.tenant, o.payment, o.quotes);
      forall a | a in s.items + lines ensures a.row < |s.ledger| && a.tenant == s.ledger[a.row].tenant {
        if a in s.items {
          assert ItemOk(s, a);
        } else {
          var i :| 0 <= i < |lines| && lines[i] == a;
          assert o.quotes[i] in o.quotes;
        }
      }
      if Insert(s.items, lines, true).Some? {
        GuardKeepsOneItemPerRow(s.items, lines);
      }
    }
  }

  lemma InsertConserves(s: Fees, tenant: TenantId, p: PaymentId, quotes: seq<Quote>)
    requires Conserved(s) && p < |s.payments| && p !in s.itemised && s.payments[p].amount == QuoteSum(quotes)
    ensures Conserved(s.(items := s.items + Lines(tenant, p, quotes), itemised := s.itemised + {p}))
  {
    forall q | 0 <= q < |s.payments|
      ensures ItemSum(s.items + Lines(tenant, p, quotes), q) + ItemSum(s.bin, q)
           == if q in s.itemised + {p} then s.payments[q].amount else 0
    {
      ItemSumConcat(s.items, Lines(tenant, p, quotes), q);
      LinesSum(tenant, p, quotes, q);
    }
  }

  lemma ItemiseConserves(s: Fees, k: nat)
    requires OrdersOk(s) && Conserved(s) && AtStage(s, k, Opened)
    ensures Conserved(ItemiseOrder(s, true, k))
  {
    var o := s.orders[k];
    assert QuotesFit(s.ledger, o) && StageFits(s.payments, s.itemised, o);
    InsertConserves(s, o.tenant, o.payment, o.quotes);
  }

  /** Lines of a payment that is neither paid nor claimed settle nothing. */
  lemma IdleLinesKeepTables(s: Fees, lines: seq<LineItem>, p: PaymentId)
    requires References(s) && Settlement(s) && p < |s.payments|
    requires !StatusIn(s.payments, p, LIVE)
    requires forall it :: it in lines ==> it.payment == p && ItemOk(s, it)
    ensures References(s.(items := s.items + lines)) && Settlement(s.(items := s.items + lines))
  {
  }

  lemma ItemiseKeepsTables(s: Fees, k: nat)
    requires References(s) && OrdersOk(s) && Settlement(s) && PaymentsOk(s) && AtStage(s, k, Opened)
    ensures References(ItemiseOrder(s, true, k)) && Settlement(ItemiseOrder(s, true, k))
  {
    var o := s.orders[k];
    assert QuotesFit(s.ledger, o) && StageFits(s.payments, s.itemised, o);
    assert PaymentOk(s.payments[o.payment], o.payment in s.itemised);
    var lines := Lines(o.tenant, o.payment, o.quotes);
    LinesMembers(o.tenant, o.payment, o.quotes);
    IdleLinesKeepTables(s, lines, o.payment);
  }

  lemma ItemiseKeepsOrders(s: Fees, k: nat)
    requires OrdersOk(s) && PaymentsOk(s) && AtStage(s, k, Opened)
    ensures OrdersOk(ItemiseOrder(s, true, k)) && PaymentsOk(ItemiseOrder(s, true, k))
  {
  }

  lemma ItemiseKeepsInv(s: Fees, k: nat)
    requires Inv(s)
    ensures Inv(ItemiseOrder(s, true, k))
  {
    ItemiseKeepsOneItemPerRow(s, k);
    if AtStage(s, k, Opened) {
      ItemiseConserves(s, k);
      ItemiseKeepsTables(s, k);
      ItemiseKeepsOrders(s, k);
    }
  }

  lemma LinkKeepsInv(s: Fees, k: nat, order: nat)
    requires Inv(s)
    ensures Inv(LinkOrder(s, k, order))
  {
    if AtStage(s, k, Itemised) {
      var o := s.orders[k];
      assert StageFits(s.payments, s.itemised, o) && QuotesFit(s.ledger, o);
      SamePaymentButIds(s, o.payment, s.payments[o.payment].(orderId := Some(order)));
      LinkedStage(s.(payments := s.payments[o.payment := s.payments[o.payment].(orderId := Some(order))]), k);
    }
  }

  lemma LinkedStage(s: Fees, k: nat)
    requires OrdersOk(s) && AtStage(s, k, Itemised)
    ensures OrdersOk(s.(orders := s.orders[k := s.orders[k].(stage := Linked)]))
  {
  }

  lemma SameStatuses(s: Fees, t: Fees)
    requires References(s) && Settlement(s) && Stable(s, t) && |t.payments| == |s.payments|
    requires t.ledger == s.ledger && t.items == s.items && t.bin == s.bin
    requires forall q :: 0 <= q < |s.payments| ==> t.payments[q].status == s.payments[q].status
    ensures References(t) && Settlement(t)
  {
  }

  /** Gateway identifiers on an online payment with line items play no part. */
  lemma SamePaymentButIds(s: Fees, p: PaymentId, pay: Payment)
    requires Inv(s) && p < |s.payments| && p in s.itemised && s.payments[p].gateway.Online()
    requires pay == s.payments[p].(orderId := pay.orderId, gatewayPaymentId := pay.gatewayPaymentId)
    ensures Inv(s.(payments := s.payments[p := pay]))
  {
    var t := s.(payments := s.payments[p := pay]);
    assert PaymentOk(s.payments[p], true);
    SameStatuses(s, t);
    OrdersFramed(s, t);
    ReceiptsFramed(s, t);
    JournalFramed(s, t);
    assert Conserved(t) by {
      forall q | 0 <= q < |t.payments|
        ensures ItemSum(t.items, q) + ItemSum(t.bin, q) == if q in t.itemised then t.payments[q].amount else 0
      {
        assert t.payments[q].amount == s.payments[q].amount;
      }
    }
  }

  lemma JournalFramed(s: Fees, t: Fees)
    requires Journal(s) && t.log == s.log && Stable(s, t) && |t.payments| == |s.payments|
    requires forall q :: 0 <= q < |s.payments| ==>
               t.payments[q].status == s.payments[q].status && t.payments[q].receipt == s.payments[q].receipt
    ensures Journal(t)
  {
  }

  // ---- The transactions ----

  lemma ClaimKeepsInv(s: Fees, guard: bool, tenant: TenantId, student: StudentId, ids: seq<LedgerId>)
    requires Inv(s)
    ensures Inv(SubmitClaim(s, guard, tenant, student, ids).0)
    ensures !SubmitClaim(s, guard, tenant, student, ids).1.UniqueViolation?
  {
    var quotes := Select(s.ledger, tenant, student, ids);
    var pay := Payment(tenant, student, Upi, QuoteSum(quotes), PendingVerification, None, None, None);
    if ids != [] && |quotes| == |ids| && !HeldLive(s, tenant, ids) {
      HoldKeepsInv(s, guard, pay, ids, quotes, [PaymentNote(PaymentClaimed, |s.payments|, pay)]);
    }
  }

  lemma CollectKeepsInv(s: Fees, guard: bool, tenant: TenantId, student: StudentId, ids: seq<LedgerId>, how: string)
    requires Inv(s)
    ensures Inv(Collect(s, guard, tenant, student, ids, how).0)
    ensures !Collect(s, guard, tenant, student, ids, how).1.UniqueViolation?
  {
    var quotes := Select(s.ledger, tenant, student, ids);
    var pay := Payment(tenant, student, Offline, QuoteSum(quotes), PendingVerification, None, None, None);
    if how in METHODS && ids != [] && |quotes| == |ids| && !HeldLive(s, tenant, ids) {
      HoldKeepsInv(s, guard, pay, ids, quotes, []);
      PayKeepsInv(Hold(s, guard, pay, ids, quotes, []).value, |s.payments|);
    }
  }

  lemma ApproveKeepsInv(s: Fees, tenant: TenantId, p: PaymentId)
    requires Inv(s)
    ensures Inv(Approve(s, tenant, p).0)
  {
    if Awaiting(s, tenant, p) {
      assert PaymentOk(s.payments[p], p in s.itemised);
      PayKeepsInv(s, p);
    }
  }

  lemma RejectKeepsInv(s: Fees, tenant: TenantId, p: PaymentId)
    requires Inv(s)
    ensures Inv(Reject(s, tenant, p).0)
  {
    if Awaiting(s, tenant, p) {
      var doomed := set it | it in s.items && it.tenant == tenant && it.payment == p;
      forall it | it in s.items && it.payment == p ensures it.tenant == tenant { assert ItemOk(s, it); }
      assert doomed == ItemsOf(s.items, p);
      KillKeepsInv(s, p, Rejected, PaymentRejected, doomed);
    }
  }

  /** The rows a waiver settles are held by no live payment. */
  lemma WaiveTouches(s: Fees, tenant: TenantId, student: StudentId, ids: seq<LedgerId>, reason: string)
    requires Inv(s) && Waive(s, tenant, student, ids, reason).1.Applied?
    ensures var ledger := WaiveRows(s.ledger, tenant, student, ids);
            |ledger| == |s.ledger| && forall l :: 0 <= l < |ledger| ==> RowTouched(s, l, ledger[l])
  {
    LengthTestExact(s.ledger, tenant, student, ids);
    var ledger := WaiveRows(s.ledger, tenant, student, ids);
    forall l | 0 <= l < |ledger| ensures RowTouched(s, l, ledger[l]) {
      if exists it :: it in s.items && it.row == l && StatusIn(s.payments, it.payment, LIVE) {
        var it :| it in s.items && it.row == l && StatusIn(s.payments, it.payment, LIVE);
        assert ItemOk(s, it);
      }
    }
  }

  lemma WaiveKeepsInv(s: Fees, tenant: TenantId, student: StudentId, ids: seq<LedgerId>, reason: string)
    requires Inv(s)
    ensures Inv(Waive(s, tenant, student, ids, reason).0)
  {
    var quotes := Select(s.ledger, tenant, student, ids);
    if Waive(s, tenant, student, ids, reason).1.Applied? {
      var ledger := WaiveRows(s.ledger, tenant, student, ids);
      WaiveTouches(s, tenant, student, ids, reason);
      TouchKeepsInv(s, ledger);
      EmitKeepsInv(s.(ledger := ledger), Event(tenant, Unlisted("FEE_WAIVED"), 0, student, QuoteSum(quotes), 0));
    }
  }

  lemma WebhookKeepsInv(s: Fees, order: nat, gatewayPayment: nat, pick: PaymentId)
    requires Inv(s)
    ensures Inv(Webhook(s, order, gatewayPayment, pick).0)
  {
    if pick < |s.payments| {
      assert PaymentOk(s.payments[pick], pick in s.itemised);
      if s.payments[pick].orderId == Some(order) && s.payments[pick].status.Initiated? {
        var pay := s.payments[pick].(gatewayPaymentId := Some(gatewayPayment));
        SamePaymentButIds(s, pick, pay);
        PayKeepsInv(s.(payments := s.payments[pick := pay]), pick);
      }
    }
  }

  lemma {:induction false} SweepKeepsInv(s: Fees, expired: seq<PaymentId>)
    requires Inv(s)
    ensures Inv(Sweep(s, expired))
  {
    if expired == [] {
    } else {
      SweepKeepsInv(s, expired[..|expired| - 1]);
      var t := Sweep(s, expired[..|expired| - 1]);
      var p := expired[|expired| - 1];
      if StatusIn(t.payments, p, {Initiated, Processing}) {
        assert PaymentOk(t.payments[p], p in t.itemised);
        KillKeepsInv(t, p, Failed, PaymentTimeout, ItemsOf(t.items, p));
      }
    }
  }

  lemma AdvanceKeepsInv(s: Fees, today: int)
    requires Inv(s)
    ensures Inv(s.(ledger := Advance(s.ledger, today)))
  {
    TouchKeepsInv(s, Advance(s.ledger, today));
  }

  lemma RepriceKeepsInv(s: Fees, tenant: TenantId, student: StudentId, prices: map<LedgerId, Paise>)
    requires Inv(s)
    ensures Inv(s.(ledger := Reprice(s.ledger, tenant, student, prices)))
  {
    TouchKeepsInv(s, Reprice(s.ledger, tenant, student, prices));
  }

  lemma TransactionKeepsInv(s: Fees, step: Step)
    requires Inv(s) && !OrderStep(step)
    ensures Inv(Apply(s, true, step))
  {
    match step
    case SClaim(tenant, student, ids) => ClaimKeepsInv(s, true, tenant, student, ids);
    case SCollect(tenant, student, ids, how) => CollectKeepsInv(s, true, tenant, student, ids, how);
    case SApprove(tenant, p) => ApproveKeepsInv(s, tenant, p);
    case SReject(tenant, p) => RejectKeepsInv(s, tenant, p);
    case SWaive(tenant, student, ids, reason) => WaiveKeepsInv(s, tenant, student, ids, reason);
    case SWebhook(order, gatewayPayment, pick) => WebhookKeepsInv(s, order, gatewayPayment, pick);
    case SSweep(expired) => SweepKeepsInv(s, expired);
    case SAdvance(today) => AdvanceKeepsInv(s, today);
    case SReprice(tenant, student, prices) => RepriceKeepsInv(s, tenant, student, prices);
    case SBill(row) => if row.status.Pending? && row.payment.None? { BillKeepsInv(s, row); }
    case SEmit(event) => if !event.kind.PaymentEvent() { EmitKeepsInv(s, event); }
    case _ =>
  }

  lemma StepKeepsInv(s: Fees, step: Step)
    requires Inv(s)
    ensures Inv(Apply(s, true, step))
  {
    match step
    case SQuote(tenant, student, gateway, ids) => QuoteKeepsInv(s, tenant, student, gateway, ids);
    case SOpen(k) => OpenKeepsInv(s, k);
    case SItemise(k) => ItemiseKeepsInv(s, k);
    case SLink(k, order) => LinkKeepsInv(s, k, order);
    case _ => TransactionKeepsInv(s, step);
  }
}
