/** The services as they are written: statement by statement on mutable tables. Each
    method is proved to do what the protocol's step says, to keep the protocol's invariants,
    and to give its caller what the service is for. */
module FeeService {
  import opened Schema
  import opened Statements
  import FeeProtocol
  import FeeInvariants
  import FeePromises
  import OrderTrail

  type Fees = FeeProtocol.Fees
  type Outcome = FeeProtocol.Outcome

  class FeeOffice {
    var ledger: seq<LedgerRow>
    var payments: seq<Payment>
    var items: seq<LineItem>
    var counters: map<TenantId, nat>
    var orders: seq<FeeProtocol.Order>
    var log: seq<Event>
    ghost var bin: seq<LineItem>
    ghost var itemised: set<PaymentId>

    ghost function State(): Fees
      reads this
    {
      FeeProtocol.Fees(ledger, payments, items, counters, orders, log, bin, itemised)
    }

    ghost predicate Valid()
      reads this
    {
      FeeInvariants.Inv(State())
    }

    constructor ()
      ensures Valid() && State() == FeeProtocol.EMPTY
    {
      ledger, payments, items, counters, orders, log := [], [], [], map[], [], [];
      bin, itemised := [], {};
      new;
      FeeInvariants.Initially();
    }

    // ---- Statements ----

    /** sum(r["amount_due"] for r in rows) */
    static method Total(quotes: seq<Quote>) returns (total: Paise)
      ensures total == QuoteSum(quotes)
    {
      total := 0;
      for i := 0 to |quotes|
        invariant total == QuoteSum(quotes[..i])
      {
        assert quotes[..i + 1][..i] == quotes[..i];
        total := total + quotes[i].amount;
      }
      assert quotes[..|quotes|] == quotes;
    }

    /** INSERT INTO fee_receipt_counters ... ON CONFLICT DO UPDATE ... RETURNING last_number */
    method NextReceiptNumber(tenant: TenantId) returns (n: nat)
      modifies this`counters
      ensures n == FeeProtocol.LastNumber(old(counters), tenant) + 1
      ensures counters == old(counters)[tenant := n]
    {
      if tenant in counters {
        n := counters[tenant] + 1;
      } else {
        n := 1;
      }
      counters := counters[tenant := n];
    }

    /** executemany INSERT INTO fee_payment_items: all the lines or none. */
    method InsertLines(lines: seq<LineItem>) returns (ok: bool)
      modifies this`items
      ensures ok <==> Insert(old(items), lines, true).Some?
      ensures items == if ok then old(items) + lines else old(items)
    {
      var before := items;
      for i := 0 to |lines|
        invariant items == before + lines[..i]
        invariant Insert(before, lines[..i], true) == Some(items)
      {
        assert lines[..i + 1][..i] == lines[..i];
        if Clashes(items, lines[i], true) {
          FailsFromHere(before, lines, i + 1);
          items := before;
          return false;
        }
        items := items + [lines[i]];
        assert items == before + lines[..i + 1];
      }
      assert lines[..|lines|] == lines;
      return true;
    }

    /** DELETE FROM fee_payment_items */
    method DeleteItems(doomed: set<LineItem>)
      modifies this`items, this`bin
      ensures items == Without(old(items), doomed) && bin == old(bin) + Only(old(items), doomed)
    {
      bin := bin + Only(items, doomed);
      items := Without(items, doomed);
    }

    method Emit(event: Event)
      modifies this`log
      ensures log == old(log) + [event]
    {
      log := log + [event];
    }

    /** SELECT 1 FROM fee_payment_items JOIN fee_payments ... status = ANY(_LIVE_STATUSES) */
    method HeldLive(tenant: TenantId, ids: seq<LedgerId>) returns (held: bool)
      ensures held <==> FeeProtocol.HeldLive(State(), tenant, ids)
    {
      held := FeeProtocol.HeldLiveIn(items, payments, tenant, ids);
    }

    /** The supersede DELETE and the insert that follows it; on a violation both are undone. */
    method SupersedeAndInsert(tenant: TenantId, ids: seq<LedgerId>, p: PaymentId, quotes: seq<Quote>) returns (ok: bool)
      modifies this`items, this`bin
      ensures var t := FeeProtocol.Delete(old(State()), FeeProtocol.DeadItemsOn(old(State()), tenant, ids));
              match Insert(t.items, Lines(tenant, p, quotes), true)
              case None => !ok && items == old(items) && bin == old(bin)
              case Some(inserted) => ok && items == inserted && bin == t.bin
    {
      var kept := items;
      ghost var keptBin := bin;
      DeleteItems(set it | it in items && it.tenant == tenant && it.row in ids
                    && FeeProtocol.StatusIn(payments, it.payment, FeeProtocol.DEAD));
      ok := InsertLines(Lines(tenant, p, quotes));
      if !ok {
        items, bin := kept, keptBin;
      }
    }

    // ---- parent_payment ----

    /** The writes of submit_claim, once the request has been accepted. */
    method InsertClaim(tenant: TenantId, student: StudentId, ids: seq<LedgerId>, quotes: seq<Quote>)
      returns (r: Outcome)
      modifies this
      ensures var p := |old(payments)|;
              var pay := Payment(tenant, student, Upi, QuoteSum(quotes), PendingVerification, None, None, None);
              match FeeProtocol.Hold(old(State()), true, pay, ids, quotes,
                                     [FeeProtocol.PaymentNote(PaymentClaimed, p, pay)])
              case None => State() == old(State()) && r == FeeProtocol.UniqueViolation
              case Some(t) => State() == t && r == FeeProtocol.Done(p)
    {
      ghost var s := State();
      var saved := payments;
      var total := Total(quotes);
      var p := |payments|;
      var pay := Payment(tenant, student, Upi, total, PendingVerification, None, None, None);
      payments := payments + [pay];
      NewPaymentNotDead(s, State(), pay, ids);
      var ok := SupersedeAndInsert(tenant, ids, p, quotes);
      if !ok {
        payments := saved;
        return FeeProtocol.UniqueViolation;
      }
      itemised := itemised + {p};
      Emit(FeeProtocol.PaymentNote(PaymentClaimed, p, pay));
      return FeeProtocol.Done(p);
    }

    /** Accepted, the claim alone holds every row it names, for their total; refused, nothing
        has changed. No request ends in a unique violation. */
    method SubmitClaim(tenant: TenantId, student: StudentId, ids: seq<LedgerId>) returns (r: Outcome)
      requires Valid()
      modifies this
      ensures Valid() && (State(), r) == FeeProtocol.SubmitClaim(old(State()), true, tenant, student, ids)
      ensures match FeePromises.Refusal(old(State()), tenant, student, ids)
              case Some(why) => r == why && State() == old(State())
              case None =>
                && r == FeeProtocol.Done(|old(payments)|) && FeePromises.HeldBy(State(), ids, r.payment)
                && FeePromises.ClaimMade(old(State()), State(), tenant, student, ids)
    {
      FeePromises.ClaimPromise(State(), tenant, student, ids);
      if ids == [] { return FeeProtocol.NothingSelected; }
      var quotes := Select(ledger, tenant, student, ids);
      if |quotes| != |ids| { return FeeProtocol.NotPayable; }
      var held := HeldLive(tenant, ids);
      if held { return FeeProtocol.AlreadyHeld; }
      r := InsertClaim(tenant, student, ids, quotes);
    }

    /** The writes of approve: receipt number, payment, ledger rows, event. */
    method SettlePayment(p: PaymentId)
      requires p < |payments|
      modifies this
      ensures State() == FeeProtocol.Pay(old(State()), p)
    {
      var n := NextReceiptNumber(payments[p].tenant);
      payments := payments[p := payments[p].(status := Paid, receipt := Some(n))];
      ledger := FeeProtocol.Settle(ledger, items, p);
      Emit(FeeProtocol.PaymentNote(FeePaid, p, payments[p]));
    }

    /** The claim gets the tenant's next receipt number and settles exactly the rows it holds. */
    method Approve(tenant: TenantId, p: PaymentId) returns (r: Outcome)
      requires Valid()
      modifies this
      ensures Valid() && (State(), r) == FeeProtocol.Approve(old(State()), tenant, p)
      ensures r.Done? <==> FeeProtocol.Awaiting(old(State()), tenant, p)
      ensures if r.Done? then FeePromises.PaidUp(old(State()), State(), p, old(payments)[p].gatewayPaymentId)
              else State() == old(State())
    {
      FeePromises.ApprovePromise(State(), tenant, p);
      if p >= |payments| || payments[p].tenant != tenant || !payments[p].status.PendingVerification? {
        return FeeProtocol.NotAwaitingVerification;
      }
      SettlePayment(p);
      return FeeProtocol.Done(p);
    }

    /** The writes of reject: payment, line items, event. */
    method ReleaseClaim(tenant: TenantId, p: PaymentId)
      requires p < |payments|
      modifies this
      ensures State() == FeeProtocol.Kill(old(State()), p, Rejected, PaymentRejected,
                                          set it | it in old(items) && it.tenant == tenant && it.payment == p)
    {
      payments := payments[p := payments[p].(status := Rejected)];
      DeleteItems(set it | it in items && it.tenant == tenant && it.payment == p);
      Emit(FeeProtocol.PaymentNote(PaymentRejected, p, payments[p]));
    }

    /** The claim keeps no line item, and the rows it held are free and payable. */
    method Reject(tenant: TenantId, p: PaymentId) returns (r: Outcome)
      requires Valid()
      modifies this
      ensures Valid() && (State(), r) == FeeProtocol.Reject(old(State()), tenant, p)
      ensures r.Done? <==> FeeProtocol.Awaiting(old(State()), tenant, p)
      ensures if r.Done? then FeePromises.Released(old(State()), State(), p) else State() == old(State())
    {
      FeePromises.RejectPromise(State(), tenant, p);
      if p >= |payments| || payments[p].tenant != tenant || !payments[p].status.PendingVerification? {
        return FeeProtocol.NotAwaitingVerification;
      }
      ReleaseClaim(tenant, p);
      return FeeProtocol.Done(p);
    }

    // ---- fee_collection ----

    /** The payment record_offline_payment inserts, with the receipt number it draws. */
    ghost function Collected(tenant: TenantId, student: StudentId, quotes: seq<Quote>): Payment
      reads this
    {
      Payment(tenant, student, Offline, QuoteSum(quotes), Paid, None, None,
              Some(FeeProtocol.LastNumber(counters, tenant) + 1))
    }

    /** The receipt number is drawn and the payment inserted as paid before its items are. */
    method InsertPaid(tenant: TenantId, student: StudentId, ids: seq<LedgerId>, quotes: seq<Quote>) returns (ok: bool)
      modifies this
      ensures var pay := old(Collected(tenant, student, quotes));
              match FeeProtocol.Hold(old(State()), true, Unpaid(pay), ids, quotes, [])
              case None => !ok && State() == old(State())
              case Some(t) =>
                && ok
                && State() == t.(payments := old(payments) + [pay],
                                 counters := old(counters)[tenant := pay.receipt.value])
    {
      ghost var s := State();
      var saved, numbers := payments, counters;
      var total := Total(quotes);
      var n := NextReceiptNumber(tenant);
      var pay := Payment(tenant, student, Offline, total, Paid, None, None, Some(n));
      payments := payments + [pay];
      NewPaymentNotDead(s, State(), pay, ids);
      ok := SupersedeAndInsert(tenant, ids, |saved|, quotes);
      if ok {
        itemised := itemised + {|saved|};
      } else {
        payments, counters := saved, numbers;
      }
    }

    /** The writes of record_offline_payment. The protocol describes the same transaction
        as a claim that is approved on the spot. */
    method InsertCollection(tenant: TenantId, student: StudentId, ids: seq<LedgerId>, quotes: seq<Quote>)
      returns (r: Outcome)
      modifies this
      ensures var p := |old(payments)|;
              match FeeProtocol.Hold(old(State()), true, Unpaid(old(Collected(tenant, student, quotes))), ids, quotes,
                                     [])
              case None => State() == old(State()) && r == FeeProtocol.UniqueViolation
              case Some(t) => State() == FeeProtocol.Pay(t, p) && r == FeeProtocol.Done(p)
    {
      ApprovedOnTheSpot(State(), Collected(tenant, student, quotes), ids, quotes);
      var p := |payments|;
      var ok := InsertPaid(tenant, student, ids, quotes);
      if !ok { return FeeProtocol.UniqueViolation; }
      ledger := FeeProtocol.Settle(ledger, items, p);
      Emit(FeeProtocol.PaymentNote(FeePaid, p, payments[p]));
      return FeeProtocol.Done(p);
    }

    /** Accepted, the payment holds and has settled every row it names. */
    method RecordOfflinePayment(tenant: TenantId, student: StudentId, ids: seq<LedgerId>, how: string)
      returns (r: Outcome)
      requires Valid()
      modifies this
      ensures Valid() && (State(), r) == FeeProtocol.Collect(old(State()), true, tenant, student, ids, how)
      ensures if !FeePromises.KnownMethod(how) then r == FeeProtocol.BadMethod && State() == old(State())
              else match FeePromises.Refusal(old(State()), tenant, student, ids)
                   case Some(why) => r == why && State() == old(State())
                   case None =>
                     && r == FeeProtocol.Done(|old(payments)|) && FeePromises.HeldBy(State(), ids, r.payment)
                     && FeePromises.CollectionMade(old(State()), State(), tenant, student, ids)
    {
      FeePromises.CollectPromise(State(), tenant, student, ids, how);
      if how !in FeeProtocol.METHODS { return FeeProtocol.BadMethod; }
      if ids == [] { return FeeProtocol.NothingSelected; }
      var quotes := Select(ledger, tenant, student, ids);
      if |quotes| != |ids| { return FeeProtocol.NotPayable; }
      var held := HeldLive(tenant, ids);
      if held { return FeeProtocol.AlreadyHeld; }
      r := InsertCollection(tenant, student, ids, quotes);
    }

    /** The rows named are waived, held by no live payment, and no other row has changed. */
    method WaiveFees(tenant: TenantId, student: StudentId, ids: seq<LedgerId>, reason: string) returns (r: Outcome)
      requires Valid()
      modifies this
      ensures Valid() && (State(), r) == FeeProtocol.Waive(old(State()), tenant, student, ids, reason)
      ensures if !FeePromises.HasText(reason) then r == FeeProtocol.NoReason && State() == old(State())
              else match FeePromises.Refusal(old(State()), tenant, student, ids)
                   case Some(why) => r == why && State() == old(State())
                   case None =>
                     && r == FeeProtocol.Applied
                     && FeePromises.WaivedExactly(old(State()), State(), tenant, student, ids)
    {
      FeePromises.WaivePromise(State(), tenant, student, ids, reason);
      if FeeProtocol.Blank(reason) { return FeeProtocol.NoReason; }
      if ids == [] { return FeeProtocol.NothingSelected; }
      var quotes := Select(ledger, tenant, student, ids);
      if |quotes| != |ids| { return FeeProtocol.NotPayable; }
      var held := HeldLive(tenant, ids);
      if held { return FeeProtocol.AlreadyHeld; }
      WriteWaiver(tenant, student, ids, quotes);
      return FeeProtocol.Applied;
    }

    /** The writes of waive_fees: ledger rows, event. */
    method WriteWaiver(tenant: TenantId, student: StudentId, ids: seq<LedgerId>, quotes: seq<Quote>)
      modifies this`ledger, this`log
      ensures ledger == FeeProtocol.WaiveRows(old(ledger), tenant, student, ids)
      ensures log == old(log) + [Event(tenant, Unlisted("FEE_WAIVED"), 0, student, QuoteSum(quotes), 0)]
    {
      ledger := FeeProtocol.WaiveRows(ledger, tenant, student, ids);
      var total := Total(quotes);
      Emit(Event(tenant, Unlisted("FEE_WAIVED"), 0, student, total, 0));
    }

    // ---- payment ----

    /** Inside the transaction the payment passes through 'processing'. A pending order that
        is accepted settles exactly the rows it still holds and carries the gateway's payment
        id; anything else changes nothing. */
    method MarkPaymentSuccess(order: nat, gatewayPayment: nat, pick: PaymentId) returns (r: Outcome)
      requires Valid()
      modifies this
      ensures Valid() && (State(), r) == FeeProtocol.Webhook(old(State()), order, gatewayPayment, pick)
      ensures r.Done? <==>
                old(OrderTrail.Books(State(), order, gatewayPayment, pick)
                    || FeePromises.AlreadyPaid(State(), order, pick))
      ensures if old(OrderTrail.Books(State(), order, gatewayPayment, pick))
              then FeePromises.PaidUp(old(State()), State(), pick, Some(gatewayPayment))
              else State() == old(State())
    {
      FeePromises.WebhookPromise(State(), order, gatewayPayment, pick);
      if pick >= |payments| || payments[pick].orderId != Some(order) { return FeeProtocol.Ignored; }
      if payments[pick].status.Paid? { return FeeProtocol.Done(pick); }
      if !payments[pick].status.Initiated? && !payments[pick].status.Processing? { return FeeProtocol.Ignored; }
      if exists q :: 0 <= q < |payments| && q != pick && payments[q].gatewayPaymentId == Some(gatewayPayment) {
        return FeeProtocol.Ignored;
      }
      SettleOrder(pick, gatewayPayment);
      return FeeProtocol.Done(pick);
    }

    /** The writes of the webhook. */
    method SettleOrder(pick: PaymentId, gatewayPayment: nat)
      requires pick < |payments|
      modifies this
      ensures State() == FeeProtocol.Pay(Noted(old(State()), pick, gatewayPayment), pick)
    {
      payments := payments[pick := payments[pick].(gatewayPaymentId := Some(gatewayPayment), status := Processing)];
      SettlePayment(pick);
      assert payments == Noted(old(State()), pick, gatewayPayment).payments[pick := payments[pick]];
    }

    /** First statement of create_payment_order: it goes on exactly with distinct payable rows
        of the student, whoever holds them, and quotes exactly those. */
    method QuoteOrder(tenant: TenantId, student: StudentId, gateway: Gateway, ids: seq<LedgerId>) returns (ok: bool)
      requires Valid()
      modifies this`orders
      ensures Valid() && State() == FeeProtocol.QuoteOrder(old(State()), tenant, student, gateway, ids)
      ensures ok <==> gateway.Online() && FeePromises.Selectable(old(State()), tenant, student, ids)
      ensures if ok then |orders| == |old(orders)| + 1 && FeePromises.Names(orders[|orders| - 1], ids)
          else State() == old(State())
    {
      FeePromises.QuotePromise(State(), tenant, student, gateway, ids);
      if !gateway.Online() || ids == [] { return false; }
      var quotes := Select(ledger, tenant, student, ids);
      if |quotes| != |ids| { return false; }
      orders := orders + [FeeProtocol.Order(tenant, student, gateway, quotes, FeeProtocol.Quoted, 0)];
      return true;
    }

    /** The payment is inserted pending, for the sum of the quotes, and has no line item yet. */
    method OpenOrder(k: nat)
      requires Valid()
      modifies this`payments, this`orders
      ensures Valid() && State() == FeeProtocol.OpenOrder(old(State()), k)
      ensures FeeProtocol.AtStage(old(State()), k, FeeProtocol.Quoted) ==>
                var o, p := old(orders)[k], |old(payments)|;
                && |payments| == p + 1 && payments[..p] == old(payments) && FeePromises.NoItems(State(), p)
                && payments[p] == Payment(o.tenant, o.student, o.gateway, QuoteSum(o.quotes), Initiated,
                                          None, None, None)
    {
      if k >= |orders| || orders[k].stage != FeeProtocol.Quoted { return; }
      FeePromises.OpenPromise(State(), k);
      InsertOrderPayment(k);
    }

    method InsertOrderPayment(k: nat)
      requires FeeProtocol.AtStage(State(), k, FeeProtocol.Quoted)
      modifies this`payments, this`orders
      ensures State() == FeeProtocol.OpenOrder(old(State()), k)
    {
      var o := orders[k];
      var total := Total(o.quotes);
      payments := payments + [Payment(o.tenant, o.student, o.gateway, total, Initiated, None, None, None)];
      orders := orders[k := o.(stage := FeeProtocol.Opened, payment := |payments| - 1)];
    }

    /** The insert is refused exactly when a row of the order carries an item already;
        otherwise the order's lines come in and add up to its amount. */
    method ItemiseOrder(k: nat)
      requires Valid()
      modifies this`items, this`orders, this`itemised
      ensures Valid() && State() == FeeProtocol.ItemiseOrder(old(State()), true, k)
      ensures FeeProtocol.AtStage(old(State()), k, FeeProtocol.Opened) ==>
                && |orders| == |old(orders)|
                && (orders[k].stage.Aborted? <==> FeePromises.RowsTaken(old(State()), old(orders)[k]))
                && (if orders[k].stage.Aborted? then items == old(items)
                    else FeePromises.Filled(old(State()), State(), orders[k].payment))
    {
      if k >= |orders| || orders[k].stage != FeeProtocol.Opened { return; }
      FeePromises.ItemisePromise(State(), k);
      InsertItems(k);
    }

    method InsertItems(k: nat)
      requires FeeProtocol.AtStage(State(), k, FeeProtocol.Opened)
      modifies this`items, this`orders, this`itemised
      ensures State() == FeeProtocol.ItemiseOrder(old(State()), true, k)
    {
      var o := orders[k];
      var ok := InsertLines(Lines(o.tenant, o.payment, o.quotes));
      if ok {
        itemised := itemised + {o.payment};
        orders := orders[k := o.(stage := FeeProtocol.Itemised)];
      } else {
        orders := orders[k := o.(stage := FeeProtocol.Aborted)];
      }
    }

    /** The payment gets the gateway's order id. */
    method LinkOrder(k: nat, order: nat)
      requires Valid()
      modifies this`payments, this`orders
      ensures Valid() && State() == FeeProtocol.LinkOrder(old(State()), k, order)
      ensures FeeProtocol.AtStage(old(State()), k, FeeProtocol.Itemised) ==>
                var p := old(orders)[k].payment;
                p < |old(payments)| && payments == old(payments)[p := old(payments)[p].(orderId := Some(order))]
    {
      FeeInvariants.LinkKeepsInv(State(), k, order);
      if FeeProtocol.AtStage(State(), k, FeeProtocol.Itemised) { FeePromises.LinkPromise(State(), k, order); }
      if k >= |orders| || orders[k].stage != FeeProtocol.Itemised || orders[k].payment >= |payments| { return; }
      var o := orders[k];
      payments := payments[o.payment := payments[o.payment].(orderId := Some(order))];
      orders := orders[k := o.(stage := FeeProtocol.Linked)];
    }

    // ---- scheduler ----

    /** UPDATE fee_payments SET status = 'failed' ... RETURNING id. `late` is the age test. */
    method FailExpired(late: set<PaymentId>) returns (timedOut: seq<PaymentId>)
      modifies this`payments
      ensures Expired(old(State()), timedOut)
      ensures forall p :: p in timedOut <==>
          p in late && FeeProtocol.StatusIn(old(payments), p, {Initiated, Processing})
      ensures |payments| == |old(payments)|
      ensures forall q :: 0 <= q < |payments| ==>
                payments[q] == if q in timedOut then old(payments)[q].(status := Failed) else old(payments)[q]
    {
      timedOut := [];
      for i := 0 to |payments|
        invariant |payments| == |old(payments)| && Distinct(timedOut)
        invariant forall p :: p in timedOut <==>
                    p < i && p in late && FeeProtocol.StatusIn(old(payments), p, {Initiated, Processing})
        invariant forall q :: 0 <= q < |payments| ==>
                    payments[q] == if q in timedOut then old(payments)[q].(status := Failed) else old(payments)[q]
      {
        if i in late && (payments[i].status.Initiated? || payments[i].status.Processing?) {
          assert forall j :: 0 <= j < |timedOut| ==> timedOut[j] in timedOut;
          payments := payments[i := payments[i].(status := Failed)];
          timedOut := timedOut + [i];
        }
      }
    }

    /** DELETE FROM fee_payment_items WHERE payment_id = ANY(...) */
    method FreeItems(timedOut: seq<PaymentId>, ghost s: Fees)
      requires Expired(s, timedOut) && items == s.items && bin == s.bin
      modifies this`items, this`bin
      ensures items == FeeProtocol.Sweep(s, timedOut).items && bin == FeeProtocol.Sweep(s, timedOut).bin
    {
      for i := 0 to |timedOut|
        invariant items == FeeProtocol.Sweep(s, timedOut[..i]).items && bin == FeeProtocol.Sweep(s, timedOut[..i]).bin
      {
        SweepOne(s, timedOut, i);
        DeleteItems(FeeProtocol.ItemsOf(items, timedOut[i]));
      }
      assert timedOut[..|timedOut|] == timedOut;
    }

    method EmitTimeouts(timedOut: seq<PaymentId>, ghost s: Fees)
      requires Expired(s, timedOut) && log == s.log && |payments| == |s.payments|
      requires forall q :: q in timedOut ==> payments[q] == s.payments[q].(status := Failed)
      modifies this`log
      ensures log == FeeProtocol.Sweep(s, timedOut).log
    {
      for i := 0 to |timedOut|
        invariant log == FeeProtocol.Sweep(s, timedOut[..i]).log
      {
        SweepOne(s, timedOut, i);
        assert timedOut[i] in timedOut;
        Emit(FeeProtocol.PaymentNote(PaymentTimeout, timedOut[i], payments[timedOut[i]]));
      }
      assert timedOut[..|timedOut|] == timedOut;
    }

    /** One statement flips every expired order, one frees all their items, then one event
        goes out each; the protocol times them out one after the other. */
    method TimeOut(late: set<PaymentId>) returns (timedOut: seq<PaymentId>)
      modifies this
      ensures State() == FeeProtocol.Sweep(old(State()), timedOut)
      ensures Distinct(timedOut)
      ensures forall p :: p in timedOut <==>
          p in late && FeeProtocol.StatusIn(old(payments), p, {Initiated, Processing})
    {
      ghost var s := State();
      timedOut := FailExpired(late);
      FreeItems(timedOut, s);
      EmitTimeouts(timedOut, s);
      SweepTables(s, timedOut);
    }

    /** Exactly the late orders fail, and none of them keeps a line item. */
    method GatewayPaymentSweep(late: set<PaymentId>) returns (timedOut: seq<PaymentId>)
      requires Valid()
      modifies this
      ensures Valid() && State() == FeeProtocol.Sweep(old(State()), timedOut)
      ensures Distinct(timedOut)
      ensures forall p :: p in timedOut <==>
          p in late && FeeProtocol.StatusIn(old(payments), p, {Initiated, Processing})
      ensures FeePromises.SweptExactly(old(State()), State(), timedOut)
    {
      ghost var s := State();
      timedOut := TimeOut(late);
      FeePromises.SweepPromise(s, timedOut);
    }

    /** The two UPDATEs of the lifecycle scan. A pending row with a due date ends with the
        status the date and the day call for, whatever scans were skipped. */
    method FeeLifecycleAdvance(today: int)
      requires Valid()
      modifies this`ledger
      ensures Valid() && State() == old(State()).(ledger := FeeProtocol.Advance(old(ledger), today))
      ensures |ledger| == |old(ledger)|
      ensures forall l :: 0 <= l < |ledger| ==> FeePromises.Scanned(old(ledger)[l], ledger[l], today)
    {
      FeePromises.AdvancePromise(State(), today);
      var dueCutoff, overdueCutoff := today, today - FeeProtocol.GRACE_DAYS;
      var before := ledger;
      ledger := seq(|before|, l requires 0 <= l < |before| =>
        var r := before[l];
        if r.status.Pending? && r.dueDate.Some? && r.dueDate.value <= dueCutoff && r.dueDate.value > overdueCutoff
        then r.(status := Due) else r);
      var middle := ledger;
      ledger := seq(|middle|, l requires 0 <= l < |middle| =>
        var r := middle[l];
        if (r.status.Pending? || r.status.Due?) && r.dueDate.Some? && r.dueDate.value <= overdueCutoff
        then r.(status := Overdue) else r);
      assert ledger == FeeProtocol.Advance(before, today);
    }
  }

  // ---- Proof steps ----

  /** The payment has been given the gateway's payment id. */
  function Noted(s: Fees, pick: PaymentId, gatewayPayment: nat): Fees
    requires pick < |s.payments|
  {
    s.(payments := s.payments[pick := s.payments[pick].(gatewayPaymentId := Some(gatewayPayment))])
  }

  /** Once a prefix of the lines cannot be inserted, the whole list cannot. */
  lemma {:induction false} FailsFromHere(items: seq<LineItem>, lines: seq<LineItem>, n: nat)
    requires n <= |lines| && Insert(items, lines[..n], true).None?
    ensures Insert(items, lines, true).None?
  {
    if n < |lines| {
      var m := |lines| - 1;
      assert lines[..m][..n] == lines[..n];
      FailsFromHere(items, lines[..m], n);
    } else {
      assert lines[..n] == lines;
    }
  }

  /** The new payment, already inserted, adds nothing to the items superseded. */
  lemma NewPaymentNotDead(s: Fees, now: Fees, pay: Payment, ids: seq<LedgerId>)
    requires pay.status !in FeeProtocol.DEAD && now.items == s.items && now.payments == s.payments + [pay]
    ensures FeeProtocol.DeadItemsOn(now, pay.tenant, ids) == FeeProtocol.DeadItemsOn(s, pay.tenant, ids)
  {
  }

  function Unpaid(pay: Payment): Payment { pay.(status := PendingVerification, receipt := None) }

  /** Inserting the payment as paid comes to the same as inserting it and paying it. */
  lemma ApprovedOnTheSpot(s: Fees, pay: Payment, ids: seq<LedgerId>, quotes: seq<Quote>)
    requires pay.status.Paid? && pay.receipt == Some(FeeProtocol.LastNumber(s.counters, pay.tenant) + 1)
    ensures match FeeProtocol.Hold(s, true, Unpaid(pay), ids, quotes, [])
            case None => true
            case Some(t) =>
              FeeProtocol.Pay(t, |s.payments|)
              == t.(payments := s.payments + [pay], counters := s.counters[pay.tenant := pay.receipt.value],
                    ledger := FeeProtocol.Settle(s.ledger, t.items, |s.payments|),
                    log := s.log + [FeeProtocol.PaymentNote(FeePaid, |s.payments|, pay)])
  {
  }

  predicate Expired(s: Fees, timedOut: seq<PaymentId>) {
    Distinct(timedOut) && forall p :: p in timedOut ==> FeeProtocol.StatusIn(s.payments, p, {Initiated, Processing})
  }

  lemma {:induction false} SweepTables(s: Fees, timedOut: seq<PaymentId>)
    requires Expired(s, timedOut)
    ensures var t := FeeProtocol.Sweep(s, timedOut);
            && t == s.(payments := t.payments, items := t.items, bin := t.bin, log := t.log)
            && |t.payments| == |s.payments|
            && forall q :: 0 <= q < |s.payments| ==>
                 t.payments[q] == if q in timedOut then s.payments[q].(status := Failed) else s.payments[q]
  {
    if timedOut == [] {
    } else {
      var n := |timedOut| - 1;
      assert timedOut == timedOut[..n] + [timedOut[n]];
      assert forall q :: q in timedOut <==> q in timedOut[..n] || q == timedOut[n];
      assert timedOut[n] !in timedOut[..n];
      SweepTables(s, timedOut[..n]);
    }
  }

  lemma SweepOne(s: Fees, timedOut: seq<PaymentId>, i: nat)
    requires Expired(s, timedOut) && i < |timedOut|
    ensures var t, p := FeeProtocol.Sweep(s, timedOut[..i]), timedOut[i];
            p < |t.payments| == |s.payments| && t.payments[p] == s.payments[p]
            && FeeProtocol.Sweep(s, timedOut[..i + 1])
                == FeeProtocol.Kill(t, p, Failed, PaymentTimeout, FeeProtocol.ItemsOf(t.items, p))
  {
    assert timedOut[..i + 1][..i] == timedOut[..i];
    assert forall p :: p in timedOut[..i] ==> p in timedOut;
    SweepTables(s, timedOut[..i]);
    assert timedOut[i] in timedOut && timedOut[i] !in timedOut[..i];
  }
}
