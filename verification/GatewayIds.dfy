/** A gateway's payment id is booked once: migration 011's UNIQUE (gateway_payment_id) and what
    the webhook makes of it. */
module GatewayIds {
  import opened Schema
  import opened Statements
  import opened FeeProtocol
  import opened FeeInvariants
  import opened FeeRuns
  import opened OrderTrail

  /** Exactly the paid gateway payments carry a gateway payment id. */
  predicate Booked(payments: seq<Payment>) {
    forall p :: 0 <= p < |payments| ==>
      (payments[p].gatewayPaymentId.Some? <==> payments[p].gateway.Online() && payments[p].status.Paid?)
  }

  /** No two payments carry the same one. */
  predicate IdsDiffer(payments: seq<Payment>) {
    forall p, q :: 0 <= p < q < |payments| && payments[p].gatewayPaymentId.Some? ==>
      payments[p].gatewayPaymentId != payments[q].gatewayPaymentId
  }

  // ---- One step ----

  /** The step is a webhook that books `p`. */
  predicate BooksAt(s: Fees, step: Step, p: PaymentId) {
    step.SWebhook? && step.pick == p && Books(s, step.order, step.gatewayPayment, p)
  }

  /** What a step makes of the gateway side of a payment. */
  predicate IdMove(s: Fees, step: Step, p: PaymentId, before: Payment, after: Payment) {
    && after.gateway == before.gateway
    && if BooksAt(s, step, p) then after.status.Paid? && after.gatewayPaymentId == Some(step.gatewayPayment)
       else after.gatewayPaymentId == before.gatewayPaymentId
            && (before.gateway.Online() ==> (after.status.Paid? <==> before.status.Paid?))
  }

  lemma OrderIds(s: Fees, step: Step, p: PaymentId)
    requires OrderStep(step) && p < |s.payments|
    ensures p < |Apply(s, true, step).payments| && IdMove(s, step, p, s.payments[p], Apply(s, true, step).payments[p])
  {
  }

  lemma WebhookIds(s: Fees, step: Step, p: PaymentId)
    requires PaymentsOk(s) && step.SWebhook? && p < |s.payments|
    ensures p < |Apply(s, true, step).payments| && IdMove(s, step, p, s.payments[p], Apply(s, true, step).payments[p])
  {
    if step.pick < |s.payments| { assert PaymentOk(s.payments[step.pick], step.pick in s.itemised); }
  }

  lemma StepIds(s: Fees, step: Step, p: PaymentId)
    requires PaymentsOk(s) && p < |s.payments|
    ensures p < |Apply(s, true, step).payments| && IdMove(s, step, p, s.payments[p], Apply(s, true, step).payments[p])
  {
    assert PaymentOk(s.payments[p], p in s.itemised);
    match step
    case SCollect(tenant, student, ids, how) => CollectGrows(s, tenant, student, ids, how);
    case SWebhook(_, _, _) => WebhookIds(s, step, p);
    case SSweep(expired) => SweepKeepsIds(s, expired);
    case _ => if OrderStep(step) { OrderIds(s, step, p); }
  }

  /** A payment a step inserts carries no gateway payment id, and is not paid by a gateway. */
  lemma NewPaymentIds(s: Fees, step: Step, p: PaymentId)
    requires References(s) && |s.payments| <= p < |Apply(s, true, step).payments|
    ensures var pay := Apply(s, true, step).payments[p];
            pay.gatewayPaymentId.None? && !(pay.gateway.Online() && pay.status.Paid?)
  {
    match step
    case SClaim(_, _, _) => if Accepts(s, step) { AcceptedApply(s, step); } else { RefusedApply(s, step); }
    case SCollect(_, _, _, _) => if Accepts(s, step) { AcceptedApply(s, step); } else { RefusedApply(s, step); }
    case SSweep(expired) => SweepKeepsIds(s, expired);
    case _ =>
  }

  lemma StepKeepsBooked(s: Fees, step: Step)
    requires References(s) && PaymentsOk(s) && Booked(s.payments) && IdsDiffer(s.payments)
    ensures Booked(Apply(s, true, step).payments) && IdsDiffer(Apply(s, true, step).payments)
  {
    var t := Apply(s, true, step);
    forall p | 0 <= p < |t.payments|
      ensures p < |s.payments| ==> IdMove(s, step, p, s.payments[p], t.payments[p])
      ensures |s.payments| <= p ==>
                && t.payments[p].gatewayPaymentId.None?
                && !(t.payments[p].gateway.Online() && t.payments[p].status.Paid?)
    {
      if p < |s.payments| { StepIds(s, step, p); } else { NewPaymentIds(s, step, p); }
    }
    if step.SWebhook? && step.pick < |s.payments| { assert PaymentOk(s.payments[step.pick], step.pick in s.itemised); }
  }

  // ---- Runs ----

  /** In every reachable state exactly the paid gateway payments carry a gateway payment id,
      and no two carry the same. */
  lemma {:induction false} IdsUnique(steps: seq<Step>)
    ensures Booked(Run(EMPTY, true, steps).payments) && IdsDiffer(Run(EMPTY, true, steps).payments)
  {
    if steps == [] {
    } else {
      var n := |steps| - 1;
      IdsUnique(steps[..n]);
      RunKeepsInv(EMPTY, steps[..n]);
      StepKeepsBooked(Run(EMPTY, true, steps[..n]), steps[n]);
    }
  }

  /** Step `i` is a webhook with gateway payment id `g` that turns the pending order `p` paid. */
  predicate PaysWith(steps: seq<Step>, i: nat, p: PaymentId, g: nat) {
    && i < |steps| && steps[i].SWebhook? && steps[i].gatewayPayment == g
    && StatusIn(Run(EMPTY, true, steps[..i]).payments, p, {Initiated})
    && StatusIn(Apply(Run(EMPTY, true, steps[..i]), true, steps[i]).payments, p, {Paid})
  }

  lemma PaysBooks(s: Fees, step: Step, p: PaymentId)
    requires PaymentsOk(s) && step.SWebhook? && StatusIn(s.payments, p, {Initiated})
    requires StatusIn(Apply(s, true, step).payments, p, {Paid})
    ensures Apply(s, true, step).payments[p].gatewayPaymentId == Some(step.gatewayPayment)
  {
    assert PaymentOk(s.payments[p], p in s.itemised);
    StepIds(s, step, p);
  }

  /** The payment is paid and carries the id the webhook came with, whatever happens later. */
  lemma BookedForGood(steps: seq<Step>, i: nat, p: PaymentId, g: nat)
    requires PaysWith(steps, i, p, g)
    ensures StatusIn(Run(EMPTY, true, steps).payments, p, {Paid})
    ensures Run(EMPTY, true, steps).payments[p].gatewayPaymentId == Some(g)
  {
    var s := Run(EMPTY, true, steps[..i]);
    RunKeepsInv(EMPTY, steps[..i]);
    PaysBooks(s, steps[i], p);
    StepKeepsInv(s, steps[i]);
    SplitRun(EMPTY, steps, i);
    Absorbing(Apply(s, true, steps[i]), steps[i + 1..], p);
  }

  /** A gateway payment pays one order, once: of all the webhooks of a run with one gateway
      payment id at most one turns a pending order paid. */
  lemma OnePaymentOneOrder(steps: seq<Step>, i: nat, j: nat, p: PaymentId, q: PaymentId, g: nat)
    requires PaysWith(steps, i, p, g) && PaysWith(steps, j, q, g)
    ensures p == q && i == j
  {
    BookedForGood(steps, i, p, g);
    BookedForGood(steps, j, q, g);
    IdsUnique(steps);
    if i < j { PaidBefore(steps, i, j, p, g); }
    if j < i { PaidBefore(steps, j, i, q, g); }
  }

  /** Having paid, the order is not pending at any later step. */
  lemma PaidBefore(steps: seq<Step>, i: nat, j: nat, p: PaymentId, g: nat)
    requires PaysWith(steps, i, p, g) && i < j <= |steps|
    ensures !StatusIn(Run(EMPTY, true, steps[..j]).payments, p, {Initiated})
  {
    assert steps[..j][..i] == steps[..i] && steps[..j][i] == steps[i];
    BookedForGood(steps[..j], i, p, g);
  }
}
