/** What holds over whole runs of the fee protocol. */
module FeeRuns {
  import opened Schema
  import opened Statements
  import opened FeeProtocol
  import opened FeeInvariants

  lemma {:induction false} RunKeepsInv(s: Fees, steps: seq<Step>)
    requires Inv(s)
    ensures Inv(Run(s, true, steps))
  {
    if steps == [] {
    } else {
      RunKeepsInv(s, steps[..|steps| - 1]);
      StepKeepsInv(Run(s, true, steps[..|steps| - 1]), steps[|steps| - 1]);
    }
  }

  lemma RunPaymentsOk(steps: seq<Step>)
    ensures PaymentsOk(Run(EMPTY, true, steps))
  {
    RunKeepsInv(EMPTY, steps);
  }

  // ---- Reachability ----

  predicate Yields(s: Fees, guard: bool, steps: seq<Step>, t: Fees) { Run(s, guard, steps) == t }

  ghost predicate Reaches(s: Fees, guard: bool, t: Fees) { exists steps :: Yields(s, guard, steps, t) }

  lemma ReachStep(s: Fees, guard: bool, t: Fees, step: Step)
    requires Reaches(s, guard, t)
    ensures Reaches(s, guard, Apply(t, guard, step))
  {
    var steps :| Yields(s, guard, steps, t);
    assert (steps + [step])[..|steps|] == steps;
    assert Yields(s, guard, steps + [step], Apply(t, guard, step));
  }

  lemma ReachFrom(s: Fees, t: Fees, u: Fees)
    requires Reaches(s, true, t) && Reaches(t, true, u)
    ensures Reaches(s, true, u)
  {
    var first :| Yields(s, true, first, t);
    var second :| Yields(t, true, second, u);
    RunConcat(s, first, second);
    assert Yields(s, true, first + second, u);
  }

  lemma SplitRun(s: Fees, steps: seq<Step>, j: nat)
    requires j < |steps|
    ensures Run(s, true, steps) == Run(Apply(Run(s, true, steps[..j]), true, steps[j]), true, steps[j + 1..])
  {
    assert steps[..j + 1][..j] == steps[..j];
    assert steps == steps[..j + 1] + steps[j + 1..];
    RunConcat(s, steps[..j + 1], steps[j + 1..]);
  }

  lemma {:induction false} RunConcat(s: Fees, first: seq<Step>, second: seq<Step>)
    ensures Run(s, true, first + second) == Run(Run(s, true, first), true, second)
  {
    if second == [] {
      assert first + second == first;
    } else {
      var n, all := |second| - 1, first + second;
      RunConcat(s, first, second[..n]);
      assert all[..|all| - 1] == first + second[..n] && all[|all| - 1] == second[n];
      calc {
        Run(s, true, all);
        Apply(Run(s, true, all[..|all| - 1]), true, all[|all| - 1]);
        Apply(Run(s, true, first + second[..n]), true, second[n]);
      }
    }
  }

  // ---- scheduler.money_reconciliation: its three queries ----

  function With(s: Fees, statuses: set<PaymentStatus>): set<PaymentId> {
    set p | 0 <= p < |s.payments| && s.payments[p].status in statuses
  }

  function DoublePay(s: Fees): set<LedgerId> {
    set l | 0 <= l < |s.ledger| && CountOn(s.items, l, With(s, LIVE)) > 1
  }

  function AmountMismatch(s: Fees): set<PaymentId> {
    set p | 0 <= p < |s.payments| && s.payments[p].status.Paid? && s.payments[p].amount != ItemSum(s.items, p)
  }

  function OrphanPaid(s: Fees): set<LedgerId> {
    set l | 0 <= l < |s.ledger| && s.ledger[l].status.Settled?
            && (s.ledger[l].payment.None? || CountOn(s.items, l, With(s, {Paid})) != 1)
  }

  lemma PaidOnce(s: Fees, l: LedgerId)
    requires OneItemPerRow(s.items) && References(s) && Settlement(s) && l < |s.ledger|
    ensures CountOn(s.items, l, With(s, LIVE)) <= 1
    ensures CountOn(s.items, l, With(s, {Paid})) == (if s.ledger[l].status.Settled? then 1 else 0)
    ensures forall it :: it in s.items && it.row == l && it.payment in With(s, {Paid}) ==>
              s.ledger[l].payment == Some(it.payment)
  {
    AtMostOneOn(s.items, l, With(s, LIVE));
    AtMostOneOn(s.items, l, With(s, {Paid}));
    assert forall it :: it in s.items ==> (StatusIn(s.payments, it.payment, {Paid}) <==> it.payment in With(s, {Paid}));
  }

  /** In every reachable state a row is paid exactly when one line item on it belongs to
      a paid payment; that payment is its payment_id, and no second live item exists. */
  lemma PaidExactlyOnce(steps: seq<Step>, l: LedgerId)
    requires l < |Run(EMPTY, true, steps).ledger|
    ensures var s := Run(EMPTY, true, steps);
            && CountOn(s.items, l, With(s, LIVE)) <= 1
            && CountOn(s.items, l, With(s, {Paid})) == (if s.ledger[l].status.Settled? then 1 else 0)
            && (forall it :: it in s.items && it.row == l && it.payment in With(s, {Paid}) ==>
                  s.ledger[l].payment == Some(it.payment))
  {
    RunKeepsInv(EMPTY, steps);
    PaidOnce(Run(EMPTY, true, steps), l);
  }

  /** Two of the three reconciliation queries never find anything. The third finds exactly
      the paid payments some of whose line items were superseded before they were paid. */
  lemma ReconciliationVerdict(steps: seq<Step>)
    ensures var s := Run(EMPTY, true, steps);
            && DoublePay(s) == {} && OrphanPaid(s) == {}
            && AmountMismatch(s) == set p | 0 <= p < |s.payments| && s.payments[p].status.Paid? && ItemSum(s.bin, p) > 0
  {
    var s := Run(EMPTY, true, steps);
    RunKeepsInv(EMPTY, steps);
    forall l | 0 <= l < |s.ledger| ensures l !in DoublePay(s) && l !in OrphanPaid(s) {
      PaidExactlyOnce(steps, l);
    }
    forall p | 0 <= p < |s.payments| && s.payments[p].status.Paid?
      ensures s.payments[p].amount != ItemSum(s.items, p) <==> ItemSum(s.bin, p) > 0
    {
      assert PaymentOk(s.payments[p], p in s.itemised);
    }
  }

  /** A claimed, approved or desk payment equals the sum of its line items; a paid gateway
      payment is at least that sum, short by exactly what was superseded. */
  lemma AmountsConserved(steps: seq<Step>, p: PaymentId)
    requires p < |Run(EMPTY, true, steps).payments|
    ensures var s := Run(EMPTY, true, steps);
            && (s.payments[p].status.PendingVerification?
                || (s.payments[p].status.Paid? && !s.payments[p].gateway.Online()) ==>
                  s.payments[p].amount == ItemSum(s.items, p))
            && (s.payments[p].status.Paid? ==>
                  s.payments[p].amount == ItemSum(s.items, p) + ItemSum(s.bin, p))
  {
    var s := Run(EMPTY, true, steps);
    RunKeepsInv(EMPTY, steps);
    assert PaymentOk(s.payments[p], p in s.itemised);
    if !s.payments[p].gateway.Online() && !s.payments[p].status.Rejected? {
      NoItemsNoSum(s.bin, p);
    }
  }

  // ---- When exactly a paid payment's amount and items part ----

  /** A claim or collection that is accepted while the pending order `p` holds a line of
      value on one of its rows. */
  predicate Supersedes(s: Fees, step: Step, p: PaymentId) {
    && Accepts(s, step)
    && StatusIn(s.payments, p, {Initiated})
    && exists it :: it in s.items && it.payment == p && it.tenant == step.tenant && it.row in step.ids && it.amount > 0
  }

  predicate SupersededAt(steps: seq<Step>, k: nat, p: PaymentId) {
    k < |steps| && Supersedes(Run(EMPTY, true, steps[..k]), steps[k], p)
  }

  predicate EverSuperseded(steps: seq<Step>, p: PaymentId) { exists k :: 0 <= k < |steps| && SupersededAt(steps, k, p) }

  lemma {:induction false} SumPositive(items: seq<LineItem>, p: PaymentId)
    ensures ItemSum(items, p) > 0 <==> exists it :: it in items && it.payment == p && it.amount > 0
  {
    if items == [] {
    } else {
      var n := |items| - 1;
      SumPositive(items[..n], p);
      assert forall it :: it in items <==> it in items[..n] || it == items[n];
    }
  }

  lemma BinAfterDelete(s: Fees, doomed: set<LineItem>, p: PaymentId)
    ensures var t := Delete(s, doomed);
            ItemSum(t.bin, p) > 0 <==>
              ItemSum(s.bin, p) > 0 || exists it :: it in s.items && it in doomed && it.payment == p && it.amount > 0
  {
    ItemSumConcat(s.bin, Only(s.items, doomed), p);
    SumPositive(Only(s.items, doomed), p);
  }

  lemma BinAfterHold(s: Fees, pay: Payment, ids: seq<LedgerId>, quotes: seq<Quote>, notes: seq<Event>, p: PaymentId)
    requires References(s) && CanHold(s, pay, ids, quotes) && StatusIn(s.payments, p, {Initiated, Paid})
    ensures Hold(s, true, pay, ids, quotes, notes).Some?
    ensures ItemSum(Hold(s, true, pay, ids, quotes, notes).value.bin, p) > 0 <==>
              ItemSum(s.bin, p) > 0 ||
              (StatusIn(s.payments, p, {Initiated}) &&
               exists it :: it in s.items && it.payment == p && it.tenant == pay.tenant && it.row in ids
                   && it.amount > 0)
  {
    HoldSucceeds(s, true, pay, ids, quotes, notes);
    var doomed := DeadItemsOn(s, pay.tenant, ids);
    BinAfterDelete(s, doomed, p);
    forall it | it in s.items && it.payment == p
      ensures it in doomed <==> StatusIn(s.payments, p, {Initiated}) && it.tenant == pay.tenant && it.row in ids
    {
    }
  }

  lemma {:induction false} BinAfterSweep(s: Fees, expired: seq<PaymentId>, p: PaymentId)
    requires StatusIn(Sweep(s, expired).payments, p, {Initiated, Paid})
    ensures StatusIn(s.payments, p, {Initiated, Paid}) && ItemSum(Sweep(s, expired).bin, p) == ItemSum(s.bin, p)
  {
    if expired == [] {
    } else {
      var t := Sweep(s, expired[..|expired| - 1]);
      var q := expired[|expired| - 1];
      if StatusIn(t.payments, q, {Initiated, Processing}) {
        assert p != q;
        NoItemsNoSum(Only(t.items, ItemsOf(t.items, q)), p);
        ItemSumConcat(t.bin, Only(t.items, ItemsOf(t.items, q)), p);
      }
      BinAfterSweep(s, expired[..|expired| - 1], p);
    }
  }

  lemma BinAfterClaim(s: Fees, step: Step, p: PaymentId)
    requires References(s) && (step.SClaim? || step.SCollect?) && StatusIn(s.payments, p, {Initiated, Paid})
    ensures ItemSum(Apply(s, true, step).bin, p) > 0 <==> ItemSum(s.bin, p) > 0 || Supersedes(s, step, p)
  {
    var quotes := Select(s.ledger, step.tenant, step.student, step.ids);
    if Accepts(s, step) {
      var gateway := if step.SClaim? then Upi else Offline;
      var pay := Payment(step.tenant, step.student, gateway, QuoteSum(quotes), PendingVerification, None, None, None);
      var notes := if step.SClaim? then [PaymentNote(PaymentClaimed, |s.payments|, pay)] else [];
      BinAfterHold(s, pay, step.ids, quotes, notes, p);
    }
  }

  lemma BinAfterStep(s: Fees, step: Step, p: PaymentId)
    requires References(s) && PaymentsOk(s) && p < |s.payments|
        && StatusIn(Apply(s, true, step).payments, p, {Initiated, Paid})
    requires s.payments[p].gateway.Online()
    ensures StatusIn(s.payments, p, {Initiated, Paid})
    ensures ItemSum(Apply(s, true, step).bin, p) > 0 <==> ItemSum(s.bin, p) > 0 || Supersedes(s, step, p)
  {
    StatusMoves(s, step, p);
    assert PaymentOk(s.payments[p], p in s.itemised);
    match step
    case SClaim(_, _, _) => BinAfterClaim(s, step, p);
    case SCollect(_, _, _, _) => BinAfterClaim(s, step, p);
    case SSweep(expired) => BinAfterSweep(s, expired, p);
    case SReject(tenant, q) =>
      if Awaiting(s, tenant, q) {
        var doomed := set it | it in s.items && it.tenant == tenant && it.payment == q;
        NoItemsNoSum(Only(s.items, doomed), p);
        ItemSumConcat(s.bin, Only(s.items, doomed), p);
      }
    case _ =>
  }

  /** The amount query of money_reconciliation finds a paid payment exactly when, while its
      order was pending, a claim or a desk collection took one of its lines of value. */
  lemma MismatchIffSuperseded(steps: seq<Step>, p: PaymentId)
    requires StatusIn(Run(EMPTY, true, steps).payments, p, {Paid})
    ensures p in AmountMismatch(Run(EMPTY, true, steps)) <==> EverSuperseded(steps, p)
  {
    ReconciliationVerdict(steps);
    var s := Run(EMPTY, true, steps);
    if s.payments[p].gateway.Online() {
      BinIffSuperseded(steps, p);
    } else {
      AmountsConserved(steps, p);
      forall k | 0 <= k < |steps| ensures !SupersededAt(steps, k, p) {
        SameGateway(steps, k, p);
      }
    }
  }

  /** An offline or UPI payment was never a pending order. */
  lemma {:induction false} SameGateway(steps: seq<Step>, k: nat, p: PaymentId)
    requires k <= |steps| && p < |Run(EMPTY, true, steps).payments|
    requires !Run(EMPTY, true, steps).payments[p].gateway.Online()
    ensures !StatusIn(Run(EMPTY, true, steps[..k]).payments, p, {Initiated})
  {
    var s := Run(EMPTY, true, steps);
    if k == |steps| {
      RunPaymentsOk(steps);
      assert steps[..k] == steps;
      assert PaymentOk(s.payments[p], p in s.itemised);
    } else {
      var n := |steps| - 1;
      var before := Run(EMPTY, true, steps[..n]);
      RunPaymentsOk(steps[..n]);
      assert steps[..n][..k] == steps[..k];
      if p < |before.payments| {
        StatusMoves(before, steps[n], p);
        SameGateway(steps[..n], k, p);
      } else {
        PaymentsOnlyGrow(EMPTY, steps[..n], k);
      }
    }
  }

  /** An order has lost a line of value exactly when it has been superseded. */
  lemma {:induction false} BinIffSuperseded(steps: seq<Step>, p: PaymentId)
    requires StatusIn(Run(EMPTY, true, steps).payments, p, {Initiated, Paid})
    requires Run(EMPTY, true, steps).payments[p].gateway.Online()
    ensures ItemSum(Run(EMPTY, true, steps).bin, p) > 0 <==> EverSuperseded(steps, p)
  {
    if steps == [] {
    } else {
      var n := |steps| - 1;
      var s := Run(EMPTY, true, steps[..n]);
      RunKeepsInv(EMPTY, steps[..n]);
      SupersededBefore(steps, p);
      if p < |s.payments| {
        StatusMoves(s, steps[n], p);
        BinAfterStep(s, steps[n], p);
        BinIffSuperseded(steps[..n], p);
      } else {
        OnlyOpenAddsOrders(s, steps[n], p);
        NoItemsNoSum(s.bin, p);
        NotYetSuperseded(steps[..n], p);
      }
    }
  }

  lemma NotYetSuperseded(steps: seq<Step>, p: PaymentId)
    requires |Run(EMPTY, true, steps).payments| <= p
    ensures !EverSuperseded(steps, p)
  {
    Initially();
    forall k | 0 <= k < |steps| ensures !SupersededAt(steps, k, p) {
      PaymentsOnlyGrow(EMPTY, steps, k);
    }
  }

  /** Some step superseded a line of `p`: the last one, or one before it. */
  lemma SupersededBefore(steps: seq<Step>, p: PaymentId)
    requires steps != []
    ensures var n := |steps| - 1;
            EverSuperseded(steps, p) <==>
                Supersedes(Run(EMPTY, true, steps[..n]), steps[n], p) || EverSuperseded(steps[..n], p)
  {
    var n := |steps| - 1;
    forall k | 0 <= k < n ensures SupersededAt(steps, k, p) <==> SupersededAt(steps[..n], k, p) {
      assert steps[..n][..k] == steps[..k];
    }
    assert SupersededAt(steps, n, p) <==> Supersedes(Run(EMPTY, true, steps[..n]), steps[n], p);
  }

  lemma OnlyOpenAddsOrders(s: Fees, step: Step, p: PaymentId)
    ensures |s.payments| <= p < |Apply(s, true, step).payments| && Apply(s, true, step).payments[p].gateway.Online() ==>
              step.SOpen? && Apply(s, true, step).bin == s.bin
  {
    if step.SSweep? { SweepKeepsIds(s, step.expired); }
  }

  // ---- Absorbing states ----

  lemma {:induction false} SweepKeepsIds(s: Fees, expired: seq<PaymentId>)
    ensures |Sweep(s, expired).payments| == |s.payments|
    ensures forall p :: 0 <= p < |s.payments| ==>
              var before, after := s.payments[p], Sweep(s, expired).payments[p];
              after == before || ((before.status.Initiated? || before.status.Processing?)
                                  && after == before.(status := Failed))
  {
    if expired == [] {
    } else {
      SweepKeepsIds(s, expired[..|expired| - 1]);
    }
  }

  /** What one step may do to a payment that exists. */
  predicate Moves(before: Payment, after: Payment) {
    && after.tenant == before.tenant && after.student == before.student
    && after.gateway == before.gateway && after.amount == before.amount
    && (after.status == before.status
        || (before.status.Initiated? && (after.status.Paid? || after.status.Failed?))
        || (before.status.PendingVerification? && (after.status.Paid? || after.status.Rejected?)))
    && (before.status.Paid? ==> after.receipt == before.receipt && after.gatewayPaymentId == before.gatewayPaymentId)
  }

  lemma CollectGrows(s: Fees, tenant: TenantId, student: StudentId, ids: seq<LedgerId>, how: string)
    ensures s.payments <= Collect(s, true, tenant, student, ids, how).0.payments
  {
  }

  lemma OrderMoves(s: Fees, step: Step, p: PaymentId)
    requires OrderStep(step) && p < |s.payments|
    ensures |s.payments| <= |Apply(s, true, step).payments|
    ensures Moves(s.payments[p], Apply(s, true, step).payments[p])
  {
  }

  lemma StatusMoves(s: Fees, step: Step, p: PaymentId)
    requires PaymentsOk(s) && p < |s.payments|
    ensures |s.payments| <= |Apply(s, true, step).payments|
    ensures Moves(s.payments[p], Apply(s, true, step).payments[p])
  {
    if OrderStep(step) { OrderMoves(s, step, p); } else { TransactionMoves(s, step, p); }
  }

  lemma TransactionMoves(s: Fees, step: Step, p: PaymentId)
    requires PaymentsOk(s) && p < |s.payments| && !OrderStep(step)
    ensures |s.payments| <= |Apply(s, true, step).payments|
    ensures Moves(s.payments[p], Apply(s, true, step).payments[p])
  {
    assert PaymentOk(s.payments[p], p in s.itemised);
    match step
    case SCollect(tenant, student, ids, how) => CollectGrows(s, tenant, student, ids, how);
    case SWebhook(order, gatewayPayment, pick) =>
      if pick < |s.payments| { assert PaymentOk(s.payments[pick], pick in s.itemised); }
    case SSweep(expired) => SweepKeepsIds(s, expired);
    case _ =>
  }

  /** Once paid, rejected or failed, a payment stays so, with the same receipt number and
      gateway payment id. */
  lemma {:induction false} Absorbing(s: Fees, steps: seq<Step>, p: PaymentId)
    requires Inv(s) && p < |s.payments|
    requires s.payments[p].status in {Paid, Rejected, Failed}
    ensures p < |Run(s, true, steps).payments|
    ensures var q := Run(s, true, steps).payments[p];
            q.status == s.payments[p].status && q.amount == s.payments[p].amount && q.tenant == s.payments[p].tenant
            && (q.status.Paid? ==>
                  q.receipt == s.payments[p].receipt && q.gatewayPaymentId == s.payments[p].gatewayPaymentId)
  {
    if steps == [] {
    } else {
      var n := |steps| - 1;
      Absorbing(s, steps[..n], p);
      RunKeepsInv(s, steps[..n]);
      StatusMoves(Run(s, true, steps[..n]), steps[n], p);
    }
  }

  lemma {:induction false} PaymentsOnlyGrow(s: Fees, steps: seq<Step>, k: nat)
    requires Inv(s) && k <= |steps|
    ensures |Run(s, true, steps[..k]).payments| <= |Run(s, true, steps).payments|
  {
    var n := |steps| - 1;
    if k <= n {
      assert steps[..n][..k] == steps[..k];
      PaymentsOnlyGrow(s, steps[..n], k);
      RunKeepsInv(s, steps[..n]);
      PaymentsGrow(Run(s, true, steps[..n]), steps[n]);
    } else {
      assert steps[..k] == steps;
    }
  }

  lemma PaymentsGrow(s: Fees, step: Step)
    requires PaymentsOk(s)
    ensures |s.payments| <= |Apply(s, true, step).payments|
  {
    if s.payments != [] { StatusMoves(s, step, 0); }
  }

  /** No payment sits in 'processing' between transactions, a waived row is held by no
      claim and no paid payment, and no payment is reported both rejected and timed out. */
  lemma BoundaryFacts(steps: seq<Step>)
    ensures var s := Run(EMPTY, true, steps);
            && (forall p :: 0 <= p < |s.payments| ==>
                  && !s.payments[p].status.Processing?
                  && CountEvents(s.log, PaymentRejected, p) + CountEvents(s.log, PaymentTimeout, p) <= 1)
            && (forall it :: it in s.items && it.row < |s.ledger| && s.ledger[it.row].status.Waived? ==>
                  !StatusIn(s.payments, it.payment, LIVE))
  {
    var s := Run(EMPTY, true, steps);
    RunKeepsInv(EMPTY, steps);
    WaivedRowsFree(s);
    forall p | 0 <= p < |s.payments|
      ensures !s.payments[p].status.Processing?
      ensures CountEvents(s.log, PaymentRejected, p) + CountEvents(s.log, PaymentTimeout, p) <= 1
    {
      NotBothNotices(s, p);
    }
  }

  lemma WaivedRowsFree(s: Fees)
    requires References(s) && Settlement(s) && PaymentsOk(s)
    ensures forall it :: it in s.items && it.row < |s.ledger| && s.ledger[it.row].status.Waived? ==>
              !StatusIn(s.payments, it.payment, LIVE)
  {
  }

  lemma NotBothNotices(s: Fees, p: PaymentId)
    requires PaymentsOk(s) && Journal(s) && p < |s.payments|
    ensures !s.payments[p].status.Processing?
    ensures CountEvents(s.log, PaymentRejected, p) + CountEvents(s.log, PaymentTimeout, p) <= 1
  {
  }

  // ---- The guard ----

  /** From any sound state, every step but the order's item insert does the same with and
      without the UNIQUE (tenant_id, ledger_id) constraint. */
  lemma GuardIdleInStep(s: Fees, step: Step)
    requires References(s) && !step.SItemise?
    ensures Apply(s, false, step) == Apply(s, true, step)
  {
    match step
    case SClaim(tenant, student, ids) => SameInsert(s, tenant, student, ids);
    case SCollect(tenant, student, ids, how) => SameInsert(s, tenant, student, ids);
    case _ =>
  }

  lemma SameInsert(s: Fees, tenant: TenantId, student: StudentId, ids: seq<LedgerId>)
    requires References(s)
    ensures var quotes := Select(s.ledger, tenant, student, ids);
            var rest := Without(s.items, DeadItemsOn(s, tenant, ids));
            !HeldLive(s, tenant, ids) ==>
              Insert(rest, Lines(tenant, |s.payments|, quotes), false)
                  == Insert(rest, Lines(tenant, |s.payments|, quotes), true)
  {
    var quotes := Select(s.ledger, tenant, student, ids);
    var rest := Without(s.items, DeadItemsOn(s, tenant, ids));
    if !HeldLive(s, tenant, ids) {
      RowsFreed(s, Payment(tenant, student, Upi, QuoteSum(quotes), PendingVerification, None, None, None), ids, quotes);
      InsertSucceeds(rest, tenant, |s.payments|, quotes, false);
      InsertSucceeds(rest, tenant, |s.payments|, quotes, true);
    }
  }

  /** Runs of claims, approvals, rejections, collections, waivers, sweeps and the rest
      need no guard: without it they go exactly as with it, so all the above holds. */
  lemma {:induction false} GuardIdleInRuns(s: Fees, steps: seq<Step>)
    requires Inv(s) && forall step :: step in steps ==> !step.SItemise?
    ensures Run(s, false, steps) == Run(s, true, steps) && Inv(Run(s, false, steps))
  {
    if steps == [] {
    } else {
      var n := |steps| - 1;
      assert steps[n] in steps;
      GuardIdleInRuns(s, steps[..n]);
      RunKeepsInv(s, steps[..n]);
      StepKeepsInv(Run(s, true, steps[..n]), steps[n]);
      GuardIdleInStep(Run(s, true, steps[..n]), steps[n]);
    }
  }

  // ---- Tenants ----

  /** Work done for one tenant: its own requests, a webhook for one of its orders, and the
      statements of its orders. */
  predicate Scoped(s: Fees, step: Step, tenant: TenantId) {
    match step
    case SClaim(t, _, _) => t == tenant
    case SCollect(t, _, _, _) => t == tenant
    case SApprove(t, _) => t == tenant
    case SReject(t, _) => t == tenant
    case SWaive(t, _, _, _) => t == tenant
    case SReprice(t, _, _) => t == tenant
    case SWebhook(_, _, pick) => pick < |s.payments| && s.payments[pick].tenant == tenant
    case SQuote(t, _, _, _) => t == tenant
    case SOpen(k) => k < |s.orders| && s.orders[k].tenant == tenant
    case SItemise(k) => k < |s.orders| && s.orders[k].tenant == tenant
    case SLink(k, _) => k < |s.orders| && s.orders[k].tenant == tenant
    case _ => false
  }

  /** Nothing of another tenant's changes: rows, payments, line items and receipt counter. */
  ghost predicate Foreign(s: Fees, t: Fees, tenant: TenantId) {
    && |s.ledger| <= |t.ledger| && |s.payments| <= |t.payments|
    && (forall l :: 0 <= l < |s.ledger| && s.ledger[l].tenant != tenant ==> t.ledger[l] == s.ledger[l])
    && (forall p :: 0 <= p < |s.payments| && s.payments[p].tenant != tenant ==> t.payments[p] == s.payments[p])
    && (forall it: LineItem :: it.tenant != tenant ==> (it in t.items <==> it in s.items))
    && (forall other :: other != tenant ==> LastNumber(t.counters, other) == LastNumber(s.counters, other))
  }

  lemma PayForeign(s: Fees, p: PaymentId)
    requires References(s) && p < |s.payments|
    ensures Foreign(s, Pay(s, p), s.payments[p].tenant)
  {
  }

  lemma ClaimForeign(s: Fees, tenant: TenantId, student: StudentId, ids: seq<LedgerId>)
    ensures Foreign(s, SubmitClaim(s, true, tenant, student, ids).0, tenant)
  {
  }

  lemma CollectForeign(s: Fees, tenant: TenantId, student: StudentId, ids: seq<LedgerId>, how: string)
    requires References(s)
    ensures Foreign(s, Collect(s, true, tenant, student, ids, how).0, tenant)
  {
    var quotes := Select(s.ledger, tenant, student, ids);
    var pay := Payment(tenant, student, Offline, QuoteSum(quotes), PendingVerification, None, None, None);
    if how in METHODS && ids != [] && |quotes| == |ids| && !HeldLive(s, tenant, ids) {
      HoldKeepsReferences(s, true, pay, ids, quotes, []);
      PayForeign(Hold(s, true, pay, ids, quotes, []).value, |s.payments|);
    }
  }

  lemma WebhookForeign(s: Fees, order: nat, gatewayPayment: nat, pick: PaymentId)
    requires References(s) && pick < |s.payments|
    ensures Foreign(s, Webhook(s, order, gatewayPayment, pick).0, s.payments[pick].tenant)
  {
    var t := s.(payments := s.payments[pick := s.payments[pick].(gatewayPaymentId := Some(gatewayPayment))]);
    SameStatusReferences(s, t);
    PayForeign(t, pick);
  }

  lemma SameStatusReferences(s: Fees, t: Fees)
    requires References(s) && Stable(s, t) && |t.payments| == |s.payments|
    requires t.ledger == s.ledger && t.items == s.items && t.bin == s.bin
    ensures References(t)
  {
  }

  lemma OrderForeign(s: Fees, step: Step, tenant: TenantId)
    requires OrdersOk(s) && OrderStep(step) && Scoped(s, step, tenant)
    ensures Foreign(s, Apply(s, true, step), tenant)
  {
    match step
    case SItemise(k) => LinesMembers(s.orders[k].tenant, s.orders[k].payment, s.orders[k].quotes);
    case SLink(k, _) => assert StageFits(s.payments, s.itemised, s.orders[k]);
    case _ =>
  }

  /** Whatever is done for one tenant leaves every other tenant's rows, payments, line items
      and receipt numbers alone, even where its UPDATE does not name the tenant. */
  lemma TenantIsolation(s: Fees, step: Step, tenant: TenantId)
    requires References(s) && OrdersOk(s) && Scoped(s, step, tenant)
    ensures Foreign(s, Apply(s, true, step), tenant)
  {
    match step
    case SClaim(_, student, ids) => ClaimForeign(s, tenant, student, ids);
    case SCollect(_, student, ids, how) => CollectForeign(s, tenant, student, ids, how);
    case SApprove(_, p) => if Awaiting(s, tenant, p) { PayForeign(s, p); }
    case SWebhook(order, gatewayPayment, pick) => WebhookForeign(s, order, gatewayPayment, pick);
    case SReject(_, _) =>
    case SWaive(_, _, _, _) =>
    case SReprice(_, _, _) =>
    case _ => OrderForeign(s, step, tenant);
  }
}
