/** When a waived ledger row stays waived. */
module WaivedRows {
  import opened Schema
  import opened Statements
  import opened FeeProtocol
  import opened FeeInvariants
  import opened FeeRuns
  import opened OrderTrail
  import FeeLifecycle

  predicate WaivedAt(s: Fees, l: LedgerId) { l < |s.ledger| && s.ledger[l].status.Waived? }

  /** A webhook that passes its checks, for a payment with a line item on the row. */
  predicate PaidByWebhook(s: Fees, step: Step, l: LedgerId) {
    step.SWebhook? && Books(s, step.order, step.gatewayPayment, step.pick) && OnRow(s, step.pick, l)
  }

  lemma AcceptedKeepsWaived(s: Fees, step: Step, l: LedgerId)
    requires References(s) && Accepts(s, step) && WaivedAt(s, l)
    ensures WaivedAt(Apply(s, true, step), l)
  {
    AcceptedApply(s, step);
    HoldItems(s, true, Request(s, step), step.ids, Chosen(s, step), RequestNotes(s, step));
  }

  lemma WebhookOnWaived(s: Fees, step: Step, l: LedgerId)
    requires PaymentsOk(s) && WaivedAt(s, l) && step.SWebhook?
    ensures WaivedAt(Apply(s, true, step), l) <==> !PaidByWebhook(s, step, l)
  {
    if step.pick < |s.payments| { assert PaymentOk(s.payments[step.pick], step.pick in s.itemised); }
  }

  /** One step: a waived row stays waived unless the step is a webhook that passes its checks
      for a pending order still holding a line item on the row. */
  lemma StaysWaivedStep(s: Fees, step: Step, l: LedgerId)
    requires References(s) && Settlement(s) && PaymentsOk(s) && WaivedAt(s, l)
    ensures WaivedAt(Apply(s, true, step), l) <==> !PaidByWebhook(s, step, l)
  {
    match step
    case SClaim(_, _, _) => if Accepts(s, step) { AcceptedKeepsWaived(s, step, l); } else { RefusedApply(s, step); }
    case SCollect(_, _, _, _) =>
      if Accepts(s, step) { AcceptedKeepsWaived(s, step, l); } else { RefusedApply(s, step); }
    case SApprove(_, _) => WaivedRowsFree(s);
    case SWebhook(_, _, _) => WebhookOnWaived(s, step, l);
    case SSweep(expired) => FeeLifecycle.SweepKeepsLedger(s, expired);
    case _ =>
  }

  // ---- Whole runs ----

  /** An item that nothing will ever delete sits on the row: it belongs to a paid payment, or
      to one timed out before its items went in, and the row can no longer be claimed. */
  predicate Stuck(s: Fees, r: LedgerId) {
    && r < |s.ledger| && !s.ledger[r].status.Payable()
    && exists it :: it in s.items && it.row == r && StatusIn(s.payments, it.payment, {Paid, Failed})
  }

  /** An order that has not inserted its items yet, still can, and names the row. */
  predicate MayInsert(s: Fees, k: nat, l: LedgerId) {
    && k < |s.orders|
    && (s.orders[k].stage.Quoted?
        || (s.orders[k].stage.Opened? && StatusIn(s.payments, s.orders[k].payment, {Initiated})))
    && (exists q :: q in s.orders[k].quotes && q.row == l)
    && (forall q :: q in s.orders[k].quotes ==> !Stuck(s, q.row))
  }

  /** A pending order holds the row or can still come to hold it. */
  predicate Exposed(s: Fees, l: LedgerId) {
    || (exists p :: 0 <= p < |s.payments| && s.payments[p].status.Initiated? && OnRow(s, p, l))
    || (exists k :: 0 <= k < |s.orders| && MayInsert(s, k, l))
  }

  lemma AcceptedIdsPayable(s: Fees, step: Step)
    requires Accepts(s, step)
    ensures forall id :: id in step.ids ==> id < |s.ledger| && Matches(s.ledger[id], step.tenant, step.student)
  {
    LengthTestExact(s.ledger, step.tenant, step.student, step.ids);
  }

  lemma StuckForEver(s: Fees, step: Step, r: LedgerId)
    requires References(s) && PaymentsOk(s) && Stuck(s, r)
    ensures Stuck(Apply(s, true, step), r)
  {
    var it :| it in s.items && it.row == r && StatusIn(s.payments, it.payment, {Paid, Failed});
    FeeLifecycle.RowLife(s, true, step, r);
    StatusMoves(s, step, it.payment);
    ItemStaysIff(s, step, it);
    if Accepts(s, step) { AcceptedIdsPayable(s, step); }
  }

  /** A line whose row carries an item of the tenant stops the whole insert. */
  lemma {:induction false} ClashStopsInsert(items: seq<LineItem>, lines: seq<LineItem>, i: nat, x: LineItem)
    requires i < |lines| && x in items && x.row == lines[i].row && x.tenant == lines[i].tenant
    ensures Insert(items, lines, true).None?
  {
    var n := |lines| - 1;
    if i == n {
    } else {
      ClashStopsInsert(items, lines[..n], i, x);
    }
  }

  lemma StuckStopsOrder(s: Fees, k: nat, q: Quote)
    requires References(s) && OrdersOk(s) && AtStage(s, k, Opened) && q in s.orders[k].quotes && Stuck(s, q.row)
    ensures ItemiseOrder(s, true, k).items == s.items
  {
    var o := s.orders[k];
    var i :| 0 <= i < |o.quotes| && o.quotes[i] == q;
    var x :| x in s.items && x.row == q.row && StatusIn(s.payments, x.payment, {Paid, Failed});
    assert ItemOk(s, x) && QuotesFit(s.ledger, o);
    ClashStopsInsert(s.items, Lines(o.tenant, o.payment, o.quotes), i, x);
  }

  lemma NoNewHolder(s: Fees, step: Step, p: PaymentId, l: LedgerId)
    requires References(s) && OrdersOk(s) && PaymentsOk(s) && WaivedAt(s, l) && !Exposed(s, l)
    requires StatusIn(Apply(s, true, step).payments, p, {Initiated})
    ensures !OnRow(Apply(s, true, step), p, l)
  {
    var t := Apply(s, true, step);
    forall it | it in t.items && it.payment == p && it.row == l ensures false {
      if it in s.items {
        assert ItemOk(s, it) && OnRow(s, p, l);
        StatusMoves(s, step, p);
      } else {
        NewItem(s, step, it);
        assert !MayInsert(s, step.k, l);
        var q :| q in s.orders[step.k].quotes && Stuck(s, q.row);
        StuckStopsOrder(s, step.k, q);
      }
    }
  }

  /** What becomes of an order in one step. */
  lemma OrderFate(s: Fees, step: Step, k: nat)
    requires References(s) && OrdersOk(s) && k < |Apply(s, true, step).orders|
    ensures var t := Apply(s, true, step);
            if k < |s.orders| then
              && t.orders[k].quotes == s.orders[k].quotes
              && (t.orders[k].stage.Quoted? ==> s.orders[k].stage.Quoted?)
              && (t.orders[k].stage.Opened? && !s.orders[k].stage.Quoted? ==>
                    t.orders[k] == s.orders[k] && s.orders[k].payment < |s.payments|)
            else t.orders[k].stage.Quoted? && forall q :: q in t.orders[k].quotes ==>
                q.row < |s.ledger| && s.ledger[q.row].status.Payable()
  {
    if k < |s.orders| { assert QuotesFit(s.ledger, s.orders[k]) && StageFits(s.payments, s.itemised, s.orders[k]); }
    if !OrderStep(step) { StepKeepsOrders(s, step); }
  }

  lemma MayInsertBefore(s: Fees, step: Step, k: nat, l: LedgerId)
    requires References(s) && OrdersOk(s) && PaymentsOk(s) && WaivedAt(s, l) && MayInsert(Apply(s, true, step), k, l)
    ensures MayInsert(s, k, l)
  {
    var t := Apply(s, true, step);
    OrderFate(s, step, k);
    if t.orders[k].stage.Opened? && !s.orders[k].stage.Quoted? { StatusMoves(s, step, s.orders[k].payment); }
    forall q | q in t.orders[k].quotes && Stuck(s, q.row) ensures false { StuckForEver(s, step, q.row); }
  }

  lemma UnexposedStep(s: Fees, step: Step, l: LedgerId)
    requires References(s) && OrdersOk(s) && Settlement(s) && PaymentsOk(s) && WaivedAt(s, l) && !Exposed(s, l)
    ensures WaivedAt(Apply(s, true, step), l) && !Exposed(Apply(s, true, step), l)
  {
    StaysWaivedStep(s, step, l);
    var t := Apply(s, true, step);
    forall p | 0 <= p < |t.payments| && t.payments[p].status.Initiated?
      ensures !OnRow(t, p, l) { NoNewHolder(s, step, p, l); }
    forall k | 0 <= k < |t.orders| && MayInsert(t, k, l) ensures false { MayInsertBefore(s, step, k, l); }
  }

  lemma {:induction false} UnexposedRun(s: Fees, steps: seq<Step>, l: LedgerId)
    requires Inv(s) && WaivedAt(s, l) && !Exposed(s, l)
    ensures WaivedAt(Run(s, true, steps), l) && !Exposed(Run(s, true, steps), l)
  {
    if steps == [] {
    } else {
      RunKeepsInv(s, steps[..|steps| - 1]);
      UnexposedRun(s, steps[..|steps| - 1], l);
      UnexposedStep(Run(s, true, steps[..|steps| - 1]), steps[|steps| - 1], l);
    }
  }

  // ---- An exposed row can be paid ----

  ghost predicate CanBePaid(s: Fees, l: LedgerId) {
    exists t :: Reaches(s, true, t) && l < |t.ledger| && t.ledger[l].status.Settled?
  }

  /** An identifier no payment has had from the gateway. */
  function FreshId(payments: seq<Payment>): (id: nat)
    ensures forall p :: 0 <= p < |payments| && payments[p].gatewayPaymentId.Some? ==>
        payments[p].gatewayPaymentId.value < id
  {
    if payments == [] then 0 else
      var n := |payments| - 1;
      var id := FreshId(payments[..n]);
      match payments[n].gatewayPaymentId
      case None => id
      case Some(used) => if used < id then id else used + 1
  }

  lemma PayLinked(s: Fees, t: Fees, p: PaymentId, l: LedgerId)
    requires Reaches(s, true, t) && References(t) && StatusIn(t.payments, p, {Initiated}) && t.payments[p].orderId.Some?
    requires OnRow(t, p, l)
    ensures CanBePaid(s, l)
  {
    var step := SWebhook(t.payments[p].orderId.value, FreshId(t.payments), p);
    var it :| it in t.items && it.payment == p && it.row == l;
    assert ItemOk(t, it);
    ReachStep(s, true, t, step);
    assert Apply(t, true, step).ledger == Settle(t.ledger, t.items, p);
  }

  lemma LinkFirst(s: Fees, k: nat)
    requires Inv(s) && AtStage(s, k, Itemised)
    ensures var t, p := LinkOrder(s, k, 0), s.orders[k].payment;
            && Inv(t) && t.items == s.items && p < |s.payments| == |t.payments|
            && t.payments[p] == s.payments[p].(orderId := Some(0))
  {
    LinkKeepsInv(s, k, 0);
    assert StageFits(s.payments, s.itemised, s.orders[k]);
  }

  lemma PayHeld(s: Fees, t: Fees, p: PaymentId, l: LedgerId)
    requires Reaches(s, true, t) && Inv(t) && Trail(t) && StatusIn(t.payments, p, {Initiated}) && OnRow(t, p, l)
    ensures CanBePaid(s, l)
  {
    assert PaymentOk(t.payments[p], p in t.itemised);
    var k :| 0 <= k < |t.orders| && Behind(t.orders, k, p);
    assert StageFits(t.payments, t.itemised, t.orders[k]);
    if t.orders[k].stage.Linked? {
      PayLinked(s, t, p, l);
    } else {
      LinkFirst(t, k);
      ReachStep(s, true, t, SLink(k, 0));
      PayLinked(s, LinkOrder(t, k, 0), p, l);
    }
  }

  /** Row `r` has been freed: its items are gone, no others came, and only payments that
      have no items left have changed. */
  predicate Freed(s: Fees, t: Fees, r: LedgerId) {
    && t.ledger == s.ledger && t.orders == s.orders && |s.payments| <= |t.payments|
    && (forall it :: it in t.items ==> it in s.items && it.row != r && it.payment < |s.payments|)
    && (forall p :: 0 <= p < |s.payments| ==>
          t.payments[p] == s.payments[p] || (OnRow(s, p, r) && forall it :: it in t.items ==> it.payment != p))
  }

  lemma RejectFrees(s: Fees, it: LineItem)
    requires References(s) && OneItemPerRow(s.items) && it in s.items
    requires StatusIn(s.payments, it.payment, {PendingVerification})
    ensures Freed(s, Apply(s, true, SReject(it.tenant, it.payment)), it.row)
  {
    var t := Apply(s, true, SReject(it.tenant, it.payment));
    assert ItemOk(s, it);
    forall x | x in t.items ensures x in s.items && x.row != it.row && x.payment != it.payment {
      assert ItemOk(s, x);
      if x.row == it.row { SameRow(s.items, x, it); }
    }
  }

  lemma SweepFrees(s: Fees, it: LineItem)
    requires References(s) && OneItemPerRow(s.items) && it in s.items && StatusIn(s.payments, it.payment, {Initiated})
    ensures Freed(s, Apply(s, true, SSweep([it.payment])), it.row)
  {
    assert [it.payment][..0] == [];
    assert Sweep(s, []) == s;
    var t := Apply(s, true, SSweep([it.payment]));
    assert t == Kill(s, it.payment, Failed, PaymentTimeout, ItemsOf(s.items, it.payment));
    forall x | x in t.items ensures x in s.items && x.row != it.row && x.payment != it.payment && ItemOk(s, x) {
      if x.row == it.row { SameRow(s.items, x, it); }
    }
  }

  /** What a claim of one row leaves: its items are the others and the claim's own. */
  predicate Claimed(s: Fees, t: Fees, it: LineItem) {
    && t.ledger == s.ledger && t.orders == s.orders && |t.payments| == |s.payments| + 1
    && t.payments[..|s.payments|] == s.payments && Awaiting(t, it.tenant, |s.payments|)
    && forall x :: x in t.items ==>
         if x.payment < |s.payments| then x in s.items && x.row != it.row
         else x.payment == |s.payments| && x.tenant == it.tenant
  }

  lemma ClaimOne(s: Fees, it: LineItem)
    requires References(s) && OneItemPerRow(s.items) && it in s.items && StatusIn(s.payments, it.payment, {Failed})
    requires it.row < |s.ledger| && s.ledger[it.row].status.Payable()
    ensures Claimed(s, Apply(s, true, SClaim(it.tenant, s.ledger[it.row].student, [it.row])), it)
  {
    var student := s.ledger[it.row].student;
    var step := SClaim(it.tenant, student, [it.row]);
    assert ItemOk(s, it);
    LengthTestExact(s.ledger, it.tenant, student, [it.row]);
    assert forall id :: id in [it.row] ==> id == it.row;
    forall x | x in s.items && x.row == it.row ensures x == it { SameRow(s.items, x, it); }
    assert Accepts(s, step);
    AcceptedApply(s, step);
    HoldItems(s, true, Request(s, step), [it.row], Select(s.ledger, it.tenant, student, [it.row]),
              RequestNotes(s, step));
    assert forall x :: x in s.items ==> ItemOk(s, x);
  }

  lemma ClaimFrees(s: Fees, t: Fees, it: LineItem)
    requires Claimed(s, t, it)
    ensures Freed(s, Apply(t, true, SReject(it.tenant, |s.payments|)), it.row)
  {
    var n := |s.payments|;
    var u := Apply(t, true, SReject(it.tenant, n));
    forall p | 0 <= p < n ensures u.payments[p] == s.payments[p] { assert t.payments[p] == t.payments[..n][p]; }
    forall x | x in u.items ensures x in s.items && x.row != it.row && x.payment < n { assert x in t.items; }
  }

  /** An item that is not stuck can be cleared off its row. */
  lemma RowCanBeFreed(s: Fees, it: LineItem)
    requires References(s) && OneItemPerRow(s.items) && Settlement(s) && PaymentsOk(s) && Trail(s)
    requires it in s.items && !Stuck(s, it.row)
    ensures exists t :: Reaches(s, true, t) && Freed(s, t, it.row)
  {
    assert ItemOk(s, it) && PaymentOk(s.payments[it.payment], it.payment in s.itemised);
    assert Yields(s, true, [], s);
    match s.payments[it.payment].status
    case PendingVerification =>
      RejectFrees(s, it);
      ReachStep(s, true, s, SReject(it.tenant, it.payment));
    case Initiated =>
      SweepFrees(s, it);
      ReachStep(s, true, s, SSweep([it.payment]));
    case Failed =>
      var claim := SClaim(it.tenant, s.ledger[it.row].student, [it.row]);
      ClaimOne(s, it);
      ClaimFrees(s, Apply(s, true, claim), it);
      ReachStep(s, true, s, claim);
      ReachStep(s, true, Apply(s, true, claim), SReject(it.tenant, |s.payments|));
    case _ =>
  }

  // ---- Clearing the way of an order ----

  function Blocked(s: Fees, quotes: seq<Quote>): set<LedgerId> {
    set it, q | it in s.items && q in quotes && it.row == q.row :: q.row
  }

  /** Order `k` stands where it stood, its payment pending, and none of its rows is stuck. */
  predicate Ready(s: Fees, k: nat, o: Order, l: LedgerId) {
    && k < |s.orders| && s.orders[k] == o && o.stage.Opened? && StatusIn(s.payments, o.payment, {Initiated})
    && (exists q :: q in o.quotes && q.row == l)
    && (forall q :: q in o.quotes ==> !Stuck(s, q.row))
  }

  lemma FreeingSticksNothing(s: Fees, t: Fees, r: LedgerId, x: LedgerId)
    requires Freed(s, t, r)
    ensures Stuck(t, x) ==> Stuck(s, x)
  {
  }

  lemma OpeningSticksNothing(s: Fees, k: nat, x: LedgerId)
    requires References(s)
    ensures Stuck(OpenOrder(s, k), x) ==> Stuck(s, x)
  {
    assert forall it :: it in s.items ==> ItemOk(s, it);
  }

  lemma FreedStaysReady(s: Fees, t: Fees, k: nat, o: Order, l: LedgerId, r: LedgerId)
    requires OrdersOk(s) && Trail(s) && Ready(s, k, o, l) && Freed(s, t, r) && r in Blocked(s, o.quotes)
    ensures Ready(t, k, o, l) && Blocked(t, o.quotes) < Blocked(s, o.quotes)
  {
    assert StageFits(s.payments, s.itemised, o);
    assert !OnRow(s, o.payment, r);
    forall q | q in o.quotes ensures !Stuck(t, q.row) { FreeingSticksNothing(s, t, r, q.row); }
    assert r !in Blocked(t, o.quotes);
  }

  lemma ReachableKeepsTrail(s: Fees, t: Fees)
    requires Inv(s) && Trail(s) && Reaches(s, true, t)
    ensures Inv(t) && Trail(t)
  {
    var steps :| Yields(s, true, steps, t);
    RunKeepsTrail(s, steps);
  }

  /** The rows of a ready order can be cleared one after the other. */
  lemma {:induction false} WayCanBeCleared(s: Fees, k: nat, o: Order, l: LedgerId)
    requires Inv(s) && Trail(s) && Ready(s, k, o, l)
    ensures exists t :: Reaches(s, true, t) && Ready(t, k, o, l) && Blocked(t, o.quotes) == {}
    decreases Blocked(s, o.quotes)
  {
    if Blocked(s, o.quotes) == {} {
      assert Yields(s, true, [], s);
    } else {
      var r :| r in Blocked(s, o.quotes);
      var it, q :| it in s.items && q in o.quotes && it.row == q.row == r;
      RowCanBeFreed(s, it);
      var t :| Reaches(s, true, t) && Freed(s, t, r);
      ReachableKeepsTrail(s, t);
      FreedStaysReady(s, t, k, o, l, r);
      WayCanBeCleared(t, k, o, l);
      var u :| Reaches(t, true, u) && Ready(u, k, o, l) && Blocked(u, o.quotes) == {};
      ReachFrom(s, t, u);
    }
  }

  lemma ClearedCanItemise(s: Fees, k: nat, o: Order, l: LedgerId)
    requires OrdersOk(s) && Ready(s, k, o, l) && Blocked(s, o.quotes) == {}
    ensures var t := Apply(s, true, SItemise(k)); StatusIn(t.payments, o.payment, {Initiated}) && OnRow(t, o.payment, l)
  {
    assert QuotesFit(s.ledger, o);
    forall it, q | it in s.items && q in o.quotes ensures it.row != q.row { assert q.row !in Blocked(s, o.quotes); }
    InsertSucceeds(s.items, o.tenant, o.payment, o.quotes, true);
    LineOnRow(s.items, o.tenant, o.payment, o.quotes, l);
    assert Apply(s, true, SItemise(k)).items == s.items + Lines(o.tenant, o.payment, o.quotes);
  }

  /** Among the lines inserted for some quotes is one on each quoted row. */
  lemma LineOnRow(items: seq<LineItem>, tenant: TenantId, p: PaymentId, quotes: seq<Quote>, l: LedgerId)
    requires exists q :: q in quotes && q.row == l
    ensures exists it :: it in items + Lines(tenant, p, quotes) && it.payment == p && it.row == l
  {
    var i :| 0 <= i < |quotes| && quotes[i].row == l;
    var it := Lines(tenant, p, quotes)[i];
    assert it in items + Lines(tenant, p, quotes);
  }

  lemma ReadyCanPay(s: Fees, t: Fees, k: nat, o: Order, l: LedgerId)
    requires Reaches(s, true, t) && Inv(t) && Trail(t) && Ready(t, k, o, l)
    ensures CanBePaid(s, l)
  {
    WayCanBeCleared(t, k, o, l);
    var u :| Reaches(t, true, u) && Ready(u, k, o, l) && Blocked(u, o.quotes) == {};
    ReachableKeepsTrail(t, u);
    ReachFrom(s, t, u);
    ClearedCanItemise(u, k, o, l);
    var v := Apply(u, true, SItemise(k));
    ReachStep(t, true, u, SItemise(k));
    ReachableKeepsTrail(t, v);
    ReachFrom(s, t, v);
    PayHeld(s, v, o.payment, l);
  }

  lemma OpenedIsReady(s: Fees, k: nat, l: LedgerId)
    requires References(s) && MayInsert(s, k, l) && s.orders[k].stage.Quoted?
    ensures var t := Apply(s, true, SOpen(k)); k < |t.orders| && Ready(t, k, t.orders[k], l)
  {
    var t := Apply(s, true, SOpen(k));
    forall q | q in s.orders[k].quotes ensures !Stuck(t, q.row) { OpeningSticksNothing(s, k, q.row); }
  }

  lemma ExposedCanBePaid(s: Fees, l: LedgerId)
    requires Inv(s) && Trail(s) && Exposed(s, l)
    ensures CanBePaid(s, l)
  {
    assert Yields(s, true, [], s);
    if p :| 0 <= p < |s.payments| && s.payments[p].status.Initiated? && OnRow(s, p, l) {
      PayHeld(s, s, p, l);
    } else {
      var k :| 0 <= k < |s.orders| && MayInsert(s, k, l);
      if s.orders[k].stage.Quoted? {
        OpenedIsReady(s, k, l);
        var t := Apply(s, true, SOpen(k));
        ReachStep(s, true, s, SOpen(k));
        ReachableKeepsTrail(s, t);
        ReadyCanPay(s, t, k, t.orders[k], l);
      } else {
        ReadyCanPay(s, s, k, s.orders[k], l);
      }
    }
  }

  /** From any reachable state a waived row stays waived whatever happens exactly when no
      pending order holds a line item on it and none can still insert one. */
  lemma StaysWaivedIff(history: seq<Step>, l: LedgerId)
    requires WaivedAt(Run(EMPTY, true, history), l)
    ensures var s := Run(EMPTY, true, history);
            (forall steps :: WaivedAt(Run(s, true, steps), l)) <==> !Exposed(s, l)
  {
    var s := Run(EMPTY, true, history);
    ReachableSound(history);
    if Exposed(s, l) {
      ExposedCanBePaid(s, l);
      var t :| Reaches(s, true, t) && l < |t.ledger| && t.ledger[l].status.Settled?;
      var steps :| Yields(s, true, steps, t);
      assert !WaivedAt(Run(s, true, steps), l);
    } else {
      forall steps ensures WaivedAt(Run(s, true, steps), l) { UnexposedRun(s, steps, l); }
    }
  }
}
