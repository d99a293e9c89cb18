/** What a caller of each fee service gets, from any sound state. */
module FeePromises {
  import opened Schema
  import opened Statements
  import opened FeeProtocol
  import opened FeeInvariants
  import opened FeeRuns
  import opened OrderTrail
  import opened WaivedRows
  import opened PaidOrders
  import FeeLifecycle

  // ---- What a request asks for ----

  /** The ids are distinct, some, and each names a row of the student that is neither paid
      nor waived. */
  predicate Selectable(s: Fees, tenant: TenantId, student: StudentId, ids: seq<LedgerId>) {
    && ids != [] && (forall i, j :: 0 <= i < j < |ids| ==> ids[i] != ids[j])
    && forall id :: id in ids ==> id < |s.ledger| && Owed(s.ledger[id], tenant, student)
  }

  predicate Owed(row: LedgerRow, tenant: TenantId, student: StudentId) {
    row.tenant == tenant && row.student == student && !row.status.Settled? && !row.status.Waived?
  }

  /** No claim awaiting verification and no paid payment holds one of the rows. */
  predicate NoneHeldLive(s: Fees, ids: seq<LedgerId>) {
    forall it :: it in s.items && it.row in ids ==>
      !StatusIn(s.payments, it.payment, {PendingVerification, Processing, Paid})
  }

  /** Why a request for rows is refused; None if it is not. */
  function Refusal(s: Fees, tenant: TenantId, student: StudentId, ids: seq<LedgerId>): Option<Outcome> {
    if ids == [] then Some(NothingSelected)
    else if !Selectable(s, tenant, student, ids) then Some(NotPayable)
    else if !NoneHeldLive(s, ids) then Some(AlreadyHeld)
    else None
  }

  /** What the rows named charge in all. */
  function DueTotal(ledger: seq<LedgerRow>, ids: seq<LedgerId>): Paise {
    if ledger == [] then 0 else
      var n := |ledger| - 1;
      DueTotal(ledger[..n], ids) + if n in ids then ledger[n].amountDue else 0
  }

  lemma QuoteSumSnoc(quotes: seq<Quote>, q: Quote)
    ensures QuoteSum(quotes + [q]) == QuoteSum(quotes) + q.amount
  {
    assert (quotes + [q])[..|quotes|] == quotes;
  }

  lemma {:induction false} SelectTotal(ledger: seq<LedgerRow>, tenant: TenantId, student: StudentId, ids: seq<LedgerId>)
    requires forall id :: id in ids && id < |ledger| ==> Matches(ledger[id], tenant, student)
    ensures QuoteSum(Select(ledger, tenant, student, ids)) == DueTotal(ledger, ids)
  {
    if ledger == [] {
    } else {
      var n := |ledger| - 1;
      SelectTotal(ledger[..n], tenant, student, ids);
      if n in ids {
        QuoteSumSnoc(Select(ledger[..n], tenant, student, ids), Quote(n, ledger[n].amountDue));
      }
    }
  }

  lemma OwedIff(row: LedgerRow, tenant: TenantId, student: StudentId)
    ensures Owed(row, tenant, student) <==> Matches(row, tenant, student)
  {
  }

  lemma SelectableIff(s: Fees, tenant: TenantId, student: StudentId, ids: seq<LedgerId>)
    ensures Selectable(s, tenant, student, ids) <==> ids != [] && |Select(s.ledger, tenant, student, ids)| == |ids|
    ensures Selectable(s, tenant, student, ids) ==>
              QuoteSum(Select(s.ledger, tenant, student, ids)) == DueTotal(s.ledger, ids)
  {
    LengthTestExact(s.ledger, tenant, student, ids);
    forall id | 0 <= id < |s.ledger|
      ensures Owed(s.ledger[id], tenant, student) <==> Matches(s.ledger[id], tenant, student)
    {
      OwedIff(s.ledger[id], tenant, student);
    }
    if Selectable(s, tenant, student, ids) { SelectTotal(s.ledger, tenant, student, ids); }
  }

  lemma HeldLiveIff(s: Fees, tenant: TenantId, student: StudentId, ids: seq<LedgerId>)
    requires References(s) && Selectable(s, tenant, student, ids)
    ensures HeldLive(s, tenant, ids) <==> !NoneHeldLive(s, ids)
  {
    forall it | it in s.items && it.row in ids ensures it.tenant == tenant { assert ItemOk(s, it); }
  }

  lemma AcceptedIff(s: Fees, tenant: TenantId, student: StudentId, ids: seq<LedgerId>)
    requires References(s)
    ensures Accepts(s, SClaim(tenant, student, ids)) <==> Refusal(s, tenant, student, ids).None?
    ensures Refusal(s, tenant, student, ids) == Some(AlreadyHeld) <==>
              Selectable(s, tenant, student, ids) && HeldLive(s, tenant, ids)
  {
    SelectableIff(s, tenant, student, ids);
    if Selectable(s, tenant, student, ids) { HeldLiveIff(s, tenant, student, ids); }
  }

  // ---- What a request leaves ----

  /** The payment holds each row, alone, and its lines add up to its amount. */
  predicate HeldBy(s: Fees, ids: seq<LedgerId>, p: PaymentId) {
    && p < |s.payments| && s.payments[p].amount == ItemSum(s.items, p)
    && (forall id :: id in ids ==> OnRow(s, p, id))
    && (forall it :: it in s.items && it.row in ids ==> it.payment == p)
  }

  predicate NoItems(s: Fees, p: PaymentId) { forall it :: it in s.items ==> it.payment != p }

  /** Items of other payments stay, none come. */
  ghost predicate OthersKeepItems(s: Fees, t: Fees, p: PaymentId) {
    forall it: LineItem :: it.payment != p ==> (it in t.items <==> it in s.items)
  }

  /** Payment `p` has been paid: it has the tenant's next receipt number and the given gateway
      payment id, each row it holds is settled by it, FEE_PAID is logged, and no other row,
      payment or item has changed. */
  predicate PaidUp(s: Fees, t: Fees, p: PaymentId, gatewayPayment: Option<nat>) {
    && p < |s.payments| == |t.payments| && |t.ledger| == |s.ledger| && t.items == s.items
    && t.payments[p] == s.payments[p].(status := Paid, gatewayPaymentId := gatewayPayment,
                                       receipt := Some(LastNumber(s.counters, s.payments[p].tenant) + 1))
    && t.log == s.log + [Event(s.payments[p].tenant, FeePaid, p, s.payments[p].student, s.payments[p].amount,
                               LastNumber(s.counters, s.payments[p].tenant) + 1)]
    && (forall q :: 0 <= q < |s.payments| && q != p ==> t.payments[q] == s.payments[q])
    && (forall l :: 0 <= l < |s.ledger| ==>
          if OnRow(s, p, l) then SettledBy(t, p, l) && t.ledger[l].amountDue == s.ledger[l].amountDue
              else t.ledger[l] == s.ledger[l])
  }

  // ---- Claims and collections ----

  lemma LiveAmount(s: Fees, p: PaymentId)
    requires PaymentsOk(s) && Conserved(s) && p < |s.payments| && !s.payments[p].gateway.Online()
        && s.payments[p].status in LIVE
    ensures s.payments[p].amount == ItemSum(s.items, p)
  {
    assert PaymentOk(s.payments[p], p in s.itemised);
    NoItemsNoSum(s.bin, p);
  }

  lemma HoldsAlone(s: Fees, ids: seq<LedgerId>, p: PaymentId)
    requires OneItemPerRow(s.items) && PaymentsOk(s) && Conserved(s)
        && StatusIn(s.payments, p, {PendingVerification, Paid})
    requires !s.payments[p].gateway.Online() && forall id :: id in ids ==> OnRow(s, p, id)
    ensures HeldBy(s, ids, p)
  {
    LiveAmount(s, p);
    forall it | it in s.items && it.row in ids ensures it.payment == p {
      assert OnRow(s, p, it.row);
      var own :| own in s.items && own.payment == p && own.row == it.row;
      SameRow(s.items, it, own);
    }
  }

  lemma AcceptedHolds(s: Fees, step: Step)
    requires Inv(s) && Accepts(s, step)
    ensures var t := Apply(s, true, step); HeldBy(t, step.ids, |s.payments|)
  {
    var t := Apply(s, true, step);
    StepKeepsInv(s, step);
    AcceptedApply(s, step);
    forall id | id in step.ids ensures OnRow(t, |s.payments|, id) { TakerHolds(s, step, id); }
    HoldsAlone(t, step.ids, |s.payments|);
  }

  /** The claim is recorded and reported, and the ledger is as it was. */
  predicate ClaimMade(s: Fees, t: Fees, tenant: TenantId, student: StudentId, ids: seq<LedgerId>) {
    var p, total := |s.payments|, DueTotal(s.ledger, ids);
    && t.ledger == s.ledger
    && t.payments == s.payments + [Payment(tenant, student, Upi, total, PendingVerification, None, None, None)]
    && t.log == s.log + [Event(tenant, PaymentClaimed, p, student, total, 0)]
  }

  lemma ClaimPromise(s: Fees, tenant: TenantId, student: StudentId, ids: seq<LedgerId>)
    requires Inv(s)
    ensures var (t, r) := SubmitClaim(s, true, tenant, student, ids);
            && Inv(t)
            && match Refusal(s, tenant, student, ids)
               case Some(why) => r == why && t == s
               case None =>
                 r == Done(|s.payments|) && ClaimMade(s, t, tenant, student, ids) && HeldBy(t, ids, |s.payments|)
  {
    var step := SClaim(tenant, student, ids);
    ClaimKeepsInv(s, true, tenant, student, ids);
    SelectableIff(s, tenant, student, ids);
    AcceptedIff(s, tenant, student, ids);
    if Accepts(s, step) {
      AcceptedApply(s, step);
      AcceptedHolds(s, step);
    }
  }

  /** The collection is recorded as paid with the next receipt number, and reported. */
  predicate CollectionMade(s: Fees, t: Fees, tenant: TenantId, student: StudentId, ids: seq<LedgerId>) {
    var p, total, n := |s.payments|, DueTotal(s.ledger, ids), LastNumber(s.counters, tenant) + 1;
    && t.payments == s.payments + [Payment(tenant, student, Offline, total, Paid, None, None, Some(n))]
    && t.log == s.log + [Event(tenant, FeePaid, p, student, total, n)]
    && t.counters == s.counters[tenant := n]
    && |t.ledger| == |s.ledger|
    && forall l :: 0 <= l < |s.ledger| ==>
         t.ledger[l] == if l in ids then s.ledger[l].(status := Settled, payment := Some(p)) else s.ledger[l]
  }

  /** What record_offline_payment accepts as a method. */
  predicate KnownMethod(how: string) { how in ["cash", "cheque", "upi", "bank_transfer", "card"] }

  lemma CollectPromise(s: Fees, tenant: TenantId, student: StudentId, ids: seq<LedgerId>, how: string)
    requires Inv(s)
    ensures var (t, r) := Collect(s, true, tenant, student, ids, how);
            && Inv(t)
            && if !KnownMethod(how) then r == BadMethod && t == s
               else match Refusal(s, tenant, student, ids)
                    case Some(why) => r == why && t == s
                    case None =>
                      && r == Done(|s.payments|)
                      && CollectionMade(s, t, tenant, student, ids) && HeldBy(t, ids, |s.payments|)
  {
    var step := SCollect(tenant, student, ids, how);
    CollectKeepsInv(s, true, tenant, student, ids, how);
    AcceptedIff(s, tenant, student, ids);
    if Accepts(s, step) {
      AcceptedHolds(s, step);
      CollectMakes(s, step);
    } else {
      CollectRefused(s, tenant, student, ids, how);
    }
  }

  lemma CollectRefused(s: Fees, tenant: TenantId, student: StudentId, ids: seq<LedgerId>, how: string)
    requires References(s) && !Accepts(s, SCollect(tenant, student, ids, how))
    ensures var (t, r) := Collect(s, true, tenant, student, ids, how);
            && t == s
            && if !KnownMethod(how) then r == BadMethod
               else Refusal(s, tenant, student, ids) == Some(r)
  {
    SelectableIff(s, tenant, student, ids);
    AcceptedIff(s, tenant, student, ids);
  }

  /** The new payment holds exactly the rows named. */
  lemma HeldRows(s: Fees, step: Step, l: LedgerId)
    requires References(s) && Accepts(s, step)
    ensures Held(s, step).Some? && (OnRow(Held(s, step).value, |s.payments|, l) <==> l in step.ids)
  {
    AcceptedApply(s, step);
    HoldItems(s, true, Request(s, step), step.ids, Chosen(s, step), RequestNotes(s, step));
    if l in step.ids { TakerHolds(s, step, l); }
    assert forall it :: it in s.items ==> ItemOk(s, it);
  }

  lemma CollectMakes(s: Fees, step: Step)
    requires References(s) && Accepts(s, step) && step.SCollect?
    ensures CollectionMade(s, Apply(s, true, step), step.tenant, step.student, step.ids)
    ensures Collect(s, true, step.tenant, step.student, step.ids, step.how).1 == Done(|s.payments|)
  {
    AcceptedApply(s, step);
    HeldTables(s, step);
    var h := Held(s, step).value;
    forall l | 0 <= l < |s.ledger| ensures OnRow(h, |s.payments|, l) <==> l in step.ids { HeldRows(s, step, l); }
    SettleRows(h, |s.payments|, step.ids);
    PaidRecords(h, |s.payments|);
  }

  /** The tables of an accepted collection before it is paid. */
  lemma HeldTables(s: Fees, step: Step)
    requires References(s) && Accepts(s, step) && step.SCollect?
    ensures Held(s, step).Some?
    ensures var h := Held(s, step).value;
            && h.ledger == s.ledger && h.counters == s.counters && h.log == s.log
            && h.payments == s.payments + [Payment(step.tenant, step.student, Offline, DueTotal(s.ledger, step.ids),
                                                   PendingVerification, None, None, None)]
  {
    AcceptedApply(s, step);
    AcceptedIdsPayable(s, step);
    SelectTotal(s.ledger, step.tenant, step.student, step.ids);
  }

  lemma PaidRecords(h: Fees, p: PaymentId)
    requires p < |h.payments|
    ensures var t, pay, n := Pay(h, p), h.payments[p], LastNumber(h.counters, h.payments[p].tenant) + 1;
            && t.payments == h.payments[p := pay.(status := Paid, receipt := Some(n))]
            && t.counters == h.counters[pay.tenant := n]
            && t.log == h.log + [Event(pay.tenant, FeePaid, p, pay.student, pay.amount, n)]
  {
  }

  lemma SettleRows(h: Fees, p: PaymentId, ids: seq<LedgerId>)
    requires p < |h.payments| && forall l :: 0 <= l < |h.ledger| ==> (OnRow(h, p, l) <==> l in ids)
    ensures var t := Pay(h, p);
            && |t.ledger| == |h.ledger|
            && forall l :: 0 <= l < |h.ledger| ==>
                 t.ledger[l] == if l in ids then h.ledger[l].(status := Settled, payment := Some(p)) else h.ledger[l]
  {
    forall l | 0 <= l < |h.ledger|
      ensures Pay(h, p).ledger[l]
           == if l in ids then h.ledger[l].(status := Settled, payment := Some(p)) else h.ledger[l]
    {
      assert OnRow(h, p, l) <==> l in ids;
    }
  }

  // ---- Approval, rejection, webhook ----

  lemma PayPromise(s: Fees, p: PaymentId)
    requires References(s) && p < |s.payments|
    ensures PaidUp(s, Pay(s, p), p, s.payments[p].gatewayPaymentId)
  {
  }

  lemma ApprovePromise(s: Fees, tenant: TenantId, p: PaymentId)
    requires Inv(s)
    ensures var (t, r) := Approve(s, tenant, p);
            && Inv(t) && (r.Done? <==> Awaiting(s, tenant, p))
            && if r.Done? then r.payment == p && PaidUp(s, t, p, s.payments[p].gatewayPaymentId) else t == s
  {
    ApproveKeepsInv(s, tenant, p);
    if Awaiting(s, tenant, p) { PayPromise(s, p); }
  }

  /** The rows of a rejected claim carry no line item and are payable again. */
  ghost predicate Released(s: Fees, t: Fees, p: PaymentId) {
    && p < |s.payments| && t.payments == s.payments[p := s.payments[p].(status := Rejected)]
    && t.log == s.log + [Event(s.payments[p].tenant, PaymentRejected, p, s.payments[p].student, 0, 0)]
    && NoItems(t, p) && OthersKeepItems(s, t, p) && t.ledger == s.ledger
    && forall it :: it in s.items && it.payment == p ==>
         it.row < |t.ledger| && t.ledger[it.row].status.Payable() && NoneOn(t, it.row)
  }

  predicate NoneOn(s: Fees, l: LedgerId) { forall it :: it in s.items ==> it.row != l }

  lemma RejectReleases(s: Fees, tenant: TenantId, p: PaymentId)
    requires References(s) && OneItemPerRow(s.items) && Settlement(s) && ReceiptsOk(s) && Awaiting(s, tenant, p)
    ensures Released(s, Reject(s, tenant, p).0, p)
  {
    var t := Reject(s, tenant, p).0;
    forall it | it in s.items && it.payment == p
      ensures it !in t.items && it.row < |s.ledger| && s.ledger[it.row].status.Payable()
    {
      assert ItemOk(s, it);
    }
    forall it | it in s.items && it.payment == p ensures NoneOn(t, it.row) { RowFree(s, t, it); }
  }

  lemma RejectPromise(s: Fees, tenant: TenantId, p: PaymentId)
    requires Inv(s)
    ensures var (t, r) := Reject(s, tenant, p);
            && Inv(t) && (r.Done? <==> Awaiting(s, tenant, p))
            && if r.Done? then r.payment == p && Released(s, t, p) else t == s
  {
    RejectKeepsInv(s, tenant, p);
    if Awaiting(s, tenant, p) { RejectReleases(s, tenant, p); }
  }

  lemma RowFree(s: Fees, t: Fees, it: LineItem)
    requires OneItemPerRow(s.items) && it in s.items && it !in t.items && forall x :: x in t.items ==> x in s.items
    ensures NoneOn(t, it.row)
  {
    forall x | x in t.items && x.row == it.row ensures x == it { SameRow(s.items, x, it); }
  }

  predicate AlreadyPaid(s: Fees, order: nat, p: PaymentId) {
    StatusIn(s.payments, p, {Paid}) && s.payments[p].orderId == Some(order)
  }

  lemma WebhookPromise(s: Fees, order: nat, gatewayPayment: nat, pick: PaymentId)
    requires Inv(s)
    ensures var (t, r) := Webhook(s, order, gatewayPayment, pick);
            && Inv(t)
            && (r.Done? <==> Books(s, order, gatewayPayment, pick) || AlreadyPaid(s, order, pick))
            && (r.Done? ==> r.payment == pick && StatusIn(t.payments, pick, {Paid}))
            && (if Books(s, order, gatewayPayment, pick) then PaidUp(s, t, pick, Some(gatewayPayment)) else t == s)
  {
    WebhookKeepsInv(s, order, gatewayPayment, pick);
    if pick < |s.payments| { WebhookPays(s, order, gatewayPayment, pick); }
  }

  lemma WebhookPays(s: Fees, order: nat, gatewayPayment: nat, pick: PaymentId)
    requires References(s) && PaymentsOk(s) && pick < |s.payments|
    ensures var (t, r) := Webhook(s, order, gatewayPayment, pick);
            && (r.Done? <==> Books(s, order, gatewayPayment, pick) || AlreadyPaid(s, order, pick))
            && (r.Done? ==> r.payment == pick && StatusIn(t.payments, pick, {Paid}))
            && (if Books(s, order, gatewayPayment, pick) then PaidUp(s, t, pick, Some(gatewayPayment)) else t == s)
  {
    var noted := s.(payments := s.payments[pick := s.payments[pick].(gatewayPaymentId := Some(gatewayPayment))]);
    assert PaymentOk(s.payments[pick], pick in s.itemised);
    SameStatusReferences(s, noted);
    PayPromise(noted, pick);
    assert forall l :: 0 <= l < |s.ledger| ==> (OnRow(noted, pick, l) <==> OnRow(s, pick, l));
  }

  // ---- Waivers, sweeps ----

  /** Exactly the rows named have been waived, and the waiver is logged with their total. */
  predicate WaivedExactly(s: Fees, t: Fees, tenant: TenantId, student: StudentId, ids: seq<LedgerId>) {
    && |t.ledger| == |s.ledger| && t.payments == s.payments && t.items == s.items
    && t.log == s.log + [Event(tenant, Unlisted("FEE_WAIVED"), 0, student, DueTotal(s.ledger, ids), 0)]
    && (forall l :: 0 <= l < |s.ledger| ==>
          t.ledger[l] == if l in ids then s.ledger[l].(status := Waived) else s.ledger[l])
  }

  /** The reason says something. */
  predicate HasText(reason: string) { exists i :: 0 <= i < |reason| && reason[i] !in {' ', '\t', '\n', '\r'} }

  lemma WaivesExactly(s: Fees, tenant: TenantId, student: StudentId, ids: seq<LedgerId>, reason: string)
    requires Selectable(s, tenant, student, ids) && Waive(s, tenant, student, ids, reason).1.Applied?
    ensures WaivedExactly(s, Waive(s, tenant, student, ids, reason).0, tenant, student, ids)
  {
    SelectableIff(s, tenant, student, ids);
  }

  lemma WaivePromise(s: Fees, tenant: TenantId, student: StudentId, ids: seq<LedgerId>, reason: string)
    requires Inv(s)
    ensures var (t, r) := Waive(s, tenant, student, ids, reason);
            && Inv(t)
            && if !HasText(reason) then r == NoReason && t == s
               else match Refusal(s, tenant, student, ids)
                    case Some(why) => r == why && t == s
                    case None => r == Applied && WaivedExactly(s, t, tenant, student, ids)
  {
    WaiveKeepsInv(s, tenant, student, ids, reason);
    SelectableIff(s, tenant, student, ids);
    AcceptedIff(s, tenant, student, ids);
    BlankIff(reason);
    if Waive(s, tenant, student, ids, reason).1.Applied? { WaivesExactly(s, tenant, student, ids, reason); }
  }

  lemma BlankIff(reason: string)
    ensures Blank(reason) <==> !HasText(reason)
  {
    if Blank(reason) {
      forall i | 0 <= i < |reason| ensures reason[i] in {' ', '\t', '\n', '\r'} { assert reason[i] in reason; }
    }
  }

  lemma {:induction false} SweepClears(s: Fees, expired: seq<PaymentId>, p: PaymentId)
    requires p in expired && StatusIn(s.payments, p, {Initiated, Processing})
    ensures StatusIn(Sweep(s, expired).payments, p, {Failed}) && NoItems(Sweep(s, expired), p)
  {
    var n := |expired| - 1;
    assert expired == expired[..n] + [expired[n]];
    SweepKeepsIds(s, expired[..n]);
    if p in expired[..n] { SweepClears(s, expired[..n], p); } else { SweepKeepsOther(s, expired[..n], p); }
  }

  lemma {:induction false} SweepKeepsOther(s: Fees, expired: seq<PaymentId>, p: PaymentId)
    requires p !in expired && p < |s.payments|
    ensures p < |Sweep(s, expired).payments| && Sweep(s, expired).payments[p] == s.payments[p]
  {
    if expired == [] {
    } else {
      var n := |expired| - 1;
      assert expired == expired[..n] + [expired[n]];
      SweepKeepsOther(s, expired[..n], p);
    }
  }

  /** The order was pending and its time is up. */
  predicate TimedOut(s: Fees, expired: seq<PaymentId>, p: PaymentId) {
    p in expired && StatusIn(s.payments, p, {Initiated, Processing})
  }

  /** Exactly the pending orders listed have failed, and exactly their line items have gone. */
  predicate SweptExactly(s: Fees, t: Fees, expired: seq<PaymentId>) {
    && t.ledger == s.ledger && t.orders == s.orders && |t.payments| == |s.payments|
    && (forall p :: 0 <= p < |s.payments| ==>
          t.payments[p] == if TimedOut(s, expired, p) then s.payments[p].(status := Failed) else s.payments[p])
    && (forall it :: it in t.items ==> it in s.items)
    && (forall it :: it in s.items ==> (it in t.items <==> !TimedOut(s, expired, it.payment)))
  }

  lemma SweepPayment(s: Fees, expired: seq<PaymentId>, p: PaymentId)
    requires p < |s.payments|
    ensures p < |Sweep(s, expired).payments|
    ensures Sweep(s, expired).payments[p]
         == if TimedOut(s, expired, p) then s.payments[p].(status := Failed) else s.payments[p]
  {
    SweepKeepsIds(s, expired);
    if p !in expired { SweepKeepsOther(s, expired, p); }
    if TimedOut(s, expired, p) { SweepClears(s, expired, p); }
  }

  lemma SweepPromise(s: Fees, expired: seq<PaymentId>)
    requires Inv(s)
    ensures Inv(Sweep(s, expired)) && SweptExactly(s, Sweep(s, expired), expired)
  {
    var t := Sweep(s, expired);
    SweepKeepsInv(s, expired);
    SweepKeepsIds(s, expired);
    SweepKeepsOrders(s, expired);
    FeeLifecycle.SweepKeepsLedger(s, expired);
    forall p | 0 <= p < |s.payments|
      ensures t.payments[p] == if TimedOut(s, expired, p) then s.payments[p].(status := Failed) else s.payments[p]
    {
      SweepPayment(s, expired, p);
    }
    forall it | it in t.items ensures it in s.items { SweepAddsNoItem(s, expired, it); }
    forall it | it in s.items ensures it in t.items <==> !TimedOut(s, expired, it.payment) {
      assert ItemOk(s, it);
      SweepItems(s, expired, it);
      SweepPayment(s, expired, it.payment);
    }
  }

  /** What the scan makes of a row: pending and due rows with a due date get the status the
      date and the day call for; no other row changes. */
  predicate Scanned(o: LedgerRow, r: LedgerRow, today: int) {
    if o.dueDate.Some? && (o.status.Pending? || (o.status.Due? && o.dueDate.value <= today - 5))
    then r == o.(status := FeeLifecycle.StatusOn(o.dueDate.value, today)) else r == o
  }

  lemma AdvancePromise(s: Fees, today: int)
    requires Inv(s)
    ensures var t := s.(ledger := Advance(s.ledger, today));
            && Inv(t) && |t.ledger| == |s.ledger|
            && forall l :: 0 <= l < |s.ledger| ==> Scanned(s.ledger[l], t.ledger[l], today)
  {
    AdvanceKeepsInv(s, today);
  }

  // ---- create_payment_order ----

  lemma QuotePromise(s: Fees, tenant: TenantId, student: StudentId, gateway: Gateway, ids: seq<LedgerId>)
    requires Inv(s)
    ensures var t := QuoteOrder(s, tenant, student, gateway, ids);
            && Inv(t)
            && (t != s <==> gateway.Online() && Selectable(s, tenant, student, ids))
            && (t != s ==> |t.orders| == |s.orders| + 1 && Names(t.orders[|s.orders|], ids))
  {
    QuoteKeepsInv(s, tenant, student, gateway, ids);
    SelectableIff(s, tenant, student, ids);
    if |Select(s.ledger, tenant, student, ids)| == |ids| { SelectNames(s, tenant, student, ids); }
  }

  /** The order quotes exactly the rows asked for. */
  ghost predicate Names(o: Order, ids: seq<LedgerId>) { forall l: LedgerId :: l in ids <==> PaidOrders.Quotes(o, l) }

  lemma SelectNames(s: Fees, tenant: TenantId, student: StudentId, ids: seq<LedgerId>)
    requires |Select(s.ledger, tenant, student, ids)| == |ids|
    ensures forall l: LedgerId :: l in ids <==> exists q :: q in Select(s.ledger, tenant, student, ids) && q.row == l
  {
    LengthTestExact(s.ledger, tenant, student, ids);
    forall l: LedgerId | l in ids ensures Quote(l, s.ledger[l].amountDue) in Select(s.ledger, tenant, student, ids) {
    }
  }

  /** Some row the order quotes carries a line item. */
  predicate RowsTaken(s: Fees, o: Order) { exists it :: it in s.items && PaidOrders.Quotes(o, it.row) }

  /** Inserting an order's items is refused exactly when one of its rows carries an item;
      otherwise the order holds each of its rows, alone, and they add up to its amount. */
  lemma ItemisePromise(s: Fees, k: nat)
    requires Inv(s) && AtStage(s, k, Opened)
    ensures var t := ItemiseOrder(s, true, k);
            && Inv(t) && k < |t.orders|
            && (t.orders[k].stage.Aborted? <==> RowsTaken(s, s.orders[k]))
            && (if t.orders[k].stage.Aborted? then t == s.(orders := t.orders)
                else Filled(s, t, s.orders[k].payment) && forall q :: q in s.orders[k].quotes ==>
                    OnRow(t, s.orders[k].payment, q.row))
  {
    var o := s.orders[k];
    ItemiseKeepsInv(s, k);
    assert QuotesFit(s.ledger, o) && StageFits(s.payments, s.itemised, o);
    if RowsTaken(s, o) {
      var it :| it in s.items && PaidOrders.Quotes(o, it.row);
      var i :| 0 <= i < |o.quotes| && o.quotes[i].row == it.row;
      assert ItemOk(s, it);
      ClashStopsInsert(s.items, Lines(o.tenant, o.payment, o.quotes), i, it);
    } else {
      forall it, q | it in s.items && q in o.quotes ensures it.row != q.row { assert !PaidOrders.Quotes(o, it.row); }
      InsertSucceeds(s.items, o.tenant, o.payment, o.quotes, true);
      ItemisedHolds(s, k);
    }
  }

  /** The payment's lines have come in and are all there are of it. */
  predicate Filled(s: Fees, t: Fees, p: PaymentId) {
    && t.ledger == s.ledger && t.payments == s.payments
    && p < |t.payments| && t.payments[p].amount == ItemSum(t.items, p)
    && (forall it :: it in s.items ==> it in t.items)
    && (forall it :: it in t.items && it !in s.items ==> it.payment == p)
  }

  lemma ItemisedHolds(s: Fees, k: nat)
    requires OrdersOk(s) && Conserved(s) && AtStage(s, k, Opened)
    requires Insert(s.items, Lines(s.orders[k].tenant, s.orders[k].payment, s.orders[k].quotes), true).Some?
    ensures var t, o := ItemiseOrder(s, true, k), s.orders[k];
            Filled(s, t, o.payment) && forall q :: q in o.quotes ==> OnRow(t, o.payment, q.row)
  {
    var t, o := ItemiseOrder(s, true, k), s.orders[k];
    var lines := Lines(o.tenant, o.payment, o.quotes);
    assert StageFits(s.payments, s.itemised, o);
    LinesMembers(o.tenant, o.payment, o.quotes);
    ItemSumConcat(s.items, lines, o.payment);
    LinesSum(o.tenant, o.payment, o.quotes, o.payment);
    forall q | q in o.quotes ensures OnRow(t, o.payment, q.row) {
      var i :| 0 <= i < |o.quotes| && o.quotes[i] == q;
      assert lines[i] in t.items;
    }
  }

  /** The order's payment is inserted, pending, for the sum of its quotes, with no line item. */
  lemma OpenPromise(s: Fees, k: nat)
    requires Inv(s) && AtStage(s, k, Quoted)
    ensures var t, p, o := OpenOrder(s, k), |s.payments|, s.orders[k];
            && Inv(t) && NoItems(t, p) && t == s.(payments := t.payments, orders := t.orders)
            && t.payments == s.payments + [Payment(o.tenant, o.student, o.gateway, QuoteSum(o.quotes), Initiated,
                                                   None, None, None)]
            && t.orders == s.orders[k := o.(stage := Opened, payment := p)]
  {
    OpenKeepsInv(s, k);
    assert forall it :: it in s.items ==> ItemOk(s, it);
  }

  /** The order's payment gets the gateway's order id, and nothing else changes. */
  lemma LinkPromise(s: Fees, k: nat, order: nat)
    requires Inv(s) && AtStage(s, k, Itemised)
    ensures var t, p := LinkOrder(s, k, order), s.orders[k].payment;
            && Inv(t) && p < |s.payments|
            && t == s.(payments := s.payments[p := s.payments[p].(orderId := Some(order))],
                       orders := s.orders[k := s.orders[k].(stage := Linked)])
  {
    LinkKeepsInv(s, k, order);
    assert StageFits(s.payments, s.itemised, s.orders[k]);
  }
}
