/** What became of each row of a gateway order that has been paid. */
module PaidOrders {
  import opened Schema
  import opened Statements
  import opened FeeProtocol
  import opened FeeInvariants
  import opened FeeRuns
  import opened OrderTrail
  import opened WaivedRows
  import FeeLifecycle

  /** A claim or collection naming the row is accepted while the pending order holds it. */
  predicate TakesRow(s: Fees, step: Step, p: PaymentId, l: LedgerId) {
    Accepts(s, step) && l in step.ids && StatusIn(s.payments, p, {Initiated}) && OnRow(s, p, l)
  }

  predicate TakenAt(steps: seq<Step>, j: nat, p: PaymentId, l: LedgerId) {
    j < |steps| && TakesRow(Run(EMPTY, true, steps[..j]), steps[j], p, l)
  }

  predicate EverTaken(steps: seq<Step>, p: PaymentId, l: LedgerId) {
    exists j :: 0 <= j < |steps| && TakenAt(steps, j, p, l)
  }

  lemma TakenBefore(steps: seq<Step>, p: PaymentId, l: LedgerId)
    requires steps != []
    ensures var n := |steps| - 1;
            EverTaken(steps, p, l) <==>
                TakesRow(Run(EMPTY, true, steps[..n]), steps[n], p, l) || EverTaken(steps[..n], p, l)
  {
    var n := |steps| - 1;
    forall j | 0 <= j < n ensures TakenAt(steps, j, p, l) <==> TakenAt(steps[..n], j, p, l) {
      assert steps[..n][..j] == steps[..j];
    }
    assert TakenAt(steps, n, p, l) <==> TakesRow(Run(EMPTY, true, steps[..n]), steps[n], p, l);
  }

  /** A pending or paid order keeps its hold on a row exactly unless the row is taken. */
  lemma KeepsHold(s: Fees, step: Step, p: PaymentId, l: LedgerId)
    requires References(s) && OrdersOk(s) && PaymentsOk(s) && Conserved(s) && p < |s.payments| && p in s.itemised
    requires StatusIn(Apply(s, true, step).payments, p, {Initiated, Paid})
        && !StatusIn(s.payments, p, {PendingVerification})
    ensures OnRow(Apply(s, true, step), p, l) <==> OnRow(s, p, l) && !TakesRow(s, step, p, l)
  {
    var t := Apply(s, true, step);
    StatusMoves(s, step, p);
    if Accepts(s, step) { AcceptedIdsPayable(s, step); }
    forall it | it in s.items && it.payment == p && it.row == l
      ensures it in t.items <==> !TakesRow(s, step, p, l)
    {
      assert ItemOk(s, it);
      ItemStaysIff(s, step, it);
    }
    forall it | it in t.items && it.payment == p && it.row == l ensures it in s.items {
      if it !in s.items { NewItemNotItemised(s, step, it); }
    }
  }

  lemma NewItemNotItemised(s: Fees, step: Step, it: LineItem)
    requires References(s) && OrdersOk(s) && Conserved(s) && it in Apply(s, true, step).items && it !in s.items
    ensures it.payment !in s.itemised
  {
    NewItem(s, step, it);
    if Inserts(s, step, it) { assert StageFits(s.payments, s.itemised, s.orders[step.k]); }
  }

  // ---- Over a run ----

  lemma {:induction false} ItemisedGrows(steps: seq<Step>, j: nat)
    requires j <= |steps|
    ensures Run(EMPTY, true, steps[..j]).itemised <= Run(EMPTY, true, steps).itemised
  {
    if j < |steps| {
      var n := |steps| - 1;
      assert steps[..n][..j] == steps[..j];
      ItemisedGrows(steps[..n], j);
      StepItemises(Run(EMPTY, true, steps[..n]), steps[n]);
    } else {
      assert steps[..j] == steps;
    }
  }

  lemma StepItemises(s: Fees, step: Step)
    ensures s.itemised <= Apply(s, true, step).itemised
  {
    if step.SSweep? { SweepItemises(s, step.expired); }
  }

  lemma {:induction false} SweepItemises(s: Fees, expired: seq<PaymentId>)
    ensures Sweep(s, expired).itemised == s.itemised
  {
    if expired == [] {
    } else {
      SweepItemises(s, expired[..|expired| - 1]);
    }
  }

  lemma NotTakenBeforeItems(steps: seq<Step>, p: PaymentId, l: LedgerId)
    requires p !in Run(EMPTY, true, steps).itemised
    ensures !EverTaken(steps, p, l)
  {
    forall j | 0 <= j < |steps| ensures !TakenAt(steps, j, p, l) {
      ItemisedGrows(steps, j);
      ReachableSound(steps[..j]);
    }
  }

  predicate Quotes(o: Order, l: LedgerId) { exists q :: q in o.quotes && q.row == l }

  /** Order `k`, its items inserted, whose payment is pending or paid. */
  predicate Underway(s: Fees, k: nat) {
    && k < |s.orders| && (s.orders[k].stage.Itemised? || s.orders[k].stage.Linked?)
    && StatusIn(s.payments, s.orders[k].payment, {Initiated, Paid})
  }

  /** An order underway was underway before the step, or has just had its items inserted. */
  lemma UnderwayBefore(s: Fees, step: Step, k: nat)
    requires References(s) && OrdersOk(s) && PaymentsOk(s) && Underway(Apply(s, true, step), k)
    ensures k < |s.orders| && Apply(s, true, step).orders[k].payment == s.orders[k].payment < |s.payments|
    ensures Apply(s, true, step).orders[k].quotes == s.orders[k].quotes
    ensures if s.orders[k].stage.Opened? then step == SItemise(k) && s.orders[k].payment !in s.itemised
            else Underway(s, k) && s.orders[k].payment in s.itemised
  {
    var t := Apply(s, true, step);
    OrderFate(s, step, k);
    assert StageFits(s.payments, s.itemised, s.orders[k]);
    OrderPayment(s, step, k);
    StatusMoves(s, step, s.orders[k].payment);
  }

  lemma OrderPayment(s: Fees, step: Step, k: nat)
    requires References(s) && OrdersOk(s) && k < |s.orders| && k < |Apply(s, true, step).orders|
    requires Apply(s, true, step).orders[k].stage.Itemised? || Apply(s, true, step).orders[k].stage.Linked?
    ensures s.orders[k].payment == Apply(s, true, step).orders[k].payment
    ensures s.orders[k].stage.Itemised? || s.orders[k].stage.Linked?
        || (s.orders[k].stage.Opened? && step == SItemise(k))
  {
    if !OrderStep(step) { StepKeepsOrders(s, step); }
  }

  lemma JustItemised(s: Fees, k: nat, l: LedgerId)
    requires AtStage(s, k, Opened) && Underway(Apply(s, true, SItemise(k)), k) && Quotes(s.orders[k], l)
    ensures OnRow(Apply(s, true, SItemise(k)), s.orders[k].payment, l)
  {
    var o := s.orders[k];
    var i :| 0 <= i < |o.quotes| && o.quotes[i].row == l;
    var t := Apply(s, true, SItemise(k));
    assert t.items == s.items + Lines(o.tenant, o.payment, o.quotes);
    assert t.items[|s.items| + i] in t.items;
  }

  /** An order underway holds each row it names exactly unless that row has been taken. */
  lemma {:induction false} HoldsIffNeverTaken(steps: seq<Step>, k: nat, l: LedgerId)
    requires Underway(Run(EMPTY, true, steps), k) && Quotes(Run(EMPTY, true, steps).orders[k], l)
    ensures var s := Run(EMPTY, true, steps);
            OnRow(s, s.orders[k].payment, l) <==> !EverTaken(steps, s.orders[k].payment, l)
  {
    var n := |steps| - 1;
    var s, step := Run(EMPTY, true, steps[..n]), steps[n];
    var p := Run(EMPTY, true, steps).orders[k].payment;
    RunKeepsInv(EMPTY, steps[..n]);
    UnderwayBefore(s, step, k);
    TakenBefore(steps, p, l);
    if s.orders[k].stage.Opened? {
      JustItemised(s, k, l);
      NotTakenBeforeItems(steps[..n], p, l);
    } else {
      HoldsIffNeverTaken(steps[..n], k, l);
      assert PaymentOk(s.payments[p], p in s.itemised);
      KeepsHold(s, step, p, l);
    }
  }

  // ---- What became of the row ----

  predicate RejectedOrHolds(s: Fees, q: PaymentId, l: LedgerId) {
    && l < |s.ledger|
    && (StatusIn(s.payments, q, {Rejected}) || (StatusIn(s.payments, q, {PendingVerification, Paid}) && OnRow(s, q, l)))
  }

  lemma RejectedOrHoldsStep(s: Fees, step: Step, q: PaymentId, l: LedgerId)
    requires References(s) && PaymentsOk(s) && RejectedOrHolds(s, q, l)
    ensures RejectedOrHolds(Apply(s, true, step), q, l)
  {
    StatusMoves(s, step, q);
    FeeLifecycle.RowLife(s, true, step, l);
    if !StatusIn(s.payments, q, {Rejected}) {
      var it :| it in s.items && it.payment == q && it.row == l;
      ItemStaysIff(s, step, it);
    }
  }

  /** A claim or collection holds its rows until it is rejected. */
  lemma {:induction false} RejectedOrHoldsRun(s: Fees, steps: seq<Step>, q: PaymentId, l: LedgerId)
    requires Inv(s) && RejectedOrHolds(s, q, l)
    ensures RejectedOrHolds(Run(s, true, steps), q, l)
  {
    if steps == [] {
    } else {
      var n := |steps| - 1;
      RejectedOrHoldsRun(s, steps[..n], q, l);
      RunKeepsInv(s, steps[..n]);
      RejectedOrHoldsStep(Run(s, true, steps[..n]), steps[n], q, l);
    }
  }

  /** The payment an accepted request inserts holds every row the request names. */
  lemma TakerHolds(s: Fees, step: Step, l: LedgerId)
    requires References(s) && Accepts(s, step) && l in step.ids
    ensures var t := Apply(s, true, step);
            StatusIn(t.payments, |s.payments|, {PendingVerification, Paid}) && OnRow(t, |s.payments|, l)
  {
    var quotes := Chosen(s, step);
    AcceptedApply(s, step);
    AcceptedIdsPayable(s, step);
    HoldSucceeds(s, true, Request(s, step), step.ids, quotes, RequestNotes(s, step));
    var q := Quote(l, s.ledger[l].amountDue);
    assert q in quotes;
    var i :| 0 <= i < |quotes| && quotes[i] == q;
    var t := Apply(s, true, step);
    assert t.items[|t.items| - |quotes| + i].row == l;
    assert t.items[|t.items| - |quotes| + i] in t.items;
  }

  /** What a payment that has taken the row has come to. */
  predicate TakerFate(s: Fees, taker: PaymentId, l: LedgerId) {
    && l < |s.ledger|
    && (StatusIn(s.payments, taker, {Rejected})
        || (StatusIn(s.payments, taker, {Paid}) && s.ledger[l].payment == Some(taker))
        || (StatusIn(s.payments, taker, {PendingVerification}) && s.ledger[l].status.Payable()))
  }

  lemma HolderFate(s: Fees, q: PaymentId, l: LedgerId)
    requires References(s) && Settlement(s) && RejectedOrHolds(s, q, l)
    ensures TakerFate(s, q, l)
  {
  }

  /** A payment that took a row from a pending order ends up rejected, or it is the one that
      settled the row, or it awaits verification and the row is unpaid. */
  lemma TakerEnds(steps: seq<Step>, j: nat, p: PaymentId, l: LedgerId)
    requires TakenAt(steps, j, p, l)
    ensures TakerFate(Run(EMPTY, true, steps), |Run(EMPTY, true, steps[..j]).payments|, l)
  {
    var s := Run(EMPTY, true, steps[..j]);
    var next, rest := Apply(s, true, steps[j]), steps[j + 1..];
    RunKeepsInv(EMPTY, steps[..j]);
    AcceptedIdsPayable(s, steps[j]);
    TakerHolds(s, steps[j], l);
    FeeLifecycle.RowLife(s, true, steps[j], l);
    StepKeepsInv(s, steps[j]);
    SplitRun(EMPTY, steps, j);
    TakerEndsFrom(next, rest, |s.payments|, l);
  }

  lemma TakerEndsFrom(s: Fees, steps: seq<Step>, q: PaymentId, l: LedgerId)
    requires Inv(s) && RejectedOrHolds(s, q, l)
    ensures TakerFate(Run(s, true, steps), q, l)
  {
    RejectedOrHoldsRun(s, steps, q, l);
    RunKeepsInv(s, steps);
    HolderFate(Run(s, true, steps), q, l);
  }

  /** Another payment than `p` has been paid for the row. */
  predicate SettledByOther(s: Fees, p: PaymentId, l: LedgerId) {
    exists q :: 0 <= q < |s.payments| && q != p && s.payments[q].status.Paid? && OnRow(s, q, l) && SettledBy(s, q, l)
  }

  predicate SettledBy(s: Fees, p: PaymentId, l: LedgerId) {
    l < |s.ledger| && s.ledger[l].status.Settled? && s.ledger[l].payment == Some(p)
  }

  lemma RowSettled(s: Fees, p: PaymentId, l: LedgerId)
    requires References(s) && Settlement(s) && l < |s.ledger| && StatusIn(s.payments, p, {Paid})
    ensures SettledBy(s, p, l) <==> OnRow(s, p, l)
    ensures s.ledger[l].status.Settled? <==> SettledBy(s, p, l) || SettledByOther(s, p, l)
  {
    if s.ledger[l].status.Settled? {
      var it :| it in s.items && it.row == l && StatusIn(s.payments, it.payment, {Paid});
      assert SettledBy(s, it.payment, l);
    }
  }

  /** A paid order whose payment row was opened has inserted its items. */
  lemma PaidIsUnderway(s: Fees, k: nat)
    requires OrdersOk(s) && PaymentsOk(s) && k < |s.orders| && !s.orders[k].stage.Quoted?
    requires StatusIn(s.payments, s.orders[k].payment, {Paid})
    ensures Underway(s, k) && forall q :: q in s.orders[k].quotes ==> q.row < |s.ledger|
  {
    assert QuotesFit(s.ledger, s.orders[k]) && StageFits(s.payments, s.itemised, s.orders[k]);
    var p := s.orders[k].payment;
    assert PaymentOk(s.payments[p], p in s.itemised);
  }

  /** Each row a paid gateway order names is settled by that order exactly if no claim or
      collection was accepted for it while the order held it unpaid. If one was, the row has
      been paid a second time by another payment, or it is not settled at all: waived, or
      still owed although the order was paid. */
  lemma RowOfPaidOrder(steps: seq<Step>, k: nat, l: LedgerId)
    requires k < |Run(EMPTY, true, steps).orders| && Quotes(Run(EMPTY, true, steps).orders[k], l)
    requires !Run(EMPTY, true, steps).orders[k].stage.Quoted?
    requires StatusIn(Run(EMPTY, true, steps).payments, Run(EMPTY, true, steps).orders[k].payment, {Paid})
    ensures var s := Run(EMPTY, true, steps);
            var p := s.orders[k].payment;
            && l < |s.ledger|
            && (SettledBy(s, p, l) <==> !EverTaken(steps, p, l))
            && (EverTaken(steps, p, l) ==> (s.ledger[l].status.Settled? <==> SettledByOther(s, p, l)))
  {
    var s := Run(EMPTY, true, steps);
    RunKeepsInv(EMPTY, steps);
    PaidIsUnderway(s, k);
    HoldsIffNeverTaken(steps, k, l);
    RowSettled(s, s.orders[k].payment, l);
  }

  /** While the row is unpaid, every payment that took it is rejected or undecided. */
  lemma TakersUndecided(steps: seq<Step>, j: nat, p: PaymentId, l: LedgerId)
    requires TakenAt(steps, j, p, l)
    requires l < |Run(EMPTY, true, steps).ledger| && Run(EMPTY, true, steps).ledger[l].status.Payable()
    ensures StatusIn(Run(EMPTY, true, steps).payments, |Run(EMPTY, true, steps[..j]).payments|,
                     {Rejected, PendingVerification})
  {
    TakerEnds(steps, j, p, l);
    RunKeepsInv(EMPTY, steps);
  }

  /** A row no waiver has touched is still owed under a paid order exactly when it was taken
      and no other paid payment holds it; every payment that took it has then been rejected
      or is awaiting verification. */
  lemma StillOwedIff(steps: seq<Step>, k: nat, l: LedgerId)
    requires k < |Run(EMPTY, true, steps).orders| && Quotes(Run(EMPTY, true, steps).orders[k], l)
    requires !Run(EMPTY, true, steps).orders[k].stage.Quoted?
    requires StatusIn(Run(EMPTY, true, steps).payments, Run(EMPTY, true, steps).orders[k].payment, {Paid})
    requires l < |Run(EMPTY, true, steps).ledger| && !Run(EMPTY, true, steps).ledger[l].status.Waived?
    ensures var s := Run(EMPTY, true, steps);
            var p := s.orders[k].payment;
            && (s.ledger[l].status.Payable() <==> EverTaken(steps, p, l) && !SettledByOther(s, p, l))
            && (s.ledger[l].status.Payable() ==>
                  forall j :: 0 <= j < |steps| && TakenAt(steps, j, p, l) ==>
                    StatusIn(s.payments, |Run(EMPTY, true, steps[..j]).payments|, {Rejected, PendingVerification}))
  {
    RowOfPaidOrder(steps, k, l);
    var s := Run(EMPTY, true, steps);
    var p := s.orders[k].payment;
    forall j | 0 <= j < |steps| && TakenAt(steps, j, p, l) && s.ledger[l].status.Payable()
      ensures StatusIn(s.payments, |Run(EMPTY, true, steps[..j]).payments|, {Rejected, PendingVerification})
    {
      TakersUndecided(steps, j, p, l);
    }
  }
}
