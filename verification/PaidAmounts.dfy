/** What a settled row says it cost, against what was paid for it. Reports add up amount_due
    over paid rows; the money is in the line items. */
module PaidAmounts {
  import opened Schema
  import opened Statements
  import opened FeeProtocol
  import opened FeeInvariants
  import opened FeeRuns
  import opened FeeLifecycle
  import opened OrderTrail

  // ---- What a row charges after a run ----

  /** The step rewrites the row's amount. */
  predicate Reprices(s: Fees, step: Step, l: LedgerId) {
    step.SReprice? && l < |s.ledger| && l in step.prices && Matches(s.ledger[l], step.tenant, step.student)
  }

  /** The price the last repricing of the row gave in a run from `s`, if it had one. */
  function LastPrice(s: Fees, steps: seq<Step>, l: LedgerId): Option<Paise> {
    if steps == [] then None else
      var n := |steps| - 1;
      if Reprices(Run(s, true, steps[..n]), steps[n], l) then Some(steps[n].prices[l]) else LastPrice(s, steps[..n], l)
  }

  lemma StepAmount(s: Fees, step: Step, l: LedgerId)
    requires l < |s.ledger|
    ensures l < |Apply(s, true, step).ledger|
    ensures Apply(s, true, step).ledger[l].amountDue
         == if Reprices(s, step, l) then step.prices[l] else s.ledger[l].amountDue
  {
    if !step.SReprice? { StepKeepsCharge(s, step, l); }
  }

  lemma {:induction false} AmountAfter(s: Fees, steps: seq<Step>, l: LedgerId)
    requires l < |s.ledger|
    ensures l < |Run(s, true, steps).ledger|
    ensures Run(s, true, steps).ledger[l].amountDue
         == if LastPrice(s, steps, l).Some? then LastPrice(s, steps, l).value else s.ledger[l].amountDue
  {
    if steps == [] {
    } else {
      var n := |steps| - 1;
      AmountAfter(s, steps[..n], l);
      StepAmount(Run(s, true, steps[..n]), steps[n], l);
    }
  }

  // ---- When a line item's amount was read ----

  /** Step `j` is the claim or collection that inserted payment `p`. */
  predicate RequestedAt(steps: seq<Step>, j: nat, p: PaymentId, l: LedgerId) {
    && j < |steps| && Accepts(Run(EMPTY, true, steps[..j]), steps[j])
    && |Run(EMPTY, true, steps[..j]).payments| == p && l in steps[j].ids
  }

  /** Step `j` is the read that began order `k`. */
  predicate QuotedAt(steps: seq<Step>, j: nat, k: nat) {
    j < |steps| && steps[j].SQuote? && |Run(EMPTY, true, steps[..j]).orders| == k
  }

  /** When step `j` ran, the row charged this amount. */
  predicate Charged(steps: seq<Step>, j: nat, l: LedgerId, amount: Paise) {
    && j <= |steps| && l < |Run(EMPTY, true, steps[..j]).ledger|
    && Run(EMPTY, true, steps[..j]).ledger[l].amountDue == amount
  }

  predicate QuoteRead(steps: seq<Step>, j: nat, k: nat, q: Quote) {
    QuotedAt(steps, j, k) && Charged(steps, j, q.row, q.amount)
  }

  /** Step `j` read the row's amount for payment `p`, itself or by beginning its order. */
  predicate ReadAt(steps: seq<Step>, j: nat, it: LineItem) {
    && Charged(steps, j, it.row, it.amount)
    && (RequestedAt(steps, j, it.payment, it.row) || OrderedAt(steps, j, Run(EMPTY, true, steps).orders, it.payment))
  }

  /** Step `j` began the order that payment `p` belongs to. */
  predicate OrderedAt(steps: seq<Step>, j: nat, orders: seq<Order>, p: PaymentId) {
    exists k :: 0 <= k < |orders| && Behind(orders, k, p) && QuotedAt(steps, j, k)
  }

  lemma EarlierRead(steps: seq<Step>, j: nat, l: LedgerId, amount: Paise, k: nat, p: PaymentId)
    requires steps != [] && j < |steps| - 1
    ensures var front := steps[..|steps| - 1];
            && (Charged(front, j, l, amount) <==> Charged(steps, j, l, amount))
            && (QuotedAt(front, j, k) <==> QuotedAt(steps, j, k))
            && (RequestedAt(front, j, p, l) <==> RequestedAt(steps, j, p, l))
  {
    assert steps[..|steps| - 1][..j] == steps[..j];
  }

  /** What becomes of an order's quotes and payment in one step. */
  lemma OrderKept(s: Fees, step: Step, k: nat)
    requires References(s) && k < |s.orders|
    ensures var t := Apply(s, true, step);
            && k < |t.orders| && t.orders[k].quotes == s.orders[k].quotes
            && (!s.orders[k].stage.Quoted? ==> !t.orders[k].stage.Quoted? && t.orders[k].payment == s.orders[k].payment)
  {
    if !OrderStep(step) { StepKeepsOrders(s, step); }
  }

  lemma OrdersOnlyQuoted(s: Fees, step: Step)
    requires References(s)
    ensures var t := Apply(s, true, step);
            if step.SQuote? && |t.orders| > |s.orders|
            then |t.orders| == |s.orders| + 1
                 && t.orders[|s.orders|].quotes == Select(s.ledger, step.tenant, step.student, step.ids)
            else |t.orders| == |s.orders|
  {
    if !OrderStep(step) { StepKeepsOrders(s, step); }
  }

  /** Each quote of an order was read from its row when the order began. */
  lemma {:induction false} QuoteOrigin(steps: seq<Step>, k: nat, q: Quote) returns (j: nat)
    requires k < |Run(EMPTY, true, steps).orders| && q in Run(EMPTY, true, steps).orders[k].quotes
    ensures QuoteRead(steps, j, k, q)
  {
    var n := |steps| - 1;
    var s := Run(EMPTY, true, steps[..n]);
    RunKeepsInv(EMPTY, steps[..n]);
    OrdersOnlyQuoted(s, steps[n]);
    if k < |s.orders| {
      OrderKept(s, steps[n], k);
      j := QuoteOrigin(steps[..n], k, q);
      EarlierRead(steps, j, q.row, q.amount, k, 0);
    } else {
      j := n;
    }
  }

  /** Each line item's amount was read from its row by the step that inserted its payment, or
      by the one that began its order. */
  lemma {:induction false} ItemOrigin(steps: seq<Step>, it: LineItem) returns (j: nat)
    requires it in Run(EMPTY, true, steps).items
    ensures ReadAt(steps, j, it)
  {
    var n := |steps| - 1;
    var s := Run(EMPTY, true, steps[..n]);
    RunKeepsInv(EMPTY, steps[..n]);
    if it in s.items {
      j := ItemOrigin(steps[..n], it);
      ReadKept(steps, j, it);
    } else {
      j := NewItemRead(steps, it);
    }
  }

  lemma ReadKept(steps: seq<Step>, j: nat, it: LineItem)
    requires steps != [] && ReadAt(steps[..|steps| - 1], j, it) && j < |steps| - 1
    ensures ReadAt(steps, j, it)
  {
    var s := Run(EMPTY, true, steps[..|steps| - 1]);
    EarlierRead(steps, j, it.row, it.amount, 0, it.payment);
    if !RequestedAt(steps, j, it.payment, it.row) {
      RunKeepsInv(EMPTY, steps[..|steps| - 1]);
      OrderedKept(s, steps, j, it.payment);
    }
  }

  lemma OrderedKept(s: Fees, steps: seq<Step>, j: nat, p: PaymentId)
    requires References(s) && steps != [] && j < |steps| - 1 && OrderedAt(steps[..|steps| - 1], j, s.orders, p)
    ensures OrderedAt(steps, j, Apply(s, true, steps[|steps| - 1]).orders, p)
  {
    var k :| 0 <= k < |s.orders| && Behind(s.orders, k, p) && QuotedAt(steps[..|steps| - 1], j, k);
    EarlierRead(steps, j, 0, 0, k, p);
    OrderKept(s, steps[|steps| - 1], k);
  }

  lemma NewItemRead(steps: seq<Step>, it: LineItem) returns (j: nat)
    requires steps != [] && it in Run(EMPTY, true, steps).items && it !in Run(EMPTY, true, steps[..|steps| - 1]).items
    ensures ReadAt(steps, j, it) && j < |steps|
  {
    var n := |steps| - 1;
    var s := Run(EMPTY, true, steps[..n]);
    RunKeepsInv(EMPTY, steps[..n]);
    NewItem(s, steps[n], it);
    if Inserts(s, steps[n], it) {
      var k := steps[n].k;
      j := QuoteOrigin(steps[..n], k, Quote(it.row, it.amount));
      EarlierRead(steps, j, it.row, it.amount, k, it.payment);
      OrderKept(s, steps[n], k);
      assert Behind(Run(EMPTY, true, steps).orders, k, it.payment);
    } else {
      j := n;
      RequestReads(s, steps[n], it);
    }
  }

  lemma RequestReads(s: Fees, step: Step, it: LineItem)
    requires References(s) && Accepts(s, step) && it in Apply(s, true, step).items && it !in s.items
    ensures it.payment == |s.payments| && it.row in step.ids
    ensures it.row < |s.ledger| && s.ledger[it.row].amountDue == it.amount
  {
    AcceptedApply(s, step);
    HoldItems(s, true, Request(s, step), step.ids, Chosen(s, step), RequestNotes(s, step));
  }

  /** What a row with a line item charges is the item's amount exactly if the row's last
      repricing since that amount was read, if it had one, gave the same amount. */
  lemma ItemAmountIff(steps: seq<Step>, it: LineItem) returns (j: nat)
    requires it in Run(EMPTY, true, steps).items
    ensures ReadAt(steps, j, it) && it.row < |Run(EMPTY, true, steps).ledger|
    ensures Run(EMPTY, true, steps).ledger[it.row].amountDue == it.amount <==>
              LastPrice(Run(EMPTY, true, steps[..j]), steps[j..], it.row) in {None, Some(it.amount)}
  {
    j := ItemOrigin(steps, it);
    RunFrom(steps, j);
    AmountAfter(Run(EMPTY, true, steps[..j]), steps[j..], it.row);
  }

  lemma RunFrom(steps: seq<Step>, j: nat)
    requires j <= |steps|
    ensures Run(EMPTY, true, steps) == Run(Run(EMPTY, true, steps[..j]), true, steps[j..])
  {
    assert steps == steps[..j] + steps[j..];
    RunConcat(EMPTY, steps[..j], steps[j..]);
  }

  /** Every settled row has one line item of its paid payment; what the row charges, and
      reports count as collected, is what that item was paid for exactly if the row's last
      repricing since the item's amount was read, if it had one, gave the same amount. */
  lemma SettledAmountIff(steps: seq<Step>, l: LedgerId) returns (it: LineItem, j: nat)
    requires l < |Run(EMPTY, true, steps).ledger| && Run(EMPTY, true, steps).ledger[l].status.Settled?
    ensures it in Run(EMPTY, true, steps).items && it.row == l
    ensures Run(EMPTY, true, steps).ledger[l].payment == Some(it.payment)
    ensures ReadAt(steps, j, it)
    ensures Run(EMPTY, true, steps).ledger[l].amountDue == it.amount <==>
              LastPrice(Run(EMPTY, true, steps[..j]), steps[j..], l) in {None, Some(it.amount)}
  {
    it := PayingItem(steps, l);
    j := ItemAmountIff(steps, it);
  }

  lemma PayingItem(steps: seq<Step>, l: LedgerId) returns (it: LineItem)
    requires l < |Run(EMPTY, true, steps).ledger| && Run(EMPTY, true, steps).ledger[l].status.Settled?
    ensures it in Run(EMPTY, true, steps).items && it.row == l
    ensures Run(EMPTY, true, steps).ledger[l].payment == Some(it.payment)
  {
    RunKeepsInv(EMPTY, steps);
    var s := Run(EMPTY, true, steps);
    it :| it in s.items && it.row == l && StatusIn(s.payments, it.payment, {Paid});
  }
}
