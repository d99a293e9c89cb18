/** The date-driven half of a ledger row's life: scheduler.fee_lifecycle_advance. */
module FeeLifecycle {
  import opened Schema
  import opened Statements
  import opened FeeProtocol

  /** The status an unpaid row ought to have on a day. */
  function StatusOn(due: int, day: int): LedgerStatus {
    if due <= day - 5 then Overdue else if due <= day then Due else Pending
  }

  /** The days of a run's scans, in order. */
  function ScanDays(steps: seq<Step>): seq<int> {
    if steps == [] then [] else
      var n := |steps| - 1;
      ScanDays(steps[..n]) + DayOf(steps[n])
  }

  predicate NonDecreasing(days: seq<int>) { forall i, j :: 0 <= i < j < |days| ==> days[i] <= days[j] }

  /** The status after scans on `days`: only the last one counts. */
  function StatusAfter(due: Option<int>, days: seq<int>): LedgerStatus {
    if due.None? || days == [] then Pending else StatusOn(due.value, days[|days| - 1])
  }

  /** What a step may make of a ledger row. */
  predicate RowMove(o: LedgerRow, r: LedgerRow, step: Step) {
    match step
    case SAdvance(today) => r == AdvanceRow(o, today)
    case SReprice(_, _, _) => r == o || (o.status.Payable() && r == o.(amountDue := r.amountDue))
    case SWaive(_, _, _, _) => r == o || (o.status.Payable() && r == o.(status := Waived))
    case SCollect(_, _, _, _) => SettledOrSame(o, r)
    case SApprove(_, _) => SettledOrSame(o, r)
    case SWebhook(_, _, _) => SettledOrSame(o, r)
    case _ => r == o
  }

  predicate SettledOrSame(o: LedgerRow, r: LedgerRow) { r == o || r == o.(status := Settled, payment := r.payment) }

  lemma CollectRow(s: Fees, guard: bool, tenant: TenantId, student: StudentId, ids: seq<LedgerId>, how: string,
                   l: LedgerId)
    requires l < |s.ledger|
    ensures var t := Collect(s, guard, tenant, student, ids, how).0;
            |t.ledger| == |s.ledger| && SettledOrSame(s.ledger[l], t.ledger[l])
  {
  }

  lemma WaiveRow(s: Fees, tenant: TenantId, student: StudentId, ids: seq<LedgerId>, reason: string, l: LedgerId)
    requires l < |s.ledger|
    ensures var t := Waive(s, tenant, student, ids, reason).0;
            |t.ledger| == |s.ledger| && RowMove(s.ledger[l], t.ledger[l], SWaive(tenant, student, ids, reason))
  {
    LengthTestExact(s.ledger, tenant, student, ids);
  }

  lemma OrderRow(s: Fees, guard: bool, step: Step)
    requires OrderStep(step)
    ensures Apply(s, guard, step).ledger == s.ledger
  {
  }

  lemma RowMoves(s: Fees, guard: bool, step: Step, l: LedgerId)
    requires l < |s.ledger|
    ensures l < |Apply(s, guard, step).ledger| && RowMove(s.ledger[l], Apply(s, guard, step).ledger[l], step)
  {
    match step
    case SCollect(tenant, student, ids, how) => CollectRow(s, guard, tenant, student, ids, how, l);
    case SWaive(tenant, student, ids, reason) => WaiveRow(s, tenant, student, ids, reason, l);
    case SSweep(expired) => SweepKeepsLedger(s, expired);
    case _ => if OrderStep(step) { OrderRow(s, guard, step); }
  }

  /** One step leaves a row's due date alone, never makes a row payable again, and moves
      a payable row along only by the scan. */
  lemma RowLife(s: Fees, guard: bool, step: Step, l: LedgerId)
    requires l < |s.ledger|
    ensures l < |Apply(s, guard, step).ledger|
    ensures var o, r := s.ledger[l], Apply(s, guard, step).ledger[l];
            && r.dueDate == o.dueDate
            && (r.status.Payable() ==>
                  && o.status.Payable()
                  && r.status == if step.SAdvance? then AdvanceRow(o, step.today).status else o.status)
  {
    RowMoves(s, guard, step, l);
  }

  lemma {:induction false} SweepKeepsLedger(s: Fees, expired: seq<PaymentId>)
    ensures Sweep(s, expired).ledger == s.ledger
  {
    if expired == [] {
    } else {
      SweepKeepsLedger(s, expired[..|expired| - 1]);
    }
  }

  /** What a row charges, and for what. */
  predicate SameCharge(a: LedgerRow, b: LedgerRow) {
    && b.tenant == a.tenant && b.student == a.student && b.head == a.head && b.year == a.year
    && b.month == a.month && b.periodYear == a.periodYear && b.amountDue == a.amountDue
  }

  /** No step of the protocol but repricing rewrites what a row charges. */
  lemma StepKeepsCharge(s: Fees, step: Step, l: LedgerId)
    requires l < |s.ledger| && !step.SReprice?
    ensures l < |Apply(s, true, step).ledger| && SameCharge(s.ledger[l], Apply(s, true, step).ledger[l])
  {
    RowMoves(s, true, step, l);
  }

  /** A scan on a later day brings a payable row from the status of one day to that of the other. */
  lemma ScanCatchesUp(o: LedgerRow, days: seq<int>, today: int)
    requires o.status.Payable() && o.status == StatusAfter(o.dueDate, days)
    requires days != [] ==> days[|days| - 1] <= today
    ensures AdvanceRow(o, today).status == StatusAfter(o.dueDate, days + [today])
  {
  }

  function DayOf(step: Step): seq<int> { if step.SAdvance? then [step.today] else [] }

  /** One more step: the row keeps having the status the last scan gives it. */
  lemma CatchUpStep(s: Fees, guard: bool, step: Step, l: LedgerId, days: seq<int>)
    requires l < |s.ledger|
    requires s.ledger[l].status.Payable() ==> s.ledger[l].status == StatusAfter(s.ledger[l].dueDate, days)
    requires step.SAdvance? && days != [] ==> days[|days| - 1] <= step.today
    ensures var t := Apply(s, guard, step);
            && l < |t.ledger| && t.ledger[l].dueDate == s.ledger[l].dueDate
            && (t.ledger[l].status.Payable() ==>
                  t.ledger[l].status == StatusAfter(s.ledger[l].dueDate, days + DayOf(step)))
  {
    RowLife(s, guard, step, l);
    if step.SAdvance? && s.ledger[l].status.Payable() {
      ScanCatchesUp(s.ledger[l], days, step.today);
    }
    assert days + [] == days;
  }

  lemma ScanDaysSnoc(steps: seq<Step>)
    requires steps != [] && NonDecreasing(ScanDays(steps))
    ensures var n := |steps| - 1;
            && NonDecreasing(ScanDays(steps[..n]))
            && (steps[n].SAdvance? && ScanDays(steps[..n]) != [] ==>
                  ScanDays(steps[..n])[|ScanDays(steps[..n])| - 1] <= steps[n].today)
  {
    var before, days := ScanDays(steps[..|steps| - 1]), ScanDays(steps);
    assert forall i :: 0 <= i < |before| ==> before[i] == days[i];
    if steps[|steps| - 1].SAdvance? && before != [] { assert days[|before| - 1] <= days[|before|]; }
  }

  /** In any interleaving with scans on non-decreasing days, a row that starts pending and
      is neither paid nor waived has the status its due date and the last scan give it: a
      skipped scan loses nothing. A row without a due date stays pending for ever. */
  lemma {:induction false} CatchUp(s: Fees, guard: bool, steps: seq<Step>, l: LedgerId)
    requires l < |s.ledger| && s.ledger[l].status.Pending?
    requires NonDecreasing(ScanDays(steps))
    ensures l < |Run(s, guard, steps).ledger|
    ensures var r := Run(s, guard, steps).ledger[l];
            r.dueDate == s.ledger[l].dueDate &&
            (r.status.Payable() ==> r.status == StatusAfter(s.ledger[l].dueDate, ScanDays(steps)))
  {
    if steps == [] {
    } else {
      var n := |steps| - 1;
      ScanDaysSnoc(steps);
      CatchUp(s, guard, steps[..n], l);
      CatchUpStep(Run(s, guard, steps[..n]), guard, steps[n], l, ScanDays(steps[..n]));
    }
  }

  /** Without a due date no scan, on whatever days, moves a row. */
  lemma {:induction false} NoDueDateNoScan(s: Fees, guard: bool, steps: seq<Step>, l: LedgerId)
    requires l < |s.ledger| && s.ledger[l].status.Pending? && s.ledger[l].dueDate.None?
    ensures l < |Run(s, guard, steps).ledger|
    ensures var r := Run(s, guard, steps).ledger[l]; r.dueDate.None? && (r.status.Payable() ==> r.status.Pending?)
  {
    if steps == [] {
    } else {
      var n := |steps| - 1;
      NoDueDateNoScan(s, guard, steps[..n], l);
      RowLife(Run(s, guard, steps[..n]), guard, steps[n], l);
    }
  }
}
