/** Generation and discounts as steps of the fee protocol. */
module FinanceLinks {
  import opened Schema
  import opened Pricing
  import opened LedgerGeneration
  import opened StudentDiscounts
  import FeeProtocol
  import FeeLifecycle
  import FeeRuns

  /** To the fee protocol, setting discounts is a repricing of unpaid rows. */
  lemma RecomputeIsReprice(ledger: seq<LedgerRow>, schedules: seq<Schedule>, discounts: Discounts,
                           tenant: TenantId, student: StudentId, class_: nat)
    ensures exists prices :: FeeProtocol.Reprice(ledger, tenant, student, prices)
                          == Recompute(ledger, schedules, discounts, tenant, student, class_)
  {
    var after := Recompute(ledger, schedules, discounts, tenant, student, class_);
    var prices := map l | 0 <= l < |ledger| :: after[l].amountDue;
    assert FeeProtocol.Reprice(ledger, tenant, student, prices) == after;
  }

  /** To the fee protocol, generation is the billing of its new rows one by one. */
  lemma {:induction false} GenerationIsBilling(s: FeeProtocol.Fees, rows: seq<LedgerRow>)
    requires forall row :: row in rows ==> row.status.Pending? && row.payment.None?
    ensures FeeRuns.Reaches(s, true, s.(ledger := InsertRows(s.ledger, rows)))
  {
    if rows == [] {
      assert FeeRuns.Yields(s, true, [], s.(ledger := InsertRows(s.ledger, rows)));
    } else {
      var n := |rows| - 1;
      assert rows == rows[..n] + [rows[n]];
      GenerationIsBilling(s, rows[..n]);
      var before := s.(ledger := InsertRows(s.ledger, rows[..n]));
      if !Taken(before.ledger, KeyOf(rows[n])) {
        assert rows[n] in rows;
        FeeRuns.ReachStep(s, true, before, FeeProtocol.SBill(rows[n]));
      }
    }
  }

  /** Generated rows carry no due date, so the daily scan never makes one due or overdue,
      whatever else happens: it stays pending until it is paid or waived. */
  lemma GeneratedRowsNeverFallDue(s: FeeProtocol.Fees, guard: bool, steps: seq<FeeProtocol.Step>, q: Request,
                                  l: LedgerId)
    requires l < |s.ledger| && s.ledger[l] in Entries(q)
    ensures l < |FeeProtocol.Run(s, guard, steps).ledger|
    ensures var status := FeeProtocol.Run(s, guard, steps).ledger[l].status; status.Payable() ==> status.Pending?
  {
    AllRowsFor(StudentsOf(q.students, q.tenant, q.year), SchedulesOf(q.schedules, q.tenant, q.year), q.months,
               q.includeAnnual,
               q.discounts, q.tenant, q.year);
    FeeLifecycle.NoDueDateNoScan(s, guard, steps, l);
  }
}
