/** finance.levy_one_time_fee and levy_fee_group. */
module Levies {
  import opened Schema
  import opened Pricing
  import opened LedgerGeneration

  datatype HeadInfo = HeadInfo(active: bool, feeType: FeeType)

  /** What a levy looks up: the head, whether the student is active, the academic year
      (None when the tenant has no current one), and the calendar year of today. */
  datatype Levy = Levy(
    tenant: TenantId, student: StudentId, head: HeadId, info: Option<HeadInfo>,
    enrolled: bool, year: Option<YearId>, amount: int, today: int)

  datatype Outcome =
    | Levied | BadAmount | HeadNotFound | HeadInactive | NotOneTime | StudentNotFound | NoYear | AlreadyUnpaid
    /** the plain INSERT hits fee_ledger_unique_annual: not a FinanceError */
    | UniqueViolation
  {
    predicate FinanceError() { !Levied? && !UniqueViolation? }
  }

  /** status <> 'paid' AND payment_id IS NULL: a waived row counts as unpaid here. */
  predicate UnpaidRow(row: LedgerRow, q: Levy) {
    && row.tenant == q.tenant && row.student == q.student && row.head == q.head && q.year == Some(row.year)
    && !row.status.Settled? && row.payment.None?
  }

  predicate HasUnpaid(ledger: seq<LedgerRow>, q: Levy) { exists l :: 0 <= l < |ledger| && UnpaidRow(ledger[l], q) }

  function LevyKey(q: Levy): Key { Key(q.tenant, q.student, q.head, q.today, None) }

  function LevyRow(q: Levy): LedgerRow
    requires q.year.Some? && q.amount > 0
  {
    LedgerRow(q.tenant, q.student, q.head, q.year.value, None, q.today, q.amount, None, Pending, None)
  }

  function LevyOne(ledger: seq<LedgerRow>, q: Levy): (seq<LedgerRow>, Outcome) {
    if q.amount <= 0 then (ledger, BadAmount)
    else if q.info.None? then (ledger, HeadNotFound)
    else if !q.info.value.active then (ledger, HeadInactive)
    else if !q.info.value.feeType.OneTime? then (ledger, NotOneTime)
    else if !q.enrolled then (ledger, StudentNotFound)
    else if q.year.None? then (ledger, NoYear)
    else if HasUnpaid(ledger, q) then (ledger, AlreadyUnpaid)
    else if Taken(ledger, LevyKey(q)) then (ledger, UniqueViolation)
    else (ledger + [LevyRow(q)], Levied)
  }

  predicate WellPosed(q: Levy) {
    q.amount > 0 && q.info.Some? && q.info.value.active && q.info.value.feeType.OneTime? && q.enrolled && q.year.Some?
  }

  /** A levy goes through exactly when it is well posed, the student owes nothing on that
      head this academic year, and has no row for it at all in this calendar year. Then it
      adds the one row and the student owes it; otherwise nothing changes. */
  lemma LeviedIff(ledger: seq<LedgerRow>, q: Levy)
    ensures LevyOne(ledger, q).1.Levied? <==> WellPosed(q) && !HasUnpaid(ledger, q) && !Taken(ledger, LevyKey(q))
    ensures LevyOne(ledger, q).1.Levied? ==> HasUnpaid(LevyOne(ledger, q).0, q)
    ensures !LevyOne(ledger, q).1.Levied? ==> LevyOne(ledger, q).0 == ledger
    ensures KeysUnique(ledger) ==> KeysUnique(LevyOne(ledger, q).0)
  {
    if LevyOne(ledger, q).1.Levied? { assert UnpaidRow((ledger + [LevyRow(q)])[|ledger|], q); }
  }

  /** A row of the student on the head, in the levy's academic year, that is not paid and
      points to no payment: a waived one too. */
  predicate OpenThisYear(row: LedgerRow, q: Levy) {
    && row.tenant == q.tenant && row.student == q.student && row.head == q.head && Some(row.year) == q.year
    && row.status != Settled && row.payment == None
  }

  /** Every answer, in the order of the tests. A levy that goes through adds one row, unpaid,
      without month and due date, for the amount asked and today's calendar year; any other
      answer changes nothing. */
  lemma LevyAnswers(ledger: seq<LedgerRow>, q: Levy)
    ensures var (after, r) := LevyOne(ledger, q);
            if q.amount <= 0 then r == BadAmount && after == ledger
            else if q.info == None then r == HeadNotFound && after == ledger
            else if !q.info.value.active then r == HeadInactive && after == ledger
            else if q.info.value.feeType != OneTime then r == NotOneTime && after == ledger
            else if !q.enrolled then r == StudentNotFound && after == ledger
            else if q.year == None then r == NoYear && after == ledger
            else if exists l :: 0 <= l < |ledger| && OpenThisYear(ledger[l], q)
            then r == AlreadyUnpaid && after == ledger
            else if exists l :: 0 <= l < |ledger| && SameCharge(ledger[l], q)
            then r == UniqueViolation && after == ledger
            else r == Levied && after == ledger + [LedgerRow(q.tenant, q.student, q.head, q.year.value, None, q.today,
                                                             q.amount, None, Pending, None)]
  {
    forall l | 0 <= l < |ledger| ensures OpenThisYear(ledger[l], q) <==> UnpaidRow(ledger[l], q) {
    }
    forall l | 0 <= l < |ledger| ensures SameCharge(ledger[l], q) <==> KeyOf(ledger[l]) == LevyKey(q) {
    }
  }

  // ---- The error the callers do not catch ----

  /** The row a levy made this calendar year would have, whatever its academic year. */
  predicate SameCharge(row: LedgerRow, q: Levy) {
    row.tenant == q.tenant && row.student == q.student && row.head == q.head && row.month.None?
        && row.periodYear == q.today
  }

  predicate PaidThisYear(ledger: seq<LedgerRow>, q: Levy) {
    exists l :: 0 <= l < |ledger| && SameCharge(ledger[l], q) && ledger[l].status.Settled?
  }

  /** Owed, or waived, for another academic year. */
  predicate OpenFromOtherYear(ledger: seq<LedgerRow>, q: Levy) {
    exists l :: 0 <= l < |ledger| && SameCharge(ledger[l], q) && !ledger[l].status.Settled?
        && q.year != Some(ledger[l].year)
  }

  /** What the comment asks of a levy: a genuine one, with nothing unpaid this academic year. */
  predicate Legitimate(ledger: seq<LedgerRow>, q: Levy) { WellPosed(q) && !HasUnpaid(ledger, q) }

  /** A levy ends in the unique violation exactly when it is legitimate and some row of the
      student carries the head, no month and today's calendar year. */
  lemma UncaughtIff(ledger: seq<LedgerRow>, q: Levy)
    ensures LevyOne(ledger, q).1.UniqueViolation? <==>
              Legitimate(ledger, q) && exists l :: 0 <= l < |ledger| && SameCharge(ledger[l], q)
  {
    forall l | 0 <= l < |ledger| ensures KeyOf(ledger[l]) == LevyKey(q) <==> SameCharge(ledger[l], q) {
    }
  }

  /** The comment calls every such levy legitimate, after a payment in particular. It goes
      through unless the head was paid in this calendar year or a row of another academic
      year, but of this calendar year, is still open; in both cases, which exclude each
      other, the error is one the callers do not catch. */
  lemma LegitimateLevy(ledger: seq<LedgerRow>, q: Levy)
    requires Legitimate(ledger, q) && KeysUnique(ledger)
    requires forall l :: 0 <= l < |ledger| ==> (ledger[l].status.Settled? <==> ledger[l].payment.Some?)
    ensures LevyOne(ledger, q).1 == if PaidThisYear(ledger, q) || OpenFromOtherYear(ledger, q) then UniqueViolation
        else Levied
    ensures !(PaidThisYear(ledger, q) && OpenFromOtherYear(ledger, q))
  {
    UncaughtIff(ledger, q);
    LeviedIff(ledger, q);
    forall l | 0 <= l < |ledger| && SameCharge(ledger[l], q)
      ensures ledger[l].status.Settled? || q.year != Some(ledger[l].year)
    {
      assert !UnpaidRow(ledger[l], q);
    }
  }

  /** One paid row of this calendar year is enough: the levy is legitimate and refused. */
  lemma PaidRowBlocks(q: Levy, row: LedgerRow)
    requires WellPosed(q) && SameCharge(row, q) && row.status.Settled?
    ensures Legitimate([row], q) && LevyOne([row], q).1.UniqueViolation?
  {
    assert SameCharge([row][0], q);
    UncaughtIff([row], q);
  }

  /** So is one open row of another academic year. */
  lemma OpenRowBlocks(q: Levy, row: LedgerRow)
    requires WellPosed(q) && SameCharge(row, q) && !row.status.Settled? && q.year != Some(row.year)
    ensures Legitimate([row], q) && LevyOne([row], q).1.UniqueViolation?
  {
    assert SameCharge([row][0], q);
    UncaughtIff([row], q);
  }

  // ---- levy_fee_group ----

  /** A head of the group with the amount of its schedule, if it has one. */
  datatype GroupHead = GroupHead(head: HeadId, info: Option<HeadInfo>, amount: Option<int>)

  function LevyOf(q: Levy, h: GroupHead): Levy
    requires h.amount.Some?
  {
    q.(head := h.head, info := h.info, amount := h.amount.value)
  }

  predicate Skipped(h: GroupHead) { h.amount.None? || h.amount.value <= 0 }

  /** Heads without an amount and heads that raise a FinanceError are skipped; any other
      error ends the loop. */
  function LevyGroup(ledger: seq<LedgerRow>, q: Levy, heads: seq<GroupHead>): (seq<LedgerRow>, bool)
    decreases heads
  {
    if heads == [] then (ledger, true)
    else if Skipped(heads[0]) then LevyGroup(ledger, q, heads[1..])
    else
      var r := LevyOne(ledger, LevyOf(q, heads[0]));
      if r.1.UniqueViolation? then (ledger, false) else LevyGroup(r.0, q, heads[1..])
  }

  method LevyFeeGroup(ledger: seq<LedgerRow>, q: Levy, heads: seq<GroupHead>) returns (after: seq<LedgerRow>, ok: bool)
    ensures (after, ok) == LevyGroup(ledger, q, heads)
  {
    after := ledger;
    for i := 0 to |heads|
      invariant LevyGroup(after, q, heads[i..]) == LevyGroup(ledger, q, heads)
    {
      assert heads[i..][1..] == heads[i + 1..];
      if !Skipped(heads[i]) {
        var r := LevyOne(after, LevyOf(q, heads[i]));
        if r.1.UniqueViolation? { return after, false; }
        after := r.0;
      }
    }
    ok := true;
  }

  predicate Violates(ledger: seq<LedgerRow>, q: Levy, h: GroupHead) {
    !Skipped(h) && LevyOne(ledger, LevyOf(q, h)).1.UniqueViolation?
  }

  /** A levy that was answered changes nothing for whether another head can be levied. */
  lemma LevyLeavesOthers(ledger: seq<LedgerRow>, q: Levy, done: GroupHead, h: GroupHead)
    requires !Skipped(done) && !Violates(ledger, q, done)
    ensures Violates(LevyOne(ledger, LevyOf(q, done)).0, q, h) <==> Violates(ledger, q, h)
  {
    var next := LevyOne(ledger, LevyOf(q, done)).0;
    if next != ledger && !Skipped(h) {
      var one, other := LevyOf(q, done), LevyOf(q, h);
      assert next == ledger + [LevyRow(one)];
      assert forall l :: 0 <= l < |ledger| ==> next[l] == ledger[l];
      if h.head == done.head {
        assert UnpaidRow(next[|ledger|], other);
      } else {
        assert KeyOf(next[|ledger|]) != LevyKey(other) && !UnpaidRow(next[|ledger|], other);
      }
    }
  }

  /** The group's loop dies exactly when, on the ledger as it stood at the start, some head of
      the group would end in the unique violation: levies before it neither cause nor cure it. */
  lemma {:induction false} GroupDiesIff(ledger: seq<LedgerRow>, q: Levy, heads: seq<GroupHead>)
    ensures !LevyGroup(ledger, q, heads).1 <==> exists i :: 0 <= i < |heads| && Violates(ledger, q, heads[i])
    decreases heads
  {
    if heads == [] {
    } else {
      var rest := heads[1..];
      assert forall i :: 0 < i < |heads| ==> heads[i] == rest[i - 1];
      if !Violates(ledger, q, heads[0]) {
        var next := if Skipped(heads[0]) then ledger else LevyOne(ledger, LevyOf(q, heads[0])).0;
        GroupDiesIff(next, q, rest);
        forall i | 0 <= i < |rest| ensures Violates(next, q, rest[i]) <==> Violates(ledger, q, heads[i + 1]) {
          if !Skipped(heads[0]) { LevyLeavesOthers(ledger, q, heads[0], rest[i]); }
        }
      }
    }
  }

  /** When the loop gets through, every head with a positive amount that can be levied is owed. */
  lemma GroupOwed(ledger: seq<LedgerRow>, q: Levy, heads: seq<GroupHead>, i: nat)
    requires LevyGroup(ledger, q, heads).1 && i < |heads| && heads[i].amount.Some? && WellPosed(LevyOf(q, heads[i]))
    ensures HasUnpaid(LevyGroup(ledger, q, heads).0, LevyOf(q, heads[i]))
  {
    GroupAnswersAll(ledger, q, heads);
  }

  /** A row the loop has added is that of one of the heads, for its amount. */
  predicate RowOf(row: LedgerRow, q: Levy, h: GroupHead) {
    && h.amount.Some? && h.amount.value > 0 && row.head == h.head && row.amountDue == h.amount.value
    && row.tenant == q.tenant && row.student == q.student && q.year == Some(row.year) && row.month.None?
    && row.periodYear == q.today && row.status.Pending? && row.payment.None? && row.dueDate.None?
  }

  lemma {:induction false} GroupAdds(ledger: seq<LedgerRow>, q: Levy, heads: seq<GroupHead>, l: nat)
    requires |ledger| <= l < |LevyGroup(ledger, q, heads).0|
    ensures exists i :: 0 <= i < |heads| && RowOf(LevyGroup(ledger, q, heads).0[l], q, heads[i])
    decreases heads
  {
    if heads == [] {
    } else {
      var rest, after := heads[1..], LevyGroup(ledger, q, heads).0;
      assert forall i :: 0 < i < |heads| ==> heads[i] == rest[i - 1];
      if Skipped(heads[0]) {
        GroupAdds(ledger, q, rest, l);
        var i :| 0 <= i < |rest| && RowOf(after[l], q, rest[i]);
        assert heads[i + 1] == rest[i];
      } else {
        var next := LevyOne(ledger, LevyOf(q, heads[0])).0;
        GroupGrows(next, q, rest);
        if l < |next| {
          assert RowOf(after[l], q, heads[0]);
        } else {
          GroupAdds(next, q, rest, l);
          var i :| 0 <= i < |rest| && RowOf(after[l], q, rest[i]);
          assert heads[i + 1] == rest[i];
        }
      }
    }
  }

  lemma {:induction false} GroupGrows(ledger: seq<LedgerRow>, q: Levy, heads: seq<GroupHead>)
    ensures ledger <= LevyGroup(ledger, q, heads).0
    decreases heads
  {
    if heads == [] {
    } else if Skipped(heads[0]) {
      GroupGrows(ledger, q, heads[1..]);
    } else {
      GroupGrows(LevyOne(ledger, LevyOf(q, heads[0])).0, q, heads[1..]);
    }
  }

  /** The one caller levies the group on a student it has just inserted. With no row of the
      student on any head of the group the loop cannot die, and each head that has a positive
      amount and can be levied is then owed. */
  lemma NewStudentIsLevied(ledger: seq<LedgerRow>, q: Levy, heads: seq<GroupHead>)
    requires forall row, i :: row in ledger && row.student == q.student && 0 <= i < |heads| ==>
               heads[i].head != row.head
    ensures LevyGroup(ledger, q, heads).1
    ensures forall i :: 0 <= i < |heads| && heads[i].amount.Some? && WellPosed(LevyOf(q, heads[i])) ==>
              HasUnpaid(LevyGroup(ledger, q, heads).0, LevyOf(q, heads[i]))
  {
    forall i | 0 <= i < |heads| ensures !Violates(ledger, q, heads[i]) {
      if !Skipped(heads[i]) {
        UncaughtIff(ledger, LevyOf(q, heads[i]));
        assert forall l :: 0 <= l < |ledger| ==> ledger[l] in ledger;
      }
    }
    GroupDiesIff(ledger, q, heads);
    forall i | 0 <= i < |heads| && heads[i].amount.Some? && WellPosed(LevyOf(q, heads[i]))
      ensures HasUnpaid(LevyGroup(ledger, q, heads).0, LevyOf(q, heads[i]))
    {
      GroupOwed(ledger, q, heads, i);
    }
  }

  /** Levying again is answered with a FinanceError, so the loop goes on. */
  predicate Answered(ledger: seq<LedgerRow>, q: Levy, h: GroupHead) {
    Skipped(h) || LevyOne(ledger, LevyOf(q, h)).1.FinanceError()
  }

  lemma AnsweredGrows(a: seq<LedgerRow>, b: seq<LedgerRow>, q: Levy, h: GroupHead)
    requires a <= b && Answered(a, q, h)
    ensures Answered(b, q, h)
  {
  }

  lemma {:induction false} GroupAnswersAll(ledger: seq<LedgerRow>, q: Levy, heads: seq<GroupHead>)
    requires LevyGroup(ledger, q, heads).1
    ensures ledger <= LevyGroup(ledger, q, heads).0
    ensures forall i :: 0 <= i < |heads| ==> Answered(LevyGroup(ledger, q, heads).0, q, heads[i])
    decreases heads
  {
    if heads == [] {
    } else {
      var rest, after := heads[1..], LevyGroup(ledger, q, heads).0;
      var next := if Skipped(heads[0]) then ledger else LevyOne(ledger, LevyOf(q, heads[0])).0;
      GroupAnswersAll(next, q, rest);
      if !Skipped(heads[0]) { LeviedIff(ledger, LevyOf(q, heads[0])); }
      AnsweredGrows(next, after, q, heads[0]);
      forall i | 0 <= i < |heads| ensures Answered(after, q, heads[i]) {
        if i > 0 { assert rest[i - 1] == heads[i]; }
      }
    }
  }

  lemma {:induction false} AllAnsweredNothingAdded(ledger: seq<LedgerRow>, q: Levy, heads: seq<GroupHead>)
    requires forall i :: 0 <= i < |heads| ==> Answered(ledger, q, heads[i])
    ensures LevyGroup(ledger, q, heads) == (ledger, true)
  {
    if heads == [] {
    } else {
      assert forall i :: 0 <= i < |heads[1..]| ==> heads[1..][i] == heads[i + 1];
      if !Skipped(heads[0]) { LeviedIff(ledger, LevyOf(q, heads[0])); }
      AllAnsweredNothingAdded(ledger, q, heads[1..]);
    }
  }

  /** A retried enrolment cannot bill the group twice: right after a levy of the whole group
      has gone through, the same levy goes through again and adds nothing. */
  lemma RetryBillsNothing(ledger: seq<LedgerRow>, q: Levy, heads: seq<GroupHead>)
    requires LevyGroup(ledger, q, heads).1
    ensures LevyGroup(LevyGroup(ledger, q, heads).0, q, heads) == LevyGroup(ledger, q, heads)
  {
    GroupAnswersAll(ledger, q, heads);
    AllAnsweredNothingAdded(LevyGroup(ledger, q, heads).0, q, heads);
  }
}
