/** Who is billed what, in the columns of the tables: by ledger generation, for a new student,
    and after a student's discounts have been set. */
module Billing {
  import opened Schema
  import opened Pricing
  import opened LedgerGeneration
  import opened StudentDiscounts
  import opened DiscountHistory
  import opened FetchOrder

  // ---- Who is billed ----

  /** The schedule is one the pupil pays on this head: monthly, or once. */
  predicate Billable(pupil: Student, s: Schedule, head: HeadId, month: Option<nat>) {
    && s.tenant == pupil.tenant && s.year == pupil.year && s.head == head && s.active && !s.grouped
    && (s.forClass.None? || s.forClass.value == pupil.class_)
    && (match s.filter
        case Everyone => true
        case Transport => pupil.transport
        case Hosteler => pupil.hosteler)
    && (month.Some? <==> s.feeType.Monthly?)
  }

  lemma BillableIff(pupil: Student, s: Schedule, head: HeadId, month: Option<nat>)
    ensures Billable(pupil, s, head, month) <==> Fits(pupil, s, head, month)
  {
  }

  predicate SomeBillable(pupil: Student, table: seq<Schedule>, head: HeadId, month: Option<nat>) {
    exists s :: s in table && Billable(pupil, s, head, month)
  }

  lemma FirstFitIff(pupil: Student, table: seq<Schedule>, head: HeadId, month: Option<nat>)
    ensures FirstFit(pupil, table, head, month).Some? <==> SomeBillable(pupil, table, head, month)
  {
    FirstFitAt(pupil, table, head, month);
    forall s | s in table ensures Billable(pupil, s, head, month) <==> Fits(pupil, s, head, month) {
      BillableIff(pupil, s, head, month);
    }
  }

  /** A month asked for; or, for a fee charged once, the year of the first month asked. */
  predicate PeriodAsked(months: seq<Month>, includeAnnual: bool, month: Option<nat>, periodYear: int) {
    match month
    case Some(m) => Month(m, periodYear) in months
    case None => includeAnnual && periodYear == if months == [] then 2025 else months[0].year
  }

  predicate EnrolledAs(pupil: Student, q: Request, student: StudentId) {
    pupil.id == student && pupil.tenant == q.tenant && pupil.year == q.year && pupil.active
  }

  lemma NotInStudents(q: Request, key: Key)
    requires forall s :: s in StudentsOf(q.students, q.tenant, q.year) ==> s.id != key.student
    requires IdsIdentify(q.students)
    ensures FirstWith(Entries(q), key).None?
  {
    var nobody := Student(key.student, q.tenant, q.year, 0, false, false, false);
    FirstOfAll(StudentsOf(q.students, q.tenant, q.year), nobody, SchedulesOf(q.schedules, q.tenant, q.year), q.months,
               q.includeAnnual, q.discounts, key);
  }

  lemma {:induction false} OwnTenant(pupil: Student, schedules: seq<Schedule>, months: seq<Month>, includeAnnual: bool,
                                     discounts: Discounts, key: Key)
    requires key.tenant != pupil.tenant
    ensures FirstWith(StudentRows(pupil, schedules, months, includeAnnual, discounts), key).None?
  {
    var rows := StudentRows(pupil, schedules, months, includeAnnual, discounts);
    StudentRowsFor(pupil, schedules, months, includeAnnual, discounts);
    forall i | 0 <= i < |rows| ensures KeyOf(rows[i]) != key { assert rows[i] in rows; }
    NoSuchKey(rows, key);
  }

  lemma PupilEntry(q: Request, pupil: Student, key: Key)
    requires IdsIdentify(q.students) && pupil in q.students && EnrolledAs(pupil, q, key.student)
    ensures FirstWith(Entries(q), key)
         == if key.tenant == q.tenant && PeriodAsked(q.months, q.includeAnnual, key.month, key.periodYear)
            then match FirstFit(pupil, q.schedules, key.head, key.month)
                 case None => None
                 case Some(s) =>
                   Some(Row(pupil, s, key.month, key.periodYear, DiscountOf(q.discounts, pupil.id, key.head)))
            else None
  {
    var schedules := SchedulesOf(q.schedules, q.tenant, q.year);
    FirstOfAll(StudentsOf(q.students, q.tenant, q.year), pupil, schedules, q.months, q.includeAnnual, q.discounts, key);
    if key.tenant == pupil.tenant {
      FirstOfStudent(pupil, q.schedules, q.months, q.includeAnnual, q.discounts, key.head, key.month, key.periodYear);
    } else {
      OwnTenant(pupil, schedules, q.months, q.includeAnnual, q.discounts, key);
    }
  }

  /** The rows generation creates: one with a key that was free is there afterwards exactly if
      the key's student is enrolled, its period was asked for, and some schedule is one the
      student pays on its head. */
  lemma BilledIff(ledger: seq<LedgerRow>, q: Request, key: Key)
    requires IdsIdentify(q.students) && !Taken(ledger, key)
    ensures Taken(InsertRows(ledger, Entries(q)), key) <==>
              && key.tenant == q.tenant && PeriodAsked(q.months, q.includeAnnual, key.month, key.periodYear)
              && exists pupil :: pupil in q.students && EnrolledAs(pupil, q, key.student)
                                 && SomeBillable(pupil, q.schedules, key.head, key.month)
  {
    FirstStays(ledger, Entries(q), key);
    if pupil :| pupil in q.students && EnrolledAs(pupil, q, key.student) {
      PupilEntry(q, pupil, key);
      FirstFitIff(pupil, q.schedules, key.head, key.month);
      forall other | other in q.students && EnrolledAs(other, q, key.student) ensures other == pupil {
      }
    } else {
      NotInStudents(q, key);
    }
  }

  /** The columns of a created row: it is unpaid, has no due date, and charges the first
      billable schedule in fetch order, less the student's discount on the head. */
  lemma CreatedRow(ledger: seq<LedgerRow>, q: Request, pupil: Student, key: Key, l: nat) returns (i: nat)
    requires IdsIdentify(q.students) && !Taken(ledger, key) && pupil in q.students && EnrolledAs(pupil, q, key.student)
    requires l < |InsertRows(ledger, Entries(q))| && KeyOf(InsertRows(ledger, Entries(q))[l]) == key
    ensures i < |q.schedules| && Billable(pupil, q.schedules[i], key.head, key.month)
    ensures forall j :: 0 <= j < i ==> !Billable(pupil, q.schedules[j], key.head, key.month)
    ensures var row := InsertRows(ledger, Entries(q))[l];
            && row.year == q.year && row.status.Pending? && row.payment.None? && row.dueDate.None?
            && Charges(row.amountDue, q.schedules[i], key.month, DiscountOf(q.discounts, pupil.id, key.head), false)
  {
    FirstStays(ledger, Entries(q), key);
    PupilEntry(q, pupil, key);
    FirstFitAt(pupil, q.schedules, key.head, key.month);
    i :| 0 <= i < |q.schedules| && FirstFit(pupil, q.schedules, key.head, key.month) == Some(q.schedules[i])
         && Fits(pupil, q.schedules[i], key.head, key.month)
         && forall j :: 0 <= j < i ==> !Fits(pupil, q.schedules[j], key.head, key.month);
    GeneratedCharges(q.schedules[i], key.month, DiscountOf(q.discounts, pupil.id, key.head));
    forall j | 0 <= j <= i
      ensures Billable(pupil, q.schedules[j], key.head, key.month) <==> Fits(pupil, q.schedules[j], key.head, key.month)
    {
      BillableIff(pupil, q.schedules[j], key.head, key.month);
    }
  }

  // ---- A new student ----

  /** A month of the academic year; a fee charged once is charged in its starting year. */
  predicate PeriodOfYear(first: Month, last: Month, month: Option<nat>, periodYear: int) {
    match month
    case Some(m) => 1 <= m <= 12 && Ordinal(first) <= Ordinal(Month(m, periodYear)) <= Ordinal(last)
    case None => periodYear == if Ordinal(first) <= Ordinal(last) then first.year else 2025
  }

  lemma PeriodOfYearIff(first: Month, last: Month, month: Option<nat>, periodYear: int)
    requires Calendar(first) && Calendar(last)
    ensures var months := MonthsBetween(first, last);
            && (PeriodOfYear(first, last, month, periodYear) <==> PeriodAsked(months, true, month, periodYear))
            && (PeriodAsked(months, true, month, periodYear) <==> Asked(months, true, month, periodYear))
  {
    match month
    case Some(m) =>
      if 1 <= m <= 12 { MonthsExact(first, last, Month(m, periodYear)); }
      forall x | x in MonthsBetween(first, last) ensures Calendar(x) {
        var i :| 0 <= i < |MonthsBetween(first, last)| && MonthsBetween(first, last)[i] == x;
        assert x == MonthAt(Ordinal(first) + i);
      }
    case None => MonthsExact(first, last, first);
  }

  /** The single-student generator: a row with a free key is there afterwards exactly if it is
      the student's, in a month of the academic year or, for a fee charged once, in the year
      it starts, and some schedule is one the student pays on its head. */
  lemma NewStudentBilledIff(ledger: seq<LedgerRow>, student: Student, table: seq<Schedule>, first: Month, last: Month,
                            all: Discounts, key: Key)
    requires Calendar(first) && Calendar(last) && !Taken(ledger, key)
    ensures var entries := NewStudentRows(student, SchedulesFor(table, student.tenant, student.year, student.class_),
                                          MonthsBetween(first, last), OwnDiscounts(all, student.id));
            Taken(InsertRows(ledger, entries), key) <==>
              && key.tenant == student.tenant && key.student == student.id
              && PeriodOfYear(first, last, key.month, key.periodYear)
              && SomeBillable(student, table, key.head, key.month)
  {
    var months := MonthsBetween(first, last);
    var entries := DueRows(student, table, months, true, all);
    SameOrderSameEntries(student, table, months, all);
    PeriodOfYearIff(first, last, key.month, key.periodYear);
    FirstStays(ledger, entries, key);
    if key.tenant == student.tenant && key.student == student.id {
      FirstOfStudent(student, table, months, true, all, key.head, key.month, key.periodYear);
      FirstFitIff(student, table, key.head, key.month);
    } else if key.tenant != student.tenant {
      OwnTenant(student, SchedulesOf(table, student.tenant, student.year), months, true, all, key);
    } else {
      OwnRows(student, SchedulesOf(table, student.tenant, student.year), months, true, all);
      NoSuchKey(entries, key);
    }
  }

  // ---- After a discount call ----

  /** A schedule of the row's head and year for all classes, or for this one. */
  predicate ForRow(s: Schedule, row: LedgerRow, tenant: TenantId, class_: nat) {
    s.tenant == tenant && s.head == row.head && s.year == row.year && (s.forClass.None? || s.forClass == Some(class_))
  }

  /** The one that counts: the class's own where there is one. */
  predicate Counts(s: Schedule, schedules: seq<Schedule>, row: LedgerRow, tenant: TenantId, class_: nat) {
    && s in schedules && ForRow(s, row, tenant, class_)
    && (s.forClass.None? ==> forall x :: x in schedules && ForRow(x, row, tenant, class_) ==> x.forClass.None?)
  }

  /** A row of the student that is neither paid nor waived and has a schedule. */
  predicate IsRepriced(row: LedgerRow, schedules: seq<Schedule>, tenant: TenantId, student: StudentId, class_: nat) {
    && row.tenant == tenant && row.student == student && !row.status.Settled? && !row.status.Waived?
    && exists s :: s in schedules && ForRow(s, row, tenant, class_)
  }

  lemma PreferredCounts(schedules: seq<Schedule>, row: LedgerRow, tenant: TenantId, class_: nat)
    requires UniqueSchedules(schedules)
    ensures match Preferred(schedules, tenant, row.head, row.year, class_)
            case None => forall s :: s in schedules ==> !ForRow(s, row, tenant, class_)
            case Some(s) => Counts(s, schedules, row, tenant, class_)
  {
    FoundAt(schedules, tenant, row.head, row.year, Some(class_));
    FoundAt(schedules, tenant, row.head, row.year, None);
    forall s | s in schedules && ForRow(s, row, tenant, class_)
      ensures Find(schedules, tenant, row.head, row.year, s.forClass) == Some(s)
    {
      var i :| 0 <= i < |schedules| && schedules[i] == s;
    }
  }

  lemma IsRepricedIff(schedules: seq<Schedule>, row: LedgerRow, tenant: TenantId, student: StudentId, class_: nat)
    requires UniqueSchedules(schedules)
    ensures IsRepriced(row, schedules, tenant, student, class_) <==> Repriced(row, schedules, tenant, student, class_)
  {
    PreferredCounts(schedules, row, tenant, class_);
  }

  /** What the call makes of a row: if it is repriced, it charges the schedule that counts less
      the call's percentage for the head; otherwise nothing changes. */
  ghost predicate RowAfter(o: LedgerRow, r: LedgerRow, schedules: seq<Schedule>, tenant: TenantId, student: StudentId,
                           class_: nat, items: seq<Item>)
    requires Valid(items)
  {
    PercentageBound(items, o.head);
    if !IsRepriced(o, schedules, tenant, student, class_) then r == o
    else r == o.(amountDue := r.amountDue)
         && exists s :: Counts(s, schedules, o, tenant, class_)
                        && Charges(r.amountDue, s, o.month, PercentageIn(items, o.head), true)
  }

  lemma RowAfterCall(o: LedgerRow, schedules: seq<Schedule>, discounts: Discounts, tenant: TenantId, student: StudentId,
                     class_: nat, items: seq<Item>)
    requires Valid(items) && UniqueSchedules(schedules)
    ensures RowAfter(o, RecomputeRow(o, schedules, Replace(discounts, student, items), tenant, student, class_),
                     schedules, tenant, student, class_, items)
  {
    PercentageBound(items, o.head);
    PreferredCounts(schedules, o, tenant, class_);
    IsRepricedIff(schedules, o, tenant, student, class_);
    ReplaceForgets(discounts, student, items, student, o.head);
    if IsRepriced(o, schedules, tenant, student, class_) {
      var s := Preferred(schedules, tenant, o.head, o.year, class_).value;
      RecomputedCharges(s, o.month, PercentageIn(items, o.head));
    }
  }

  function RepricedRows(ledger: seq<LedgerRow>, schedules: seq<Schedule>, tenant: TenantId, student: StudentId,
                        class_: nat): set<nat> {
    set l | 0 <= l < |ledger| && IsRepriced(ledger[l], schedules, tenant, student, class_)
  }

  lemma {:induction false} RowsUpdatedCounts(ledger: seq<LedgerRow>, schedules: seq<Schedule>, tenant: TenantId,
                                             student: StudentId, class_: nat)
    requires UniqueSchedules(schedules)
    ensures RowsUpdated(ledger, schedules, tenant, student, class_)
         == |RepricedRows(ledger, schedules, tenant, student, class_)|
  {
    if ledger == [] {
    } else {
      var n := |ledger| - 1;
      RowsUpdatedCounts(ledger[..n], schedules, tenant, student, class_);
      IsRepricedIff(schedules, ledger[n], tenant, student, class_);
      var before, all := RepricedRows(ledger[..n], schedules, tenant, student, class_),
                         RepricedRows(ledger, schedules, tenant, student, class_);
      assert all == if IsRepriced(ledger[n], schedules, tenant, student, class_) then before + {n} else before;
    }
  }

  /** The event lists each head with its percentage, and how many rows were repriced. */
  predicate Reported(e: Event, tenant: TenantId, student: StudentId, items: seq<Item>, rows: nat) {
    && e.tenant == tenant && e.student == student && e.kind.StudentDiscountSet? && e.kind.rows == rows
    && |e.kind.discounts| == |items|
    && forall i :: 0 <= i < |items| ==> e.kind.discounts[i] == (items[i].head, items[i].percentage)
  }

  predicate GivenBefore(items: seq<Item>, i: nat)
    requires i < |items|
  {
    exists j :: 0 <= j < i && items[j].head == items[i].head
  }

  /** Answers and effects of set_student_discounts, in order: no such student; a head that is
      unknown or given twice; success. */
  lemma DiscountCall(book: Book, schedules: seq<Schedule>, heads: set<HeadId>, tenant: TenantId, student: StudentId,
                     class_: Option<nat>, items: seq<Item>)
    requires Valid(items) && UniqueSchedules(schedules)
    ensures var (after, r) := SetDiscounts(book, schedules, heads, tenant, student, class_, items);
            if class_.None? then r == StudentNotFound && after == book
            else if exists i :: 0 <= i < |items| && (items[i].head !in heads || GivenBefore(items, i))
            then r == IntegrityViolation && after == book
            else
              var rows := |RepricedRows(book.ledger, schedules, tenant, student, class_.value)|;
              && r == Updated(|items|, rows)
              && |after.log| == |book.log| + 1 && after.log[..|book.log|] == book.log
              && Reported(after.log[|book.log|], tenant, student, items, rows)
              && |after.ledger| == |book.ledger|
              && forall l :: 0 <= l < |book.ledger| ==>
                   RowAfter(book.ledger[l], after.ledger[l], schedules, tenant, student, class_.value, items)
  {
    if class_.Some? {
      var discounts := Replace(book.discounts, student, items);
      RowsUpdatedCounts(book.ledger, schedules, tenant, student, class_.value);
      forall l | 0 <= l < |book.ledger|
        ensures RowAfter(book.ledger[l],
                         RecomputeRow(book.ledger[l], schedules, discounts, tenant, student, class_.value),
                         schedules, tenant, student, class_.value, items)
      {
        RowAfterCall(book.ledger[l], schedules, book.discounts, tenant, student, class_.value, items);
      }
    }
  }
}
