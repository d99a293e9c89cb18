/** Ledger generation: the bulk generator, the single-student generator and the months of
    an academic year. */
module LedgerGeneration {
  import opened Schema
  import opened Pricing

  datatype Student = Student(id: StudentId, tenant: TenantId, year: YearId, class_: nat, transport: bool,
                             hosteler: bool, active: bool)
  datatype Month = Month(month: nat, year: int)

  /** (student, fee head) -> percentage; the table allows percentages up to 100. */
  type Discounts = m: map<(StudentId, HeadId), nat> | forall k :: k in m ==> m[k] <= WHOLE witness map[]

  function DiscountOf(discounts: Discounts, student: StudentId, head: HeadId): (percentage: nat)
    ensures percentage <= WHOLE
  {
    if (student, head) in discounts then discounts[(student, head)] else 0
  }

  // ---- The months of a year: finance._derive_month_year_pairs ----

  /** Months since year 0. */
  function Ordinal(m: Month): int { 12 * m.year + m.month - 1 }

  predicate Calendar(m: Month) { 1 <= m.month <= 12 }

  function MonthAt(ordinal: int): (m: Month)
    ensures Calendar(m) && Ordinal(m) == ordinal
  {
    Month(ordinal % 12 + 1, ordinal / 12)
  }

  /** Every month from `first` to `last`, in order; none if `last` is before `first`. */
  function MonthsBetween(first: Month, last: Month): seq<Month> {
    seq(if Ordinal(first) <= Ordinal(last) then Ordinal(last) - Ordinal(first) + 1 else 0,
        i requires 0 <= i => MonthAt(Ordinal(first) + i))
  }

  lemma SameOrdinalSameMonth(a: Month, b: Month)
    requires Calendar(a) && Calendar(b) && Ordinal(a) == Ordinal(b)
    ensures a == b
  {
  }

  /** The months derived are exactly those between start and end, in order, each once. */
  lemma MonthsExact(first: Month, last: Month, m: Month)
    requires Calendar(first) && Calendar(last) && Calendar(m)
    ensures var months := MonthsBetween(first, last);
            && (m in months <==> Ordinal(first) <= Ordinal(m) <= Ordinal(last))
            && (forall i, j :: 0 <= i < j < |months| ==> Ordinal(months[i]) < Ordinal(months[j]))
            && (Ordinal(first) <= Ordinal(last) ==>
                  months[0] == first && |months| == 12 * (last.year - first.year) + (last.month - first.month) + 1)
  {
    var months := MonthsBetween(first, last);
    assert forall i :: 0 <= i < |months| ==> months[i] == MonthAt(Ordinal(first) + i);
    if Ordinal(first) <= Ordinal(m) <= Ordinal(last) {
      SameOrdinalSameMonth(months[Ordinal(m) - Ordinal(first)], m);
    }
    if Ordinal(first) <= Ordinal(last) { SameOrdinalSameMonth(months[0], first); }
  }

  /** The loop. Python compares the pairs (year, month) lexicographically. */
  method DeriveMonthYearPairs(start: Month, end: Month) returns (pairs: seq<Month>)
    requires Calendar(start) && Calendar(end)
    ensures pairs == MonthsBetween(start, end)
  {
    pairs := [];
    var y, m := start.year, start.month;
    while y < end.year || (y == end.year && m <= end.month)
      invariant 1 <= m <= 12
      invariant Ordinal(Month(m, y)) == Ordinal(start) + |pairs|
      invariant |pairs| <= |MonthsBetween(start, end)|
      invariant pairs == MonthsBetween(start, end)[..|pairs|]
      decreases Ordinal(end) - Ordinal(Month(m, y)) + 1
    {
      SameOrdinalSameMonth(Month(m, y), MonthAt(Ordinal(start) + |pairs|));
      pairs := pairs + [Month(m, y)];
      m := m + 1;
      if m > 12 {
        m, y := 1, y + 1;
      }
    }
  }

  // ---- Entries ----

  predicate FilterFits(s: Schedule, transport: bool, hosteler: bool) {
    !(s.filter.Transport? && !transport) && !(s.filter.Hosteler? && !hosteler)
  }

  predicate ClassFits(s: Schedule, class_: nat) { s.forClass.None? || s.forClass == Some(class_) }

  function Row(student: Student, s: Schedule, month: Option<nat>, periodYear: int, percentage: nat): LedgerRow
    requires percentage <= WHOLE
  {
    LedgerRow(student.tenant, student.id, s.head, student.year, month, periodYear,
              GeneratedAmount(s, month, percentage), None, Pending, None)
  }

  function MonthRows(student: Student, s: Schedule, months: seq<Month>, percentage: nat): seq<LedgerRow>
    requires percentage <= WHOLE
  {
    seq(|months|, i requires 0 <= i < |months| => Row(student, s, Some(months[i].month), months[i].year, percentage))
  }

  function BaseYear(months: seq<Month>): int { if months == [] then 2025 else months[0].year }

  /** The entries one schedule gives one student it applies to. */
  function ScheduleRows(student: Student, s: Schedule, months: seq<Month>, includeAnnual: bool,
                        discounts: Discounts): seq<LedgerRow> {
    var percentage := DiscountOf(discounts, student.id, s.head);
    if s.feeType.Monthly? then MonthRows(student, s, months, percentage)
    else if includeAnnual then [Row(student, s, None, BaseYear(months), percentage)]
    else []
  }

  /** The inner loop of generate_ledger: class and filter are tested here. */
  function StudentRows(student: Student, schedules: seq<Schedule>, months: seq<Month>, includeAnnual: bool,
                       discounts: Discounts): seq<LedgerRow> {
    if schedules == [] then [] else
      var n := |schedules| - 1;
      StudentRows(student, schedules[..n], months, includeAnnual, discounts)
      + if ClassFits(schedules[n], student.class_) && FilterFits(schedules[n], student.transport, student.hosteler)
        then ScheduleRows(student, schedules[n], months, includeAnnual, discounts) else []
  }

  function AllRows(students: seq<Student>, schedules: seq<Schedule>, months: seq<Month>, includeAnnual: bool,
                   discounts: Discounts): seq<LedgerRow> {
    if students == [] then [] else
      var n := |students| - 1;
      AllRows(students[..n], schedules, months, includeAnnual, discounts)
      + StudentRows(students[n], schedules, months, includeAnnual, discounts)
  }

  // ---- The queries ----

  predicate Enrolled(s: Student, tenant: TenantId, year: YearId) { s.tenant == tenant && s.year == year && s.active }

  function StudentsOf(table: seq<Student>, tenant: TenantId, year: YearId): (r: seq<Student>)
    ensures forall s :: s in r <==> s in table && Enrolled(s, tenant, year)
  {
    if table == [] then [] else
      var n := |table| - 1;
      var r := StudentsOf(table[..n], tenant, year);
      assert table == table[..n] + [table[n]];
      if Enrolled(table[n], tenant, year) then r + [table[n]] else r
  }

  predicate InForce(s: Schedule, tenant: TenantId, year: YearId) {
    s.tenant == tenant && s.year == year && s.active && !s.grouped
  }

  function SchedulesOf(table: seq<Schedule>, tenant: TenantId, year: YearId): seq<Schedule> {
    if table == [] then [] else
      var n := |table| - 1;
      SchedulesOf(table[..n], tenant, year) + if InForce(table[n], tenant, year) then [table[n]] else []
  }

  /** The single-student query also restricts to the student's class. */
  function SchedulesFor(table: seq<Schedule>, tenant: TenantId, year: YearId, class_: nat): seq<Schedule> {
    if table == [] then [] else
      var n := |table| - 1;
      SchedulesFor(table[..n], tenant, year, class_)
      + if InForce(table[n], tenant, year) && ClassFits(table[n], class_) then [table[n]] else []
  }

  /** _load_discount_map for one student. */
  function OwnDiscounts(discounts: Discounts, student: StudentId): Discounts {
    map k | k in discounts && k.0 == student :: discounts[k]
  }

  /** The loop of generate_ledger_for_new_student: only the filter is tested here. */
  function NewStudentRows(student: Student, schedules: seq<Schedule>, months: seq<Month>,
                          discounts: Discounts): seq<LedgerRow> {
    if schedules == [] then [] else
      var n := |schedules| - 1;
      NewStudentRows(student, schedules[..n], months, discounts)
      + if FilterFits(schedules[n], student.transport, student.hosteler)
        then ScheduleRows(student, schedules[n], months, true, discounts) else []
  }

  /** On one table, in one order, the two generators make the same entries. */
  lemma {:induction false} SameOrderSameEntries(student: Student, table: seq<Schedule>, months: seq<Month>,
                                                discounts: Discounts)
    ensures NewStudentRows(student, SchedulesFor(table, student.tenant, student.year, student.class_), months,
                           OwnDiscounts(discounts, student.id))
         == StudentRows(student, SchedulesOf(table, student.tenant, student.year), months, true, discounts)
  {
    if table == [] {
    } else {
      var n := |table| - 1;
      SameOrderSameEntries(student, table[..n], months, discounts);
      var few, many := SchedulesFor(table[..n], student.tenant, student.year, student.class_),
          SchedulesOf(table[..n], student.tenant, student.year);
      if InForce(table[n], student.tenant, student.year) {
        assert (many + [table[n]])[..|many|] == many;
        assert DiscountOf(OwnDiscounts(discounts, student.id), student.id, table[n].head)
            == DiscountOf(discounts, student.id, table[n].head);
        if ClassFits(table[n], student.class_) {
          assert (few + [table[n]])[..|few|] == few;
        } else {
          assert few + [] == few;
          assert StudentRows(student, many, months, true, discounts) + []
              == StudentRows(student, many, months, true, discounts);
        }
      } else {
        assert few + [] == few && many + [] == many;
      }
    }
  }

  // ---- INSERT ... ON CONFLICT DO NOTHING ----

  datatype Key = Key(tenant: TenantId, student: StudentId, head: HeadId, periodYear: int, month: Option<nat>)

  /** The columns of fee_ledger_unique_monthly and fee_ledger_unique_annual. */
  function KeyOf(row: LedgerRow): Key { Key(row.tenant, row.student, row.head, row.periodYear, row.month) }

  predicate Taken(ledger: seq<LedgerRow>, key: Key) { exists l :: 0 <= l < |ledger| && KeyOf(ledger[l]) == key }

  predicate KeysUnique(ledger: seq<LedgerRow>) {
    forall i, j :: 0 <= i < j < |ledger| ==> KeyOf(ledger[i]) != KeyOf(ledger[j])
  }

  function InsertRows(ledger: seq<LedgerRow>, rows: seq<LedgerRow>): seq<LedgerRow> {
    if rows == [] then ledger else
      var n := |rows| - 1;
      var sofar := InsertRows(ledger, rows[..n]);
      if Taken(sofar, KeyOf(rows[n])) then sofar else sofar + [rows[n]]
  }

  lemma TakenGrows(a: seq<LedgerRow>, b: seq<LedgerRow>, key: Key)
    requires a <= b && Taken(a, key)
    ensures Taken(b, key)
  {
  }

  /** No existing row changes, keys stay unique, and afterwards every entry's key is taken. */
  lemma {:induction false} InsertFacts(ledger: seq<LedgerRow>, rows: seq<LedgerRow>)
    ensures ledger <= InsertRows(ledger, rows)
    ensures KeysUnique(ledger) ==> KeysUnique(InsertRows(ledger, rows))
    ensures forall i :: 0 <= i < |rows| ==> Taken(InsertRows(ledger, rows), KeyOf(rows[i]))
    ensures forall l :: |ledger| <= l < |InsertRows(ledger, rows)| ==> InsertRows(ledger, rows)[l] in rows
  {
    if rows == [] {
    } else {
      var n := |rows| - 1;
      InsertFacts(ledger, rows[..n]);
      var sofar, all := InsertRows(ledger, rows[..n]), InsertRows(ledger, rows);
      assert rows == rows[..n] + [rows[n]];
      if !Taken(sofar, KeyOf(rows[n])) { assert KeyOf(all[|sofar|]) == KeyOf(rows[n]); }
      forall i | 0 <= i < |rows| ensures Taken(all, KeyOf(rows[i])) {
        if i < n { assert rows[..n][i] == rows[i]; TakenGrows(sofar, all, KeyOf(rows[i])); }
      }
    }
  }

  /** Of several entries with one key the first inserted is the one that stays. */
  lemma {:induction false} FirstWins(ledger: seq<LedgerRow>, rows: seq<LedgerRow>, i: nat)
    requires i < |rows| && !Taken(ledger, KeyOf(rows[i]))
    requires forall j :: 0 <= j < i ==> KeyOf(rows[j]) != KeyOf(rows[i])
    ensures rows[i] in InsertRows(ledger, rows)
  {
    var n := |rows| - 1;
    if i < n {
      FirstWins(ledger, rows[..n], i);
    } else {
      NotYetTaken(ledger, rows[..n], KeyOf(rows[n]));
    }
  }

  lemma {:induction false} NotYetTaken(ledger: seq<LedgerRow>, rows: seq<LedgerRow>, key: Key)
    requires !Taken(ledger, key) && forall j :: 0 <= j < |rows| ==> KeyOf(rows[j]) != key
    ensures !Taken(InsertRows(ledger, rows), key)
  {
    if rows == [] {
    } else {
      NotYetTaken(ledger, rows[..|rows| - 1], key);
    }
  }

  lemma {:induction false} InsertNothing(ledger: seq<LedgerRow>, rows: seq<LedgerRow>)
    requires forall i :: 0 <= i < |rows| ==> Taken(ledger, KeyOf(rows[i]))
    ensures InsertRows(ledger, rows) == ledger
  {
    if rows == [] {
    } else {
      var n := |rows| - 1;
      assert forall i :: 0 <= i < n ==> rows[..n][i] == rows[i];
      InsertNothing(ledger, rows[..n]);
    }
  }

  /** SELECT COUNT(*) FROM fee_ledger WHERE tenant_id AND academic_year_id */
  function CountYear(ledger: seq<LedgerRow>, tenant: TenantId, year: YearId): nat {
    if ledger == [] then 0 else
      var n := |ledger| - 1;
      CountYear(ledger[..n], tenant, year) + if ledger[n].tenant == tenant && ledger[n].year == year then 1 else 0
  }

  lemma {:induction false} CountGrowth(before: seq<LedgerRow>, after: seq<LedgerRow>, tenant: TenantId, year: YearId)
    requires before <= after
    requires forall l :: |before| <= l < |after| ==> after[l].tenant == tenant && after[l].year == year
    ensures CountYear(after, tenant, year) == CountYear(before, tenant, year) + |after| - |before|
  {
    if |before| < |after| {
      CountGrowth(before, after[..|after| - 1], tenant, year);
    } else {
      assert before == after;
    }
  }

  predicate RowsFor(rows: seq<LedgerRow>, tenant: TenantId, year: YearId) {
    forall row :: row in rows ==>
        row.tenant == tenant && row.year == year && row.status.Pending? && row.payment.None? && row.dueDate.None?
  }

  lemma {:induction false} StudentRowsFor(student: Student, schedules: seq<Schedule>, months: seq<Month>,
                                          includeAnnual: bool, discounts: Discounts)
    ensures RowsFor(StudentRows(student, schedules, months, includeAnnual, discounts), student.tenant, student.year)
  {
    if schedules == [] {
    } else {
      StudentRowsFor(student, schedules[..|schedules| - 1], months, includeAnnual, discounts);
    }
  }

  lemma {:induction false} AllRowsFor(students: seq<Student>, schedules: seq<Schedule>, months: seq<Month>,
                                      includeAnnual: bool,
                                      discounts: Discounts, tenant: TenantId, year: YearId)
    requires forall s :: s in students ==> Enrolled(s, tenant, year)
    ensures RowsFor(AllRows(students, schedules, months, includeAnnual, discounts), tenant, year)
  {
    if students == [] {
    } else {
      var n := |students| - 1;
      assert students == students[..n] + [students[n]];
      assert students[n] in students;
      AllRowsFor(students[..n], schedules, months, includeAnnual, discounts, tenant, year);
      StudentRowsFor(students[n], schedules, months, includeAnnual, discounts);
    }
  }

  // ---- finance.generate_ledger ----

  datatype Report = Report(created: int, skipped: int, students: nat)

  /** The whole request: the tables it reads and what it asks for. */
  datatype Request = Request(
    students: seq<Student>, schedules: seq<Schedule>, discounts: Discounts,
    tenant: TenantId, year: YearId, months: seq<Month>, includeAnnual: bool)

  function Entries(q: Request): seq<LedgerRow> {
    AllRows(StudentsOf(q.students, q.tenant, q.year), SchedulesOf(q.schedules, q.tenant, q.year), q.months,
            q.includeAnnual, q.discounts)
  }

  class Ledger {
    var rows: seq<LedgerRow>

    constructor (rows: seq<LedgerRow>)
      ensures this.rows == rows
    {
      this.rows := rows;
    }

    /** The entries of one schedule, monthly or once. */
    static method ScheduleEntries(student: Student, s: Schedule, months: seq<Month>, includeAnnual: bool,
                                  discounts: Discounts)
      returns (entries: seq<LedgerRow>)
      ensures entries == ScheduleRows(student, s, months, includeAnnual, discounts)
    {
      var percentage := DiscountOf(discounts, student.id, s.head);
      entries := [];
      if s.feeType.Monthly? {
        for j := 0 to |months|
          invariant entries == MonthRows(student, s, months, percentage)[..j]
        {
          entries := entries + [Row(student, s, Some(months[j].month), months[j].year, percentage)];
        }
      } else if includeAnnual {
        entries := [Row(student, s, None, BaseYear(months), percentage)];
      }
    }

    /** The inner loop of the bulk generator: one student against every schedule. */
    static method CollectEntries(student: Student, schedules: seq<Schedule>, q: Request)
      returns (entries: seq<LedgerRow>)
      ensures entries == StudentRows(student, schedules, q.months, q.includeAnnual, q.discounts)
    {
      entries := [];
      for i := 0 to |schedules|
        invariant entries == StudentRows(student, schedules[..i], q.months, q.includeAnnual, q.discounts)
      {
        assert schedules[..i + 1][..i] == schedules[..i];
        var s := schedules[i];
        if !(s.forClass.Some? && s.forClass.value != student.class_)
            && FilterFits(s, student.transport, student.hosteler) {
          var mine := ScheduleEntries(student, s, q.months, q.includeAnnual, q.discounts);
          entries := entries + mine;
        }
      }
      assert schedules[..|schedules|] == schedules;
    }

    /** executemany INSERT ... ON CONFLICT DO NOTHING */
    method InsertAll(entries: seq<LedgerRow>)
      modifies this
      ensures rows == InsertRows(old(rows), entries)
    {
      for i := 0 to |entries|
        invariant rows == InsertRows(old(rows), entries[..i])
      {
        assert entries[..i + 1][..i] == entries[..i];
        if !Taken(rows, KeyOf(entries[i])) { rows := rows + [entries[i]]; }
      }
      assert entries[..|entries|] == entries;
    }

    /** Counts before and after tell how many entries were new. */
    method GenerateLedger(q: Request) returns (report: Report)
      modifies this
      ensures rows == InsertRows(old(rows), Entries(q))
      ensures report.created == |rows| - |old(rows)| && report.created + report.skipped == |Entries(q)|
      ensures report.students == |StudentsOf(q.students, q.tenant, q.year)|
    {
      var students := StudentsOf(q.students, q.tenant, q.year);
      if students == [] { return Report(0, 0, 0); }
      var schedules := SchedulesOf(q.schedules, q.tenant, q.year);
      var entries := [];
      for i := 0 to |students|
        invariant rows == old(rows)
        invariant entries == AllRows(students[..i], schedules, q.months, q.includeAnnual, q.discounts)
      {
        assert students[..i + 1][..i] == students[..i];
        var mine := CollectEntries(students[i], schedules, q);
        entries := entries + mine;
      }
      assert students[..|students|] == students;
      assert entries == Entries(q);
      if entries == [] {
        InsertNothing(rows, Entries(q));
        return Report(0, 0, |students|);
      }
      var before := CountYear(rows, q.tenant, q.year);
      InsertAll(entries);
      var after := CountYear(rows, q.tenant, q.year);
      AllRowsFor(students, schedules, q.months, q.includeAnnual, q.discounts, q.tenant, q.year);
      InsertFacts(old(rows), entries);
      CountGrowth(old(rows), rows, q.tenant, q.year);
      return Report(after - before, |entries| - (after - before), |students|);
    }

    /** generate_ledger_for_new_student; `start` and `end` are the academic year's months. */
    method GenerateForNewStudent(student: Student, table: seq<Schedule>, start: Month, end: Month, all: Discounts)
      returns (n: nat)
      requires Calendar(start) && Calendar(end)
      modifies this
      ensures var entries := NewStudentRows(student, SchedulesFor(table, student.tenant, student.year, student.class_),
                                            MonthsBetween(start, end), OwnDiscounts(all, student.id));
              rows == InsertRows(old(rows), entries) && n == |entries|
    {
      var schedules := SchedulesFor(table, student.tenant, student.year, student.class_);
      if schedules == [] { return 0; }
      var months := DeriveMonthYearPairs(start, end);
      var discounts := OwnDiscounts(all, student.id);
      var entries := [];
      for i := 0 to |schedules|
        invariant rows == old(rows)
        invariant entries == NewStudentRows(student, schedules[..i], months, discounts)
      {
        assert schedules[..i + 1][..i] == schedules[..i];
        if FilterFits(schedules[i], student.transport, student.hosteler) {
          var mine := ScheduleEntries(student, schedules[i], months, true, discounts);
          entries := entries + mine;
        }
      }
      assert schedules[..|schedules|] == schedules;
      InsertAll(entries);
      return |entries|;
    }
  }

  // ---- Whatever order the queries return ----

  /** The entries bulk generation makes for a student out of a schedule table. */
  function DueRows(student: Student, table: seq<Schedule>, months: seq<Month>, includeAnnual: bool,
                   discounts: Discounts): seq<LedgerRow> {
    StudentRows(student, SchedulesOf(table, student.tenant, student.year), months, includeAnnual, discounts)
  }

  lemma OneScheduleRows(student: Student, s: Schedule, months: seq<Month>, includeAnnual: bool, discounts: Discounts)
    ensures DueRows(student, [s], months, includeAnnual, discounts)
         == if InForce(s, student.tenant, student.year) && ClassFits(s, student.class_)
               && FilterFits(s, student.transport, student.hosteler)
            then ScheduleRows(student, s, months, includeAnnual, discounts) else []
  {
    assert [s][..0] == [];
    assert SchedulesOf([s], student.tenant, student.year) == if InForce(s, student.tenant, student.year)
        then [s] else [];
    assert StudentRows(student, [], months, includeAnnual, discounts) == [];
  }

  lemma DueSnoc(student: Student, table: seq<Schedule>, months: seq<Month>, includeAnnual: bool, discounts: Discounts)
    requires table != []
    ensures var n := |table| - 1;
            DueRows(student, table, months, includeAnnual, discounts)
            == DueRows(student, table[..n], months, includeAnnual, discounts)
               + DueRows(student, [table[n]], months, includeAnnual, discounts)
  {
    var s := table[|table| - 1];
    var before := SchedulesOf(table[..|table| - 1], student.tenant, student.year);
    OneScheduleRows(student, s, months, includeAnnual, discounts);
    if InForce(s, student.tenant, student.year) {
      assert (before + [s])[..|before|] == before;
    } else {
      assert before + [] == before;
    }
  }

  lemma {:induction false} DueConcat(student: Student, a: seq<Schedule>, b: seq<Schedule>, months: seq<Month>,
                                     includeAnnual: bool, discounts: Discounts)
    ensures DueRows(student, a + b, months, includeAnnual, discounts)
         == DueRows(student, a, months, includeAnnual, discounts)
            + DueRows(student, b, months, includeAnnual, discounts)
  {
    if b == [] {
      assert a + b == a;
    } else {
      var n := |b| - 1;
      DueConcat(student, a, b[..n], months, includeAnnual, discounts);
      DueSnoc(student, a + b, months, includeAnnual, discounts);
      DueSnoc(student, b, months, includeAnnual, discounts);
      assert (a + b)[..|a| + n] == a + b[..n];
    }
  }

  lemma MatchLast<T>(a: seq<T>, b: seq<T>) returns (j: nat)
    requires a != [] && multiset(a) == multiset(b)
    ensures j < |b| && b[j] == a[|a| - 1] && multiset(b[..j] + b[j + 1..]) == multiset(a[..|a| - 1])
  {
    var x := a[|a| - 1];
    assert a == a[..|a| - 1] + [x];
    assert x in multiset(b);
    j :| 0 <= j < |b| && b[j] == x;
    assert b == b[..j] + [x] + b[j + 1..];
    assert multiset(b[..j] + b[j + 1..]) == multiset(b) - multiset{x};
  }

  lemma {:induction false} DuePermuted(student: Student, a: seq<Schedule>, b: seq<Schedule>, months: seq<Month>,
                                       includeAnnual: bool, discounts: Discounts)
    requires multiset(a) == multiset(b)
    ensures multiset(DueRows(student, a, months, includeAnnual, discounts))
         == multiset(DueRows(student, b, months, includeAnnual, discounts))
  {
    if a == [] {
      assert |multiset(b)| == 0;
    } else {
      var n := |a| - 1;
      var j := MatchLast(a, b);
      var left, right := b[..j], b[j + 1..];
      assert b == left + [a[n]] + right;
      DuePermuted(student, a[..n], left + right, months, includeAnnual, discounts);
      DueSnoc(student, a, months, includeAnnual, discounts);
      DueConcat(student, left, right, months, includeAnnual, discounts);
      DueConcat(student, left + [a[n]], right, months, includeAnnual, discounts);
      DueConcat(student, left, [a[n]], months, includeAnnual, discounts);
    }
  }

  /** Neither schedule query has an ORDER BY. Whatever orders they return the schedules in,
      a newly enrolled student gets exactly the entries, each as often, that bulk generation
      with annual fees makes for them over the same months. */
  lemma SingleEqualsBulk(student: Student, table: seq<Schedule>, fetched: seq<Schedule>, months: seq<Month>,
                         discounts: Discounts)
    requires multiset(fetched) == multiset(table)
    ensures multiset(NewStudentRows(student, SchedulesFor(fetched, student.tenant, student.year, student.class_),
                                    months,
                                    OwnDiscounts(discounts, student.id)))
         == multiset(DueRows(student, table, months, true, discounts))
  {
    SameOrderSameEntries(student, fetched, months, discounts);
    DuePermuted(student, fetched, table, months, true, discounts);
  }

  // ---- Generating again ----

  predicate HasEntry(rows: seq<LedgerRow>, key: Key) { exists i :: 0 <= i < |rows| && KeyOf(rows[i]) == key }

  /** Every key of `rows` is a key of `more`. */
  predicate KeysAmong(rows: seq<LedgerRow>, more: seq<LedgerRow>) {
    forall i :: 0 <= i < |rows| ==> HasEntry(more, KeyOf(rows[i]))
  }

  lemma KeysAmongTail(rows: seq<LedgerRow>, a: seq<LedgerRow>, b: seq<LedgerRow>)
    requires KeysAmong(rows, a) || KeysAmong(rows, b)
    ensures KeysAmong(rows, a + b)
  {
    forall i | 0 <= i < |rows| ensures HasEntry(a + b, KeyOf(rows[i])) {
      if j :| 0 <= j < |a| && KeyOf(a[j]) == KeyOf(rows[i]) {
        assert KeyOf((a + b)[j]) == KeyOf(rows[i]);
      } else {
        var k :| 0 <= k < |b| && KeyOf(b[k]) == KeyOf(rows[i]);
        assert KeyOf((a + b)[|a| + k]) == KeyOf(rows[i]);
      }
    }
  }

  lemma ScheduleKeys(student: Student, s: Schedule, months: seq<Month>, includeAnnual: bool, d: Discounts,
                     d': Discounts)
    ensures KeysAmong(ScheduleRows(student, s, months, includeAnnual, d'),
                      ScheduleRows(student, s, months, includeAnnual, d))
  {
    var rows, more := ScheduleRows(student, s, months, includeAnnual, d'),
        ScheduleRows(student, s, months, includeAnnual, d);
    forall i | 0 <= i < |rows| ensures HasEntry(more, KeyOf(rows[i])) { assert KeyOf(more[i]) == KeyOf(rows[i]); }
  }

  /** One schedule's entries are among all the entries, whatever the discounts. */
  lemma {:induction false} ScheduleKeysAmong(student: Student, s: Schedule, table: seq<Schedule>, months: seq<Month>,
                                             includeAnnual: bool, d: Discounts, d': Discounts)
    requires s in table
    ensures KeysAmong(DueRows(student, [s], months, includeAnnual, d'),
                      DueRows(student, table, months, includeAnnual, d))
  {
    var n := |table| - 1;
    DueSnoc(student, table, months, includeAnnual, d);
    var before, last := DueRows(student, table[..n], months, includeAnnual, d),
        DueRows(student, [table[n]], months, includeAnnual, d);
    if table[n] == s {
      OneScheduleRows(student, s, months, includeAnnual, d);
      OneScheduleRows(student, s, months, includeAnnual, d');
      ScheduleKeys(student, s, months, includeAnnual, d, d');
    } else {
      assert table == table[..n] + [table[n]];
      ScheduleKeysAmong(student, s, table[..n], months, includeAnnual, d, d');
    }
    KeysAmongTail(DueRows(student, [s], months, includeAnnual, d'), before, last);
  }

  lemma {:induction false} DueKeysAmong(student: Student, table': seq<Schedule>, table: seq<Schedule>,
                                        months: seq<Month>,
                                        includeAnnual: bool, d: Discounts, d': Discounts)
    requires forall s :: s in table' ==> s in table
    ensures KeysAmong(DueRows(student, table', months, includeAnnual, d'),
                      DueRows(student, table, months, includeAnnual, d))
  {
    if table' == [] {
    } else {
      var n := |table'| - 1;
      assert table' == table'[..n] + [table'[n]];
      DueKeysAmong(student, table'[..n], table, months, includeAnnual, d, d');
      DueSnoc(student, table', months, includeAnnual, d');
      ScheduleKeysAmong(student, table'[n], table, months, includeAnnual, d, d');
    }
  }

  lemma {:induction false} MemberKeysAmong(students: seq<Student>, student: Student, schedules: seq<Schedule>,
                                           months: seq<Month>,
                                           includeAnnual: bool, discounts: Discounts, rows: seq<LedgerRow>)
    requires student in students && KeysAmong(rows, StudentRows(student, schedules, months, includeAnnual, discounts))
    ensures KeysAmong(rows, AllRows(students, schedules, months, includeAnnual, discounts))
  {
    var n := |students| - 1;
    if students[n] != student {
      assert students == students[..n] + [students[n]];
      MemberKeysAmong(students[..n], student, schedules, months, includeAnnual, discounts, rows);
    }
    KeysAmongTail(rows, AllRows(students[..n], schedules, months, includeAnnual, discounts),
                  StudentRows(students[n], schedules, months, includeAnnual, discounts));
  }

  /** A request for the same year and months that sees no student or schedule `q` did not
      see: in whatever order, with whatever discounts by now. */
  predicate NothingNew(q: Request, again: Request) {
    && again.tenant == q.tenant && again.year == q.year && again.months == q.months
    && again.includeAnnual == q.includeAnnual
    && (forall s :: s in again.students ==> s in q.students)
    && (forall s :: s in again.schedules ==> s in q.schedules)
  }

  lemma {:induction false} EntriesAmong(q: Request, again: Request, students: seq<Student>)
    requires NothingNew(q, again)
    requires forall s :: s in students ==> s in StudentsOf(q.students, q.tenant, q.year)
    ensures KeysAmong(AllRows(students, SchedulesOf(again.schedules, q.tenant, q.year), q.months, q.includeAnnual,
                              again.discounts),
                      Entries(q))
  {
    if students == [] {
    } else {
      var n := |students| - 1;
      assert students == students[..n] + [students[n]];
      EntriesAmong(q, again, students[..n]);
      StudentEntriesAmong(q, again, students[n]);
      var schedules := SchedulesOf(again.schedules, q.tenant, q.year);
      KeysAmongJoin(AllRows(students[..n], schedules, q.months, q.includeAnnual, again.discounts),
                    StudentRows(students[n], schedules, q.months, q.includeAnnual, again.discounts), Entries(q));
    }
  }

  lemma KeysAmongJoin(a: seq<LedgerRow>, b: seq<LedgerRow>, more: seq<LedgerRow>)
    requires KeysAmong(a, more) && KeysAmong(b, more)
    ensures KeysAmong(a + b, more)
  {
    forall i | 0 <= i < |a + b| ensures HasEntry(more, KeyOf((a + b)[i])) {
      assert (a + b)[i] == if i < |a| then a[i] else b[i - |a|];
    }
  }

  lemma StudentEntriesAmong(q: Request, again: Request, s: Student)
    requires NothingNew(q, again) && s in StudentsOf(q.students, q.tenant, q.year)
    ensures KeysAmong(StudentRows(s, SchedulesOf(again.schedules, q.tenant, q.year), q.months, q.includeAnnual,
                                  again.discounts),
                      Entries(q))
  {
    DueKeysAmong(s, again.schedules, q.schedules, q.months, q.includeAnnual, q.discounts, again.discounts);
    MemberKeysAmong(StudentsOf(q.students, q.tenant, q.year), s, SchedulesOf(q.schedules, q.tenant, q.year), q.months,
                    q.includeAnnual, q.discounts,
                    DueRows(s, again.schedules, q.months, q.includeAnnual, again.discounts));
  }

  /** Once entries are in, entries with the same keys add nothing. */
  lemma KeysAmongAddNothing(ledger: seq<LedgerRow>, rows: seq<LedgerRow>, again: seq<LedgerRow>)
    requires KeysAmong(again, rows)
    ensures InsertRows(InsertRows(ledger, rows), again) == InsertRows(ledger, rows)
  {
    InsertFacts(ledger, rows);
    forall i | 0 <= i < |again| ensures Taken(InsertRows(ledger, rows), KeyOf(again[i])) {
      assert HasEntry(rows, KeyOf(again[i]));
    }
    InsertNothing(InsertRows(ledger, rows), again);
  }

  /** Generating again for the same months creates nothing, skips every entry and changes no
      row, even if the queries return another order or discounts have changed since. */
  lemma GenerationIdempotent(ledger: seq<LedgerRow>, q: Request, again: Request)
    requires NothingNew(q, again)
    ensures var once := InsertRows(ledger, Entries(q));
            InsertRows(once, Entries(again)) == once && ledger <= once && (KeysUnique(ledger) ==> KeysUnique(once))
  {
    InsertFacts(ledger, Entries(q));
    EntriesAmong(q, again, StudentsOf(again.students, q.tenant, q.year));
    KeysAmongAddNothing(ledger, Entries(q), Entries(again));
  }

  /** After bulk generation the single-student generator has nothing to add for a student
      the bulk run saw, over the same months: again in any order and with any discounts. */
  lemma NewStudentAfterBulk(ledger: seq<LedgerRow>, q: Request, student: Student, fetched: seq<Schedule>,
                            discounts: Discounts)
    requires q.includeAnnual && student in q.students && Enrolled(student, q.tenant, q.year)
    requires forall s :: s in fetched ==> s in q.schedules
    ensures var bulk := InsertRows(ledger, Entries(q));
            InsertRows(bulk, NewStudentRows(student, SchedulesFor(fetched, q.tenant, q.year, student.class_), q.months,
                                            OwnDiscounts(discounts, student.id))) == bulk
  {
    SameOrderSameEntries(student, fetched, q.months, discounts);
    DueKeysAmong(student, fetched, q.schedules, q.months, true, q.discounts, discounts);
    MemberKeysAmong(StudentsOf(q.students, q.tenant, q.year), student, SchedulesOf(q.schedules, q.tenant, q.year),
                    q.months,
                    true, q.discounts, DueRows(student, fetched, q.months, true, discounts));
    KeysAmongAddNothing(ledger, Entries(q), DueRows(student, fetched, q.months, true, discounts));
  }
}
