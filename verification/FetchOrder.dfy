/** Which schedule prices a generated ledger row, and when recompute agrees. Generation's
    query has no ORDER BY: the table is given in the order the query returns it. */
module FetchOrder {
  import opened Schema
  import opened Pricing
  import opened LedgerGeneration
  import opened StudentDiscounts

  /** The schedule makes an entry for the pupil on this head, monthly or not. */
  predicate Fits(pupil: Student, s: Schedule, head: HeadId, month: Option<nat>) {
    && InForce(s, pupil.tenant, pupil.year) && s.head == head && (s.feeType.Monthly? <==> month.Some?)
    && ClassFits(s, pupil.class_) && FilterFits(s, pupil.transport, pupil.hosteler)
  }

  function FirstFit(pupil: Student, table: seq<Schedule>, head: HeadId, month: Option<nat>): Option<Schedule> {
    if table == [] then None else
      var n := |table| - 1;
      var before := FirstFit(pupil, table[..n], head, month);
      if before.Some? then before else if Fits(pupil, table[n], head, month) then Some(table[n]) else None
  }

  // ---- The first entry with a key ----

  function FirstWith(rows: seq<LedgerRow>, key: Key): Option<LedgerRow> {
    if rows == [] then None else
      var n := |rows| - 1;
      var before := FirstWith(rows[..n], key);
      if before.Some? then before else if KeyOf(rows[n]) == key then Some(rows[n]) else None
  }

  lemma {:induction false} FirstWithConcat(a: seq<LedgerRow>, b: seq<LedgerRow>, key: Key)
    ensures FirstWith(a + b, key) == if FirstWith(a, key).Some? then FirstWith(a, key) else FirstWith(b, key)
  {
    if b == [] {
      assert a + b == a;
    } else {
      var n := |b| - 1;
      FirstWithConcat(a, b[..n], key);
      assert (a + b)[..|a| + n] == a + b[..n];
    }
  }

  /** Into a ledger where the key is free goes the first entry that has it, and no other. */
  lemma {:induction false} FirstStays(ledger: seq<LedgerRow>, rows: seq<LedgerRow>, key: Key)
    requires !Taken(ledger, key)
    ensures FirstWith(rows, key).Some? <==> Taken(InsertRows(ledger, rows), key)
    ensures FirstWith(rows, key).Some? ==> KeyOf(FirstWith(rows, key).value) == key
    ensures forall l :: 0 <= l < |InsertRows(ledger, rows)| && KeyOf(InsertRows(ledger, rows)[l]) == key ==>
              FirstWith(rows, key) == Some(InsertRows(ledger, rows)[l])
  {
    if rows == [] {
    } else {
      var n := |rows| - 1;
      FirstStays(ledger, rows[..n], key);
      var sofar, all := InsertRows(ledger, rows[..n]), InsertRows(ledger, rows);
      if Taken(sofar, key) { TakenGrows(sofar, all, key); }
      if KeyOf(rows[n]) == key && !Taken(sofar, key) { assert KeyOf(all[|sofar|]) == key; }
    }
  }

  // ---- The entries of one student ----

  function KeyFor(pupil: Student, head: HeadId, month: Option<nat>, periodYear: int): Key {
    Key(pupil.tenant, pupil.id, head, periodYear, month)
  }

  /** The period is one the request asks for. */
  predicate Asked(months: seq<Month>, includeAnnual: bool, month: Option<nat>, periodYear: int) {
    if month.Some? then Month(month.value, periodYear) in months else includeAnnual && periodYear == BaseYear(months)
  }

  lemma {:induction false} FirstMonth(pupil: Student, s: Schedule, months: seq<Month>, percentage: nat, key: Key)
    requires percentage <= WHOLE && key.tenant == pupil.tenant && key.student == pupil.id
    ensures FirstWith(MonthRows(pupil, s, months, percentage), key)
         == if s.head == key.head && key.month.Some? && Month(key.month.value, key.periodYear) in months
            then Some(Row(pupil, s, key.month, key.periodYear, percentage)) else None
  {
    if months == [] {
    } else {
      var n := |months| - 1;
      var rows := MonthRows(pupil, s, months, percentage);
      FirstMonth(pupil, s, months[..n], percentage, key);
      assert rows[..n] == MonthRows(pupil, s, months[..n], percentage);
      assert months == months[..n] + [months[n]];
    }
  }

  lemma FirstOfOne(row: LedgerRow, key: Key)
    ensures FirstWith([row], key) == if KeyOf(row) == key then Some(row) else None
  {
    assert [row][..0] == [];
  }

  lemma {:induction false} NoSuchKey(rows: seq<LedgerRow>, key: Key)
    requires forall i :: 0 <= i < |rows| ==> KeyOf(rows[i]) != key
    ensures FirstWith(rows, key) == None
  {
    if rows == [] {
    } else {
      NoSuchKey(rows[..|rows| - 1], key);
    }
  }

  lemma FirstOfSchedule(pupil: Student, s: Schedule, months: seq<Month>, includeAnnual: bool, discounts: Discounts,
                        head: HeadId, month: Option<nat>, periodYear: int)
    ensures FirstWith(DueRows(pupil, [s], months, includeAnnual, discounts), KeyFor(pupil, head, month, periodYear))
         == if Asked(months, includeAnnual, month, periodYear) && Fits(pupil, s, head, month)
            then Some(Row(pupil, s, month, periodYear, DiscountOf(discounts, pupil.id, head))) else None
  {
    var key, percentage := KeyFor(pupil, head, month, periodYear), DiscountOf(discounts, pupil.id, s.head);
    OneScheduleRows(pupil, s, months, includeAnnual, discounts);
    if s.feeType.Monthly? {
      FirstMonth(pupil, s, months, percentage, key);
    } else {
      FirstOfOne(Row(pupil, s, None, BaseYear(months), percentage), key);
    }
  }

  lemma {:induction false} FirstOfStudent(pupil: Student, table: seq<Schedule>, months: seq<Month>, includeAnnual: bool,
                                          discounts: Discounts, head: HeadId, month: Option<nat>, periodYear: int)
    ensures FirstWith(DueRows(pupil, table, months, includeAnnual, discounts), KeyFor(pupil, head, month, periodYear))
         == if !Asked(months, includeAnnual, month, periodYear) then None
            else match FirstFit(pupil, table, head, month)
                 case None => None
                 case Some(s) => Some(Row(pupil, s, month, periodYear, DiscountOf(discounts, pupil.id, head)))
  {
    if table == [] {
    } else {
      var n := |table| - 1;
      FirstOfStudent(pupil, table[..n], months, includeAnnual, discounts, head, month, periodYear);
      DueSnoc(pupil, table, months, includeAnnual, discounts);
      FirstOfSchedule(pupil, table[n], months, includeAnnual, discounts, head, month, periodYear);
      FirstWithConcat(DueRows(pupil, table[..n], months, includeAnnual, discounts),
                      DueRows(pupil, [table[n]], months, includeAnnual, discounts),
                      KeyFor(pupil, head, month, periodYear));
    }
  }

  lemma {:induction false} OwnRows(pupil: Student, schedules: seq<Schedule>, months: seq<Month>, includeAnnual: bool,
                                   discounts: Discounts)
    ensures forall i :: 0 <= i < |StudentRows(pupil, schedules, months, includeAnnual, discounts)| ==>
              StudentRows(pupil, schedules, months, includeAnnual, discounts)[i].student == pupil.id
  {
    if schedules == [] {
    } else {
      OwnRows(pupil, schedules[..|schedules| - 1], months, includeAnnual, discounts);
    }
  }

  /** id is the primary key of students. */
  predicate IdsIdentify(students: seq<Student>) {
    forall a, b :: a in students && b in students && a.id == b.id ==> a == b
  }

  lemma {:induction false} FirstOfAll(students: seq<Student>, pupil: Student, schedules: seq<Schedule>,
                                      months: seq<Month>,
                                      includeAnnual: bool, discounts: Discounts, key: Key)
    requires IdsIdentify(students) && key.student == pupil.id
        && (pupil in students || forall s :: s in students ==> s.id != pupil.id)
    ensures FirstWith(AllRows(students, schedules, months, includeAnnual, discounts), key)
         == if pupil in students then FirstWith(StudentRows(pupil, schedules, months, includeAnnual, discounts), key)
             else None
  {
    if students == [] {
    } else {
      var n := |students| - 1;
      assert students == students[..n] + [students[n]];
      FirstOfAll(students[..n], pupil, schedules, months, includeAnnual, discounts, key);
      var last := StudentRows(students[n], schedules, months, includeAnnual, discounts);
      FirstWithConcat(AllRows(students[..n], schedules, months, includeAnnual, discounts), last, key);
      if students[n] != pupil {
        OwnRows(students[n], schedules, months, includeAnnual, discounts);
        NoSuchKey(last, key);
      }
    }
  }

  /** Bulk generation, whatever the tables, months and ledger: for a pupil's free period on a
      head, exactly the first schedule in fetch order that fits class and filter prices the
      row that is created; if none fits, no row is. */
  lemma PricedByFirstFit(ledger: seq<LedgerRow>, q: Request, pupil: Student, head: HeadId, month: Option<nat>,
                         periodYear: int)
    requires IdsIdentify(q.students) && pupil in q.students && Enrolled(pupil, q.tenant, q.year)
    requires Asked(q.months, q.includeAnnual, month, periodYear)
        && !Taken(ledger, KeyFor(pupil, head, month, periodYear))
    ensures var after, key := InsertRows(ledger, Entries(q)), KeyFor(pupil, head, month, periodYear);
            match FirstFit(pupil, q.schedules, head, month)
            case None => !Taken(after, key)
            case Some(s) =>
              && Taken(after, key)
              && forall l :: 0 <= l < |after| && KeyOf(after[l]) == key ==>
                   after[l] == Row(pupil, s, month, periodYear, DiscountOf(q.discounts, pupil.id, head))
  {
    var key := KeyFor(pupil, head, month, periodYear);
    FirstOfStudent(pupil, q.schedules, q.months, q.includeAnnual, q.discounts, head, month, periodYear);
    FirstOfAll(StudentsOf(q.students, q.tenant, q.year), pupil, SchedulesOf(q.schedules, q.tenant, q.year), q.months,
               q.includeAnnual, q.discounts, key);
    FirstStays(ledger, Entries(q), key);
  }

  // ---- Against recompute ----

  /** migration 037: one schedule a class, and one for all classes, per head and year. */
  predicate UniqueSchedules(table: seq<Schedule>) {
    forall i, j :: 0 <= i < j < |table| ==>
      !KeyedBy(table[j], table[i].tenant, table[i].head, table[i].year, table[i].forClass)
  }

  /** Type, activity and group are columns of the fee head. */
  predicate HeadColumns(table: seq<Schedule>) {
    forall a, b :: a in table && b in table && a.tenant == b.tenant && a.head == b.head ==>
      a.feeType == b.feeType && a.active == b.active && a.grouped == b.grouped
  }

  predicate KeyedBy(s: Schedule, tenant: TenantId, head: HeadId, year: YearId, forClass: Option<nat>) {
    s.tenant == tenant && s.head == head && s.year == year && s.forClass == forClass
  }

  lemma {:induction false} FoundAt(table: seq<Schedule>, tenant: TenantId, head: HeadId, year: YearId,
                                   forClass: Option<nat>)
    requires UniqueSchedules(table)
    ensures forall i :: 0 <= i < |table| && KeyedBy(table[i], tenant, head, year, forClass) ==>
              Find(table, tenant, head, year, forClass) == Some(table[i])
    ensures var found := Find(table, tenant, head, year, forClass);
            found.Some? ==> found.value in table && KeyedBy(found.value, tenant, head, year, forClass)
  {
    if table == [] {
    } else {
      var rest := table[1..];
      assert forall i :: 0 <= i < |rest| ==> rest[i] == table[i + 1];
      FoundAt(rest, tenant, head, year, forClass);
      forall i | 0 <= i < |table| && KeyedBy(table[i], tenant, head, year, forClass)
        ensures Find(table, tenant, head, year, forClass) == Some(table[i])
      {
        if i > 0 { assert table[i] == rest[i - 1]; }
      }
    }
  }

  lemma {:induction false} FirstFitAt(pupil: Student, table: seq<Schedule>, head: HeadId, month: Option<nat>)
    ensures match FirstFit(pupil, table, head, month)
            case None => forall i :: 0 <= i < |table| ==> !Fits(pupil, table[i], head, month)
            case Some(s) => exists i :: 0 <= i < |table| && table[i] == s && Fits(pupil, s, head, month)
                                        && forall j :: 0 <= j < i ==> !Fits(pupil, table[j], head, month)
  {
    if table == [] {
    } else {
      var n := |table| - 1;
      FirstFitAt(pupil, table[..n], head, month);
      if FirstFit(pupil, table[..n], head, month).Some? {
        var s := FirstFit(pupil, table[..n], head, month).value;
        var i :| 0 <= i < n && table[..n][i] == s && Fits(pupil, s, head, month)
                 && forall j :: 0 <= j < i ==> !Fits(pupil, table[..n][j], head, month);
        assert forall j :: 0 <= j < i ==> table[..n][j] == table[j];
        assert table[i] == s;
      } else {
        assert forall j :: 0 <= j < n ==> table[..n][j] == table[j];
      }
    }
  }

  /** `b` comes out of the query after `a`. */
  predicate Before(table: seq<Schedule>, a: Schedule, b: Schedule) {
    exists i, j :: 0 <= i < j < |table| && table[i] == a && table[j] == b
  }

  function OwnSchedule(table: seq<Schedule>, pupil: Student, head: HeadId): Option<Schedule> {
    Find(table, pupil.tenant, head, pupil.year, Some(pupil.class_))
  }

  function CommonSchedule(table: seq<Schedule>, pupil: Student, head: HeadId): Option<Schedule> {
    Find(table, pupil.tenant, head, pupil.year, None)
  }

  /** The class has no schedule of its own, or it has one whose filter lets the pupil in and
      which does not come after an all-classes one that does so too. */
  predicate OwnComesFirst(table: seq<Schedule>, pupil: Student, head: HeadId) {
    var own, common := OwnSchedule(table, pupil, head), CommonSchedule(table, pupil, head);
    own.Some? ==>
      && FilterFits(own.value, pupil.transport, pupil.hosteler)
      && !(common.Some? && FilterFits(common.value, pupil.transport, pupil.hosteler)
           && Before(table, common.value, own.value))
  }

  /** A schedule that fits is the class's own or the all-classes one; both share the head's columns. */
  lemma FitsIsOwnOrCommon(pupil: Student, table: seq<Schedule>, head: HeadId, month: Option<nat>, s: Schedule)
    requires UniqueSchedules(table) && HeadColumns(table) && s in table && Fits(pupil, s, head, month)
    ensures Some(s) == if s.forClass.Some? then OwnSchedule(table, pupil, head) else CommonSchedule(table, pupil, head)
    ensures var own := OwnSchedule(table, pupil, head);
            own.Some? && FilterFits(own.value, pupil.transport, pupil.hosteler) ==> Fits(pupil, own.value, head, month)
    ensures var common := CommonSchedule(table, pupil, head);
            common.Some? && FilterFits(common.value, pupil.transport, pupil.hosteler) ==>
                Fits(pupil, common.value, head, month)
  {
    FoundAt(table, pupil.tenant, head, pupil.year, Some(pupil.class_));
    FoundAt(table, pupil.tenant, head, pupil.year, None);
    var i :| 0 <= i < |table| && table[i] == s;
  }

  lemma OnePosition(table: seq<Schedule>, i: nat)
    requires UniqueSchedules(table) && i < |table|
    ensures forall j :: 0 <= j < |table| && table[j] == table[i] ==> j == i
  {
  }

  /** The first schedule that fits is the class's own one unless a fitting one comes before. */
  lemma OwnIsFirstIff(pupil: Student, table: seq<Schedule>, head: HeadId, month: Option<nat>, own: Schedule)
    requires UniqueSchedules(table) && HeadColumns(table) && FirstFit(pupil, table, head, month).Some?
    requires OwnSchedule(table, pupil, head) == Some(own)
    ensures FirstFit(pupil, table, head, month) == Some(own) <==> OwnComesFirst(table, pupil, head)
  {
    var s, common := FirstFit(pupil, table, head, month).value, CommonSchedule(table, pupil, head);
    FirstFitAt(pupil, table, head, month);
    var i :| 0 <= i < |table| && table[i] == s && Fits(pupil, s, head, month)
             && forall j :: 0 <= j < i ==> !Fits(pupil, table[j], head, month);
    FitsIsOwnOrCommon(pupil, table, head, month, s);
    FoundAt(table, pupil.tenant, head, pupil.year, Some(pupil.class_));
    var j :| 0 <= j < |table| && table[j] == own;
    OnePosition(table, i);
    if FilterFits(own, pupil.transport, pupil.hosteler) && s != own {
      assert Before(table, s, own);
    }
  }

  /** Recompute is said to choose as generation does. For a row that generation creates, the
      two choose the same schedule exactly if the class's own one, where there is one, lets
      the pupil in and came out of the query before an all-classes one that does. */
  lemma SameScheduleIff(pupil: Student, table: seq<Schedule>, head: HeadId, month: Option<nat>)
    requires UniqueSchedules(table) && HeadColumns(table) && FirstFit(pupil, table, head, month).Some?
    ensures Preferred(table, pupil.tenant, head, pupil.year, pupil.class_) == FirstFit(pupil, table, head, month)
       <==> OwnComesFirst(table, pupil, head)
  {
    var s, own := FirstFit(pupil, table, head, month).value, OwnSchedule(table, pupil, head);
    FirstFitAt(pupil, table, head, month);
    if own.Some? {
      OwnIsFirstIff(pupil, table, head, month, own.value);
    } else {
      FitsIsOwnOrCommon(pupil, table, head, month, s);
    }
  }

  /** So recomputing a row just created moves it by at most one paisa, up, if the class's own
      schedule comes first in that sense; otherwise it charges the class's own schedule,
      which is not the one the row was generated from. */
  lemma RepricingCreatedRow(pupil: Student, table: seq<Schedule>, discounts: Discounts, head: HeadId,
                            month: Option<nat>, periodYear: int)
    requires UniqueSchedules(table) && HeadColumns(table) && FirstFit(pupil, table, head, month).Some?
    ensures var s, percentage := FirstFit(pupil, table, head, month).value, DiscountOf(discounts, pupil.id, head);
            var row := Row(pupil, s, month, periodYear, percentage);
            var after := RecomputeRow(row, table, discounts, pupil.tenant, pupil.id, pupil.class_);
            && s.head == head && after.(amountDue := row.amountDue) == row
            && if OwnComesFirst(table, pupil, head) then row.amountDue <= after.amountDue <= row.amountDue + 1
               else OwnSchedule(table, pupil, head).Some? && OwnSchedule(table, pupil, head) != Some(s)
                    && after.amountDue == RecomputedAmount(OwnSchedule(table, pupil, head).value, month, percentage)
  {
    var s := FirstFit(pupil, table, head, month).value;
    FirstFitAt(pupil, table, head, month);
    SameScheduleIff(pupil, table, head, month);
    if OwnComesFirst(table, pupil, head) { FreshRowWithinAPaisa(pupil, s, table, discounts, month, periodYear); }
  }

  /** Both ways the two can disagree: an all-classes schedule fetched before the class's own,
      and a class's own one, wherever fetched, whose filter shuts the pupil out. */
  lemma TwoWaysToDisagree(pupil: Student, common: Schedule, amount: Paise, month: nat)
    requires Fits(pupil, common, common.head, Some(month)) && common.forClass.None? && !pupil.transport
    requires common.amount != amount
    ensures var own := common.(forClass := Some(pupil.class_), amount := amount);
            var busOnly := own.(filter := Transport);
            && FirstFit(pupil, [common, own], common.head, Some(month)) == Some(common)
            && Preferred([common, own], pupil.tenant, common.head, pupil.year, pupil.class_) == Some(own)
            && FirstFit(pupil, [busOnly, common], common.head, Some(month)) == Some(common)
            && Preferred([busOnly, common], pupil.tenant, common.head, pupil.year, pupil.class_) == Some(busOnly)
  {
    var own := common.(forClass := Some(pupil.class_), amount := amount);
    var busOnly := own.(filter := Transport);
    assert [common, own][..1] == [common] && [busOnly, common][..1] == [busOnly];
    assert [common][..0] == [] && [busOnly][..0] == [];
    assert FirstFit(pupil, [], common.head, Some(month)) == None;
    assert FirstFit(pupil, [common], common.head, Some(month)) == Some(common);
    assert FirstFit(pupil, [busOnly], common.head, Some(month)) == None;
    assert [common, own][1..] == [own];
    assert Find([own], pupil.tenant, common.head, pupil.year, Some(pupil.class_)) == Some(own);
  }
}
