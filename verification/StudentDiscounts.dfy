/** finance.set_student_discounts, its repeatability, and how its prices relate to those of
    ledger generation. */
module StudentDiscounts {
  import opened Schema
  import opened Statements
  import opened Pricing
  import opened LedgerGeneration

  datatype Book = Book(ledger: seq<LedgerRow>, discounts: Discounts, log: seq<Event>)
  datatype Item = Item(head: HeadId, percentage: nat)

  /** `IntegrityViolation`: a head given twice, or one that is not in fee_heads. */
  datatype Outcome = Updated(discounts: nat, rows: nat) | StudentNotFound | IntegrityViolation

  // ---- Which schedule prices a row ----

  function Find(schedules: seq<Schedule>, tenant: TenantId, head: HeadId, year: YearId,
                forClass: Option<nat>): Option<Schedule> {
    if schedules == [] then None
    else if schedules[0].tenant == tenant && schedules[0].head == head && schedules[0].year == year
        && schedules[0].forClass == forClass
    then Some(schedules[0])
    else Find(schedules[1..], tenant, head, year, forClass)
  }

  /** DISTINCT ON (head, year) ... ORDER BY class_id NULLS LAST: the class's own schedule
      before the all-classes one. Filters and head flags are not looked at. */
  function Preferred(schedules: seq<Schedule>, tenant: TenantId, head: HeadId, year: YearId,
                     class_: nat): Option<Schedule> {
    var own := Find(schedules, tenant, head, year, Some(class_));
    if own.Some? then own else Find(schedules, tenant, head, year, None)
  }

  /** The UPDATE: unpaid rows of the student that map to a schedule. */
  function RecomputeRow(row: LedgerRow, schedules: seq<Schedule>, discounts: Discounts, tenant: TenantId,
                        student: StudentId, class_: nat): LedgerRow {
    var s := Preferred(schedules, tenant, row.head, row.year, class_);
    if Matches(row, tenant, student) && s.Some?
    then row.(amountDue := RecomputedAmount(s.value, row.month, DiscountOf(discounts, student, row.head)))
    else row
  }

  function Recompute(ledger: seq<LedgerRow>, schedules: seq<Schedule>, discounts: Discounts,
                     tenant: TenantId, student: StudentId, class_: nat): seq<LedgerRow> {
    seq(|ledger|, l requires 0 <= l < |ledger| =>
      RecomputeRow(ledger[l], schedules, discounts, tenant, student, class_))
  }

  predicate Repriced(row: LedgerRow, schedules: seq<Schedule>, tenant: TenantId, student: StudentId, class_: nat) {
    Matches(row, tenant, student) && Preferred(schedules, tenant, row.head, row.year, class_).Some?
  }

  /** The row count the UPDATE reports. */
  function RowsUpdated(ledger: seq<LedgerRow>, schedules: seq<Schedule>, tenant: TenantId, student: StudentId,
                       class_: nat): nat {
    if ledger == [] then 0 else
      var n := |ledger| - 1;
      RowsUpdated(ledger[..n], schedules, tenant, student, class_)
      + if Repriced(ledger[n], schedules, tenant, student, class_) then 1 else 0
  }

  // ---- Replacing the discount set ----

  predicate Valid(items: seq<Item>) { forall i :: 0 <= i < |items| ==> 0 < items[i].percentage <= WHOLE }

  /** Each of the first `n` heads is known and is given once. */
  predicate InsertableTo(items: seq<Item>, n: nat, heads: set<HeadId>) {
    && n <= |items|
    && (forall i, j :: 0 <= i < j < n ==> items[i].head != items[j].head)
    && (forall i :: 0 <= i < n ==> items[i].head in heads)
  }

  /** What the INSERT of the items accepts. */
  predicate Insertable(items: seq<Item>, heads: set<HeadId>) { InsertableTo(items, |items|, heads) }

  /** DELETE of the student's discounts, then the inserts. */
  function Replace(discounts: Discounts, student: StudentId, items: seq<Item>): Discounts
    requires Valid(items)
  {
    if items == [] then (map k | k in discounts && k.0 != student :: discounts[k]) else
      var n := |items| - 1;
      Replace(discounts, student, items[..n])[(student, items[n].head) := items[n].percentage]
  }

  /** The STUDENT_DISCOUNT_SET event: each head with its percentage, and the rows repriced. */
  function DiscountsSet(tenant: TenantId, student: StudentId, items: seq<Item>, rows: nat): Event {
    var discounts := seq(|items|, i requires 0 <= i < |items| => (items[i].head, items[i].percentage));
    Event(tenant, StudentDiscountSet(discounts, rows), 0, student, 0, 0)
  }

  /** `class_` is the class of the active student, None if there is no such student; `heads`
      are the ids in fee_heads. */
  function SetDiscounts(book: Book, schedules: seq<Schedule>, heads: set<HeadId>, tenant: TenantId, student: StudentId,
                        class_: Option<nat>, items: seq<Item>): (Book, Outcome)
    requires Valid(items)
  {
    if class_.None? then (book, StudentNotFound)
    else if !Insertable(items, heads) then (book, IntegrityViolation)
    else
      var discounts := Replace(book.discounts, student, items);
      var rows := RowsUpdated(book.ledger, schedules, tenant, student, class_.value);
      (Book(Recompute(book.ledger, schedules, discounts, tenant, student, class_.value), discounts,
            book.log + [DiscountsSet(tenant, student, items, rows)]),
       Updated(|items|, rows))
  }

  /** While a student's discounts are being inserted, the keys taken are the heads so far. */
  lemma {:induction false} ReplaceKeys(discounts: Discounts, student: StudentId, items: seq<Item>, n: nat)
    requires Valid(items) && n <= |items|
    ensures forall head :: (student, head) in Replace(discounts, student, items[..n]) <==>
        exists j :: 0 <= j < n && items[j].head == head
  {
    if n > 0 {
      assert items[..n][..n - 1] == items[..n - 1];
      ReplaceKeys(discounts, student, items, n - 1);
    }
  }

  lemma ReplaceStep(discounts: Discounts, student: StudentId, items: seq<Item>, n: nat, heads: set<HeadId>)
    requires Valid(items) && n < |items| && InsertableTo(items, n, heads)
    ensures (items[n].head in heads && (student, items[n].head) !in Replace(discounts, student, items[..n])) <==>
              InsertableTo(items, n + 1, heads)
    ensures !InsertableTo(items, n + 1, heads) ==> !Insertable(items, heads)
    ensures Replace(discounts, student, items[..n + 1])
         == Replace(discounts, student, items[..n])[(student, items[n].head) := items[n].percentage]
  {
    assert items[..n + 1][..n] == items[..n];
    ReplaceKeys(discounts, student, items, n);
  }

  class DiscountDesk {
    var ledger: seq<LedgerRow>
    var discounts: Discounts
    var log: seq<Event>

    constructor (book: Book)
      ensures ledger == book.ledger && discounts == book.discounts && log == book.log
    {
      ledger, discounts, log := book.ledger, book.discounts, book.log;
    }

    /** The DELETE and the executemany INSERT; a violation undoes both. */
    method ReplaceDiscounts(student: StudentId, items: seq<Item>, heads: set<HeadId>) returns (ok: bool)
      requires Valid(items)
      modifies this`discounts
      ensures ok <==> Insertable(items, heads)
      ensures discounts == if ok then Replace(old(discounts), student, items) else old(discounts)
    {
      var saved := discounts;
      discounts := map k | k in discounts && k.0 != student :: discounts[k];
      for i := 0 to |items|
        invariant InsertableTo(items, i, heads) && discounts == Replace(saved, student, items[..i])
      {
        ReplaceStep(saved, student, items, i, heads);
        if items[i].head !in heads || (student, items[i].head) in discounts {
          discounts := saved;
          return false;
        }
        discounts := discounts[(student, items[i].head) := items[i].percentage];
      }
      assert items[..|items|] == items;
      ok := true;
    }

    /** The UPDATE, row by row, with its row count. */
    method Reprice(schedules: seq<Schedule>, tenant: TenantId, student: StudentId, class_: nat) returns (rows: nat)
      modifies this`ledger
      ensures ledger == Recompute(old(ledger), schedules, discounts, tenant, student, class_)
      ensures rows == RowsUpdated(old(ledger), schedules, tenant, student, class_)
    {
      rows := 0;
      for l := 0 to |ledger|
        invariant |ledger| == |old(ledger)| && rows == RowsUpdated(old(ledger)[..l], schedules, tenant, student, class_)
        invariant forall i :: 0 <= i < |ledger| ==>
                    ledger[i] == if i >= l then old(ledger)[i]
                                 else RecomputeRow(old(ledger)[i], schedules, discounts, tenant, student, class_)
      {
        assert old(ledger)[..l + 1][..l] == old(ledger)[..l];
        if Repriced(ledger[l], schedules, tenant, student, class_) {
          ledger := ledger[l := RecomputeRow(ledger[l], schedules, discounts, tenant, student, class_)];
          rows := rows + 1;
        }
      }
      assert old(ledger)[..|ledger|] == old(ledger);
    }

    method SetStudentDiscounts(schedules: seq<Schedule>, heads: set<HeadId>, tenant: TenantId, student: StudentId,
                               class_: Option<nat>, items: seq<Item>)
      returns (r: Outcome)
      requires Valid(items)
      modifies this
      ensures (Book(ledger, discounts, log), r)
           == SetDiscounts(old(Book(ledger, discounts, log)), schedules, heads, tenant, student, class_, items)
    {
      if class_.None? { return StudentNotFound; }
      var ok := ReplaceDiscounts(student, items, heads);
      if !ok { return IntegrityViolation; }
      var rows := Reprice(schedules, tenant, student, class_.value);
      log := log + [DiscountsSet(tenant, student, items, rows)];
      return Updated(|items|, rows);
    }
  }

  // ---- Against generation ----

  /** Setting the same discounts on a freshly generated row moves its amount by at most one
      paisa, up, when recompute prices it by the schedule that generated it. */
  lemma FreshRowWithinAPaisa(pupil: Student, s: Schedule, schedules: seq<Schedule>, discounts: Discounts,
                             month: Option<nat>, periodYear: int)
    requires Preferred(schedules, pupil.tenant, s.head, pupil.year, pupil.class_) == Some(s)
    ensures var row := Row(pupil, s, month, periodYear, DiscountOf(discounts, pupil.id, s.head));
            var after := RecomputeRow(row, schedules, discounts, pupil.tenant, pupil.id, pupil.class_);
            after.(amountDue := row.amountDue) == row && row.amountDue <= after.amountDue <= row.amountDue + 1
  {
    OnePaisa(s, month, DiscountOf(discounts, pupil.id, s.head));
  }
}
