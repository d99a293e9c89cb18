/** What a fee schedule charges one student, computed twice: in Python when ledger rows are
    generated, and in SQL when discounts are set. Amounts are paise, percentages hundredths
    of a percent, so both computations are exact up to their roundings. */
module Pricing {
  import opened Schema

  const WHOLE := 10000

  datatype FeeType = Monthly | Annual | OneTime
  datatype Filter = Everyone | Transport | Hosteler

  /** 'this calendar month costs that percentage'; the two columns are set together. */
  datatype Reduction = Reduction(month: nat, percentage: nat)

  /** A fee_schedules row joined with its fee head. `forClass` None means all classes. */
  datatype Schedule = Schedule(
    tenant: TenantId, head: HeadId, year: YearId, forClass: Option<nat>, amount: Paise,
    reduction: Option<Reduction>, filter: Filter, feeType: FeeType, active: bool, grouped: bool)

  // ---- Rounding ----

  /** Decimal.quantize with its default ROUND_HALF_EVEN. */
  function HalfEven(n: nat, d: nat): nat
    requires d > 0
  {
    var q, r := n / d, n % d;
    if 2 * r < d || (2 * r == d && q % 2 == 0) then q else q + 1
  }

  /** PostgreSQL's ROUND(numeric, 2): half away from zero. */
  function HalfUp(n: nat, d: nat): nat
    requires d > 0
  {
    if 2 * (n % d) < d then n / d else n / d + 1
  }

  /** The two roundings part only on exact ties, and there SQL goes up by one. */
  lemma RoundingsDiffer(n: nat, d: nat)
    requires d > 0
    ensures HalfUp(n, d) == HalfEven(n, d) + if 2 * (n % d) == d && n / d % 2 == 0 then 1 else 0
  {
  }

  /** Adding less than one unit before rounding moves the result by at most one. */
  lemma StepUp(n: nat, k: nat, d: nat)
    requires k < d
    ensures HalfEven(n, d) <= HalfUp(n + k, d) <= HalfEven(n, d) + 1
  {
    var q, r := n / d, n % d;
    assert n == q * d + r;
    if r + k < d {
      DivMod(n + k, q, r + k, d);
    } else {
      assert (q + 1) * d == q * d + d;
      DivMod(n + k, q + 1, r + k - d, d);
    }
  }

  lemma DivMod(n: nat, q: nat, r: nat, d: nat)
    requires r < d && n == q * d + r
    ensures n / d == q && n % d == r
  {
    var q', r' := n / d, n % d;
    assert n == q' * d + r';
    assert (q + 1) * d == q * d + d && (q' + 1) * d == q' * d + d;
    if q < q' {
      MulMono(q + 1, q', d);
    } else if q' < q {
      MulMono(q' + 1, q, d);
    }
  }

  lemma MulMono(a: nat, b: nat, d: nat)
    requires a <= b
    ensures a * d <= b * d
  {
  }

  // ---- finance._discounted and finance._monthly_amount ----

  function Discounted(amount: Paise, percentage: nat): Paise
    requires percentage <= WHOLE
  {
    if percentage == 0 then amount else HalfEven(amount * (WHOLE - percentage), WHOLE)
  }

  predicate Reduced(s: Schedule, month: Option<nat>) {
    s.reduction.Some? && month == Some(s.reduction.value.month)
  }

  function MonthlyAmount(s: Schedule, month: nat, percentage: nat): Paise
    requires percentage <= WHOLE
  {
    var base := if Reduced(s, Some(month)) then HalfEven(s.amount * s.reduction.value.percentage, WHOLE) else s.amount;
    Discounted(base, percentage)
  }

  /** What generation puts on a row for `month`, None for an annual or one-time row. */
  function GeneratedAmount(s: Schedule, month: Option<nat>, percentage: nat): Paise
    requires percentage <= WHOLE
  {
    match month
    case Some(m) => MonthlyAmount(s, m, percentage)
    case None => Discounted(s.amount, percentage)
  }

  /** The UPDATE of set_student_discounts on a row for `month`. */
  function RecomputedAmount(s: Schedule, month: Option<nat>, percentage: nat): Paise
    requires percentage <= WHOLE
  {
    var base := if Reduced(s, month) then HalfUp(s.amount * s.reduction.value.percentage, WHOLE) else s.amount;
    HalfUp(base * (WHOLE - percentage), WHOLE)
  }

  lemma WholeRoundsToItself(a: nat)
    ensures HalfUp(a * WHOLE, WHOLE) == a
  {
  }

  /** Discounting a base that is the same or one paisa higher. */
  lemma SecondRounding(base: Paise, sqlBase: Paise, percentage: nat)
    requires percentage <= WHOLE && base <= sqlBase <= base + 1
    ensures Discounted(base, percentage) <= HalfUp(sqlBase * (WHOLE - percentage), WHOLE)
         <= Discounted(base, percentage) + 1
  {
    if percentage == 0 {
      WholeRoundsToItself(sqlBase);
    } else {
      var k := WHOLE - percentage;
      StepUp(base * k, if sqlBase == base then 0 else k, WHOLE);
      assert (base + 1) * k == base * k + k;
    }
  }

  /** One-paisa bound: with the same schedule and discount, the SQL recompute gives the
      generated amount or one paisa more, even where both roundings apply. */
  lemma OnePaisa(s: Schedule, month: Option<nat>, percentage: nat)
    requires percentage <= WHOLE
    ensures GeneratedAmount(s, month, percentage) <= RecomputedAmount(s, month, percentage)
         <= GeneratedAmount(s, month, percentage) + 1
  {
    if Reduced(s, month) {
      var n := s.amount * s.reduction.value.percentage;
      RoundingsDiffer(n, WHOLE);
      SecondRounding(HalfEven(n, WHOLE), HalfUp(n, WHOLE), percentage);
    } else {
      SecondRounding(s.amount, s.amount, percentage);
    }
  }

  /** Without a seasonal reduction the two amounts differ exactly on a tie that rounds to
      an even paisa. */
  lemma OnePaisaExactly(s: Schedule, month: Option<nat>, percentage: nat)
    requires 0 < percentage <= WHOLE && !Reduced(s, month)
    ensures RecomputedAmount(s, month, percentage) != GeneratedAmount(s, month, percentage) <==>
              2 * (s.amount * (WHOLE - percentage) % WHOLE) == WHOLE && s.amount * (WHOLE - percentage) / WHOLE % 2 == 0
  {
  }

  // ---- What the prices are ----

  /** `r` is a nearest whole number to n / 10000: Python takes the even one of two, SQL the
      upper one. */
  predicate Rounds(r: nat, n: nat, sql: bool) {
    var off := 2 * (10000 * r) - 2 * n;
    && -10000 <= off <= 10000
    && (off == 10000 || off == -10000 ==> if sql then off == 10000 else r % 2 == 0)
  }

  /** The base of a row: the schedule's amount, reduced in the reduction's month and in no other. */
  predicate BaseIs(base: Paise, s: Schedule, month: Option<nat>, sql: bool) {
    if s.reduction.Some? && month == Some(s.reduction.value.month)
    then Rounds(base, s.amount * s.reduction.value.percentage, sql)
    else base == s.amount
  }

  /** The base less the student's discount. */
  predicate LessDiscount(r: Paise, base: Paise, percentage: nat, sql: bool)
    requires percentage <= 10000
  {
    if percentage == 0 then r == base else Rounds(r, base * (10000 - percentage), sql)
  }

  ghost predicate Charges(r: Paise, s: Schedule, month: Option<nat>, percentage: nat, sql: bool)
    requires percentage <= 10000
  {
    exists base: Paise :: BaseIs(base, s, month, sql) && LessDiscount(r, base, percentage, sql)
  }

  lemma HalfEvenRounds(n: nat)
    ensures Rounds(HalfEven(n, WHOLE), n, false)
  {
  }

  lemma HalfUpRounds(n: nat)
    ensures Rounds(HalfUp(n, WHOLE), n, true)
  {
  }

  /** The base generation starts from. */
  function GeneratedBase(s: Schedule, month: Option<nat>): Paise {
    if s.reduction.Some? && month == Some(s.reduction.value.month)
    then HalfEven(s.amount * s.reduction.value.percentage, WHOLE) else s.amount
  }

  lemma GeneratedBaseIs(s: Schedule, month: Option<nat>)
    ensures BaseIs(GeneratedBase(s, month), s, month, false)
  {
    if s.reduction.Some? && month == Some(s.reduction.value.month) {
      HalfEvenRounds(s.amount * s.reduction.value.percentage);
    }
  }

  lemma GeneratedFromBase(s: Schedule, month: Option<nat>, percentage: nat)
    requires percentage <= WHOLE
    ensures GeneratedAmount(s, month, percentage) == Discounted(GeneratedBase(s, month), percentage)
  {
  }

  lemma DiscountedLess(base: Paise, percentage: nat)
    requires percentage <= WHOLE
    ensures LessDiscount(Discounted(base, percentage), base, percentage, false)
  {
    if percentage != 0 { HalfEvenRounds(base * (WHOLE - percentage)); }
  }

  /** What generation charges. */
  lemma GeneratedCharges(s: Schedule, month: Option<nat>, percentage: nat)
    requires percentage <= WHOLE
    ensures Charges(GeneratedAmount(s, month, percentage), s, month, percentage, false)
  {
    GeneratedFromBase(s, month, percentage);
    GeneratedBaseIs(s, month);
    DiscountedLess(GeneratedBase(s, month), percentage);
  }

  /** What the recompute of the discounts charges. */
  lemma RecomputedCharges(s: Schedule, month: Option<nat>, percentage: nat)
    requires percentage <= WHOLE
    ensures Charges(RecomputedAmount(s, month, percentage), s, month, percentage, true)
  {
    var reduced := s.reduction.Some? && month == Some(s.reduction.value.month);
    var base := if reduced then HalfUp(s.amount * s.reduction.value.percentage, WHOLE) else s.amount;
    if reduced { HalfUpRounds(s.amount * s.reduction.value.percentage); }
    if percentage == 0 { WholeRoundsToItself(base); } else { HalfUpRounds(base * (WHOLE - percentage)); }
    assert BaseIs(base, s, month, true) && LessDiscount(RecomputedAmount(s, month, percentage), base, percentage, true);
  }

  /** Without a discount: the schedule's amount, except in the reduction's month, where it is
      within half a paisa of the reduced amount, whichever computation is used. */
  lemma UndiscountedPrice(s: Schedule, month: Option<nat>, r: Paise)
    requires r == GeneratedAmount(s, month, 0) || r == RecomputedAmount(s, month, 0)
    ensures s.reduction.None? || month != Some(s.reduction.value.month) ==> r == s.amount
    ensures s.reduction.Some? && month == Some(s.reduction.value.month) ==>
              -10000 <= 2 * (10000 * r - s.amount * s.reduction.value.percentage) <= 10000
  {
    GeneratedCharges(s, month, 0);
    RecomputedCharges(s, month, 0);
  }
}
