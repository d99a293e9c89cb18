/** Repeated edits of a student's discounts never compound, whatever happens in between. */
module DiscountHistory {
  import opened Schema
  import opened Statements
  import opened Pricing
  import opened LedgerGeneration
  import opened StudentDiscounts
  import FeeProtocol
  import opened FeeLifecycle

  /** A call of set_student_discounts, or any step of the fee protocol: a payment, a waiver, a
      scan, a row billed by generation. */
  datatype Move =
    | Set(tenant: TenantId, student: StudentId, class_: Option<nat>, items: seq<Item>)
    | Serve(step: FeeProtocol.Step)

  datatype Desk = Desk(fees: FeeProtocol.Fees, discounts: Discounts)

  /** The call is answered with success. */
  predicate Accepted(move: Move, heads: set<HeadId>) {
    move.Set? && move.class_.Some? && Valid(move.items) && Insertable(move.items, heads)
  }

  /** Amounts are only rewritten by discount calls; malformed calls never get this far. */
  function Do(s: Desk, schedules: seq<Schedule>, heads: set<HeadId>, move: Move): Desk {
    match move
    case Serve(step) => if step.SReprice? then s else s.(fees := FeeProtocol.Apply(s.fees, true, step))
    case Set(tenant, student, class_, items) =>
      if !Valid(items) then s else
        var book := SetDiscounts(Book(s.fees.ledger, s.discounts, s.fees.log), schedules, heads, tenant, student,
                                 class_, items).0;
        Desk(s.fees.(ledger := book.ledger, log := book.log), book.discounts)
  }

  function DoAll(s: Desk, schedules: seq<Schedule>, heads: set<HeadId>, moves: seq<Move>): Desk {
    if moves == [] then s else
      Do(DoAll(s, schedules, heads, moves[..|moves| - 1]), schedules, heads, moves[|moves| - 1])
  }

  // ---- What a call makes of the student's discounts ----

  /** The percentage a call gives for a head, 0 for a head it does not name. */
  function PercentageIn(items: seq<Item>, head: HeadId): nat {
    if items == [] then 0
    else if items[|items| - 1].head == head then items[|items| - 1].percentage
    else PercentageIn(items[..|items| - 1], head)
  }

  /** Nothing of the student's earlier discounts survives, and nobody else's changes. */
  lemma {:induction false} ReplaceForgets(discounts: Discounts, student: StudentId, items: seq<Item>, who: StudentId,
                                          head: HeadId)
    requires Valid(items)
    ensures DiscountOf(Replace(discounts, student, items), who, head)
         == if who == student then PercentageIn(items, head) else DiscountOf(discounts, who, head)
  {
    if items == [] {
    } else {
      ReplaceForgets(discounts, student, items[..|items| - 1], who, head);
    }
  }

  // ---- What happens to one row ----

  /** A move other than an accepted call for the row's own student keeps a row's charge, and
      makes no row payable that was not. */
  lemma MoveKeepsCharge(s: Desk, schedules: seq<Schedule>, heads: set<HeadId>, move: Move, l: LedgerId)
    requires l < |s.fees.ledger|
    requires Accepted(move, heads) ==> move.student != s.fees.ledger[l].student
    ensures var t := Do(s, schedules, heads, move);
            && l < |t.fees.ledger| && SameCharge(s.fees.ledger[l], t.fees.ledger[l])
            && (t.fees.ledger[l].status.Payable() ==> s.fees.ledger[l].status.Payable())
  {
    match move
    case Serve(step) =>
      if !step.SReprice? {
        StepKeepsCharge(s.fees, step, l);
        RowLife(s.fees, true, step, l);
      }
    case Set(_, _, _, _) =>
  }

  /** What the last accepted call asks an unpaid row to charge. */
  function LastPrice(call: Move, schedules: seq<Schedule>, row: LedgerRow): Paise
    requires call.Set? && call.class_.Some? && Valid(call.items)
  {
    match Preferred(schedules, call.tenant, row.head, row.year, call.class_.value)
    case None => row.amountDue
    case Some(s) => PricedAt(s, row.month, call.items, row.head)
  }

  /** The row as the call leaves it. */
  function ChargedBy(call: Move, schedules: seq<Schedule>, row: LedgerRow): LedgerRow
    requires call.Set? && call.class_.Some? && Valid(call.items)
  {
    if Matches(row, call.tenant, call.student) then row.(amountDue := LastPrice(call, schedules, row)) else row
  }

  function PricedAt(s: Schedule, month: Option<nat>, items: seq<Item>, head: HeadId): Paise
    requires Valid(items)
  {
    PercentageBound(items, head);
    RecomputedAmount(s, month, PercentageIn(items, head))
  }

  lemma PercentageBound(items: seq<Item>, head: HeadId)
    requires Valid(items)
    ensures PercentageIn(items, head) <= WHOLE
  {
  }

  lemma CallPrices(s: Desk, schedules: seq<Schedule>, heads: set<HeadId>, call: Move, l: LedgerId)
    requires Accepted(call, heads) && l < |s.fees.ledger|
    ensures var row, t := s.fees.ledger[l], Do(s, schedules, heads, call);
            && |t.fees.ledger| == |s.fees.ledger|
            && t.fees.ledger[l] == ChargedBy(call, schedules, row)
  {
    var row := s.fees.ledger[l];
    ReplaceForgets(s.discounts, call.student, call.items, call.student, row.head);
  }

  /** No accepted call for the student comes after the one at `last`. */
  predicate IsLast(moves: seq<Move>, heads: set<HeadId>, last: nat) {
    && last < |moves| && Accepted(moves[last], heads)
    && forall i :: last < i < |moves| && Accepted(moves[i], heads) ==> moves[i].student != moves[last].student
  }

  /** The discounts a student has are those of the last accepted call. */
  lemma {:induction false} LastCallDiscounts(s: Desk, schedules: seq<Schedule>, heads: set<HeadId>, moves: seq<Move>,
                                             last: nat, head: HeadId)
    requires IsLast(moves, heads, last)
    ensures DiscountOf(DoAll(s, schedules, heads, moves).discounts, moves[last].student, head)
         == PercentageIn(moves[last].items, head)
  {
    var n := |moves| - 1;
    var before := DoAll(s, schedules, heads, moves[..n]);
    if last == n {
      ReplaceForgets(before.discounts, moves[n].student, moves[n].items, moves[n].student, head);
    } else {
      LastCallDiscounts(s, schedules, heads, moves[..n], last, head);
      MoveKeepsDiscount(before, schedules, heads, moves[n], moves[last].student, head);
    }
  }

  /** The row charges what it should after the call, and has not become payable again. */
  predicate StillCharges(row: LedgerRow, call: Move, schedules: seq<Schedule>, ledger: seq<LedgerRow>, l: LedgerId)
    requires call.Set? && call.class_.Some? && Valid(call.items)
  {
    && l < |ledger| && SameCharge(ChargedBy(call, schedules, row), ledger[l])
    && (ledger[l].status.Payable() ==> row.status.Payable())
  }

  /** What a row charges after the call at `last`, and everything since. */
  lemma {:induction false} LastCallCharges(s: Desk, schedules: seq<Schedule>, heads: set<HeadId>, moves: seq<Move>,
                                           last: nat, l: LedgerId, row: LedgerRow)
    requires IsLast(moves, heads, last) && row.student == moves[last].student
    requires var before := DoAll(s, schedules, heads, moves[..last]).fees.ledger; l < |before| && before[l] == row
    ensures StillCharges(row, moves[last], schedules, DoAll(s, schedules, heads, moves).fees.ledger, l)
  {
    var n := |moves| - 1;
    var before := DoAll(s, schedules, heads, moves[..n]);
    if last == n {
      CallPrices(before, schedules, heads, moves[n], l);
    } else {
      assert moves[..n][..last] == moves[..last];
      LastCallCharges(s, schedules, heads, moves[..n], last, l, row);
      MoveKeepsCharge(before, schedules, heads, moves[n], l);
    }
  }

  /** The last accepted call for a student alone decides what each row it found unpaid, and
      that is unpaid still, charges, and the discounts the student has: whatever discounts
      were set before it, and whatever payments, waivers, scans, generation and calls for
      other students came before, between or after. Any other row charges what it did. */
  lemma HistoryIndependent(s: Desk, schedules: seq<Schedule>, heads: set<HeadId>, moves: seq<Move>, last: nat,
                           l: LedgerId)
    requires IsLast(moves, heads, last)
    requires var before := DoAll(s, schedules, heads, moves[..last]).fees.ledger;
             l < |before| && before[l].student == moves[last].student
    ensures var call, t := moves[last], DoAll(s, schedules, heads, moves);
            var row := DoAll(s, schedules, heads, moves[..last]).fees.ledger[l];
            && StillCharges(row, call, schedules, t.fees.ledger, l)
            && forall head :: DiscountOf(t.discounts, call.student, head) == PercentageIn(call.items, head)
  {
    LastCallCharges(s, schedules, heads, moves, last, l, DoAll(s, schedules, heads, moves[..last]).fees.ledger[l]);
    forall head
      ensures DiscountOf(DoAll(s, schedules, heads, moves).discounts, moves[last].student, head)
           == PercentageIn(moves[last].items, head)
    {
      LastCallDiscounts(s, schedules, heads, moves, last, head);
    }
  }

  lemma MoveKeepsDiscount(s: Desk, schedules: seq<Schedule>, heads: set<HeadId>, move: Move, who: StudentId,
                          head: HeadId)
    requires Accepted(move, heads) ==> move.student != who
    ensures DiscountOf(Do(s, schedules, heads, move).discounts, who, head) == DiscountOf(s.discounts, who, head)
  {
    if Accepted(move, heads) { ReplaceForgets(s.discounts, move.student, move.items, who, head); }
  }
}
