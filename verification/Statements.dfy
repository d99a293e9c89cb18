/** The SQL statements the fee services are made of, as functions on tables, with
    the facts about them the transactions need. */
module Statements {
  import opened Schema

  // ---- SELECT id, amount_due FROM fee_ledger WHERE ... AND id = ANY(ids) ----

  predicate Matches(row: LedgerRow, tenant: TenantId, student: StudentId) {
    row.tenant == tenant && row.student == student && row.status.Payable()
  }

  /** The payable rows of one student among `ids`, each once, in table order. */
  function Select(ledger: seq<LedgerRow>, tenant: TenantId, student: StudentId,
                  ids: seq<LedgerId>): (quotes: seq<Quote>)
    ensures forall q :: q in quotes <==>
              q.row < |ledger| && q.row in ids && Matches(ledger[q.row], tenant, student)
              && q.amount == ledger[q.row].amountDue
    ensures DistinctRows(quotes)
  {
    if ledger == [] then [] else
      var n := |ledger| - 1;
      var before := Select(ledger[..n], tenant, student, ids);
      if n in ids && Matches(ledger[n], tenant, student)
      then before + [Quote(n, ledger[n].amountDue)] else before
  }

  predicate DistinctRows(quotes: seq<Quote>) {
    forall i, j :: 0 <= i < j < |quotes| ==> quotes[i].row != quotes[j].row
  }

  predicate Distinct(ids: seq<LedgerId>) {
    forall i, j :: 0 <= i < j < |ids| ==> ids[i] != ids[j]
  }

  function QuoteSum(quotes: seq<Quote>): Paise {
    if quotes == [] then 0 else QuoteSum(quotes[..|quotes| - 1]) + quotes[|quotes| - 1].amount
  }

  // ---- fee_payment_items ----

  function Lines(tenant: TenantId, payment: PaymentId, quotes: seq<Quote>): seq<LineItem> {
    seq(|quotes|, i requires 0 <= i < |quotes| => LineItem(tenant, payment, quotes[i].row, quotes[i].amount))
  }

  /** Rows a UNIQUE constraint on fee_payment_items would refuse: the pair
      (payment_id, ledger_id) always, (tenant_id, ledger_id) when `guard` is on. */
  predicate Clashes(items: seq<LineItem>, it: LineItem, guard: bool) {
    exists x :: x in items && x.row == it.row
      && (x.payment == it.payment || (guard && x.tenant == it.tenant))
  }

  /** executemany(INSERT INTO fee_payment_items ...): all lines or, on a clash, none. */
  function Insert(items: seq<LineItem>, lines: seq<LineItem>, guard: bool): (r: Option<seq<LineItem>>)
    ensures r.Some? ==> r.value == items + lines
  {
    if lines == [] then Some(items) else
      var n := |lines| - 1;
      match Insert(items, lines[..n], guard)
      case None => None
      case Some(sofar) => if Clashes(sofar, lines[n], guard) then None else Some(sofar + [lines[n]])
  }

  /** DELETE FROM fee_payment_items: what stays. */
  function Without(items: seq<LineItem>, doomed: set<LineItem>): (rest: seq<LineItem>)
    ensures forall it :: it in rest <==> it in items && it !in doomed
  {
    if items == [] then [] else
      var n := |items| - 1;
      var rest := Without(items[..n], doomed);
      assert items == items[..n] + [items[n]];
      if items[n] in doomed then rest else rest + [items[n]]
  }

  /** DELETE FROM fee_payment_items: what goes. */
  function Only(items: seq<LineItem>, doomed: set<LineItem>): (gone: seq<LineItem>)
    ensures forall it :: it in gone <==> it in items && it in doomed
  {
    if items == [] then [] else
      var n := |items| - 1;
      var gone := Only(items[..n], doomed);
      assert items == items[..n] + [items[n]];
      if items[n] in doomed then gone + [items[n]] else gone
  }

  /** SELECT SUM(amount) FROM fee_payment_items WHERE payment_id = p. */
  function ItemSum(items: seq<LineItem>, p: PaymentId): Paise {
    if items == [] then 0 else
      var n := |items| - 1;
      ItemSum(items[..n], p) + if items[n].payment == p then items[n].amount else 0
  }

  /** SELECT COUNT(*) of the items on a row that satisfy a status test. */
  function CountOn(items: seq<LineItem>, row: LedgerId, payments: set<PaymentId>): nat {
    if items == [] then 0 else
      var n := |items| - 1;
      CountOn(items[..n], row, payments) + if items[n].row == row && items[n].payment in payments then 1 else 0
  }

  /** No ledger row carries two line items. */
  predicate OneItemPerRow(items: seq<LineItem>) {
    forall i, j :: 0 <= i < j < |items| ==> items[i].row != items[j].row
  }

  // ---- event log ----

  function CountEvents(log: seq<Event>, kind: EventType, subject: nat): nat {
    if log == [] then 0 else
      var n := |log| - 1;
      CountEvents(log[..n], kind, subject) + if log[n].kind == kind && log[n].subject == subject then 1 else 0
  }

  // ---- Facts ----

  lemma CountEventsSnoc(log: seq<Event>, e: Event, kind: EventType, subject: nat)
    ensures CountEvents(log + [e], kind, subject)
         == CountEvents(log, kind, subject) + if e.kind == kind && e.subject == subject then 1 else 0
  {
  }

  lemma {:induction false} CountEventsPositive(log: seq<Event>, kind: EventType, subject: nat)
    ensures CountEvents(log, kind, subject) > 0 <==>
            exists i :: 0 <= i < |log| && log[i].kind == kind && log[i].subject == subject
  {
    if log == [] {
    } else {
      var n := |log| - 1;
      CountEventsPositive(log[..n], kind, subject);
      assert forall i :: 0 <= i < n ==> log[..n][i] == log[i];
    }
  }

  /** The length test `len(rows) == len(ledger_ids)` accepts exactly the requests
      whose ids are pairwise distinct and each name a payable row of the student. */
  lemma LengthTestExact(ledger: seq<LedgerRow>, tenant: TenantId, student: StudentId, ids: seq<LedgerId>)
    ensures |Select(ledger, tenant, student, ids)| == |ids| <==>
            Distinct(ids) && forall id :: id in ids ==> id < |ledger| && Matches(ledger[id], tenant, student)
  {
    var quotes := Select(ledger, tenant, student, ids);
    var rows := seq(|quotes|, i requires 0 <= i < |quotes| => quotes[i].row);
    DistinctSize(rows);
    DistinctSize(ids);
    var found, asked := Elements(rows), Elements(ids);
    forall r | r in found ensures r in asked {
      var i :| 0 <= i < |rows| && rows[i] == r;
      assert quotes[i] in quotes;
    }
    SubsetSize(found, asked);
    if |quotes| == |ids| {
      assert found == asked;
      forall id | id in ids ensures id < |ledger| && Matches(ledger[id], tenant, student) {
        assert id in found;
        var i :| 0 <= i < |rows| && rows[i] == id;
        assert quotes[i] in quotes;
      }
    }
    if Distinct(ids) && forall id :: id in ids ==> id < |ledger| && Matches(ledger[id], tenant, student) {
      forall id | id in asked ensures id in found {
        var q := Quote(id, ledger[id].amountDue);
        assert q in quotes;
        var i :| 0 <= i < |quotes| && quotes[i] == q;
        assert rows[i] == id;
      }
      assert found == asked;
    }
  }

  function Elements(ids: seq<LedgerId>): set<LedgerId> { set id | id in ids }

  /** Pigeonhole: a list has as many elements as positions exactly when none repeats. */
  lemma {:induction false} DistinctSize(ids: seq<LedgerId>)
    ensures |Elements(ids)| <= |ids|
    ensures |Elements(ids)| == |ids| <==> Distinct(ids)
  {
    if ids == [] {
    } else {
      var n := |ids| - 1;
      var front := ids[..n];
      DistinctSize(front);
      assert Elements(ids) == Elements(front) + {ids[n]};
      if ids[n] in front {
        var i :| 0 <= i < n && front[i] == ids[n];
        assert ids[i] == ids[n];
        assert Elements(ids) == Elements(front);
      } else {
        assert forall i :: 0 <= i < n ==> ids[i] != ids[n] by {
          assert forall i :: 0 <= i < n ==> front[i] == ids[i] && front[i] in front;
        }
        assert Distinct(front) ==> Distinct(ids);
        assert Distinct(ids) ==> Distinct(front);
      }
    }
  }

  lemma SubsetSize<T>(a: set<T>, b: set<T>)
    requires a <= b
    ensures |a| <= |b|
    ensures |a| == |b| ==> a == b
  {
    assert b == a + (b - a);
    assert |b| == |a| + |b - a|;
  }

  lemma {:induction false} ItemSumConcat(a: seq<LineItem>, b: seq<LineItem>, p: PaymentId)
    ensures ItemSum(a + b, p) == ItemSum(a, p) + ItemSum(b, p)
  {
    if b == [] {
      assert a + b == a;
    } else {
      var n := |b| - 1;
      ItemSumConcat(a, b[..n], p);
      assert (a + b)[..|a| + n] == a + b[..n];
    }
  }

  lemma ItemSumSnoc(items: seq<LineItem>, it: LineItem, p: PaymentId)
    ensures ItemSum(items + [it], p) == ItemSum(items, p) + if it.payment == p then it.amount else 0
  {
    assert (items + [it])[..|items|] == items;
  }

  /** Deleting line items moves their amounts out, none is lost. */
  lemma {:induction false} DeleteConserves(items: seq<LineItem>, doomed: set<LineItem>, p: PaymentId)
    ensures ItemSum(items, p) == ItemSum(Without(items, doomed), p) + ItemSum(Only(items, doomed), p)
  {
    if items == [] {
    } else {
      var n := |items| - 1;
      var rest, gone := Without(items[..n], doomed), Only(items[..n], doomed);
      DeleteConserves(items[..n], doomed, p);
      if items[n] in doomed {
        assert Without(items, doomed) == rest && Only(items, doomed) == gone + [items[n]];
        ItemSumSnoc(gone, items[n], p);
      } else {
        assert Without(items, doomed) == rest + [items[n]] && Only(items, doomed) == gone;
        ItemSumSnoc(rest, items[n], p);
      }
    }
  }

  lemma {:induction false} LinesSum(tenant: TenantId, payment: PaymentId, quotes: seq<Quote>, p: PaymentId)
    ensures ItemSum(Lines(tenant, payment, quotes), p) == if p == payment then QuoteSum(quotes) else 0
  {
    if quotes == [] {
    } else {
      var n := |quotes| - 1;
      LinesSum(tenant, payment, quotes[..n], p);
      assert Lines(tenant, payment, quotes)[..n] == Lines(tenant, payment, quotes[..n]);
    }
  }

  lemma {:induction false} NoItemsNoSum(items: seq<LineItem>, p: PaymentId)
    requires forall it :: it in items ==> it.payment != p
    ensures ItemSum(items, p) == 0
  {
    if items == [] {
    } else {
      var n := |items| - 1;
      assert items[n] in items;
      assert forall it :: it in items[..n] ==> it in items;
      NoItemsNoSum(items[..n], p);
    }
  }

  lemma {:induction false} WithoutKeepsOneItemPerRow(items: seq<LineItem>, doomed: set<LineItem>)
    requires OneItemPerRow(items)
    ensures OneItemPerRow(Without(items, doomed))
  {
    if items == [] {
    } else {
      var n := |items| - 1;
      WithoutKeepsOneItemPerRow(items[..n], doomed);
      var rest := Without(items[..n], doomed);
      assert forall i :: 0 <= i < |rest| ==> rest[i] in items[..n];
    }
  }

  lemma {:induction false} AtMostOneOn(items: seq<LineItem>, row: LedgerId, payments: set<PaymentId>)
    requires OneItemPerRow(items)
    ensures CountOn(items, row, payments)
         == if exists it :: it in items && it.row == row && it.payment in payments then 1 else 0
  {
    if items == [] {
    } else {
      var n := |items| - 1;
      AtMostOneOn(items[..n], row, payments);
      assert forall it :: it in items <==> it in items[..n] || it == items[n];
      assert forall it :: it in items[..n] ==> it.row != items[n].row;
    }
  }

  /** Lines for distinct rows, none of which carries an item, go in whatever the guard. */
  lemma {:induction false} InsertSucceeds(items: seq<LineItem>, tenant: TenantId, payment: PaymentId,
                                          quotes: seq<Quote>, guard: bool)
    requires DistinctRows(quotes)
    requires forall it, q :: it in items && q in quotes ==> it.row != q.row
    ensures Insert(items, Lines(tenant, payment, quotes), guard) == Some(items + Lines(tenant, payment, quotes))
  {
    var lines := Lines(tenant, payment, quotes);
    if quotes == [] {
    } else {
      var n := |quotes| - 1;
      var front := quotes[..n];
      assert forall q :: q in front ==> q in quotes;
      InsertSucceeds(items, tenant, payment, front, guard);
      assert lines[..n] == Lines(tenant, payment, front);
      var sofar := items + lines[..n];
      assert quotes[n] in quotes;
      assert !Clashes(sofar, lines[n], guard) by {
        forall x | x in sofar ensures x.row != lines[n].row {
          if x !in items {
            var i :| 0 <= i < n && lines[..n][i] == x;
            assert quotes[i].row != quotes[n].row;
          }
        }
      }
    }
  }

  /** With the UNIQUE (tenant_id, ledger_id) guard on, an insert keeps one item per row. */
  lemma {:induction false} GuardKeepsOneItemPerRow(items: seq<LineItem>, lines: seq<LineItem>)
    requires OneItemPerRow(items)
    requires Insert(items, lines, true).Some?
    requires forall a, b :: a in items + lines && b in items + lines && a.row == b.row ==> a.tenant == b.tenant
    ensures OneItemPerRow(items + lines)
  {
    if lines == [] {
      assert items + lines == items;
    } else {
      var n := |lines| - 1;
      var sofar := items + lines[..n];
      assert lines == lines[..n] + [lines[n]];
      assert items + lines == sofar + [lines[n]];
      assert forall a :: a in sofar ==> a in items + lines;
      assert lines[n] in items + lines;
      GuardKeepsOneItemPerRow(items, lines[..n]);
      forall i | 0 <= i < |sofar| ensures sofar[i].row != lines[n].row {
        assert sofar[i] in sofar;
        assert !Clashes(sofar, lines[n], true);
      }
    }
  }
}
