/** A subject's mark from its components, computed twice: by the SQL roll-up that stores it
    when marks are saved, and by the Python loop behind the marks grid. Sums are exact;
    each side rounds once, to hundredths of a mark out of 100. */
module ExamRollup {
  import opened Schema

  /** max_marks and weightage, both positive by their CHECK constraints. */
  datatype Component = Component(max: real, weight: real)

  /** An exam_component_marks row. */
  datatype Entry = Entry(marks: Option<real>, absent: bool)

  predicate Configured(cs: seq<Component>) { forall i :: 0 <= i < |cs| ==> cs[i].max > 0.0 && cs[i].weight > 0.0 }

  /** One optional entry per component; marks are not negative. */
  predicate Recorded(cs: seq<Component>, es: seq<Option<Entry>>) {
    && Configured(cs) && |es| == |cs|
    && forall i :: 0 <= i < |es| && es[i].Some? && es[i].value.marks.Some? ==> es[i].value.marks.value >= 0.0
  }

  predicate Scored(e: Option<Entry>) { e.Some? && !e.value.absent && e.value.marks.Some? }

  function Share(c: Component, e: Option<Entry>): real
    requires c.max > 0.0
  {
    if Scored(e) then e.value.marks.value / c.max * c.weight else 0.0
  }

  // ---- The SQL aggregate of save_component_marks: over the entries there are ----

  function EntrySum(cs: seq<Component>, es: seq<Option<Entry>>): real
    requires |cs| == |es| && Configured(cs)
  {
    if cs == [] then 0.0 else
      var n := |cs| - 1;
      EntrySum(cs[..n], es[..n]) +
      match es[n]
      case None => 0.0
      case Some(e) => if e.absent then 0.0
          else (if e.marks.Some? then e.marks.value else 0.0) / cs[n].max * cs[n].weight
  }

  function EntryWeight(cs: seq<Component>, es: seq<Option<Entry>>): real
    requires |cs| == |es|
  {
    if cs == [] then 0.0 else
      var n := |cs| - 1;
      EntryWeight(cs[..n], es[..n]) + if es[n].Some? then cs[n].weight else 0.0
  }

  predicate AnyEntry(es: seq<Option<Entry>>) { exists i :: 0 <= i < |es| && es[i].Some? }

  /** ROUND(x, 2), in hundredths. */
  function HalfUp(x: real): int { (x * 100.0 + 0.5).Floor }

  /** round(x, 2) of a Decimal, in hundredths. */
  function HalfEven(x: real): int {
    var q := (x * 100.0).Floor;
    var r := x * 100.0 - q as real;
    if r < 0.5 || (r == 0.5 && q % 2 == 0) then q else q + 1
  }

  predicate AllPresentAbsent(es: seq<Option<Entry>>) { forall i :: 0 <= i < |es| && es[i].Some? ==> es[i].value.absent }

  /** The mark_entries row written for a student: mark in hundredths and absent flag; none
      if the student has no entry at all. */
  function Stored(cs: seq<Component>, es: seq<Option<Entry>>): Option<(int, bool)>
    requires Recorded(cs, es)
  {
    if !AnyEntry(es) then None
    else
      WeightPositive(cs, es);
      Some((HalfUp(EntrySum(cs, es) / EntryWeight(cs, es) * 100.0), AllPresentAbsent(es)))
  }

  lemma {:induction false} WeightPositive(cs: seq<Component>, es: seq<Option<Entry>>)
    requires |cs| == |es| && Configured(cs)
    ensures EntryWeight(cs, es) >= 0.0
    ensures AnyEntry(es) ==> EntryWeight(cs, es) > 0.0
  {
    if cs == [] {
    } else {
      var n := |cs| - 1;
      WeightPositive(cs[..n], es[..n]);
      if AnyEntry(es) && es[n].None? {
        var i :| 0 <= i < |es| && es[i].Some?;
        assert es[..n][i].Some?;
      }
    }
  }

  // ---- The loop of get_component_marks_grid: over all components ----

  function ShareSum(cs: seq<Component>, es: seq<Option<Entry>>): real
    requires |cs| == |es| && Configured(cs)
  {
    if cs == [] then 0.0 else ShareSum(cs[..|cs| - 1], es[..|cs| - 1]) + Share(cs[|cs| - 1], es[|cs| - 1])
  }

  function WeightSum(cs: seq<Component>): real {
    if cs == [] then 0.0 else WeightSum(cs[..|cs| - 1]) + cs[|cs| - 1].weight
  }

  predicate AnyScored(es: seq<Option<Entry>>) { exists i :: 0 <= i < |es| && Scored(es[i]) }

  predicate AllAbsent(es: seq<Option<Entry>>) {
    |es| > 0 && forall i :: 0 <= i < |es| ==> es[i].Some? && es[i].value.absent
  }

  lemma {:induction false} WeightSumPositive(cs: seq<Component>)
    requires Configured(cs)
    ensures WeightSum(cs) >= 0.0 && (cs != [] ==> WeightSum(cs) > 0.0)
  {
    if cs == [] {
    } else {
      WeightSumPositive(cs[..|cs| - 1]);
    }
  }

  lemma AnyScoredSnoc(es: seq<Option<Entry>>, i: nat)
    requires i < |es|
    ensures AnyScored(es[..i + 1]) <==> AnyScored(es[..i]) || Scored(es[i])
  {
  }

  /** sum((c.weightage for c in components), 0) */
  method WeightTotal(cs: seq<Component>) returns (total: real)
    ensures total == WeightSum(cs)
  {
    total := 0.0;
    for i := 0 to |cs|
      invariant total == WeightSum(cs[..i])
    {
      assert cs[..i + 1][..i] == cs[..i];
      total := total + cs[i].weight;
    }
    assert cs[..|cs|] == cs;
  }

  /** The loop over the components. */
  method ScanComponents(cs: seq<Component>, es: seq<Option<Entry>>) returns (sum: real, anyPresent: bool, absent: bool)
    requires Recorded(cs, es)
    ensures sum == ShareSum(cs, es) && (anyPresent <==> AnyScored(es)) && (absent <==> AllAbsent(es))
  {
    sum, anyPresent, absent := 0.0, false, |cs| > 0;
    for i := 0 to |cs|
      invariant sum == ShareSum(cs[..i], es[..i]) && (anyPresent <==> AnyScored(es[..i]))
      invariant absent <==> |cs| > 0 && forall j :: 0 <= j < i ==> es[j].Some? && es[j].value.absent
    {
      assert cs[..i + 1][..i] == cs[..i] && es[..i + 1][..i] == es[..i];
      AnyScoredSnoc(es, i);
      if Scored(es[i]) {
        sum := sum + es[i].value.marks.value / cs[i].max * cs[i].weight;
        anyPresent, absent := true, false;
      } else if !(es[i].Some? && es[i].value.absent) {
        absent := false;
      }
    }
    assert cs[..|cs|] == cs && es[..|cs|] == es;
  }

  /** The grid's row for one student: total in hundredths, or nothing, and absent flag. */
  method GridRow(cs: seq<Component>, es: seq<Option<Entry>>) returns (total: Option<int>, absent: bool)
    requires Recorded(cs, es)
    ensures AnyScored(es) <==> total.Some?
    ensures total.Some? ==> WeightSum(cs) > 0.0 && total.value == HalfEven(ShareSum(cs, es) / WeightSum(cs) * 100.0)
    ensures absent <==> AllAbsent(es)
  {
    var weightTotal := WeightTotal(cs);
    var weightedSum, anyPresent;
    weightedSum, anyPresent, absent := ScanComponents(cs, es);
    WeightSumPositive(cs);
    total := if anyPresent && weightTotal != 0.0 then Some(HalfEven(weightedSum / weightTotal * 100.0)) else None;
  }

  // ---- How the two compare ----

  /** Absent and blank entries weigh nothing in either sum. */
  lemma {:induction false} SameSum(cs: seq<Component>, es: seq<Option<Entry>>)
    requires Recorded(cs, es)
    ensures EntrySum(cs, es) == ShareSum(cs, es) >= 0.0
  {
    if cs == [] {
    } else {
      var n := |cs| - 1;
      SameSum(cs[..n], es[..n]);
      if Scored(es[n]) { ShareBounds(cs[n], es[n]); }
    }
  }

  lemma ShareBounds(c: Component, e: Option<Entry>)
    requires c.max > 0.0 && c.weight > 0.0 && Scored(e) && e.value.marks.value >= 0.0
    ensures Share(c, e) >= 0.0
    ensures e.value.marks.value <= c.max ==> Share(c, e) <= c.weight
  {
  }

  predicate AllEntered(es: seq<Option<Entry>>) { forall i :: 0 <= i < |es| ==> es[i].Some? }

  lemma {:induction false} EntryWeightAtMost(cs: seq<Component>, es: seq<Option<Entry>>)
    requires |cs| == |es| && Configured(cs)
    ensures EntryWeight(cs, es) <= WeightSum(cs)
    ensures EntryWeight(cs, es) == WeightSum(cs) <==> AllEntered(es)
  {
    if cs == [] {
    } else {
      var n := |cs| - 1;
      EntryWeightAtMost(cs[..n], es[..n]);
      assert AllEntered(es) <==> AllEntered(es[..n]) && es[n].Some? by {
        assert forall i :: 0 <= i < n ==> es[..n][i] == es[i];
      }
    }
  }

  lemma QuotientsAgree(s: real, a: real, b: real)
    requires s >= 0.0 && 0.0 < a <= b
    ensures s / a >= s / b >= 0.0
    ensures s / a == s / b <==> s == 0.0 || a == b
  {
  }

  /** Before rounding, the stored mark is never below the grid's, and equals it exactly when
      every component has an entry or no mark above zero has been scored. */
  lemma SameMarkIff(cs: seq<Component>, es: seq<Option<Entry>>)
    requires Recorded(cs, es) && AnyScored(es)
    ensures EntryWeight(cs, es) > 0.0 && WeightSum(cs) > 0.0
    ensures EntrySum(cs, es) / EntryWeight(cs, es) >= ShareSum(cs, es) / WeightSum(cs)
    ensures EntrySum(cs, es) / EntryWeight(cs, es) == ShareSum(cs, es) / WeightSum(cs) <==>
              AllEntered(es) || (forall i :: 0 <= i < |es| && Scored(es[i]) ==> es[i].value.marks.value == 0.0)
  {
    var i :| 0 <= i < |es| && Scored(es[i]);
    assert es[i].Some?;
    WeightPositive(cs, es);
    WeightSumPositive(cs);
    SameSum(cs, es);
    EntryWeightAtMost(cs, es);
    SumZeroIff(cs, es);
    QuotientsAgree(ShareSum(cs, es), EntryWeight(cs, es), WeightSum(cs));
  }

  lemma {:induction false} SumZeroIff(cs: seq<Component>, es: seq<Option<Entry>>)
    requires Recorded(cs, es)
    ensures ShareSum(cs, es) == 0.0 <==> forall i :: 0 <= i < |es| && Scored(es[i]) ==> es[i].value.marks.value == 0.0
  {
    if cs == [] {
    } else {
      var n := |cs| - 1;
      SumZeroIff(cs[..n], es[..n]);
      SameSum(cs[..n], es[..n]);
      assert forall i :: 0 <= i < n ==> es[..n][i] == es[i];
      if Scored(es[n]) { ShareZeroIff(cs[n], es[n]); }
    }
  }

  lemma ShareZeroIff(c: Component, e: Option<Entry>)
    requires c.max > 0.0 && c.weight > 0.0 && Scored(e) && e.value.marks.value >= 0.0
    ensures Share(c, e) >= 0.0 && (Share(c, e) == 0.0 <==> e.value.marks.value == 0.0)
  {
  }

  lemma RoundingsAgree(x: real)
    requires x >= 0.0
    ensures HalfEven(x) <= HalfUp(x) <= HalfEven(x) + 1
    ensures x <= 100.0 ==> 0 <= HalfEven(x) && HalfUp(x) <= 10000
  {
  }

  lemma {:induction false} ShareSumAtMost(cs: seq<Component>, es: seq<Option<Entry>>)
    requires Recorded(cs, es)
    requires forall i :: 0 <= i < |es| && Scored(es[i]) ==> es[i].value.marks.value <= cs[i].max
    ensures ShareSum(cs, es) <= WeightSum(cs)
  {
    if cs == [] {
    } else {
      var n := |cs| - 1;
      assert forall i :: 0 <= i < n ==> es[..n][i] == es[i] && cs[..n][i] == cs[i];
      ShareSumAtMost(cs[..n], es[..n]);
      if Scored(es[n]) { ShareBounds(cs[n], es[n]); }
    }
  }

  /** With an entry for every component and at least one scored, the stored mark exceeds the
      grid total by 0 or 0.01; with marks within their maxima both lie in [0, 100]. */
  lemma StoredAgainstGrid(cs: seq<Component>, es: seq<Option<Entry>>)
    requires Recorded(cs, es) && AnyScored(es) && AllEntered(es)
    ensures WeightSum(cs) > 0.0 && Stored(cs, es).Some?
    ensures var grid, stored := HalfEven(ShareSum(cs, es) / WeightSum(cs) * 100.0), Stored(cs, es).value.0;
            && grid <= stored <= grid + 1
            && ((forall i :: 0 <= i < |es| && Scored(es[i]) ==> es[i].value.marks.value <= cs[i].max) ==>
                  0 <= grid && stored <= 10000)
  {
    SameMarkIff(cs, es);
    SameSum(cs, es);
    var i :| 0 <= i < |es| && Scored(es[i]);
    assert es[i].Some?;
    var x := ShareSum(cs, es) / WeightSum(cs);
    QuotientBounds(ShareSum(cs, es), WeightSum(cs));
    RoundingsAgree(x * 100.0);
    if forall i :: 0 <= i < |es| && Scored(es[i]) ==> es[i].value.marks.value <= cs[i].max {
      ShareSumAtMost(cs, es);
    }
  }

  lemma QuotientBounds(s: real, w: real)
    requires s >= 0.0 && w > 0.0
    ensures s / w >= 0.0 && (s <= w ==> s / w <= 1.0)
  {
  }

  predicate SomePresent(es: seq<Option<Entry>>) { exists i :: 0 <= i < |es| && es[i].Some? && !es[i].value.absent }

  /** The absent flags agree exactly when every component has an entry, or some entry does not
      say absent. They can only part one way: a student absent from all entered components
      but not yet entered for another is absent in the stored row and not in the grid. */
  lemma AbsentFlagsAgreeIff(cs: seq<Component>, es: seq<Option<Entry>>)
    requires Recorded(cs, es) && AnyEntry(es)
    ensures Stored(cs, es).value.1 == AllAbsent(es) <==> AllEntered(es) || SomePresent(es)
    ensures AllAbsent(es) ==> Stored(cs, es).value.1
  {
  }

  /** Absent from one component, the other not yet entered: the flags part. */
  lemma AbsentFlagsPart(first: Component, second: Component)
    requires Configured([first, second])
    ensures var es := [Some(Entry(None, true)), None];
            Recorded([first, second], es) && AnyEntry(es) && Stored([first, second], es).value.1 && !AllAbsent(es)
  {
    var es := [Some(Entry(None, true)), None];
    assert es[0].Some? && es[1].None?;
  }

  /** Entries that are all absent or blank store a mark of 0 while the grid shows none. */
  lemma NothingScored(cs: seq<Component>, es: seq<Option<Entry>>)
    requires Recorded(cs, es) && AnyEntry(es) && !AnyScored(es)
    ensures Stored(cs, es).value.0 == 0
  {
    SumZeroIff(cs, es);
    SameSum(cs, es);
    WeightPositive(cs, es);
    QuotientsAgree(0.0, EntryWeight(cs, es), EntryWeight(cs, es));
    assert 0.0 / EntryWeight(cs, es) * EntryWeight(cs, es) == 0.0;
  }

  // ---- What the two marks are ----

  /** A component for which the student has an entry. */
  datatype Line = Line(component: Component, entry: Entry)

  function Sheet(cs: seq<Component>, es: seq<Option<Entry>>): seq<Line>
    requires |cs| == |es|
  {
    if cs == [] then [] else
      var n := |cs| - 1;
      Sheet(cs[..n], es[..n]) + match es[n] case None => [] case Some(e) => [Line(cs[n], e)]
  }

  predicate Usable(sheet: seq<Line>) {
    forall i :: 0 <= i < |sheet| ==> sheet[i].component.max > 0.0 && sheet[i].component.weight > 0.0
  }

  /** What an entry brings; an absence or a blank counts as zero. */
  function Value(l: Line): real
    requires l.component.max > 0.0
  {
    match l.entry
    case Entry(Some(marks), false) => marks / l.component.max * l.component.weight
    case _ => 0.0
  }

  function Points(sheet: seq<Line>): real
    requires Usable(sheet)
  {
    if sheet == [] then 0.0 else Points(sheet[..|sheet| - 1]) + Value(sheet[|sheet| - 1])
  }

  function Weights(sheet: seq<Line>): real {
    if sheet == [] then 0.0 else Weights(sheet[..|sheet| - 1]) + sheet[|sheet| - 1].component.weight
  }

  lemma SheetSnoc(sheet: seq<Line>, l: Line)
    requires Usable(sheet) && l.component.max > 0.0 && l.component.weight > 0.0
    ensures Usable(sheet + [l])
    ensures Weights(sheet + [l]) == Weights(sheet) + l.component.weight
    ensures Points(sheet + [l]) == Points(sheet) + Value(l)
  {
    assert (sheet + [l])[..|sheet|] == sheet;
  }

  lemma ShareIsValue(c: Component, e: Entry)
    requires c.max > 0.0
    ensures Share(c, Some(e)) == Value(Line(c, e)) && Share(c, None) == 0.0
  {
  }

  lemma FrontRecorded(cs: seq<Component>, es: seq<Option<Entry>>)
    requires Recorded(cs, es) && cs != []
    ensures Recorded(cs[..|cs| - 1], es[..|cs| - 1])
  {
  }

  /** Adding a component with an entry adds a line, adding one without adds nothing. */
  lemma SheetStep(cs: seq<Component>, es: seq<Option<Entry>>)
    requires |cs| == |es| && cs != []
    ensures var n := |cs| - 1;
            var before := Sheet(cs[..n], es[..n]);
            Sheet(cs, es) == if es[n].Some? then before + [Line(cs[n], es[n].value)] else before
  {
  }

  lemma {:induction false} SheetWeights(cs: seq<Component>, es: seq<Option<Entry>>)
    requires Recorded(cs, es)
    ensures Usable(Sheet(cs, es)) && EntryWeight(cs, es) == Weights(Sheet(cs, es))
  {
    if cs == [] {
    } else {
      var n := |cs| - 1;
      FrontRecorded(cs, es);
      SheetWeights(cs[..n], es[..n]);
      SheetStep(cs, es);
      if es[n].Some? { SheetSnoc(Sheet(cs[..n], es[..n]), Line(cs[n], es[n].value)); }
    }
  }

  lemma {:induction false} SheetPoints(cs: seq<Component>, es: seq<Option<Entry>>)
    requires Recorded(cs, es)
    ensures Usable(Sheet(cs, es)) && ShareSum(cs, es) == Points(Sheet(cs, es))
  {
    if cs == [] {
    } else {
      var n := |cs| - 1;
      var before := Sheet(cs[..n], es[..n]);
      FrontRecorded(cs, es);
      SheetPoints(cs[..n], es[..n]);
      SheetStep(cs, es);
      if es[n].Some? {
        ShareIsValue(cs[n], es[n].value);
        SheetSnoc(before, Line(cs[n], es[n].value));
      } else {
        assert Share(cs[n], es[n]) == 0.0;
      }
    }
  }

  lemma SheetSums(cs: seq<Component>, es: seq<Option<Entry>>)
    requires Recorded(cs, es)
    ensures Usable(Sheet(cs, es))
    ensures EntrySum(cs, es) == ShareSum(cs, es) == Points(Sheet(cs, es))
    ensures EntryWeight(cs, es) == Weights(Sheet(cs, es))
  {
    SheetWeights(cs, es);
    SheetPoints(cs, es);
    SameSum(cs, es);
  }

  lemma {:induction false} SheetFlags(cs: seq<Component>, es: seq<Option<Entry>>)
    requires |cs| == |es|
    ensures AnyEntry(es) <==> Sheet(cs, es) != []
    ensures AllPresentAbsent(es) <==> forall i :: 0 <= i < |Sheet(cs, es)| ==> Sheet(cs, es)[i].entry.absent
  {
    if cs == [] {
    } else {
      var n := |cs| - 1;
      SheetFlags(cs[..n], es[..n]);
      if es[n].Some? {
        FlagsSnoc(es, Sheet(cs[..n], es[..n]), Line(cs[n], es[n].value));
      } else {
        FlagsSkip(es);
      }
    }
  }

  lemma FlagsSnoc(es: seq<Option<Entry>>, before: seq<Line>, l: Line)
    requires es != [] && es[|es| - 1] == Some(l.entry)
    requires AllPresentAbsent(es[..|es| - 1]) <==> forall i :: 0 <= i < |before| ==> before[i].entry.absent
    ensures AnyEntry(es)
    ensures AllPresentAbsent(es) <==> forall i :: 0 <= i < |before + [l]| ==> (before + [l])[i].entry.absent
  {
    var n := |es| - 1;
    assert forall i :: 0 <= i < n ==> es[..n][i] == es[i];
    assert (before + [l])[|before|] == l;
    assert forall i :: 0 <= i < |before| ==> (before + [l])[i] == before[i];
  }

  lemma FlagsSkip(es: seq<Option<Entry>>)
    requires es != [] && es[|es| - 1].None?
    ensures AnyEntry(es) <==> AnyEntry(es[..|es| - 1])
    ensures AllPresentAbsent(es) <==> AllPresentAbsent(es[..|es| - 1])
  {
    var n := |es| - 1;
    assert forall i :: 0 <= i < n ==> es[..n][i] == es[i];
  }

  /** `v` is a nearest whole number to `x`: SQL takes the upper one of two, Python the even one. */
  predicate Nearest(v: int, x: real, sql: bool) {
    var off := v as real - x;
    && -0.5 <= off <= 0.5
    && (off == 0.5 || off == -0.5 ==> if sql then off == 0.5 else v % 2 == 0)
  }

  lemma HalfUpNearest(x: real)
    ensures Nearest(HalfUp(x), x * 100.0, true)
  {
  }

  lemma HalfEvenNearest(x: real)
    ensures Nearest(HalfEven(x), x * 100.0, false)
  {
  }

  /** The stored mark is the weighted average, out of 100, of the components that have an entry
      and of no others, to the nearest hundredth; nothing is stored without an entry, and the
      student counts as absent exactly if every entry says so. */
  lemma StoredMark(cs: seq<Component>, es: seq<Option<Entry>>)
    requires Recorded(cs, es)
    ensures var sheet := Sheet(cs, es);
            && Usable(sheet) && (Stored(cs, es).None? <==> sheet == [])
            && (sheet != [] ==>
                  && Weights(sheet) > 0.0
                  && Nearest(Stored(cs, es).value.0, Points(sheet) / Weights(sheet) * 100.0 * 100.0, true)
                  && (Stored(cs, es).value.1 <==> forall i :: 0 <= i < |sheet| ==> sheet[i].entry.absent))
  {
    var sheet := Sheet(cs, es);
    SheetSums(cs, es);
    SheetFlags(cs, es);
    WeightPositive(cs, es);
    if sheet != [] { HalfUpNearest(Points(sheet) / Weights(sheet) * 100.0); }
  }

  /** The grid's total is the same points over the weights of all components. */
  lemma GridMark(cs: seq<Component>, es: seq<Option<Entry>>)
    requires Recorded(cs, es) && cs != []
    ensures Usable(Sheet(cs, es)) && ShareSum(cs, es) == Points(Sheet(cs, es)) && WeightSum(cs) > 0.0
    ensures var quotient := ShareSum(cs, es) / WeightSum(cs);
            Nearest(HalfEven(quotient * 100.0), quotient * 100.0 * 100.0, false)
  {
    SheetPoints(cs, es);
    WeightSumPositive(cs);
    HalfEvenNearest(ShareSum(cs, es) / WeightSum(cs) * 100.0);
  }

  lemma {:induction false} SheetConcat(cs: seq<Component>, es: seq<Option<Entry>>, ds: seq<Component>,
                                       fs: seq<Option<Entry>>)
    requires |cs| == |es| && |ds| == |fs|
    ensures Sheet(cs + ds, es + fs) == Sheet(cs, es) + Sheet(ds, fs)
  {
    if ds == [] {
      assert cs + ds == cs && es + fs == es;
    } else {
      var n := |ds| - 1;
      SheetConcat(cs, es, ds[..n], fs[..n]);
      assert (cs + ds)[..|cs| + n] == cs + ds[..n] && (es + fs)[..|es| + n] == es + fs[..n];
    }
  }

  /** What is stored depends on the entries there are and their components alone. */
  lemma StoredBySheet(cs: seq<Component>, es: seq<Option<Entry>>, ds: seq<Component>, fs: seq<Option<Entry>>)
    requires Recorded(cs, es) && Recorded(ds, fs) && Sheet(cs, es) == Sheet(ds, fs)
    ensures Stored(cs, es) == Stored(ds, fs)
  {
    SheetSums(cs, es);
    SheetSums(ds, fs);
    SheetFlags(cs, es);
    SheetFlags(ds, fs);
  }

  /** A component without an entry plays no part: adding one anywhere leaves what is stored. */
  lemma UnenteredPlaysNoPart(cs: seq<Component>, es: seq<Option<Entry>>, ds: seq<Component>, fs: seq<Option<Entry>>,
                             c: Component)
    requires |cs| == |es| && |ds| == |fs| && Recorded(cs + [c] + ds, es + [None] + fs) && Recorded(cs + ds, es + fs)
    ensures Stored(cs + [c] + ds, es + [None] + fs) == Stored(cs + ds, es + fs)
  {
    assert [c][..0] == [] && Sheet([c], [None]) == [];
    SheetConcat(cs, es, [c], [None]);
    SheetConcat(cs + [c], es + [None], ds, fs);
    SheetConcat(cs, es, ds, fs);
    StoredBySheet(cs + [c] + ds, es + [None] + fs, cs + ds, es + fs);
  }
}
