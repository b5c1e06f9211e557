/** The calibration-standard bookkeeping of et_calc.py: range helpers for
    plotting, the removal of zero concentrations and of non-positive
    absorbances, and the two tables of standards built from a plate. */
module Calibration {
  import opened Basics
  import opened Plate

  // ---------------------------------------------------------------------
  // Range helpers (max_concentration, min_concentration)
  // ---------------------------------------------------------------------

  /** Python's `max(xs)`. */
  function SeqMax(xs: seq<real>): (m: real)
    requires |xs| > 0
    ensures m in xs
    ensures forall i :: 0 <= i < |xs| ==> xs[i] <= m
    decreases |xs|
  {
    if |xs| == 1 then xs[0]
    else
      var rest := SeqMax(xs[..|xs| - 1]);
      assert forall i :: 0 <= i < |xs| - 1 ==> xs[..|xs| - 1][i] == xs[i];
      if xs[|xs| - 1] > rest then xs[|xs| - 1] else rest
  }

  /** Python's `min(xs)`. */
  function SeqMin(xs: seq<real>): (m: real)
    requires |xs| > 0
    ensures m in xs
    ensures forall i :: 0 <= i < |xs| ==> m <= xs[i]
    decreases |xs|
  {
    if |xs| == 1 then xs[0]
    else
      var rest := SeqMin(xs[..|xs| - 1]);
      assert forall i :: 0 <= i < |xs| - 1 ==> xs[..|xs| - 1][i] == xs[i];
      if xs[|xs| - 1] < rest then xs[|xs| - 1] else rest
  }

  /** The largest concentration among the accepted samples and the
      standards; `None` where Python's `max` of an empty list raises. */
  function MaxConcentration(sampleConc: seq<real>, standardConc: seq<real>): (r: Option<real>)
    ensures r.Some? <==> |sampleConc| > 0 && |standardConc| > 0
    ensures r.Some? ==> r.value in sampleConc + standardConc
    ensures r.Some? ==> forall x :: x in sampleConc + standardConc ==> x <= r.value
  {
    if |sampleConc| == 0 || |standardConc| == 0 then None
    else
      var maxSam := SeqMax(sampleConc);
      var maxStd := SeqMax(standardConc);
      Some(if maxSam > maxStd then maxSam else maxStd)
  }

  /** The smallest concentration among the accepted samples and the standards. */
  function MinConcentration(sampleConc: seq<real>, standardConc: seq<real>): (r: Option<real>)
    ensures r.Some? <==> |sampleConc| > 0 && |standardConc| > 0
    ensures r.Some? ==> r.value in sampleConc + standardConc
    ensures r.Some? ==> forall x :: x in sampleConc + standardConc ==> r.value <= x
  {
    if |sampleConc| == 0 || |standardConc| == 0 then None
    else
      var minSam := SeqMin(sampleConc);
      var minStd := SeqMin(standardConc);
      Some(if minSam < minStd then minSam else minStd)
  }

  // ---------------------------------------------------------------------
  // Filtering (concentration, absorbance) pairs
  // ---------------------------------------------------------------------

  type Point = (real, real)

  /** Pairs up two equally long columns. */
  function Zip(xs: seq<real>, ys: seq<real>): (ps: seq<Point>)
    requires |xs| == |ys|
    ensures |ps| == |xs|
    ensures forall i :: 0 <= i < |xs| ==> ps[i] == (xs[i], ys[i])
  {
    seq(|xs|, i requires 0 <= i < |xs| => (xs[i], ys[i]))
  }

  /** The points satisfying `keep`, in their original order. */
  function Filter(ps: seq<Point>, keep: Point -> bool): seq<Point>
    decreases |ps|
  {
    if |ps| == 0 then []
    else (if keep(ps[0]) then [ps[0]] else []) + Filter(ps[1..], keep)
  }

  lemma {:induction false} FilterAppend(a: seq<Point>, b: seq<Point>, keep: Point -> bool)
    ensures Filter(a + b, keep) == Filter(a, keep) + Filter(b, keep)
    decreases |a|
  {
    if |a| == 0 {
      assert a + b == b;
    } else {
      assert (a + b)[0] == a[0];
      assert (a + b)[1..] == a[1..] + b;
      FilterAppend(a[1..], b, keep);
    }
  }

  lemma FilterSingle(p: Point, keep: Point -> bool)
    ensures Filter([p], keep) == if keep(p) then [p] else []
  {
    assert [p][1..] == [];
  }

  /** What a filter returns satisfies the test, keeps the input order, and
      holds each passing point exactly as often as the input does. */
  lemma {:induction false} FilterIsExactly(ps: seq<Point>, keep: Point -> bool)
    ensures forall q :: q in Filter(ps, keep) ==> keep(q)
    ensures IsSubsequence(Filter(ps, keep), ps)
    ensures forall q :: multiset(Filter(ps, keep))[q] == if keep(q) then multiset(ps)[q] else 0
    decreases |ps|
  {
    if |ps| > 0 {
      var rest := Filter(ps[1..], keep);
      FilterIsExactly(ps[1..], keep);
      assert ps == [ps[0]] + ps[1..];
      assert multiset(ps) == multiset([ps[0]]) + multiset(ps[1..]);
      if keep(ps[0]) {
        assert ([ps[0]] + rest)[1..] == rest;
      } else {
        assert Filter(ps, keep) == rest;
        assert |rest| > 0 ==> rest[0] in rest && rest[0] != ps[0];
      }
    }
  }

  lemma FilterKeepsPassing(ps: seq<Point>, keep: Point -> bool, i: int)
    requires 0 <= i < |ps| && keep(ps[i])
    ensures ps[i] in Filter(ps, keep)
  {
    FilterIsExactly(ps, keep);
    assert ps[i] in multiset(ps);
    assert ps[i] in multiset(Filter(ps, keep));
  }

  predicate PositiveAbsorbance(p: Point) { p.1 > 0.0 }

  predicate NonZeroConcentration(p: Point) { p.0 != 0.0 }

  /** remove_abs_smaller_0: the points of the theoretical curve whose
      absorbance is positive; `None` where pandas refuses columns of
      different lengths. */
  function RemoveAbsSmaller0(xs: seq<real>, ys: seq<real>): (r: Option<seq<Point>>)
    ensures r.Some? <==> |xs| == |ys|
    ensures r.Some? ==> r.value == Filter(Zip(xs, ys), PositiveAbsorbance)
  {
    if |xs| != |ys| then None else Some(Filter(Zip(xs, ys), PositiveAbsorbance))
  }

  /** The cleaned curve keeps exactly the points with positive absorbance, in order. */
  lemma RemoveAbsSmaller0KeepsPositive(xs: seq<real>, ys: seq<real>)
    requires |xs| == |ys|
    ensures var r := RemoveAbsSmaller0(xs, ys).value;
      && (forall q :: q in r ==> q.1 > 0.0)
      && IsSubsequence(r, Zip(xs, ys))
      && (forall i :: 0 <= i < |xs| && ys[i] > 0.0 ==> (xs[i], ys[i]) in r)
  {
    var ps := Zip(xs, ys);
    FilterIsExactly(ps, PositiveAbsorbance);
    forall i | 0 <= i < |xs| && ys[i] > 0.0
      ensures (xs[i], ys[i]) in Filter(ps, PositiveAbsorbance)
    {
      FilterKeepsPassing(ps, PositiveAbsorbance, i);
    }
  }

  lemma ZipDelete(xs: seq<real>, ys: seq<real>, k: nat)
    requires |xs| == |ys| && k < |xs|
    ensures Zip(xs[..k] + xs[k + 1..], ys[..k] + ys[k + 1..]) == Zip(xs, ys)[..k] + Zip(xs, ys)[k + 1..]
  {
  }

  /** One turn of the zero-removal loop, on the paired view: the pair at the
      cursor is either kept or deleted, and the prefix before the cursor
      stays the filtered prefix of the input. */
  lemma ZeroRemovalStep(ps: seq<Point>, z: seq<Point>, n: nat)
    requires n < |ps|
    requires z == Filter(ps[..n], NonZeroConcentration) + ps[n..]
    ensures var k := |Filter(ps[..n], NonZeroConcentration)|;
      k < |z| && z[k] == ps[n]
      && (NonZeroConcentration(ps[n]) ==>
            (z == Filter(ps[..n + 1], NonZeroConcentration) + ps[n + 1..]
             && |Filter(ps[..n + 1], NonZeroConcentration)| == k + 1))
      && (!NonZeroConcentration(ps[n]) ==>
            (z[..k] + z[k + 1..] == Filter(ps[..n + 1], NonZeroConcentration) + ps[n + 1..]
             && |Filter(ps[..n + 1], NonZeroConcentration)| == k))
  {
    var f := Filter(ps[..n], NonZeroConcentration);
    assert ps[..n + 1] == ps[..n] + [ps[n]];
    FilterAppend(ps[..n], [ps[n]], NonZeroConcentration);
    FilterSingle(ps[n], NonZeroConcentration);
    assert ps[n..] == [ps[n]] + ps[n + 1..];
  }

  /** The loop invariant of the zero-removal pass: `deleted` pairs dropped
      so far, the first `n` input pairs filtered, the rest untouched. */
  ghost predicate ZeroRemovalInvariant(ps: seq<Point>, xs1: seq<real>, ys1: seq<real>, n: nat, deleted: nat) {
    deleted <= n <= |ps| && |xs1| == |ys1| == |ps| - deleted
    && |Filter(ps[..n], NonZeroConcentration)| == n - deleted
    && Zip(xs1, ys1) == Filter(ps[..n], NonZeroConcentration) + ps[n..]
  }

  lemma ZeroRemovalTurn(ps: seq<Point>, xs1: seq<real>, ys1: seq<real>, n: nat, deleted: nat)
    requires ZeroRemovalInvariant(ps, xs1, ys1, n, deleted) && n < |ps|
    ensures n - deleted < |xs1|
    ensures xs1[n - deleted] == 0.0 ==>
      ZeroRemovalInvariant(ps, xs1[..n - deleted] + xs1[n - deleted + 1..],
                           ys1[..n - deleted] + ys1[n - deleted + 1..], n + 1, deleted + 1)
    ensures xs1[n - deleted] != 0.0 ==> ZeroRemovalInvariant(ps, xs1, ys1, n + 1, deleted)
  {
    var k := n - deleted;
    var z := Zip(xs1, ys1);
    ZeroRemovalStep(ps, z, n);
    assert z[k] == (xs1[k], ys1[k]);
    if xs1[k] == 0.0 {
      ZipDelete(xs1, ys1, k);
    }
  }

  /** The zero-removal pass of data_std_format: walks the lists with `n`,
      deleting at `n - deleted` every standard whose concentration is 0. */
  method RemoveZeroConcentrations(xs: seq<real>, ys: seq<real>) returns (xs1: seq<real>, ys1: seq<real>)
    requires |xs| == |ys|
    ensures |xs1| == |ys1|
    ensures Zip(xs1, ys1) == Filter(Zip(xs, ys), NonZeroConcentration)
  {
    ghost var ps := Zip(xs, ys);
    xs1, ys1 := xs, ys;
    var n := 0;
    var lenX := |xs1|;
    var deleted := 0;
    assert ps[..0] == [] && ps[0..] == ps;
    while n < lenX
      invariant lenX == |ps|
      invariant ZeroRemovalInvariant(ps, xs1, ys1, n, deleted)
    {
      ZeroRemovalTurn(ps, xs1, ys1, n, deleted);
      if xs1[n - deleted] == 0.0 {
        xs1 := xs1[..n - deleted] + xs1[n - deleted + 1..];
        ys1 := ys1[..n - deleted] + ys1[n - deleted + 1..];
        deleted := deleted + 1;
      }
      n := n + 1;
    }
    assert ps[..n] == ps && ps[n..] == [];
  }

  /** After the pass, the two lists have equal length, hold no zero
      concentration, keep the surviving pairs in order, and lose no pair
      with a non-zero concentration. */
  lemma RemoveZeroConcentrationsSpec(xs: seq<real>, ys: seq<real>, xs1: seq<real>, ys1: seq<real>)
    requires |xs| == |ys| && |xs1| == |ys1|
    requires Zip(xs1, ys1) == Filter(Zip(xs, ys), NonZeroConcentration)
    ensures forall i :: 0 <= i < |xs1| ==> xs1[i] != 0.0
    ensures IsSubsequence(Zip(xs1, ys1), Zip(xs, ys))
    ensures forall i :: 0 <= i < |xs| && xs[i] != 0.0 ==> (xs[i], ys[i]) in Zip(xs1, ys1)
  {
    var ps := Zip(xs, ys);
    FilterIsExactly(ps, NonZeroConcentration);
    forall i | 0 <= i < |xs1| ensures xs1[i] != 0.0 {
      assert Zip(xs1, ys1)[i] in Filter(ps, NonZeroConcentration);
    }
    forall i | 0 <= i < |xs| && xs[i] != 0.0
      ensures (xs[i], ys[i]) in Zip(xs1, ys1)
    {
      FilterKeepsPassing(ps, NonZeroConcentration, i);
    }
  }

  // ---------------------------------------------------------------------
  // Grouping by label with a dictionary (the `vars()` lists)
  // ---------------------------------------------------------------------

  lemma PresentLabelHasGroup(ws: seq<Well>, l: string)
    requires l in LabelSeq(ws)
    ensures |AbsorbancesOf(ws, l)| > 0
  {
    GroupSizeIsLabelCount(ws, l);
  }

  /** The mean absorbance of a label's wells. */
  function GroupMean(ws: seq<Well>, l: string): real {
    var a := AbsorbancesOf(ws, l);
    if |a| == 0 then 0.0 else Mean(a)
  }

  /** Averaging a label's list in the grouping dictionary gives its mean. */
  lemma GroupMeanFromGroups(ws: seq<Well>, l: string)
    requires l in LabelSeq(ws)
    ensures l in Groups(ws) && |Groups(ws)[l]| > 0
    ensures Mean(Groups(ws)[l]) == GroupMean(ws, l)
  {
    GroupsAreTheLabelGroups(ws);
    PresentLabelHasGroup(ws, l);
  }

  /** The grouping loop of data_st_to_print and data_std_format: columns
      outer, rows inner, each absorbance appended to its label's list. */
  method GroupByLabel(g: Grid, width: nat) returns (groups: map<string, seq<real>>)
    requires Rectangular(g, width)
    ensures groups == Groups(ColumnMajor(g, width, width))
  {
    groups := map[];
    ghost var done: seq<Well> := [];
    for c := 0 to width
      invariant done == ColumnMajor(g, width, c)
      invariant groups == Groups(done)
    {
      for r := 0 to |g|
        invariant done == ColumnMajor(g, width, c) + Column(g, c)[..r]
        invariant groups == Groups(done)
      {
        var w := g[r][c];
        GroupByLabelStep(g, width, c, r, done);
        if w.name in groups {
          groups := groups[w.name := groups[w.name] + [w.absorbance]];
        } else {
          groups := groups[w.name := [w.absorbance]];
        }
        done := done + [w];
      }
      assert Column(g, c)[..|g|] == Column(g, c);
    }
  }

  /** One turn of the inner grouping loop: the well at row `r` of column `c`
      extends the scan, and its absorbance joins its label's list. */
  lemma GroupByLabelStep(g: Grid, width: nat, c: nat, r: nat, done: seq<Well>)
    requires Rectangular(g, width) && c < width && r < |g|
    requires done == ColumnMajor(g, width, c) + Column(g, c)[..r]
    ensures done + [g[r][c]] == ColumnMajor(g, width, c) + Column(g, c)[..r + 1]
    ensures Groups(done + [g[r][c]]) == AddToGroups(Groups(done), g[r][c])
  {
    assert Column(g, c)[..r + 1] == Column(g, c)[..r] + [g[r][c]];
    GroupsAppend(done, g[r][c]);
  }

  // ---------------------------------------------------------------------
  // data_std_format: the (concentration, absorbance) pairs used for fitting
  // ---------------------------------------------------------------------

  /** `order` lists every label of the scan once: the iteration order of
      the Python `set` of labels, which the language leaves unspecified. */
  predicate Enumerates(order: seq<string>, ws: seq<Well>) {
    && Distinct(order)
    && (forall l :: l in order ==> l in LabelSeq(ws))
    && (forall l :: l in LabelSeq(ws) ==> l in order)
  }

  /** The (known concentration, mean absorbance) pair of every label
      containing `std`, in the order the labels are visited. */
  function StandardPoints(ws: seq<Well>, order: seq<string>, conc: map<string, real>): seq<Point>
    requires forall l :: l in order && Contains(l, "std") ==> l in conc
    decreases |order|
  {
    if |order| == 0 then []
    else
      var l := order[|order| - 1];
      StandardPoints(ws, order[..|order| - 1], conc)
        + (if Contains(l, "std") then [(conc[l], GroupMean(ws, l))] else [])
  }

  /** data_std_format: group the plate, average each label, keep the
      standards with their known concentrations, then drop zero
      concentrations. A standard label missing from the concentration table
      is the `KeyError` of the source. */
  method DataStdFormat(g: Grid, width: nat, order: seq<string>, conc: map<string, real>)
    returns (r: Result<(seq<real>, seq<real>)>)
    requires Rectangular(g, width)
    requires Enumerates(order, ColumnMajor(g, width, width))
    ensures r.Success? <==> forall l :: l in order && Contains(l, "std") ==> l in conc
    ensures r.Success? ==> |r.value.0| == |r.value.1|
    ensures r.Success? ==> Zip(r.value.0, r.value.1)
                           == Filter(StandardPoints(ColumnMajor(g, width, width), order, conc), NonZeroConcentration)
  {
    ghost var ws := ColumnMajor(g, width, width);
    var groups := GroupByLabel(g, width);
    var xs: seq<real> := [];
    var ys: seq<real> := [];
    for i := 0 to |order|
      invariant forall l :: l in order[..i] && Contains(l, "std") ==> l in conc
      invariant |xs| == |ys|
      invariant Zip(xs, ys) == StandardPoints(ws, order[..i], conc)
    {
      var l := order[i];
      assert order[..i + 1][..i] == order[..i];
      assert order[..i + 1] == order[..i] + [l];
      GroupMeanFromGroups(ws, l);
      var mean := Mean(groups[l]);
      if Contains(l, "std") {
        if l !in conc {
          return Failure("KeyError: " + l);
        }
        xs := xs + [conc[l]];
        ys := ys + [mean];
      }
    }
    assert order[..|order|] == order;
    var xs1, ys1 := RemoveZeroConcentrations(xs, ys);
    return Success((xs1, ys1));
  }

  // ---------------------------------------------------------------------
  // data_st_to_print: the table of standards for the report, sorted by name
  // ---------------------------------------------------------------------

  /** Python's `<` on strings: lexicographic on code points. */
  predicate NameLess(a: string, b: string)
    decreases |a|
  {
    if |b| == 0 then false
    else if |a| == 0 then true
    else a[0] < b[0] || (a[0] == b[0] && NameLess(a[1..], b[1..]))
  }

  lemma {:induction false} NameLessIrreflexive(a: string)
    ensures !NameLess(a, a)
    decreases |a|
  {
    if |a| > 0 { NameLessIrreflexive(a[1..]); }
  }

  lemma {:induction false} NameLessTransitive(a: string, b: string, c: string)
    requires NameLess(a, b) && NameLess(b, c)
    ensures NameLess(a, c)
    decreases |a|
  {
    if |a| > 0 && a[0] == b[0] && b[0] == c[0] {
      NameLessTransitive(a[1..], b[1..], c[1..]);
    }
  }

  lemma {:induction false} NameLessTotal(a: string, b: string)
    requires a != b
    ensures NameLess(a, b) || NameLess(b, a)
    decreases |a|
  {
    if |a| > 0 && |b| > 0 && a[0] == b[0] {
      assert a == [a[0]] + a[1..] && b == [b[0]] + b[1..];
      NameLessTotal(a[1..], b[1..]);
    }
  }

  lemma {:induction false} NameLessAsymmetric(a: string, b: string)
    requires NameLess(a, b)
    ensures !NameLess(b, a)
  {
    if NameLess(b, a) {
      NameLessTransitive(a, b, a);
      NameLessIrreflexive(a);
    }
  }

  /** One row of the report's table of standards. */
  datatype StandardRow = StandardRow(name: string, conc: real, absorbance: real)

  function RowNames(rows: seq<StandardRow>): (ns: seq<string>)
    ensures |ns| == |rows|
    ensures forall i :: 0 <= i < |rows| ==> ns[i] == rows[i].name
  {
    seq(|rows|, i requires 0 <= i < |rows| => rows[i].name)
  }

  predicate SortedByName(rows: seq<StandardRow>) {
    forall i, j :: 0 <= i < j < |rows| ==> NameLess(rows[i].name, rows[j].name)
  }

  /** Inserts a row into a table sorted by name. */
  function InsertByName(x: StandardRow, rows: seq<StandardRow>): seq<StandardRow>
    decreases |rows|
  {
    if |rows| == 0 then [x]
    else if NameLess(x.name, rows[0].name) then [x] + rows
    else [rows[0]] + InsertByName(x, rows[1..])
  }

  lemma {:induction false} InsertByNamePermutes(x: StandardRow, rows: seq<StandardRow>)
    ensures multiset(InsertByName(x, rows)) == multiset(rows) + multiset{x}
    decreases |rows|
  {
    if |rows| > 0 && !NameLess(x.name, rows[0].name) {
      InsertByNamePermutes(x, rows[1..]);
      assert rows == [rows[0]] + rows[1..];
    }
  }

  /** A row placed before a sorted table whose names all follow its own. */
  lemma ConsSorted(h: StandardRow, tail: seq<StandardRow>)
    requires SortedByName(tail)
    requires forall k :: 0 <= k < |tail| ==> NameLess(h.name, tail[k].name)
    ensures SortedByName([h] + tail)
  {
    var r := [h] + tail;
    forall i, j | 0 <= i < j < |r| ensures NameLess(r[i].name, r[j].name) {
      assert r[j] == tail[j - 1];
      if i > 0 { assert r[i] == tail[i - 1]; }
    }
  }

  lemma {:induction false} InsertByNameMembers(x: StandardRow, rows: seq<StandardRow>)
    ensures forall y :: y in InsertByName(x, rows) ==> y == x || y in rows
    decreases |rows|
  {
    if |rows| > 0 && !NameLess(x.name, rows[0].name) {
      InsertByNameMembers(x, rows[1..]);
    }
  }

  lemma {:induction false} InsertByNameSorted(x: StandardRow, rows: seq<StandardRow>)
    requires SortedByName(rows) && x.name !in RowNames(rows)
    ensures SortedByName(InsertByName(x, rows))
    decreases |rows|
  {
    if |rows| == 0 {
    } else if NameLess(x.name, rows[0].name) {
      forall k | 0 <= k < |rows| ensures NameLess(x.name, rows[k].name) {
        if k > 0 { NameLessTransitive(x.name, rows[0].name, rows[k].name); }
      }
      ConsSorted(x, rows);
    } else {
      var tailRows := rows[1..];
      assert RowNames(rows)[0] == rows[0].name;
      NameLessTotal(x.name, rows[0].name);
      assert RowNames(tailRows) == RowNames(rows)[1..];
      InsertByNameSorted(x, tailRows);
      InsertByNameMembers(x, tailRows);
      var tail := InsertByName(x, tailRows);
      forall k | 0 <= k < |tail| ensures NameLess(rows[0].name, tail[k].name) {
        assert tail[k] in tail;
        if tail[k] != x {
          var j :| 0 <= j < |tailRows| && tailRows[j] == tail[k];
          assert rows[j + 1] == tail[k];
        }
      }
      ConsSorted(rows[0], tail);
    }
  }

  /** `sort_values(by=["name"])`: insertion sort by name. */
  function SortByName(rows: seq<StandardRow>): seq<StandardRow>
    decreases |rows|
  {
    if |rows| == 0 then []
    else InsertByName(rows[|rows| - 1], SortByName(rows[..|rows| - 1]))
  }

  lemma NameAbsentFromPermutation(a: seq<StandardRow>, b: seq<StandardRow>, n: string)
    requires multiset(a) == multiset(b) && n !in RowNames(a)
    ensures n !in RowNames(b)
  {
    forall i | 0 <= i < |b| ensures b[i].name != n {
      assert b[i] in multiset(a);
      var j :| 0 <= j < |a| && a[j] == b[i];
      assert RowNames(a)[j] == a[j].name;
    }
  }

  lemma DistinctNamesSplit(rows: seq<StandardRow>)
    requires |rows| > 0 && Distinct(RowNames(rows))
    ensures Distinct(RowNames(rows[..|rows| - 1]))
    ensures rows[|rows| - 1].name !in RowNames(rows[..|rows| - 1])
  {
    var init := rows[..|rows| - 1];
    var ns := RowNames(rows);
    var ms := RowNames(init);
    forall i, j | 0 <= i < j < |ms| ensures ms[i] != ms[j] {
      assert ms[i] == ns[i] && ms[j] == ns[j];
    }
    forall i | 0 <= i < |ms| ensures ms[i] != rows[|rows| - 1].name {
      assert ms[i] == ns[i] && ns[|rows| - 1] == rows[|rows| - 1].name;
    }
  }

  /** Sorting by name rearranges the rows and loses or adds none. */
  lemma {:induction false} SortByNamePermutes(rows: seq<StandardRow>)
    ensures multiset(SortByName(rows)) == multiset(rows)
    decreases |rows|
  {
    if |rows| > 0 {
      var init := rows[..|rows| - 1];
      var last := rows[|rows| - 1];
      SortByNamePermutes(init);
      InsertByNamePermutes(last, SortByName(init));
      assert rows == init + [last];
    }
  }

  /** Sorting a table whose names are distinct orders it strictly by name. */
  lemma {:induction false} SortByNameSorts(rows: seq<StandardRow>)
    requires Distinct(RowNames(rows))
    ensures SortedByName(SortByName(rows))
    decreases |rows|
  {
    if |rows| > 0 {
      var init := rows[..|rows| - 1];
      var last := rows[|rows| - 1];
      DistinctNamesSplit(rows);
      SortByNameSorts(init);
      SortByNamePermutes(init);
      NameAbsentFromPermutation(init, SortByName(init), last.name);
      InsertByNameSorted(last, SortByName(init));
    }
  }

  /** Sorting a table whose names are distinct gives the same rows, strictly
      ordered by name. */
  lemma SortByNameSortsAndPermutes(rows: seq<StandardRow>)
    requires Distinct(RowNames(rows))
    ensures SortedByName(SortByName(rows))
    ensures multiset(SortByName(rows)) == multiset(rows)
  {
    SortByNameSorts(rows);
    SortByNamePermutes(rows);
  }

  /** The rows of the standards, in the order their labels are visited. */
  function StandardRows(ws: seq<Well>, order: seq<string>, conc: map<string, real>): seq<StandardRow>
    requires forall l :: l in order && Contains(l, "std") ==> l in conc
    decreases |order|
  {
    if |order| == 0 then []
    else
      var l := order[|order| - 1];
      StandardRows(ws, order[..|order| - 1], conc)
        + (if Contains(l, "std") then [StandardRow(l, conc[l], GroupMean(ws, l))] else [])
  }

  lemma {:induction false} StandardRowsMembers(ws: seq<Well>, order: seq<string>, conc: map<string, real>)
    requires forall l :: l in order && Contains(l, "std") ==> l in conc
    ensures forall row :: row in StandardRows(ws, order, conc) <==>
      row.name in order && Contains(row.name, "std")
      && row.conc == conc[row.name] && row.absorbance == GroupMean(ws, row.name)
    decreases |order|
  {
    if |order| > 0 {
      var init := order[..|order| - 1];
      StandardRowsMembers(ws, init, conc);
      assert order == init + [order[|order| - 1]];
    }
  }

  lemma {:induction false} StandardRowNamesDistinct(ws: seq<Well>, order: seq<string>, conc: map<string, real>)
    requires Distinct(order)
    requires forall l :: l in order && Contains(l, "std") ==> l in conc
    ensures Distinct(RowNames(StandardRows(ws, order, conc)))
    decreases |order|
  {
    if |order| > 0 {
      var init := order[..|order| - 1];
      var l := order[|order| - 1];
      StandardRowNamesDistinct(ws, init, conc);
      StandardRowsMembers(ws, init, conc);
      var rows := StandardRows(ws, init, conc);
      if Contains(l, "std") {
        var row := StandardRow(l, conc[l], GroupMean(ws, l));
        RowNamesAppend(rows, row);
        forall i | 0 <= i < |rows| ensures rows[i].name != l {
          assert rows[i] in rows;
          var j :| 0 <= j < |init| && init[j] == rows[i].name;
          assert order[j] == init[j];
        }
      }
    }
  }

  lemma RowNamesAppend(rows: seq<StandardRow>, row: StandardRow)
    ensures RowNames(rows + [row]) == RowNames(rows) + [row.name]
  {
    var a := RowNames(rows + [row]);
    var b := RowNames(rows) + [row.name];
    assert |a| == |b|;
    forall i | 0 <= i < |a| ensures a[i] == b[i] {
      if i < |rows| { assert (rows + [row])[i] == rows[i]; }
    }
  }

  /** data_st_to_print: group the plate, average each label, and list every
      `std` label with its known concentration and mean absorbance, sorted by
      name. */
  method DataStToPrint(g: Grid, width: nat, order: seq<string>, conc: map<string, real>)
    returns (r: Result<seq<StandardRow>>)
    requires Rectangular(g, width)
    requires Enumerates(order, ColumnMajor(g, width, width))
    ensures r.Success? <==> forall l :: l in order && Contains(l, "std") ==> l in conc
    ensures r.Success? ==> StandardRowNamesDistinctPre(ColumnMajor(g, width, width), order, conc)
                           && r.value == SortByName(StandardRows(ColumnMajor(g, width, width), order, conc))
  {
    ghost var ws := ColumnMajor(g, width, width);
    var groups := GroupByLabel(g, width);
    var rows: seq<StandardRow> := [];
    for i := 0 to |order|
      invariant forall l :: l in order[..i] && Contains(l, "std") ==> l in conc
      invariant rows == StandardRows(ws, order[..i], conc)
    {
      var l := order[i];
      assert order[..i + 1][..i] == order[..i];
      assert order[..i + 1] == order[..i] + [l];
      GroupMeanFromGroups(ws, l);
      var mean := Mean(groups[l]);
      if Contains(l, "std") {
        if l !in conc {
          return Failure("KeyError: " + l);
        }
        rows := rows + [StandardRow(l, conc[l], mean)];
      }
    }
    assert order[..|order|] == order;
    StandardRowNamesDistinct(ws, order, conc);
    return Success(SortByName(rows));
  }

  predicate StandardRowNamesDistinctPre(ws: seq<Well>, order: seq<string>, conc: map<string, real>)
    requires forall l :: l in order && Contains(l, "std") ==> l in conc
  {
    Distinct(RowNames(StandardRows(ws, order, conc)))
  }
}
