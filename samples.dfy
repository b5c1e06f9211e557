/** The per-label result table of et_calc.py (`df_local` in
    samples_concenration, samples_concenration_new and
    recognition_experiment): the wells of a measured plate grouped by their
    map label, averaged, the standards given their known concentrations, the
    samples judged against the calibration curve's range and read back
    through its inverse, and the ten lists the report is printed from. */
module Samples {
  import opened Basics
  import opened Plate
  import opened Fitting
  import opened Calibration

  // ---------------------------------------------------------------------
  // The table and its grouping pass
  // ---------------------------------------------------------------------

  /** One row of the table, keyed by its label: the absorbances (`Y_abs`),
      their number (`samples_nb`), their mean (`Y_ave_abs`) and spread
      (`Y_abs_std`), the concentration (`X_concentration`), its error bars
      (`X_s_conc_std_bottom`, `X_s_conc_std_upper`) and the `Errors` code.
      `None` is a cell pandas leaves as NaN. */
  datatype Row = Row(absorbances: seq<real>, count: nat, mean: Option<real>, sd: Option<real>,
                     conc: Option<real>, bottom: Option<real>, upper: Option<real>,
                     errors: Option<int>)

  /** A row as the grouping pass leaves it: absorbances and their number only. */
  function Pending(absorbances: seq<real>): Row {
    Row(absorbances, |absorbances|, None, None, None, None, None, None)
  }

  /** One step of the grouping loops: append the well's absorbance to its
      label's row and count it, or append a new row for a new label. */
  function AddRow(rows: map<string, Row>, w: Well): map<string, Row> {
    if w.name in rows
    then rows[w.name := rows[w.name].(absorbances := rows[w.name].absorbances + [w.absorbance],
                                      count := rows[w.name].count + 1)]
    else rows[w.name := Pending([w.absorbance])]
  }

  /** The rows after the grouping loops have scanned `ws`. */
  function TableRows(ws: seq<Well>): map<string, Row>
    decreases |ws|
  {
    if |ws| == 0 then map[] else AddRow(TableRows(ws[..|ws| - 1]), ws[|ws| - 1])
  }

  lemma TableRowsAppend(ws: seq<Well>, w: Well)
    ensures TableRows(ws + [w]) == AddRow(TableRows(ws), w)
  {
    assert (ws + [w])[..|ws|] == ws;
  }

  /** The table is the label dictionary of the scan, each list turned into
      a pending row whose `samples_nb` is the list's length. */
  lemma {:induction false} TableRowsAreGroups(ws: seq<Well>)
    ensures TableRows(ws).Keys == Groups(ws).Keys
    ensures forall l :: l in TableRows(ws) ==> TableRows(ws)[l] == Pending(Groups(ws)[l])
    decreases |ws|
  {
    if |ws| > 0 {
      var p := ws[..|ws| - 1];
      TableRowsAreGroups(p);
    }
  }

  /** Each label of the scan has one row, holding that label's absorbances
      in scan order and, as `samples_nb`, the number of wells carrying it. */
  lemma TableRowsSpec(ws: seq<Well>, l: string)
    ensures l in TableRows(ws) <==> l in LabelSeq(ws)
    ensures l in TableRows(ws) ==> TableRows(ws)[l] == Pending(AbsorbancesOf(ws, l))
    ensures l in TableRows(ws) ==> TableRows(ws)[l].count == multiset(LabelSeq(ws))[l] > 0
  {
    TableRowsAreGroups(ws);
    GroupsAreTheLabelGroups(ws);
    GroupSizeIsLabelCount(ws, l);
  }

  /** The index `names` lists every row of `rows` once, and every row holds
      at least one well. */
  ghost predicate TableValid(names: seq<string>, rows: map<string, Row>) {
    Distinct(names) && (forall l :: l in rows <==> l in names)
    && (forall l :: l in rows ==> rows[l].count > 0)
  }

  /** `df_local`: its index in insertion order and its rows by label. */
  class SampleTable {
    var names: seq<string>
    var rows: map<string, Row>

    /** The index names every row once, and every row holds at least one well. */
    ghost predicate Valid()
      reads this
    {
      TableValid(names, rows)
    }

    constructor ()
      ensures Valid() && names == [] && rows == map[]
    {
      names := [];
      rows := map[];
    }

    /** One iteration of the grouping loops, for the well at `[i, j]`. */
    method AddWell(w: Well)
      requires Valid()
      modifies this
      ensures Valid()
      ensures names == if w.name in old(rows) then old(names) else old(names) + [w.name]
      ensures rows == AddRow(old(rows), w)
    {
      if w.name in rows {
        var row := rows[w.name];
        rows := rows[w.name := row.(absorbances := row.absorbances + [w.absorbance], count := row.count + 1)];
      } else {
        names := names + [w.name];
        rows := rows[w.name := Pending([w.absorbance])];
      }
    }

    /** The first pass over the rows (see WithStatistics); the first standard
        without a known concentration raises KeyError. */
    method FillStatistics(spread: seq<real> -> real, standards: map<string, real>) returns (raised: Option<string>)
      requires Valid()
      modifies this
      ensures Valid() && names == old(names) && rows.Keys == old(rows).Keys
      ensures raised.None? <==> StandardsKnown(names, standards)
      ensures raised.Some? ==> raised.value == "KeyError"
      ensures raised.None? ==> rows == StatRows(old(rows), spread, standards)
    {
      for k := 0 to |names|
        invariant Valid() && names == old(names)
        invariant StatsUpTo(names, old(rows), rows, k, spread, standards)
      {
        var l := names[k];
        var s := WithStatistics(l, rows[l], spread, standards);
        if s.Failure? {
          assert l in names && Contains(l, "std") && l !in standards;
          return Some(s.error);
        }
        StatsStep(names, old(rows), rows, k, spread, standards);
        rows := rows[l := s.value];
      }
      StatsDone(names, old(rows), rows, spread, standards);
      return None;
    }

    /** The second pass over the rows (see Classified). A sample row met
        while the curve's parameters could not be read raises that error. */
    method Classify(gate: Option<Result<Gate>>, inv: real -> real) returns (raised: Option<string>)
      requires Valid() && Averaged(rows)
      modifies this
      ensures Valid() && names == old(names) && rows.Keys == old(rows).Keys
      ensures raised.Some? <==> gate.Some? && gate.value.Failure? && exists l :: l in names && Contains(l, "sam")
      ensures raised.Some? ==> raised == Some(gate.value.error)
      ensures raised.None? ==> rows == ClassifiedRows(old(rows), Verdict(gate), inv)
    {
      for k := 0 to |names|
        invariant Valid() && names == old(names)
        invariant ClassifiedUpTo(names, old(rows), rows, k, gate, inv)
      {
        var l := names[k];
        if Contains(l, "sam") && gate.Some? {
          if gate.value.Failure? {
            assert l in names && Contains(l, "sam");
            return Some(gate.value.error);
          }
        }
        ClassifyStep(names, old(rows), rows, k, gate, inv);
        if Contains(l, "sam") && gate.Some? {
          rows := rows[l := Judged(rows[l], gate.value.value, inv)];
        }
      }
      ClassifyDone(names, old(rows), rows, gate, inv);
      return None;
    }

    /** The output loop: the ten lists, in index order. */
    method Collect() returns (out: Output)
      requires Valid()
      ensures out == Collected(names, rows)
    {
      out := NoOutput;
      for k := 0 to |names|
        invariant out == Collected(names[..k], rows)
      {
        assert names[..k + 1][..k] == names[..k];
        out := CollectRow(out, names[k], rows[names[k]]);
      }
      assert names[..|names|] == names;
    }

    /** The second pass followed by the output loop. */
    method JudgeAndCollect(gate: Option<Result<Gate>>, inv: real -> real) returns (r: Result<Output>)
      requires Valid() && Averaged(rows)
      modifies this
      ensures Valid() && names == old(names)
      ensures r == ClassifyAndCollect(old(names), old(rows), gate, inv)
      ensures r.Success? ==> rows == ClassifiedRows(old(rows), Verdict(gate), inv)
    {
      var raised := Classify(gate, inv);
      if raised.Some? {
        return Failure(raised.value);
      }
      var out := Collect();
      return Success(out);
    }
  }

  /** The grouping loops of samples_concenration and recognition_experiment:
      the map scanned row by row, left to right, building `df_local`. */
  method BuildTable(g: Grid) returns (t: SampleTable)
    ensures fresh(t) && t.Valid()
    ensures t.names == Labels(RowMajor(g)) && t.rows == TableRows(RowMajor(g))
  {
    t := new SampleTable();
    for i := 0 to |g|
      invariant fresh(t) && t.Valid()
      invariant t.names == Labels(RowMajor(g[..i])) && t.rows == TableRows(RowMajor(g[..i]))
    {
      assert RowMajor(g[..i]) + g[i][..0] == RowMajor(g[..i]);
      for j := 0 to |g[i]|
        invariant fresh(t) && t.Valid()
        invariant t.names == Labels(RowMajor(g[..i]) + g[i][..j])
        invariant t.rows == TableRows(RowMajor(g[..i]) + g[i][..j])
      {
        ScanStep(RowMajor(g[..i]), g[i], j);
        t.AddWell(g[i][j]);
      }
      assert g[i][..|g[i]|] == g[i];
      RowMajorStep(g, i);
    }
    assert g[..|g|] == g;
  }

  /** One more well of row `row` scanned after the wells `before`. */
  lemma ScanStep(before: seq<Well>, row: seq<Well>, j: nat)
    requires j < |row|
    ensures var ws := before + row[..j];
      && Labels(before + row[..j + 1]) == (if row[j].name in Labels(ws) then Labels(ws) else Labels(ws) + [row[j].name])
      && TableRows(before + row[..j + 1]) == AddRow(TableRows(ws), row[j])
  {
    var ws := before + row[..j];
    assert ws + [row[j]] == before + row[..j + 1];
    LabelsAppend(ws, row[j]);
    TableRowsAppend(ws, row[j]);
  }

  // ---------------------------------------------------------------------
  // The first pass: means, spreads and the standards' concentrations
  // ---------------------------------------------------------------------

  /** Every label containing "std" has a known concentration. */
  predicate StandardsKnown(names: seq<string>, standards: map<string, real>) {
    forall l :: l in names && Contains(l, "std") ==> l in standards
  }

  /** The first pass on one row: `sum(Y_abs) / samples_nb` as the mean and
      the spread of the absorbances; a label containing "std" also gets its
      known concentration and Errors = 100, and raises KeyError when it has
      none. The spread (numpy's `std`) is the input `spread`. */
  function WithStatistics(l: string, row: Row, spread: seq<real> -> real, standards: map<string, real>): (r: Result<Row>)
    requires row.count > 0
    ensures r.Success? ==> r.value.absorbances == row.absorbances && r.value.count == row.count
  {
    var averaged := row.(mean := Some(Sum(row.absorbances) / row.count as real), sd := Some(spread(row.absorbances)));
    if !Contains(l, "std") then Success(averaged)
    else if l in standards then Success(averaged.(conc := Some(standards[l]), errors := Some(100)))
    else Failure("KeyError")
  }

  /** Every row has a mean and a spread. */
  predicate Averaged(rows: map<string, Row>) {
    forall l :: l in rows ==> rows[l].mean.Some? && rows[l].sd.Some?
  }

  /** The rows after a first pass that raised nothing. */
  function StatRows(rows: map<string, Row>, spread: seq<real> -> real, standards: map<string, real>): (r: map<string, Row>)
    requires forall l :: l in rows ==> rows[l].count > 0 && WithStatistics(l, rows[l], spread, standards).Success?
    ensures r.Keys == rows.Keys && Averaged(r)
  {
    map l | l in rows :: WithStatistics(l, rows[l], spread, standards).value
  }

  /** The first pass after `k` turns: the rows of the first `k` names are
      done, the others untouched. */
  ghost predicate StatsUpTo(names: seq<string>, rows0: map<string, Row>, rows: map<string, Row>, k: nat,
                            spread: seq<real> -> real, standards: map<string, real>)
  {
    && k <= |names| && TableValid(names, rows0) && rows.Keys == rows0.Keys
    && (forall j :: 0 <= j < k ==> WithStatistics(names[j], rows0[names[j]], spread, standards) == Success(rows[names[j]]))
    && (forall j :: k <= j < |names| ==> rows[names[j]] == rows0[names[j]])
  }

  lemma StatsStep(names: seq<string>, rows0: map<string, Row>, rows: map<string, Row>, k: nat,
                  spread: seq<real> -> real, standards: map<string, real>)
    requires TableValid(names, rows) && StatsUpTo(names, rows0, rows, k, spread, standards) && k < |names|
    requires WithStatistics(names[k], rows[names[k]], spread, standards).Success?
    ensures var rows' := rows[names[k] := WithStatistics(names[k], rows[names[k]], spread, standards).value];
      TableValid(names, rows') && StatsUpTo(names, rows0, rows', k + 1, spread, standards)
  {
    var rows' := rows[names[k] := WithStatistics(names[k], rows[names[k]], spread, standards).value];
    forall j | k + 1 <= j < |names| ensures rows'[names[j]] == rows0[names[j]] {
      assert names[j] != names[k];
    }
    forall j | 0 <= j < k ensures WithStatistics(names[j], rows0[names[j]], spread, standards) == Success(rows'[names[j]]) {
      assert names[j] != names[k];
    }
  }

  lemma StatsDone(names: seq<string>, rows0: map<string, Row>, rows: map<string, Row>,
                  spread: seq<real> -> real, standards: map<string, real>)
    requires StatsUpTo(names, rows0, rows, |names|, spread, standards)
    ensures StandardsKnown(names, standards)
    ensures forall l :: l in rows0 ==> rows0[l].count > 0 && WithStatistics(l, rows0[l], spread, standards).Success?
    ensures rows == StatRows(rows0, spread, standards)
  {
    forall l | l in rows0
      ensures rows0[l].count > 0 && WithStatistics(l, rows0[l], spread, standards) == Success(rows[l])
    {
      var j :| 0 <= j < |names| && names[j] == l;
    }
    forall l | l in names && Contains(l, "std") ensures l in standards {
      assert WithStatistics(l, rows0[l], spread, standards).Success?;
    }
  }

  /** For a label of the scan the first pass raises exactly when the label
      names a standard with no known concentration. Otherwise the row's mean
      is the mean of the label's wells, its spread is the spread of their
      absorbances, and a standard carries its known concentration with
      Errors = 100 while any other label keeps both as NaN. */
  lemma StatisticsOfGroup(ws: seq<Well>, l: string, spread: seq<real> -> real, standards: map<string, real>)
    requires l in LabelSeq(ws)
    ensures l in TableRows(ws) && TableRows(ws)[l].count > 0
    ensures var r := WithStatistics(l, TableRows(ws)[l], spread, standards);
      (r.Success? <==> (Contains(l, "std") ==> l in standards))
      && (r.Success? ==>
            r.value.mean == Some(GroupMean(ws, l)) && r.value.sd == Some(spread(AbsorbancesOf(ws, l)))
            && r.value.conc == (if Contains(l, "std") then Some(standards[l]) else None)
            && r.value.errors == (if Contains(l, "std") then Some(100) else None))
  {
    TableRowsSpec(ws, l);
  }

  /** The precondition of StatRows holds of a scanned table exactly when
      every standard's concentration is known. */
  lemma TableReady(ws: seq<Well>, spread: seq<real> -> real, standards: map<string, real>)
    requires StandardsKnown(Labels(ws), standards)
    ensures forall l :: l in TableRows(ws) <==> l in Labels(ws)
    ensures forall l :: l in TableRows(ws) ==>
      TableRows(ws)[l].count > 0 && WithStatistics(l, TableRows(ws)[l], spread, standards).Success?
  {
    LabelsAreTheDistinctLabels(ws);
    forall l ensures l in TableRows(ws) <==> l in Labels(ws) {
      TableRowsSpec(ws, l);
    }
    forall l | l in TableRows(ws)
      ensures TableRows(ws)[l].count > 0 && WithStatistics(l, TableRows(ws)[l], spread, standards).Success?
    {
      TableRowsSpec(ws, l);
    }
  }

  // ---------------------------------------------------------------------
  // idxmax: the row with the largest mean
  // ---------------------------------------------------------------------

  /** `idxmax`: the position of the first largest value. */
  function FirstMax(xs: seq<real>): (k: nat)
    requires |xs| > 0
    ensures k < |xs|
    ensures forall j :: 0 <= j < |xs| ==> xs[j] <= xs[k]
    ensures forall j :: 0 <= j < k ==> xs[j] < xs[k]
    decreases |xs|
  {
    if |xs| == 1 then 0
    else
      var k := FirstMax(xs[..|xs| - 1]);
      if xs[|xs| - 1] > xs[k] then |xs| - 1 else k
  }

  /** The `Y_ave_abs` column in index order. */
  function MeanColumn(names: seq<string>, rows: map<string, Row>): (col: seq<real>)
    requires forall l :: l in names ==> l in rows && rows[l].mean.Some?
    ensures |col| == |names|
    ensures forall k :: 0 <= k < |names| ==> col[k] == rows[names[k]].mean.value
  {
    seq(|names|, k requires 0 <= k < |names| => rows[names[k]].mean.value)
  }

  /** The label idxmax picks: the first with the largest mean. */
  function TopLabel(names: seq<string>, rows: map<string, Row>): (top: string)
    requires |names| > 0 && forall l :: l in names ==> l in rows && rows[l].mean.Some?
    ensures top in names
  {
    names[FirstMax(MeanColumn(names, rows))]
  }

  /** samples_concenration's LN ceiling: the largest mean plus that row's spread. */
  function LnLimit(names: seq<string>, rows: map<string, Row>): real
    requires |names| > 0 && forall l :: l in names ==> l in rows && rows[l].mean.Some? && rows[l].sd.Some?
  {
    var top := TopLabel(names, rows);
    rows[top].mean.value + rows[top].sd.value
  }

  /** The top label's mean is at least every other mean, and larger than the
      mean of every label before it in the index. */
  lemma TopLabelIsFirstLargest(names: seq<string>, rows: map<string, Row>)
    requires |names| > 0 && Distinct(names) && forall l :: l in names ==> l in rows && rows[l].mean.Some?
    ensures forall l :: l in names ==> rows[l].mean.value <= rows[TopLabel(names, rows)].mean.value
    ensures forall k :: 0 <= k < |names| && names[k] == TopLabel(names, rows) ==>
              forall j :: 0 <= j < k ==> rows[names[j]].mean.value < rows[names[k]].mean.value
  {
    var col := MeanColumn(names, rows);
    var t := FirstMax(col);
    forall l | l in names
      ensures rows[l].mean.value <= rows[names[t]].mean.value
    {
      var j :| 0 <= j < |names| && names[j] == l;
      assert col[j] <= col[t];
    }
    forall k | 0 <= k < |names| && names[k] == names[t]
      ensures forall j :: 0 <= j < k ==> rows[names[j]].mean.value < rows[names[k]].mean.value
    {
      assert k == t;
      forall j | 0 <= j < k
        ensures rows[names[j]].mean.value < rows[names[k]].mean.value
      {
        assert col[j] < col[t];
      }
    }
  }

  // ---------------------------------------------------------------------
  // The second pass: judging the samples
  // ---------------------------------------------------------------------

  /** The test a sample row must pass. */
  datatype Gate =
    | Band(low: real, high: real)   // mean + spread >= low and mean - spread <= high
    | Floor(low: real)              // mean >= low

  predicate Admits(gate: Gate, mean: real, sd: real) {
    match gate
    case Band(low, high) => mean + sd >= low && mean - sd <= high
    case Floor(low) => mean >= low
  }

  predicate Within(y: real, low: real, high: real) {
    low <= y <= high
  }

  /** For a non-empty band and a non-negative spread, the band test admits a
      sample exactly when the interval mean ± spread meets the band. */
  lemma BandMeetsInterval(low: real, high: real, mean: real, sd: real)
    requires low <= high && sd >= 0.0
    ensures Admits(Band(low, high), mean, sd)
        <==> exists y :: Within(y, mean - sd, mean + sd) && Within(y, low, high)
  {
    if Admits(Band(low, high), mean, sd) {
      var y := if low <= mean - sd then mean - sd else low;
      assert Within(y, mean - sd, mean + sd) && Within(y, low, high);
    }
  }

  /** The verdict on one sample row. Inside the gate: the concentration of
      the mean through the inverse curve `inv`, error bars from the inverse
      of mean + spread and of mean - spread, and Errors = 0. Outside:
      concentration 0.0 and Errors = 1. */
  function Judged(row: Row, gate: Gate, inv: real -> real): Row
    requires row.mean.Some? && row.sd.Some?
  {
    var m := row.mean.value;
    var s := row.sd.value;
    if Admits(gate, m, s)
    then row.(conc := Some(inv(m)), upper := Some(inv(m + s) - inv(m)),
              bottom := Some(inv(m) - inv(m - s)), errors := Some(0))
    else row.(conc := Some(0.0), errors := Some(1))
  }

  /** The second pass on one row: only labels containing "sam" are judged,
      and only when the curve is one the pass recognises. */
  function Classified(l: string, row: Row, gate: Option<Gate>, inv: real -> real): Row
    requires row.mean.Some? && row.sd.Some?
  {
    if Contains(l, "sam") && gate.Some? then Judged(row, gate.value, inv) else row
  }

  function ClassifiedRows(rows: map<string, Row>, gate: Option<Gate>, inv: real -> real): (r: map<string, Row>)
    requires Averaged(rows)
    ensures r.Keys == rows.Keys
  {
    map l | l in rows :: Classified(l, rows[l], gate, inv)
  }

  /** The second pass after `k` turns: nothing raised so far, the rows of
      the first `k` names classified, the others untouched. */
  ghost predicate ClassifiedUpTo(names: seq<string>, rows0: map<string, Row>, rows: map<string, Row>, k: nat,
                                 gate: Option<Result<Gate>>, inv: real -> real)
  {
    && k <= |names| && TableValid(names, rows0) && Averaged(rows0) && rows.Keys == rows0.Keys
    && (forall j :: 0 <= j < k ==> !(gate.Some? && gate.value.Failure? && Contains(names[j], "sam")))
    && (forall j :: 0 <= j < k ==> rows[names[j]] == Classified(names[j], rows0[names[j]], Verdict(gate), inv))
    && (forall j :: k <= j < |names| ==> rows[names[j]] == rows0[names[j]])
  }

  lemma ClassifyStep(names: seq<string>, rows0: map<string, Row>, rows: map<string, Row>, k: nat,
                     gate: Option<Result<Gate>>, inv: real -> real)
    requires TableValid(names, rows) && ClassifiedUpTo(names, rows0, rows, k, gate, inv) && k < |names|
    requires !(gate.Some? && gate.value.Failure? && Contains(names[k], "sam"))
    ensures rows[names[k]] == rows0[names[k]] && rows[names[k]].mean.Some? && rows[names[k]].sd.Some?
    ensures var l := names[k];
      var rows' := if Contains(l, "sam") && gate.Some? then rows[l := Judged(rows[l], gate.value.value, inv)] else rows;
      TableValid(names, rows') && ClassifiedUpTo(names, rows0, rows', k + 1, gate, inv)
  {
    var l := names[k];
    var rows' := if Contains(l, "sam") && gate.Some? then rows[l := Judged(rows[l], gate.value.value, inv)] else rows;
    assert rows'[l] == Classified(l, rows0[l], Verdict(gate), inv);
    forall j | 0 <= j < |names| && j != k ensures rows'[names[j]] == rows[names[j]] {
      assert names[j] != l;
    }
  }

  lemma ClassifyDone(names: seq<string>, rows0: map<string, Row>, rows: map<string, Row>,
                     gate: Option<Result<Gate>>, inv: real -> real)
    requires ClassifiedUpTo(names, rows0, rows, |names|, gate, inv)
    ensures !(gate.Some? && gate.value.Failure? && exists l :: l in names && Contains(l, "sam"))
    ensures rows == ClassifiedRows(rows0, Verdict(gate), inv)
  {
    forall l | l in rows0 ensures rows[l] == Classified(l, rows0[l], Verdict(gate), inv) {
      var j :| 0 <= j < |names| && names[j] == l;
    }
    forall l | l in names ensures !(gate.Some? && gate.value.Failure? && Contains(l, "sam")) {
      var j :| 0 <= j < |names| && names[j] == l;
    }
  }

  /** A judged sample carries Errors = 0 exactly when it passes the gate
      and Errors = 1 exactly when it fails it; an unjudged row is unchanged. */
  lemma ClassifiedVerdict(l: string, row: Row, gate: Option<Gate>, inv: real -> real)
    requires row.mean.Some? && row.sd.Some?
    ensures var r := Classified(l, row, gate, inv);
      r.absorbances == row.absorbances && r.mean == row.mean && r.sd == row.sd
      && (Contains(l, "sam") && gate.Some? ==>
            (r.errors == Some(0) <==> Admits(gate.value, row.mean.value, row.sd.value))
            && (r.errors == Some(1) <==> !Admits(gate.value, row.mean.value, row.sd.value)))
      && (!(Contains(l, "sam") && gate.Some?) ==> r == row)
  {
  }

  /** The gate the first pass's outcome selects: none for an unrecognised
      curve, nor when reading the parameters failed. */
  function Verdict(gate: Option<Result<Gate>>): Option<Gate> {
    if gate.Some? && gate.value.Success? then Some(gate.value.value) else None
  }

  // ---------------------------------------------------------------------
  // Which curve `ordered` names
  // ---------------------------------------------------------------------

  /** The curve names samples_concenration and samples_concenration_new test
      `ordered` against, as written. */
  function KindAsWritten(ordered: string): Option<Kind> {
    if ordered == "LN" || ordered == "cfLN" then Some(LN)
    else if ordered == "4PL" || ordered == "cf4PL" then Some(FourPL)
    else if ordered == "5PL" || ordered == "cf5PL" then Some(FivePL)
    else None
  }

  /** The curve names the rest of the program passes as `ordered`: the
      choices offered for an analysis, "fc" marking the least-squares fits. */
  const ModelNames: seq<string> := ["fc4PL", "fc5PL", "fcLN", "4PL", "5PL", "LN"]

  /** `ordered` read with the "fc" spellings the callers use as well. */
  function KindOf(ordered: string): Option<Kind> {
    if ordered == "fcLN" then Some(LN)
    else if ordered == "fc4PL" then Some(FourPL)
    else if ordered == "fc5PL" then Some(FivePL)
    else KindAsWritten(ordered)
  }

  /** As written, the three least-squares names fall through every test, so
      the second pass judges no sample at all. */
  lemma FcNamesUnrecognised()
    ensures forall o :: o in ModelNames ==> (KindAsWritten(o).None? <==> o[..2] == "fc")
  {
    forall o | o in ModelNames
      ensures KindAsWritten(o).None? <==> o[..2] == "fc"
    {
      assert o in {"fc4PL", "fc5PL", "fcLN", "4PL", "5PL", "LN"};
      assert "fc4PL"[..2] == "fc5PL"[..2] == "fcLN"[..2] == "fc";
      assert "4PL"[..2] == "4P" && "5PL"[..2] == "5P" && "LN"[..2] == "LN";
    }
  }

  /** The corrected reading recognises every name the callers pass, agrees
      with the written one wherever that recognises a name, and sends "fc"
      and plain spellings of a curve to the same curve. */
  lemma KindOfRecognisesModelNames(ordered: string)
    ensures ordered in ModelNames ==> KindOf(ordered).Some?
    ensures KindAsWritten(ordered).Some? ==> KindOf(ordered) == KindAsWritten(ordered)
    ensures ordered in ModelNames && |ordered| > 2 && ordered[..2] == "fc" ==>
              KindOf(ordered) == KindAsWritten(ordered[2..])
  {
    if ordered in ModelNames && |ordered| > 2 && ordered[..2] == "fc" {
      assert ordered in {"fc4PL", "fc5PL", "fcLN", "4PL", "5PL", "LN"};
      assert "4PL"[..2] == "4P" && "5PL"[..2] == "5P" && "LN"[..2] == "LN";
      if ordered == "fc4PL" {
        assert ordered[2..] == "4PL";
      } else if ordered == "fc5PL" {
        assert ordered[2..] == "5PL";
      } else {
        assert ordered[2..] == "LN";
      }
    }
  }

  /** samples_concenration's gate: LN keeps a sample whose interval
      mean ± spread reaches [0, limit]; 4PL and 5PL keep one that reaches
      [A, D], read as `params[1][1]` and `params[0][1]` (IndexError on a
      shorter list). */
  function GateOf(kind: Kind, params: seq<Entry>, limit: real): Result<Gate> {
    match kind
    case LN => Success(Band(0.0, limit))
    case _ => if |params| < 2 then Failure("IndexError") else Success(Band(params[1].value, params[0].value))
  }

  /** samples_concenration_new's gate: LN keeps a sample whose mean is at
      least `params[1][1]`; 4PL and 5PL as in GateOf. */
  function GateOfNew(kind: Kind, params: seq<Entry>): Result<Gate> {
    if |params| < 2 then Failure("IndexError")
    else match kind
      case LN => Success(Floor(params[1].value))
      case _ => Success(Band(params[1].value, params[0].value))
  }

  /** Applied to a fit report, the logistic gates read the report's A and D
      entries, and the new LN gate reads its B entry. */
  lemma GatesReadReport(kind: Kind, fitted: seq<real>, rss: real, stats: Statistics, flag: real, limit: real)
    requires |fitted| == |ParamNames(kind)|
    ensures var rep := Report(kind, fitted, rss, stats, flag);
      (kind != LN ==>
         rep[1].key == "A_par1" && rep[0].key == "D_par1"
         && GateOf(kind, rep, limit) == Success(Band(rep[1].value, rep[0].value))
         && GateOfNew(kind, rep) == GateOf(kind, rep, limit))
      && (kind == LN ==>
         rep[1].key == "B_par1" && GateOfNew(kind, rep) == Success(Floor(fitted[1]))
         && GateOf(kind, rep, limit) == Success(Band(0.0, limit)))
  {
    ReportLayout(kind, fitted, rss, stats, flag);
  }

  // ---------------------------------------------------------------------
  // The output lists
  // ---------------------------------------------------------------------

  /** The returned tuple: accepted sample names, their concentrations,
      mean absorbances, the rejected sample names, the lower and upper error
      bars, the samples' spreads, then the standards' concentrations, mean
      absorbances and spreads. NaN cells are `None`. */
  datatype Output = Output(sampleNames: seq<string>, concentrations: seq<Option<real>>,
                           goodMeans: seq<Option<real>>, rejected: seq<string>,
                           bottoms: seq<Option<real>>, uppers: seq<Option<real>>,
                           sampleSds: seq<Option<real>>, standardConcs: seq<Option<real>>,
                           standardMeans: seq<Option<real>>, standardSds: seq<Option<real>>)

  const NoOutput: Output := Output([], [], [], [], [], [], [], [], [], [])

  /** One iteration of the output loop: a sample with Errors = 0 fills the
      six sample lists, one with Errors = 1 the rejected list, a standard
      with Errors = 100 the three standard lists. */
  function CollectRow(out: Output, l: string, row: Row): Output {
    var good := Contains(l, "sam") && row.errors == Some(0);
    var bad := Contains(l, "sam") && row.errors == Some(1);
    var standard := Contains(l, "std") && row.errors == Some(100);
    var o1 := if !good then out
      else out.(sampleNames := out.sampleNames + [l], concentrations := out.concentrations + [row.conc],
                goodMeans := out.goodMeans + [row.mean], sampleSds := out.sampleSds + [row.sd],
                uppers := out.uppers + [row.upper], bottoms := out.bottoms + [row.bottom]);
    var o2 := if !bad then o1 else o1.(rejected := o1.rejected + [l]);
    if !standard then o2
    else o2.(standardSds := o2.standardSds + [row.sd], standardMeans := o2.standardMeans + [row.mean],
             standardConcs := o2.standardConcs + [row.conc])
  }

  /** The ten lists after the output loop has visited `names`. */
  function Collected(names: seq<string>, rows: map<string, Row>): Output
    requires forall l :: l in names ==> l in rows
    decreases |names|
  {
    if |names| == 0 then NoOutput
    else CollectRow(Collected(names[..|names| - 1], rows), names[|names| - 1], rows[names[|names| - 1]])
  }

  /** The labels containing `tag` whose Errors code is `code`, in index order. */
  function Kept(names: seq<string>, rows: map<string, Row>, tag: string, code: int): (kept: seq<string>)
    requires forall l :: l in names ==> l in rows
    ensures forall l :: l in kept ==> l in names
    decreases |names|
  {
    if |names| == 0 then []
    else
      var l := names[|names| - 1];
      var rest := Kept(names[..|names| - 1], rows, tag, code);
      if Contains(l, tag) && rows[l].errors == Some(code) then rest + [l] else rest
  }

  /** A label is kept exactly when it is in the index, contains the tag and
      has the code; kept labels keep the index's order and distinctness. */
  lemma {:induction false} KeptMembers(names: seq<string>, rows: map<string, Row>, tag: string, code: int)
    requires forall l :: l in names ==> l in rows
    ensures forall l :: l in Kept(names, rows, tag, code) <==> l in names && Contains(l, tag) && rows[l].errors == Some(code)
    ensures IsSubsequence(Kept(names, rows, tag, code), names)
    decreases |names|
  {
    if |names| > 0 {
      var p := names[..|names| - 1];
      assert names == p + [names[|names| - 1]];
      KeptMembers(p, rows, tag, code);
      SubsequenceGrows(Kept(p, rows, tag, code), p, names[|names| - 1]);
    }
  }

  lemma {:induction false} SubsequenceGrows<T>(sub: seq<T>, s: seq<T>, x: T)
    requires IsSubsequence(sub, s)
    ensures IsSubsequence(sub, s + [x]) && IsSubsequence(sub + [x], s + [x])
    decreases |s|
  {
    if |s| > 0 {
      assert (s + [x])[1..] == s[1..] + [x];
      if |sub| > 0 {
        assert (sub + [x])[1..] == sub[1..] + [x];
        if sub[0] == s[0] {
          SubsequenceGrows(sub[1..], s[1..], x);
        } else {
          SubsequenceGrows(sub, s[1..], x);
        }
      } else {
        SubsequenceGrows(sub, s[1..], x);
        assert [x][1..] == [];
      }
    } else {
      assert sub == [];
      assert [x][1..] == [] && (sub + [x])[1..] == [];
    }
  }

  /** The six sample lists run in step: the accepted names are the labels
      containing "sam" with Errors = 0, the rejected names those with
      Errors = 1, and position k of every accepted list belongs to the k-th
      accepted name. */
  lemma {:induction false} CollectedSamples(names: seq<string>, rows: map<string, Row>)
    requires forall l :: l in names ==> l in rows
    ensures var out := Collected(names, rows);
      out.sampleNames == Kept(names, rows, "sam", 0) && out.rejected == Kept(names, rows, "sam", 1)
      && |out.concentrations| == |out.sampleNames| && |out.goodMeans| == |out.sampleNames|
      && |out.sampleSds| == |out.sampleNames| && |out.uppers| == |out.sampleNames|
      && |out.bottoms| == |out.sampleNames|
      && forall k :: 0 <= k < |out.sampleNames| ==>
           out.concentrations[k] == rows[out.sampleNames[k]].conc
           && out.goodMeans[k] == rows[out.sampleNames[k]].mean
           && out.sampleSds[k] == rows[out.sampleNames[k]].sd
           && out.uppers[k] == rows[out.sampleNames[k]].upper
           && out.bottoms[k] == rows[out.sampleNames[k]].bottom
    decreases |names|
  {
    if |names| > 0 {
      CollectedSamples(names[..|names| - 1], rows);
    }
  }

  /** The three standard lists run in step over the labels containing "std"
      with Errors = 100. */
  lemma {:induction false} CollectedStandards(names: seq<string>, rows: map<string, Row>)
    requires forall l :: l in names ==> l in rows
    ensures var out := Collected(names, rows); var st := Kept(names, rows, "std", 100);
      |out.standardConcs| == |st| && |out.standardMeans| == |st| && |out.standardSds| == |st|
      && forall k :: 0 <= k < |st| ==>
           out.standardConcs[k] == rows[st[k]].conc && out.standardMeans[k] == rows[st[k]].mean
           && out.standardSds[k] == rows[st[k]].sd
    decreases |names|
  {
    if |names| > 0 {
      CollectedStandards(names[..|names| - 1], rows);
    }
  }

  // ---------------------------------------------------------------------
  // The three operations
  // ---------------------------------------------------------------------

  /** The second pass and the output loop over a table with statistics:
      the parameters' error if a sample row meets it, the ten lists otherwise. */
  function ClassifyAndCollect(names: seq<string>, rows: map<string, Row>, gate: Option<Result<Gate>>,
                              inv: real -> real): Result<Output>
    requires (forall l :: l in names ==> l in rows) && Averaged(rows)
  {
    if gate.Some? && gate.value.Failure? && exists l :: l in names && Contains(l, "sam")
    then Failure(gate.value.error)
    else Success(Collected(names, ClassifiedRows(rows, Verdict(gate), inv)))
  }

  /** The rows of a scanned plate after the first pass. */
  function Statistics(ws: seq<Well>, spread: seq<real> -> real, standards: map<string, real>): (r: map<string, Row>)
    requires StandardsKnown(Labels(ws), standards)
    ensures forall l :: l in r <==> l in Labels(ws)
    ensures Averaged(r)
  {
    TableReady(ws, spread, standards);
    StatRows(TableRows(ws), spread, standards)
  }

  /** The LN ceiling of a scanned plate. */
  function Limit(ws: seq<Well>, spread: seq<real> -> real, standards: map<string, real>): real
    requires StandardsKnown(Labels(ws), standards) && |Labels(ws)| > 0
  {
    LnLimit(Labels(ws), Statistics(ws, spread, standards))
  }

  /** samples_concenration on the wells `ws` in scan order, for the curve
      `kind` (None: a name the dispatch does not recognise). A standard
      without a concentration raises KeyError, an empty plate ValueError
      (idxmax of nothing), a logistic curve with fewer than two parameters
      IndexError at the first sample row. */
  function Concentrations(ws: seq<Well>, kind: Option<Kind>, params: seq<Entry>, inv: real -> real,
                          spread: seq<real> -> real, standards: map<string, real>): Result<Output>
  {
    var names := Labels(ws);
    if !StandardsKnown(names, standards) then Failure("KeyError")
    else if |names| == 0 then Failure("ValueError")
    else
      var gate := if kind.Some? then Some(GateOf(kind.value, params, Limit(ws, spread, standards))) else None;
      ClassifyAndCollect(names, Statistics(ws, spread, standards), gate, inv)
  }

  /** samples_concenration(imp_data, imp_data_map, params, ordered, d_st):
      the plate `g` pairs each map label with its absorbance; `inv` is the
      inverse of the fitted curve, `spread` numpy's `std`, and `standards`
      the standards' concentrations by label. The curve is chosen from
      `ordered` as the code does, so an `fc` name selects none. */
  method SamplesConcentration(g: Grid, ordered: string, params: seq<Entry>, inv: real -> real,
                              spread: seq<real> -> real, standards: map<string, real>) returns (r: Result<Output>)
    ensures r == Concentrations(RowMajor(g), KindAsWritten(ordered), params, inv, spread, standards)
  {
    ghost var ws := RowMajor(g);
    var t := BuildTable(g);
    var raised := t.FillStatistics(spread, standards);
    if raised.Some? {
      return Failure(raised.value);
    }
    assert t.rows == Statistics(ws, spread, standards);
    if |t.names| == 0 {
      return Failure("ValueError");
    }
    var top := TopLabel(t.names, t.rows);
    var limit := t.rows[top].mean.value + t.rows[top].sd.value;
    assert limit == Limit(ws, spread, standards);
    var kind := KindAsWritten(ordered);
    var gate := if kind.Some? then Some(GateOf(kind.value, params, limit)) else None;
    r := t.JudgeAndCollect(gate, inv);
    assert r == ClassifyAndCollect(Labels(ws), Statistics(ws, spread, standards), gate, inv);
  }

  /** samples_concenration_new on a table that already has its statistics:
      the second pass with GateOfNew, then the output loop. */
  function NewConcentrations(names: seq<string>, rows: map<string, Row>, kind: Option<Kind>,
                             params: seq<Entry>, inv: real -> real): Result<Output>
    requires (forall l :: l in names ==> l in rows) && Averaged(rows)
  {
    ClassifyAndCollect(names, rows, NewGate(kind, params), inv)
  }

  /** The gate samples_concenration_new applies for the curve `kind`, if any. */
  function NewGate(kind: Option<Kind>, params: seq<Entry>): Option<Result<Gate>> {
    if kind.Some? then Some(GateOfNew(kind.value, params)) else None
  }

  /** samples_concenration_new(..., params, ordered, d_st, df_local), with
      the curve chosen from `ordered` as the code does. */
  method SamplesConcentrationNew(t: SampleTable, ordered: string, params: seq<Entry>, inv: real -> real)
    returns (r: Result<Output>)
    requires t.Valid() && Averaged(t.rows)
    modifies t
    ensures t.Valid() && t.names == old(t.names)
    ensures r == NewConcentrations(old(t.names), old(t.rows), KindAsWritten(ordered), params, inv)
    ensures r.Success? ==>
      t.rows == ClassifiedRows(old(t.rows), Verdict(NewGate(KindAsWritten(ordered), params)), inv)
  {
    var gate := NewGate(KindAsWritten(ordered), params);
    r := t.JudgeAndCollect(gate, inv);
  }

  /** recognition_experiment's flag: "SPC" when some label contains both
      "nc" and "pc", "STD" otherwise. */
  function ControlFlag(names: seq<string>): string {
    if HasControls(names) then "SPC" else "STD"
  }

  /** Some label contains both "nc" and "pc". */
  predicate HasControls(names: seq<string>) {
    exists l :: l in names && IsControl(l)
  }

  lemma HasControlsAppend(names: seq<string>, l: string)
    ensures HasControls(names + [l]) <==> HasControls(names) || IsControl(l)
  {
    if HasControls(names + [l]) && !IsControl(l) {
      var l' :| l' in names + [l] && IsControl(l');
      assert l' in names;
    }
    if HasControls(names) {
      var l' :| l' in names && IsControl(l');
      assert l' in names + [l];
    }
    if IsControl(l) {
      assert l in names + [l];
    }
  }

  /** A label of a control well: it contains both "nc" and "pc". */
  predicate IsControl(l: string) {
    Contains(l, "nc") && Contains(l, "pc")
  }

  /** recognition_experiment(imp_data, imp_data_map, d_st): the grouping
      loops and the first pass, returning the table and the flag. */
  method RecognitionExperiment(g: Grid, spread: seq<real> -> real, standards: map<string, real>)
    returns (t: SampleTable, raised: Option<string>, flag: string)
    ensures fresh(t) && t.Valid() && t.names == Labels(RowMajor(g))
    ensures raised.None? <==> StandardsKnown(t.names, standards)
    ensures raised.Some? ==> raised.value == "KeyError"
    ensures raised.None? ==> t.rows == Statistics(RowMajor(g), spread, standards)
    ensures raised.None? ==> flag == ControlFlag(t.names)
  {
    t := BuildTable(g);
    raised := t.FillStatistics(spread, standards);
    flag := "STD";
    if raised.Some? {
      return;
    }
    flag := ScanControls(t.names);
  }

  /** The flag loop of recognition_experiment: "STD", turned to "SPC" at
      each label containing both "nc" and "pc". */
  method ScanControls(names: seq<string>) returns (flag: string)
    ensures flag == ControlFlag(names)
  {
    flag := "STD";
    for k := 0 to |names|
      invariant flag == ControlFlag(names[..k])
    {
      HasControlsAppend(names[..k], names[k]);
      assert names[..k + 1] == names[..k] + [names[k]];
      if Contains(names[k], "nc") && Contains(names[k], "pc") {
        flag := "SPC";
      }
    }
    assert names[..|names|] == names;
  }

  // ---------------------------------------------------------------------
  // What the operations promise
  // ---------------------------------------------------------------------

  /** The flag is "SPC" exactly when some well of the plate carries a label
      containing both "nc" and "pc". */
  lemma ControlFlagOfPlate(ws: seq<Well>)
    ensures ControlFlag(Labels(ws)) == "SPC"
        <==> exists i :: 0 <= i < |ws| && Contains(ws[i].name, "nc") && Contains(ws[i].name, "pc")
    ensures ControlFlag(Labels(ws)) == "SPC" || ControlFlag(Labels(ws)) == "STD"
  {
    PlateHasControls(ws);
    assert "STD"[1] != "SPC"[1];
  }

  lemma PlateHasControls(ws: seq<Well>)
    ensures HasControls(Labels(ws)) <==> exists i :: 0 <= i < |ws| && IsControl(ws[i].name)
  {
    LabelsAreTheDistinctLabels(ws);
    if HasControls(Labels(ws)) {
      var l :| l in Labels(ws) && IsControl(l);
      assert l in LabelSeq(ws);
      var i :| 0 <= i < |LabelSeq(ws)| && LabelSeq(ws)[i] == l;
      assert IsControl(ws[i].name);
    }
    if exists i :: 0 <= i < |ws| && IsControl(ws[i].name) {
      var i :| 0 <= i < |ws| && IsControl(ws[i].name);
      assert LabelSeq(ws)[i] == ws[i].name;
      assert ws[i].name in Labels(ws);
    }
  }

  /** The LN ceiling is the largest group mean plus that group's spread,
      the group being the first in the index with that mean. */
  lemma LimitIsLargestGroupMean(ws: seq<Well>, spread: seq<real> -> real, standards: map<string, real>)
    requires StandardsKnown(Labels(ws), standards) && |Labels(ws)| > 0
    ensures var top := TopLabel(Labels(ws), Statistics(ws, spread, standards));
      top in LabelSeq(ws)
      && Limit(ws, spread, standards) == GroupMean(ws, top) + spread(AbsorbancesOf(ws, top))
      && forall l :: l in LabelSeq(ws) ==> GroupMean(ws, l) <= GroupMean(ws, top)
  {
    var names := Labels(ws);
    var stats := Statistics(ws, spread, standards);
    LabelsAreTheDistinctLabels(ws);
    TopLabelIsFirstLargest(names, stats);
    TableReady(ws, spread, standards);
    forall l | l in LabelSeq(ws)
      ensures stats[l].mean == Some(GroupMean(ws, l)) && stats[l].sd == Some(spread(AbsorbancesOf(ws, l)))
    {
      StatisticsOfGroup(ws, l, spread, standards);
    }
  }

  /** End to end: when samples_concenration succeeds for a recognised curve,
      every label of the plate containing "sam" is listed exactly once, among
      the accepted samples when the mean and spread of its wells pass the
      curve's gate and among the rejected ones when they do not. */
  lemma SampleVerdicts(ws: seq<Well>, kind: Kind, params: seq<Entry>, inv: real -> real,
                       spread: seq<real> -> real, standards: map<string, real>, l: string)
    requires Concentrations(ws, Some(kind), params, inv, spread, standards).Success?
    requires l in LabelSeq(ws) && Contains(l, "sam")
    ensures StandardsKnown(Labels(ws), standards) && |Labels(ws)| > 0
    ensures GateOf(kind, params, Limit(ws, spread, standards)).Success?
    ensures var out := Concentrations(ws, Some(kind), params, inv, spread, standards).value;
      var gate := GateOf(kind, params, Limit(ws, spread, standards)).value;
      var m := GroupMean(ws, l);
      var s := spread(AbsorbancesOf(ws, l));
      (l in out.sampleNames <==> Admits(gate, m, s)) && (l in out.rejected <==> !Admits(gate, m, s))
  {
    ConcentrationsUnfold(ws, kind, params, inv, spread, standards, l);
    var names := Labels(ws);
    LabelsAreTheDistinctLabels(ws);
    var stats := Statistics(ws, spread, standards);
    var gate := GateOf(kind, params, Limit(ws, spread, standards));
    var rows := ClassifiedRows(stats, Some(gate.value), inv);
    ListedByCode(names, rows, l);
    StatisticsRow(ws, spread, standards, l);
    ClassifiedVerdict(l, stats[l], Some(gate.value), inv);
  }

  /** What a successful run of samples_concenration for a recognised curve
      returns: the lists collected from the rows the gate classified. */
  lemma ConcentrationsUnfold(ws: seq<Well>, kind: Kind, params: seq<Entry>, inv: real -> real,
                             spread: seq<real> -> real, standards: map<string, real>, l: string)
    requires Concentrations(ws, Some(kind), params, inv, spread, standards).Success?
    requires l in LabelSeq(ws) && Contains(l, "sam")
    ensures StandardsKnown(Labels(ws), standards) && |Labels(ws)| > 0
    ensures GateOf(kind, params, Limit(ws, spread, standards)).Success?
    ensures Concentrations(ws, Some(kind), params, inv, spread, standards).value
      == Collected(Labels(ws), ClassifiedRows(Statistics(ws, spread, standards),
                                              Some(GateOf(kind, params, Limit(ws, spread, standards)).value), inv))
  {
    var names := Labels(ws);
    LabelsAreTheDistinctLabels(ws);
    assert l in names;
    var gate := GateOf(kind, params, Limit(ws, spread, standards));
    assert Concentrations(ws, Some(kind), params, inv, spread, standards)
      == ClassifyAndCollect(names, Statistics(ws, spread, standards), Some(gate), inv);
    assert Verdict(Some(gate)) == Some(gate.value);
  }

  /** A "sam" label of the index is among the accepted samples exactly when
      its row's Errors is 0, and among the rejected ones exactly when it is 1. */
  lemma ListedByCode(names: seq<string>, rows: map<string, Row>, l: string)
    requires forall l :: l in names ==> l in rows
    requires l in names && Contains(l, "sam")
    ensures var out := Collected(names, rows);
      (l in out.sampleNames <==> rows[l].errors == Some(0)) && (l in out.rejected <==> rows[l].errors == Some(1))
  {
    CollectedSamples(names, rows);
    KeptMembers(names, rows, "sam", 0);
    KeptMembers(names, rows, "sam", 1);
  }

  /** After the first pass, a label of the plate has its wells' mean and
      spread, a standard its known concentration with Errors = 100, and any
      other label no concentration and no Errors code. */
  lemma StatisticsRow(ws: seq<Well>, spread: seq<real> -> real, standards: map<string, real>, l: string)
    requires StandardsKnown(Labels(ws), standards) && l in Labels(ws)
    ensures var row := Statistics(ws, spread, standards)[l];
      row.mean == Some(GroupMean(ws, l)) && row.sd == Some(spread(AbsorbancesOf(ws, l)))
      && row.conc == (if Contains(l, "std") then Some(standards[l]) else None)
      && row.errors == (if Contains(l, "std") then Some(100) else None)
  {
    LabelsAreTheDistinctLabels(ws);
    TableReady(ws, spread, standards);
    StatisticsOfGroup(ws, l, spread, standards);
  }

  /** The k-th accepted entry of the lists belongs to a label of the index
      containing "sam" with Errors = 0, and carries that row's cells. */
  lemma CollectedSampleAt(names: seq<string>, rows: map<string, Row>, k: nat)
    requires forall l :: l in names ==> l in rows
    requires k < |Collected(names, rows).sampleNames|
    ensures var out := Collected(names, rows); var l := out.sampleNames[k];
      l in names && Contains(l, "sam") && rows[l].errors == Some(0)
      && k < |out.concentrations| && k < |out.uppers| && k < |out.bottoms| && k < |out.goodMeans|
      && k < |out.sampleSds| && out.sampleSds[k] == rows[l].sd
      && out.concentrations[k] == rows[l].conc && out.goodMeans[k] == rows[l].mean
      && out.uppers[k] == rows[l].upper && out.bottoms[k] == rows[l].bottom
  {
    CollectedSamples(names, rows);
    KeptMembers(names, rows, "sam", 0);
    assert Collected(names, rows).sampleNames[k] in Kept(names, rows, "sam", 0);
  }

  /** A row that passes its gate gets the inverse curve's concentration and
      error bars. */
  lemma JudgedAccepted(row: Row, gate: Gate, inv: real -> real, m: real, s: real)
    requires row.mean == Some(m) && row.sd == Some(s) && Admits(gate, m, s)
    ensures Judged(row, gate, inv).conc == Some(inv(m)) && Judged(row, gate, inv).mean == Some(m)
    ensures Judged(row, gate, inv).upper == Some(inv(m + s) - inv(m))
    ensures Judged(row, gate, inv).bottom == Some(inv(m) - inv(m - s))
  {
  }

  /** The k-th error bars of the lists: the inverse curve at mean + spread
      minus the inverse at the mean, and the inverse at the mean minus the
      inverse at mean - spread. */
  predicate ErrorBars(out: Output, k: nat, inv: real -> real, m: real, s: real) {
    k < |out.uppers| && k < |out.bottoms|
    && out.uppers[k] == Some(inv(m + s) - inv(m)) && out.bottoms[k] == Some(inv(m) - inv(m - s))
  }

  /** End to end: every accepted sample's concentration is the inverse curve
      at its wells' mean, its error bars the inverse at mean + spread minus
      that and that minus the inverse at mean - spread. */
  lemma AcceptedConcentrations(ws: seq<Well>, kind: Kind, params: seq<Entry>, inv: real -> real,
                               spread: seq<real> -> real, standards: map<string, real>, k: nat)
    requires Concentrations(ws, Some(kind), params, inv, spread, standards).Success?
    requires k < |Concentrations(ws, Some(kind), params, inv, spread, standards).value.sampleNames|
    ensures var out := Concentrations(ws, Some(kind), params, inv, spread, standards).value;
      var l := out.sampleNames[k];
      var m := GroupMean(ws, l);
      var s := spread(AbsorbancesOf(ws, l));
      l in LabelSeq(ws) && Contains(l, "sam")
      && k < |out.concentrations| && k < |out.uppers| && k < |out.bottoms| && k < |out.goodMeans|
      && k < |out.sampleSds|
      && out.concentrations[k] == Some(inv(m)) && out.goodMeans[k] == Some(m) && out.sampleSds[k] == Some(s)
      && ErrorBars(out, k, inv, m, s)
  {
    var names := Labels(ws);
    var stats := Statistics(ws, spread, standards);
    var v := Verdict(Some(GateOf(kind, params, Limit(ws, spread, standards))));
    var rows := ClassifiedRows(stats, v, inv);
    assert Concentrations(ws, Some(kind), params, inv, spread, standards) == Success(Collected(names, rows));
    CollectedSampleAt(names, rows, k);
    var l := Collected(names, rows).sampleNames[k];
    LabelsAreTheDistinctLabels(ws);
    StatisticsRow(ws, spread, standards, l);
    var m := GroupMean(ws, l);
    var sd := spread(AbsorbancesOf(ws, l));
    assert rows[l] == Classified(l, stats[l], v, inv);
    assert v.Some? && rows[l] == Judged(stats[l], v.value, inv);
    assert Admits(v.value, m, sd);
    JudgedAccepted(stats[l], v.value, inv, m, sd);
    var out := Collected(names, rows);
    assert out.uppers[k] == rows[l].upper && out.bottoms[k] == rows[l].bottom;
    assert ErrorBars(out, k, inv, m, sd);
  }

  /** With no gate nothing carries Errors 0 or 1, so no sample is listed. */
  lemma UnjudgedListsNoSamples(ws: seq<Well>, inv: real -> real, spread: seq<real> -> real, standards: map<string, real>)
    requires StandardsKnown(Labels(ws), standards)
    ensures var out := Collected(Labels(ws), ClassifiedRows(Statistics(ws, spread, standards), None, inv));
      out.sampleNames == [] && out.rejected == []
  {
    var names := Labels(ws);
    var rows := ClassifiedRows(Statistics(ws, spread, standards), None, inv);
    forall l | l in names
      ensures rows[l].errors != Some(0) && rows[l].errors != Some(1)
    {
      StatisticsRow(ws, spread, standards, l);
    }
    CollectedSamples(names, rows);
    KeptNone(names, rows, "sam", 0);
    KeptNone(names, rows, "sam", 1);
  }

  lemma {:induction false} KeptNone(names: seq<string>, rows: map<string, Row>, tag: string, code: int)
    requires forall l :: l in names ==> l in rows && rows[l].errors != Some(code)
    ensures Kept(names, rows, tag, code) == []
    decreases |names|
  {
    if |names| > 0 {
      KeptNone(names[..|names| - 1], rows, tag, code);
    }
  }

  /** As written, a least-squares curve name ("fcLN", "fc4PL", "fc5PL")
      reaches no branch of the dispatch: the run succeeds or fails as for
      any curve, but lists no sample, accepted or rejected. */
  lemma FcNamesListNoSamples(ws: seq<Well>, ordered: string, params: seq<Entry>, inv: real -> real,
                             spread: seq<real> -> real, standards: map<string, real>)
    requires ordered in ModelNames && ordered[..2] == "fc"
    requires Concentrations(ws, KindAsWritten(ordered), params, inv, spread, standards).Success?
    ensures Concentrations(ws, KindAsWritten(ordered), params, inv, spread, standards).value.sampleNames == []
    ensures Concentrations(ws, KindAsWritten(ordered), params, inv, spread, standards).value.rejected == []
  {
    FcNamesUnrecognised();
    assert KindAsWritten(ordered) == None;
    assert Concentrations(ws, None, params, inv, spread, standards)
        == Success(Collected(Labels(ws), ClassifiedRows(Statistics(ws, spread, standards), None, inv)));
    UnjudgedListsNoSamples(ws, inv, spread, standards);
  }

  /** `st` lists, in index order, the plate's labels containing "std" that
      the second pass leaves alone (those not also containing "sam" under a
      recognised curve), and the standard lists hold, position by position,
      their known concentrations and their wells' means and spreads. */
  ghost predicate ListsStandards(out: Output, st: seq<string>, ws: seq<Well>, recognised: bool,
                                 spread: seq<real> -> real, standards: map<string, real>)
  {
    IsSubsequence(st, Labels(ws))
    && (forall l :: l in st <==> l in LabelSeq(ws) && Contains(l, "std") && !(Contains(l, "sam") && recognised))
    && |out.standardConcs| == |st| && |out.standardMeans| == |st| && |out.standardSds| == |st|
    && forall k :: 0 <= k < |st| ==>
         st[k] in standards && out.standardConcs[k] == Some(standards[st[k]])
         && out.standardMeans[k] == Some(GroupMean(ws, st[k]))
         && out.standardSds[k] == Some(spread(AbsorbancesOf(ws, st[k])))
  }

  /** End to end: a successful samples_concenration run lists as standards
      exactly the labels ListsStandards describes. */
  lemma StandardsListed(ws: seq<Well>, kind: Option<Kind>, params: seq<Entry>, inv: real -> real,
                        spread: seq<real> -> real, standards: map<string, real>)
    requires Concentrations(ws, kind, params, inv, spread, standards).Success?
    ensures exists st :: ListsStandards(Concentrations(ws, kind, params, inv, spread, standards).value,
                                        st, ws, kind.Some?, spread, standards)
  {
    var names := Labels(ws);
    LabelsAreTheDistinctLabels(ws);
    var stats := Statistics(ws, spread, standards);
    var v := if kind.Some? then Verdict(Some(GateOf(kind.value, params, Limit(ws, spread, standards)))) else None;
    var rows := ClassifiedRows(stats, v, inv);
    var out := Collected(names, rows);
    assert Concentrations(ws, kind, params, inv, spread, standards) == Success(out);
    var st := Kept(names, rows, "std", 100);
    CollectedStandards(names, rows);
    KeptMembers(names, rows, "std", 100);
    forall l | l in names
      ensures rows[l].errors == Some(100) <==> Contains(l, "std") && !(Contains(l, "sam") && kind.Some?)
      ensures Contains(l, "std") && rows[l].errors == Some(100) ==>
                l in standards && rows[l].conc == Some(standards[l]) && rows[l].mean == Some(GroupMean(ws, l))
                && rows[l].sd == Some(spread(AbsorbancesOf(ws, l)))
    {
      StatisticsRow(ws, spread, standards, l);
      assert rows[l] == Classified(l, stats[l], v, inv);
      if Contains(l, "sam") && kind.Some? {
        assert v.Some?;
        ClassifiedVerdict(l, stats[l], v, inv);
        assert rows[l].errors == Some(0) || rows[l].errors == Some(1);
      } else {
        assert rows[l] == stats[l];
      }
    }
    forall k | 0 <= k < |st|
      ensures st[k] in standards && out.standardConcs[k] == Some(standards[st[k]])
      ensures out.standardMeans[k] == Some(GroupMean(ws, st[k]))
      ensures out.standardSds[k] == Some(spread(AbsorbancesOf(ws, st[k])))
    {
      assert st[k] in st;
    }
    assert ListsStandards(out, st, ws, kind.Some?, spread, standards);
  }

  /** End to end for samples_concenration_new: on success with a recognised
      curve, a label of the table containing "sam" is listed as accepted
      exactly when its row passes GateOfNew, and as rejected otherwise. */
  lemma NewSampleVerdicts(names: seq<string>, rows: map<string, Row>, kind: Kind, params: seq<Entry>,
                          inv: real -> real, l: string)
    requires (forall l :: l in names ==> l in rows) && Averaged(rows)
    requires NewConcentrations(names, rows, Some(kind), params, inv).Success?
    requires l in names && Contains(l, "sam")
    ensures GateOfNew(kind, params).Success?
    ensures var out := NewConcentrations(names, rows, Some(kind), params, inv).value;
      var gate := GateOfNew(kind, params).value;
      (l in out.sampleNames <==> Admits(gate, rows[l].mean.value, rows[l].sd.value))
      && (l in out.rejected <==> !Admits(gate, rows[l].mean.value, rows[l].sd.value))
  {
    var gate := GateOfNew(kind, params);
    assert gate.Success?;
    var judged := ClassifiedRows(rows, Some(gate.value), inv);
    CollectedSamples(names, judged);
    KeptMembers(names, judged, "sam", 0);
    KeptMembers(names, judged, "sam", 1);
    ClassifiedVerdict(l, rows[l], Some(gate.value), inv);
  }

  /** The corrected dispatch judges the samples under every name the
      callers pass: with "fc4PL" a plate's sample is listed as accepted or
      rejected just as with "4PL". */
  lemma FcNamesJudgeSamples(ws: seq<Well>, ordered: string, params: seq<Entry>, inv: real -> real,
                            spread: seq<real> -> real, standards: map<string, real>)
    requires ordered in ModelNames && |ordered| > 2 && ordered[..2] == "fc"
    ensures KindOf(ordered).Some?
    ensures Concentrations(ws, KindOf(ordered), params, inv, spread, standards)
         == Concentrations(ws, KindAsWritten(ordered[2..]), params, inv, spread, standards)
  {
    KindOfRecognisesModelNames(ordered);
  }
}
