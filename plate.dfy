/** A measured plate: the reader's absorbance table and the plate map,
    paired cell by cell, and the grouping of wells by their map label that
    et_calc.py performs before any averaging. */
module Plate {
  import opened Basics

  /** One well: its plate-map label and its measured absorbance. */
  datatype Well = Well(name: string, absorbance: real)

  /** Rows of wells, as the measurement table and the map are laid out. */
  type Grid = seq<seq<Well>>

  predicate Rectangular(g: Grid, width: nat) {
    forall i :: 0 <= i < |g| ==> |g[i]| == width
  }

  /** Row by row, left to right (the `values[i, j]` scan of samples_concenration). */
  function RowMajor(g: Grid): seq<Well>
    decreases |g|
  {
    if |g| == 0 then [] else RowMajor(g[..|g| - 1]) + g[|g| - 1]
  }

  lemma RowMajorStep(g: Grid, i: nat)
    requires i < |g|
    ensures RowMajor(g[..i + 1]) == RowMajor(g[..i]) + g[i]
  {
    assert g[..i + 1][..i] == g[..i];
  }

  /** Column `j`, top to bottom. */
  function Column(g: Grid, j: nat): (col: seq<Well>)
    requires forall i :: 0 <= i < |g| ==> j < |g[i]|
    ensures |col| == |g|
    ensures forall i :: 0 <= i < |g| ==> col[i] == g[i][j]
  {
    seq(|g|, i requires 0 <= i < |g| => g[i][j])
  }

  /** The first `n` columns, column by column (the `.loc[r_name][c_name]` scan
      of data_st_to_print and data_std_format). */
  function ColumnMajor(g: Grid, width: nat, n: nat): seq<Well>
    requires Rectangular(g, width) && n <= width
    decreases n
  {
    if n == 0 then [] else ColumnMajor(g, width, n - 1) + Column(g, n - 1)
  }

  /** The labels of a scan, one per well. */
  function LabelSeq(ws: seq<Well>): (ls: seq<string>)
    ensures |ls| == |ws|
    ensures forall i :: 0 <= i < |ws| ==> ls[i] == ws[i].name
    decreases |ws|
  {
    if |ws| == 0 then [] else LabelSeq(ws[..|ws| - 1]) + [ws[|ws| - 1].name]
  }

  /** The absorbances of the wells labelled `l`, in scan order. */
  function AbsorbancesOf(ws: seq<Well>, l: string): seq<real>
    decreases |ws|
  {
    if |ws| == 0 then []
    else
      var rest := AbsorbancesOf(ws[..|ws| - 1], l);
      if ws[|ws| - 1].name == l then rest + [ws[|ws| - 1].absorbance] else rest
  }

  lemma AbsorbancesOfAppend(ws: seq<Well>, w: Well, l: string)
    ensures AbsorbancesOf(ws + [w], l)
         == AbsorbancesOf(ws, l) + (if w.name == l then [w.absorbance] else [])
  {
    assert (ws + [w])[..|ws|] == ws;
  }

  /** The distinct labels, in order of first appearance. */
  function Labels(ws: seq<Well>): seq<string>
    decreases |ws|
  {
    if |ws| == 0 then []
    else
      var rest := Labels(ws[..|ws| - 1]);
      if ws[|ws| - 1].name in rest then rest else rest + [ws[|ws| - 1].name]
  }

  lemma LabelsAppend(ws: seq<Well>, w: Well)
    ensures Labels(ws + [w]) == if w.name in Labels(ws) then Labels(ws) else Labels(ws) + [w.name]
  {
    assert (ws + [w])[..|ws|] == ws;
  }

  /** The first-appearance list names every label once, and only labels of the scan. */
  lemma {:induction false} LabelsAreTheDistinctLabels(ws: seq<Well>)
    ensures Distinct(Labels(ws))
    ensures forall l :: l in Labels(ws) <==> l in LabelSeq(ws)
    decreases |ws|
  {
    if |ws| > 0 {
      var p := ws[..|ws| - 1];
      LabelsAreTheDistinctLabels(p);
      assert ws == p + [ws[|ws| - 1]];
      assert LabelSeq(ws) == LabelSeq(p) + [ws[|ws| - 1].name];
    }
  }

  /** A label's group holds exactly as many absorbances as there are wells
      carrying that label (its `samples_nb`). */
  lemma {:induction false} GroupSizeIsLabelCount(ws: seq<Well>, l: string)
    ensures |AbsorbancesOf(ws, l)| == multiset(LabelSeq(ws))[l]
    decreases |ws|
  {
    if |ws| > 0 {
      var p := ws[..|ws| - 1];
      GroupSizeIsLabelCount(p, l);
      assert LabelSeq(ws) == LabelSeq(p) + [ws[|ws| - 1].name];
    }
  }

  /** Well `i` is the `k`-th entry of its own label's group, where `k` counts
      the earlier wells with that label: groups keep scan order. */
  lemma {:induction false} WellInItsGroup(ws: seq<Well>, i: nat)
    requires i < |ws|
    ensures |AbsorbancesOf(ws[..i], ws[i].name)| < |AbsorbancesOf(ws, ws[i].name)|
    ensures AbsorbancesOf(ws, ws[i].name)[|AbsorbancesOf(ws[..i], ws[i].name)|] == ws[i].absorbance
    decreases |ws|
  {
    var l := ws[i].name;
    var p := ws[..|ws| - 1];
    if i == |ws| - 1 {
      assert p == ws[..i];
    } else {
      assert p[..i] == ws[..i] && p[i] == ws[i];
      WellInItsGroup(p, i);
    }
  }

  /** Sum of the group sizes over a list of labels. */
  function GroupSizes(ws: seq<Well>, ls: seq<string>): nat
    decreases |ls|
  {
    if |ls| == 0 then 0 else GroupSizes(ws, ls[..|ls| - 1]) + |AbsorbancesOf(ws, ls[|ls| - 1])|
  }

  lemma {:induction false} GroupSizesGrow(ws: seq<Well>, w: Well, ls: seq<string>)
    requires Distinct(ls)
    ensures GroupSizes(ws + [w], ls) == GroupSizes(ws, ls) + (if w.name in ls then 1 else 0)
    decreases |ls|
  {
    if |ls| > 0 {
      var q := ls[..|ls| - 1];
      assert Distinct(q);
      GroupSizesGrow(ws, w, q);
      AbsorbancesOfAppend(ws, w, ls[|ls| - 1]);
      assert w.name in ls <==> w.name in q || w.name == ls[|ls| - 1];
      assert !(w.name in q && w.name == ls[|ls| - 1]);
    }
  }

  lemma {:induction false} GroupSizesOfNewLabel(ws: seq<Well>, ls: seq<string>, l: string)
    ensures GroupSizes(ws, ls + [l]) == GroupSizes(ws, ls) + |AbsorbancesOf(ws, l)|
  {
    assert (ls + [l])[..|ls|] == ls;
  }

  lemma {:induction false} AbsentLabelHasNoGroup(ws: seq<Well>, l: string)
    requires l !in LabelSeq(ws)
    ensures AbsorbancesOf(ws, l) == []
    decreases |ws|
  {
    if |ws| > 0 {
      var p := ws[..|ws| - 1];
      assert LabelSeq(ws) == LabelSeq(p) + [ws[|ws| - 1].name];
      AbsentLabelHasNoGroup(p, l);
    }
  }

  /** Grouping places every well in exactly one group: the groups of the
      distinct labels together hold every well once. */
  lemma {:induction false} GroupsPartitionWells(ws: seq<Well>)
    ensures GroupSizes(ws, Labels(ws)) == |ws|
    decreases |ws|
  {
    if |ws| > 0 {
      var p := ws[..|ws| - 1];
      var w := ws[|ws| - 1];
      assert ws == p + [w];
      GroupsPartitionWells(p);
      LabelsAreTheDistinctLabels(p);
      GroupSizesGrow(p, w, Labels(p));
      LabelsAppend(p, w);
      if w.name !in Labels(p) {
        GroupSizesOfNewLabel(ws, Labels(p), w.name);
        AbsentLabelHasNoGroup(p, w.name);
        AbsorbancesOfAppend(p, w, w.name);
      }
    }
  }

  /** One step of the grouping loops: append the well's absorbance to its
      label's list, opening the list on the label's first appearance. */
  function AddToGroups(m: map<string, seq<real>>, w: Well): map<string, seq<real>> {
    if w.name in m then m[w.name := m[w.name] + [w.absorbance]] else m[w.name := [w.absorbance]]
  }

  /** The label-to-absorbances dictionary after scanning `ws`. */
  function Groups(ws: seq<Well>): map<string, seq<real>>
    decreases |ws|
  {
    if |ws| == 0 then map[] else AddToGroups(Groups(ws[..|ws| - 1]), ws[|ws| - 1])
  }

  lemma GroupsAppend(ws: seq<Well>, w: Well)
    ensures Groups(ws + [w]) == AddToGroups(Groups(ws), w)
  {
    assert (ws + [w])[..|ws|] == ws;
  }

  /** The dictionary has one entry per label of the scan, holding that
      label's absorbances in scan order. */
  lemma {:induction false} GroupsAreTheLabelGroups(ws: seq<Well>)
    ensures forall l :: l in Groups(ws) <==> l in LabelSeq(ws)
    ensures forall l :: l in Groups(ws) ==> Groups(ws)[l] == AbsorbancesOf(ws, l)
    decreases |ws|
  {
    if |ws| > 0 {
      var p := ws[..|ws| - 1];
      var w := ws[|ws| - 1];
      assert ws == p + [w];
      GroupsAreTheLabelGroups(p);
      assert LabelSeq(ws) == LabelSeq(p) + [w.name];
      forall l ensures AbsorbancesOf(ws, l) == AbsorbancesOf(p, l) + (if w.name == l then [w.absorbance] else []) {
        AbsorbancesOfAppend(p, w, l);
      }
      if w.name !in Groups(p) {
        AbsentLabelHasNoGroup(p, w.name);
      }
    }
  }
}
