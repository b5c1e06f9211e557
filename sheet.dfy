/** Worksheets as et_parse_func.py sees them after `pd.read_excel`, the
    row-major search for marker cells (`dat[dat == m].stack()`), the three
    validity checks of the raw-data and configuration files, the cascade
    that reports the first failing one, and the report legend. */
module Sheets {
  import opened Basics

  /** A cell: empty (NaN), a text, or a number. */
  datatype Cell = Empty | Text(s: string) | Number(n: real)

  /** The body of a worksheet: `pd.read_excel` takes the file's first row as
      column headers, so `rows` holds the rows after it. */
  datatype Sheet = Sheet(rows: seq<seq<Cell>>, width: nat)

  /** A DataFrame is rectangular. */
  predicate WellFormed(sh: Sheet) {
    forall i :: 0 <= i < |sh.rows| ==> |sh.rows[i]| == sh.width
  }

  /** `p` comes before `q` when the table is read row by row. */
  predicate RowMajorBefore(p: (nat, nat), q: (nat, nat)) {
    p.0 < q.0 || (p.0 == q.0 && p.1 < q.1)
  }

  /** The positions in row `i` holding `v`, left to right. */
  function RowMatches<T(==)>(row: seq<T>, i: nat, v: T): seq<(nat, nat)>
    decreases |row|
  {
    if |row| == 0 then []
    else RowMatches(row[..|row| - 1], i, v) + (if row[|row| - 1] == v then [(i, |row| - 1)] else [])
  }

  /** The positions holding `v`, row by row (what `stack().index.tolist()`
      lists after an equality mask). */
  function Matches<T(==)>(g: seq<seq<T>>, v: T): seq<(nat, nat)>
    decreases |g|
  {
    if |g| == 0 then [] else Matches(g[..|g| - 1], v) + RowMatches(g[|g| - 1], |g| - 1, v)
  }

  /** `g[p.0][p.1]` exists and holds `v`. */
  predicate HoldsAt<T(==)>(g: seq<seq<T>>, v: T, p: (nat, nat)) {
    p.0 < |g| && p.1 < |g[p.0]| && g[p.0][p.1] == v
  }

  lemma {:induction false} RowMatchesSpec<T>(row: seq<T>, i: nat, v: T)
    ensures forall p :: p in RowMatches(row, i, v) <==> p.0 == i && p.1 < |row| && row[p.1] == v
    ensures forall a, b :: 0 <= a < b < |RowMatches(row, i, v)| ==>
      RowMatches(row, i, v)[a].0 == i && RowMatches(row, i, v)[a].1 < RowMatches(row, i, v)[b].1
    decreases |row|
  {
    if |row| > 0 {
      var init := row[..|row| - 1];
      var last := |row| - 1;
      RowMatchesSpec(init, i, v);
      var m := RowMatches(init, i, v);
      var tail: seq<(nat, nat)> := if row[last] == v then [(i, last)] else [];
      assert RowMatches(row, i, v) == m + tail;
      forall p: (nat, nat) ensures p in m + tail <==> p.0 == i && p.1 < |row| && row[p.1] == v {
        assert p in m + tail <==> p in m || p in tail;
        if p.1 < last { assert row[p.1] == init[p.1]; }
      }
      var r := RowMatches(row, i, v);
      forall a, b | 0 <= a < b < |r|
        ensures r[a].0 == i && r[a].1 < r[b].1
      {
        if b >= |m| {
          assert r[b] == (i, last);
          assert r[a] == m[a] && m[a] in m;
        } else {
          assert r[a] == m[a] && r[b] == m[b];
        }
      }
    } else {
      assert RowMatches(row, i, v) == [];
    }
  }

  /** The search lists exactly the positions holding `v`, in row-major order. */
  lemma {:induction false} MatchesSpec<T>(g: seq<seq<T>>, v: T)
    ensures forall p :: p in Matches(g, v) <==> HoldsAt(g, v, p)
    ensures forall a, b :: 0 <= a < b < |Matches(g, v)| ==> RowMajorBefore(Matches(g, v)[a], Matches(g, v)[b])
    decreases |g|
  {
    if |g| > 0 {
      var init := g[..|g| - 1];
      var last := |g| - 1;
      MatchesSpec(init, v);
      RowMatchesSpec(g[last], last, v);
      var m := Matches(init, v);
      var rm := RowMatches(g[last], last, v);
      forall p | p in m ensures p.0 < last {
      }
      forall p: (nat, nat) ensures HoldsAt(g, v, p) <==> HoldsAt(init, v, p) || (p.0 == last && p.1 < |g[last]| && g[last][p.1] == v) {
        if p.0 < last { assert g[p.0] == init[p.0]; }
        assert p in m + rm <==> p in m || p in rm;
      }
      forall a, b | 0 <= a < b < |m + rm| ensures RowMajorBefore((m + rm)[a], (m + rm)[b]) {
        if b >= |m| && a < |m| {
          assert (m + rm)[a] in m;
          assert (m + rm)[b] == rm[b - |m|];
          assert rm[b - |m|] in rm;
        } else if a >= |m| {
          assert (m + rm)[a] == rm[a - |m|] && (m + rm)[b] == rm[b - |m|];
        }
      }
    }
  }

  /** The first position holding `v` (`pos[0]` of the listing). */
  function FirstMatch<T(==)>(g: seq<seq<T>>, v: T): (r: Option<(nat, nat)>)
    ensures r.Some? <==> exists p :: HoldsAt(g, v, p)
    ensures r.Some? ==> HoldsAt(g, v, r.value)
    ensures r.Some? ==> forall p :: HoldsAt(g, v, p) && p != r.value ==> RowMajorBefore(r.value, p)
  {
    MatchesSpec(g, v);
    var m := Matches(g, v);
    if |m| == 0 then
      assert forall p: (nat, nat) :: HoldsAt(g, v, p) ==> p in m;
      None
    else
      assert m[0] in m;
      assert forall p :: HoldsAt(g, v, p) && p != m[0] ==> RowMajorBefore(m[0], p) by {
        forall p | HoldsAt(g, v, p) && p != m[0] ensures RowMajorBefore(m[0], p) {
          assert p in m;
          var k :| 0 <= k < |m| && m[k] == p;
        }
      }
      Some(m[0])
  }

  /** Some cell of the sheet holds the text `m`. */
  ghost predicate Marked(sh: Sheet, m: string) {
    exists p :: HoldsAt(sh.rows, Text(m), p)
  }

  /** tekan_data_check: the raw-data file is rejected when its name does not
      end in `.xlsx` or no cell holds the `<>` marker. */
  function TekanDataCheck(path: string, sh: Sheet): (bad: bool)
    ensures bad <==> !EndsWith(path, ".xlsx") || !Marked(sh, "<>")
  {
    !EndsWith(path, ".xlsx") || FirstMatch(sh.rows, Text("<>")).None?
  }

  /** config_data_check_0: the configuration file is rejected when its name
      does not end in `.xlsx` or one of the markers `<_>` (plate map),
      `<||>` (specification) and `<|>` (standards) is missing. */
  function ConfigDataCheck0(path: string, sh: Sheet): (bad: bool)
    ensures bad <==> !EndsWith(path, ".xlsx") || !Marked(sh, "<_>") || !Marked(sh, "<||>") || !Marked(sh, "<|>")
  {
    (!EndsWith(path, ".xlsx") || FirstMatch(sh.rows, Text("<_>")).None?)
      || (FirstMatch(sh.rows, Text("<||>")).None? || FirstMatch(sh.rows, Text("<|>")).None?)
  }

  /** The nine legend keys of the report header and footer. */
  const LegendKeys: seq<string> := ["SOP_name", "SOP_version", "RESEARCH_name", "TEMPLATE_version",
                                    "EFFECTIVE", "DATE_of_exp", "TEST_No", "PROJECT_NAME", "PERFORMED_BY"]

  /** Some key of `keys` occurs nowhere in the sheet. */
  function AnyMissing(sh: Sheet, keys: seq<string>): (r: bool)
    ensures r <==> exists k :: k in keys && !Marked(sh, k)
    decreases |keys|
  {
    if |keys| == 0 then false
    else
      assert forall k :: k in keys <==> k == keys[0] || k in keys[1..];
      assert FirstMatch(sh.rows, Text(keys[0])).None? <==> !Marked(sh, keys[0]);
      FirstMatch(sh.rows, Text(keys[0])).None? || AnyMissing(sh, keys[1..])
  }

  /** config_data_check_1: rejected when one of the nine legend keys is
      missing from the configuration sheet (the source tests the nine in a
      different order, which does not change the outcome). */
  function ConfigDataCheck1(sh: Sheet): (bad: bool)
    ensures bad <==> exists k :: k in LegendKeys && !Marked(sh, k)
  {
    AnyMissing(sh, LegendKeys)
  }

  /** The outcome of the "parse and check" button. */
  datatype CheckOutcome = RawDataNotMarked | ConfigNotMarked | LegendMissing | Appropriate

  /** The text shown in the information field for each outcome. */
  function Message(o: CheckOutcome): string {
    match o
    case RawDataNotMarked => "Initial data was not marked. Inappropriate data style or file format."
    case ConfigNotMarked => "Data presented in xlsx-config file was not marked. Inappropriate xlsx-configurational data style or file format."
    case LegendMissing => "Configurational template for footers and headers is absent or has inappropriate form."
    case Appropriate => "Appropriate data set"
  }

  /** check_function: the first failing check, in the order raw data,
      configuration markers, legend keys; the later checks are not consulted
      once one fails. */
  function CheckFunction(tekanPath: string, tekan: Sheet, configPath: string, config: Sheet): (o: CheckOutcome)
    ensures o == Appropriate <==> !TekanDataCheck(tekanPath, tekan) && !ConfigDataCheck0(configPath, config) && !ConfigDataCheck1(config)
    ensures o == RawDataNotMarked <==> TekanDataCheck(tekanPath, tekan)
    ensures o == ConfigNotMarked <==> !TekanDataCheck(tekanPath, tekan) && ConfigDataCheck0(configPath, config)
    ensures o == LegendMissing <==> !TekanDataCheck(tekanPath, tekan) && !ConfigDataCheck0(configPath, config) && ConfigDataCheck1(config)
  {
    if TekanDataCheck(tekanPath, tekan) then RawDataNotMarked
    else if ConfigDataCheck0(configPath, config) then ConfigNotMarked
    else if ConfigDataCheck1(config) then LegendMissing
    else Appropriate
  }

  /** `str(cell)`: NaN prints as `nan`; how a float prints is left to
      `showNumber`. */
  function Show(c: Cell, showNumber: real -> string): string {
    match c
    case Empty => "nan"
    case Text(t) => t
    case Number(n) => showNumber(n)
  }

  /** The legend entry for the value cell `c`: whatever prints as `nan`
      becomes a single space. */
  function LegendValue(c: Cell, showNumber: real -> string): (v: string)
    ensures v != "nan"
    ensures v == " " <==> Show(c, showNumber) == "nan" || Show(c, showNumber) == " "
    ensures Show(c, showNumber) != "nan" ==> v == Show(c, showNumber)
  {
    var shown := Show(c, showNumber);
    if shown == "nan" then " " else shown
  }

  /** The cell right of the first occurrence of `key`, if both exist. */
  function ValueRightOf(sh: Sheet, key: string): Option<Cell>
    requires WellFormed(sh)
  {
    match FirstMatch(sh.rows, Text(key))
    case None => None
    case Some(p) => if p.1 + 1 < sh.width then Some(sh.rows[p.0][p.1 + 1]) else None
  }

  /** extract_pdf_legend: for each legend key, the value in the cell right
      of the key's first occurrence. A missing key or a key in the last
      column raises IndexError. */
  method ExtractPdfLegend(sh: Sheet, showNumber: real -> string) returns (r: Result<map<string, string>>)
    requires WellFormed(sh)
    ensures r.Success? <==> forall k :: k in LegendKeys ==> ValueRightOf(sh, k).Some?
    ensures r.Success? ==> r.value.Keys == set k | k in LegendKeys
    ensures r.Success? ==> forall k :: k in LegendKeys ==> r.value[k] == LegendValue(ValueRightOf(sh, k).value, showNumber)
  {
    var legend: map<string, string> := map[];
    for i := 0 to |LegendKeys|
      invariant legend.Keys == set k | k in LegendKeys[..i]
      invariant forall k :: k in LegendKeys[..i] ==> ValueRightOf(sh, k).Some?
      invariant forall k :: k in legend ==> legend[k] == LegendValue(ValueRightOf(sh, k).value, showNumber)
    {
      var key := LegendKeys[i];
      assert LegendKeys[..i + 1] == LegendKeys[..i] + [key];
      var pos := FirstMatch(sh.rows, Text(key));
      if pos.None? || pos.value.1 + 1 >= sh.width {
        assert ValueRightOf(sh, key).None?;
        return Failure("IndexError");
      }
      var value := sh.rows[pos.value.0][pos.value.1 + 1];
      var shown := Show(value, showNumber);
      if shown == "nan" {
        shown := " ";
        legend := legend[key := shown];
      } else {
        legend := legend[key := shown];
      }
    }
    assert LegendKeys[..|LegendKeys|] == LegendKeys;
    return Success(legend);
  }
}
