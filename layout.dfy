/** The table extraction of et_parse_func.py over an in-memory sheet: the
    measurement block under `<>`, the plate map under `<_>` with its label
    normalisation and its check, the standards under `<|>`, and the sample
    specification under `<||>` with the wells each sample occupies. */
module Layout {
  import opened Basics
  import opened Sheets
  import opened LabelText

  /** `str(int(cell))` for a block's header cell. A float is truncated
      toward zero; a text must spell a decimal number; an empty cell (NaN)
      cannot be converted. */
  function HeaderName(c: Cell): Result<string> {
    match c
    case Number(x) => Success(IntToString(Trunc(x)))
    case Text(t) => if |t| > 0 && AllDigits(t) then Success(NatToString(DigitsValue(t))) else Failure("ValueError")
    case Empty => Failure("ValueError")
  }

  /** A header written as the text `"7"` or `"007"` names the same column as
      the number 7. */
  lemma HeaderTextMatchesNumber(t: string)
    requires |t| > 0 && AllDigits(t)
    ensures HeaderName(Text(t)) == HeaderName(Number(DigitsValue(t) as real))
  {
    var n := DigitsValue(t);
    assert Trunc(n as real) == n;
  }

  /** A header printed from a number reads back as that number. */
  lemma HeaderNameRoundTrip(n: nat)
    ensures HeaderName(Text(NatToString(n))) == Success(NatToString(n))
  {
    NatToStringRoundTrip(n);
  }

  /** One column of an extracted block: its header and its cells. */
  datatype NamedColumn = NamedColumn(header: string, cells: seq<Cell>)

  /** An extracted block: the row names (its first column, which becomes the
      index) and the data columns in order of first assignment. */
  datatype Block = Block(rowNames: seq<Cell>, columns: seq<NamedColumn>)

  function Headers(cols: seq<NamedColumn>): (hs: seq<string>)
    ensures |hs| == |cols|
    ensures forall i :: 0 <= i < |cols| ==> hs[i] == cols[i].header
  {
    seq(|cols|, i requires 0 <= i < |cols| => cols[i].header)
  }

  /** `frame[name] = cells`: a column already called `name` is overwritten
      where it stands, otherwise a new column is appended. */
  function SetColumn(cols: seq<NamedColumn>, name: string, cells: seq<Cell>): seq<NamedColumn> {
    if name in Headers(cols) then
      seq(|cols|, i requires 0 <= i < |cols| => if cols[i].header == name then NamedColumn(name, cells) else cols[i])
    else cols + [NamedColumn(name, cells)]
  }

  /** Assigning a column keeps the headers unique and adds `name` to them. */
  lemma SetColumnHeaders(cols: seq<NamedColumn>, name: string, cells: seq<Cell>)
    requires Distinct(Headers(cols))
    ensures Distinct(Headers(SetColumn(cols, name, cells)))
    ensures forall h :: h in Headers(cols) ==> h in Headers(SetColumn(cols, name, cells))
    ensures name in Headers(SetColumn(cols, name, cells))
  {
    var r := SetColumn(cols, name, cells);
    assert forall i :: 0 <= i < |cols| ==> r[i].header == cols[i].header;
    if name !in Headers(cols) {
      assert Headers(r)[|cols|] == name;
    }
  }

  /** How many cells of row `r`, from column `c` on, the block loop reads as
      headers: it stops after 13 cells, at the sheet's edge, or at an empty
      cell. `n` cells have been read so far. */
  function HeaderRun(sh: Sheet, r: nat, c: nat, n: nat): nat
    requires WellFormed(sh) && r < |sh.rows| && n <= 13
    decreases 13 - n
  {
    if n < 13 && c + n < sh.width && sh.rows[r][c + n] != Empty then HeaderRun(sh, r, c, n + 1) else n
  }

  lemma {:induction false} HeaderRunFrom(sh: Sheet, r: nat, c: nat, n: nat)
    requires WellFormed(sh) && r < |sh.rows| && n <= 13
    ensures var w := HeaderRun(sh, r, c, n);
      && n <= w <= 13
      && (w > n ==> c + w <= sh.width)
      && (forall j :: c + n <= j < c + w ==> j < sh.width && sh.rows[r][j] != Empty)
      && (w < 13 ==> c + w >= sh.width || sh.rows[r][c + w] == Empty)
    decreases 13 - n
  {
    if n < 13 && c + n < sh.width && sh.rows[r][c + n] != Empty {
      HeaderRunFrom(sh, r, c, n + 1);
    }
  }

  /** `iloc[r+1:r+9, c]`: the cells of column `c` in the (at most) eight
      rows below row `r`. */
  function ColumnSlice(sh: Sheet, r: nat, c: nat): (cells: seq<Cell>)
    requires WellFormed(sh) && r < |sh.rows| && c < sh.width
    ensures |cells| == if r + 9 <= |sh.rows| then 8 else |sh.rows| - r - 1
    ensures forall k :: 0 <= k < |cells| ==> cells[k] == sh.rows[r + 1 + k][c]
  {
    var len := if r + 9 <= |sh.rows| then 8 else |sh.rows| - r - 1;
    seq(len, k requires 0 <= k < len => sh.rows[r + 1 + k][c])
  }

  /** The data columns assigned by the first `n` turns of the block loop
      (turn 0 only sets the row names). */
  function BlockColumns(sh: Sheet, r: nat, c: nat, n: nat): Result<seq<NamedColumn>>
    requires WellFormed(sh) && r < |sh.rows| && c + n <= sh.width
    decreases n
  {
    if n <= 1 then Success([])
    else
      match BlockColumns(sh, r, c, n - 1)
      case Failure(e) => Failure(e)
      case Success(cols) =>
        match HeaderName(sh.rows[r][c + n - 1])
        case Failure(e) => Failure(e)
        case Success(h) => Success(SetColumn(cols, h, ColumnSlice(sh, r, c + n - 1)))
  }

  lemma {:induction false} BlockColumnsFailureSticks(sh: Sheet, r: nat, c: nat, m: nat, n: nat)
    requires WellFormed(sh) && r < |sh.rows| && m <= n && c + n <= sh.width
    requires BlockColumns(sh, r, c, m).Failure?
    ensures BlockColumns(sh, r, c, n) == BlockColumns(sh, r, c, m)
    decreases n
  {
    if n > m {
      BlockColumnsFailureSticks(sh, r, c, m, n - 1);
    }
  }

  /** The block whose marker cell is at row `r`, column `c`. */
  function BlockAt(sh: Sheet, r: nat, c: nat): Result<Block>
    requires WellFormed(sh) && r < |sh.rows| && c < sh.width && sh.rows[r][c] != Empty
  {
    HeaderRunFrom(sh, r, c, 0);
    var w := HeaderRun(sh, r, c, 0);
    match BlockColumns(sh, r, c, w)
    case Failure(e) => Failure(e)
    case Success(cols) => Success(Block(ColumnSlice(sh, r, c), cols))
  }

  /** The block under the first cell holding `marker`; `pos[0]` of an empty
      search raises IndexError. */
  function BlockUnder(sh: Sheet, marker: string): Result<Block>
    requires WellFormed(sh)
  {
    match FirstMatch(sh.rows, Text(marker))
    case None => Failure("IndexError")
    case Some(p) => BlockAt(sh, p.0, p.1)
  }

  /** Column `col` of a block was read from the header cell in row `r`,
      column `j`. */
  predicate ReadFrom(sh: Sheet, r: nat, j: nat, col: NamedColumn) {
    && WellFormed(sh) && r < |sh.rows| && j < sh.width
    && HeaderName(sh.rows[r][j]) == Success(col.header)
    && col.cells == ColumnSlice(sh, r, j)
  }

  /** Column `col` was read from some header cell in row `r` strictly
      between column `c` and column `c + n`. */
  ghost predicate Sourced(sh: Sheet, r: nat, c: nat, n: nat, col: NamedColumn) {
    exists j :: c + 1 <= j < c + n && ReadFrom(sh, r, j, col)
  }

  /** The block's headers are unique, at most one per header cell read. */
  lemma {:induction false} BlockColumnsDistinct(sh: Sheet, r: nat, c: nat, n: nat)
    requires WellFormed(sh) && r < |sh.rows| && c + n <= sh.width && n >= 1
    requires BlockColumns(sh, r, c, n).Success?
    ensures |BlockColumns(sh, r, c, n).value| <= n - 1
    ensures Distinct(Headers(BlockColumns(sh, r, c, n).value))
    decreases n
  {
    if n > 1 {
      BlockColumnsDistinct(sh, r, c, n - 1);
      SetColumnHeaders(BlockColumns(sh, r, c, n - 1).value, HeaderName(sh.rows[r][c + n - 1]).value,
                       ColumnSlice(sh, r, c + n - 1));
    }
  }

  /** Every header cell right of the marker names a column of the block. */
  lemma {:induction false} BlockColumnsComplete(sh: Sheet, r: nat, c: nat, n: nat)
    requires WellFormed(sh) && r < |sh.rows| && c + n <= sh.width && n >= 1
    requires BlockColumns(sh, r, c, n).Success?
    ensures forall j :: c + 1 <= j < c + n ==> HeaderName(sh.rows[r][j]).Success?
                                               && HeaderName(sh.rows[r][j]).value in Headers(BlockColumns(sh, r, c, n).value)
    decreases n
  {
    if n > 1 {
      BlockColumnsComplete(sh, r, c, n - 1);
      BlockColumnsDistinct(sh, r, c, n - 1);
      SetColumnHeaders(BlockColumns(sh, r, c, n - 1).value, HeaderName(sh.rows[r][c + n - 1]).value,
                       ColumnSlice(sh, r, c + n - 1));
    }
  }

  /** Every column of the block holds the cells below a header cell that
      names it. */
  lemma {:induction false} BlockColumnsSourced(sh: Sheet, r: nat, c: nat, n: nat)
    requires WellFormed(sh) && r < |sh.rows| && c + n <= sh.width && n >= 1
    requires BlockColumns(sh, r, c, n).Success?
    ensures forall i :: 0 <= i < |BlockColumns(sh, r, c, n).value| ==> Sourced(sh, r, c, n, BlockColumns(sh, r, c, n).value[i])
    decreases n
  {
    if n > 1 {
      BlockColumnsSourced(sh, r, c, n - 1);
      var prev := BlockColumns(sh, r, c, n - 1).value;
      var h := HeaderName(sh.rows[r][c + n - 1]).value;
      var added := NamedColumn(h, ColumnSlice(sh, r, c + n - 1));
      var cols := BlockColumns(sh, r, c, n).value;
      assert cols == SetColumn(prev, h, added.cells);
      assert ReadFrom(sh, r, c + n - 1, added);
      forall i | 0 <= i < |cols| ensures Sourced(sh, r, c, n, cols[i]) {
        if i < |prev| && prev[i].header != h {
          assert cols[i] == prev[i];
          assert Sourced(sh, r, c, n - 1, prev[i]);
          var j :| c + 1 <= j < c + n - 1 && ReadFrom(sh, r, j, prev[i]);
          assert c + 1 <= j < c + n && ReadFrom(sh, r, j, cols[i]);
        } else {
          assert cols[i] == added;
          assert ReadFrom(sh, r, c + n - 1, cols[i]);
        }
      }
    }
  }

  /** What extract_meas_res and extract_data_map promise about the block they
      build under a marker at row `r`, column `c`: the header row is read for
      at most 13 cells and stops at the sheet's edge or the first empty cell;
      the row names are the (at most) eight cells below the marker; every
      header cell right of the marker names a column, headers are unique,
      and each column holds the (at most) eight cells below its header. */
  lemma BlockShape(sh: Sheet, r: nat, c: nat)
    requires WellFormed(sh) && r < |sh.rows| && c < sh.width && sh.rows[r][c] != Empty
    requires BlockAt(sh, r, c).Success?
    ensures 1 <= HeaderRun(sh, r, c, 0) <= 13
    ensures c + HeaderRun(sh, r, c, 0) <= sh.width
    ensures HeaderRun(sh, r, c, 0) < 13 && c + HeaderRun(sh, r, c, 0) < sh.width ==> sh.rows[r][c + HeaderRun(sh, r, c, 0)] == Empty
    ensures BlockAt(sh, r, c).value.rowNames == ColumnSlice(sh, r, c)
    ensures |BlockAt(sh, r, c).value.columns| < HeaderRun(sh, r, c, 0)
    ensures Distinct(Headers(BlockAt(sh, r, c).value.columns))
    ensures forall j :: c + 1 <= j < c + HeaderRun(sh, r, c, 0) ==>
              HeaderName(sh.rows[r][j]).Success? && HeaderName(sh.rows[r][j]).value in Headers(BlockAt(sh, r, c).value.columns)
    ensures forall i :: 0 <= i < |BlockAt(sh, r, c).value.columns| ==>
              Sourced(sh, r, c, HeaderRun(sh, r, c, 0), BlockAt(sh, r, c).value.columns[i])
  {
    HeaderRunBounds(sh, r, c);
    BlockAtUnfold(sh, r, c);
    var w := HeaderRun(sh, r, c, 0);
    var cols := BlockColumns(sh, r, c, w).value;
    assert BlockAt(sh, r, c).value.columns == cols;
    BlockColumnsShape(sh, r, c, w);
  }

  /** The header run under a non-empty marker has at least one cell. */
  lemma HeaderRunBounds(sh: Sheet, r: nat, c: nat)
    requires WellFormed(sh) && r < |sh.rows| && c < sh.width && sh.rows[r][c] != Empty
    ensures 1 <= HeaderRun(sh, r, c, 0) <= 13
    ensures c + HeaderRun(sh, r, c, 0) <= sh.width
    ensures HeaderRun(sh, r, c, 0) < 13 && c + HeaderRun(sh, r, c, 0) < sh.width ==> sh.rows[r][c + HeaderRun(sh, r, c, 0)] == Empty
  {
    HeaderRunFrom(sh, r, c, 0);
  }

  /** The facts of BlockShape about the columns, for a run of `n` cells. */
  lemma BlockColumnsShape(sh: Sheet, r: nat, c: nat, n: nat)
    requires WellFormed(sh) && r < |sh.rows| && c + n <= sh.width && n >= 1
    requires BlockColumns(sh, r, c, n).Success?
    ensures |BlockColumns(sh, r, c, n).value| < n
    ensures Distinct(Headers(BlockColumns(sh, r, c, n).value))
    ensures forall j :: c + 1 <= j < c + n ==>
              HeaderName(sh.rows[r][j]).Success? && HeaderName(sh.rows[r][j]).value in Headers(BlockColumns(sh, r, c, n).value)
    ensures forall i :: 0 <= i < |BlockColumns(sh, r, c, n).value| ==>
              Sourced(sh, r, c, n, BlockColumns(sh, r, c, n).value[i])
  {
    BlockColumnsDistinct(sh, r, c, n);
    BlockColumnsComplete(sh, r, c, n);
    BlockColumnsSourced(sh, r, c, n);
  }

  lemma BlockAtUnfold(sh: Sheet, r: nat, c: nat)
    requires WellFormed(sh) && r < |sh.rows| && c < sh.width && sh.rows[r][c] != Empty
    requires BlockAt(sh, r, c).Success?
    ensures 1 <= HeaderRun(sh, r, c, 0) && c + HeaderRun(sh, r, c, 0) <= sh.width
    ensures BlockColumns(sh, r, c, HeaderRun(sh, r, c, 0)).Success?
    ensures BlockAt(sh, r, c).value == Block(ColumnSlice(sh, r, c), BlockColumns(sh, r, c, HeaderRun(sh, r, c, 0)).value)
  {
    HeaderRunFrom(sh, r, c, 0);
  }

  /** The `while` loop shared by extract_meas_res and extract_data_map: walk
      right along the marker's row, taking the row names on the first turn
      and one column per later turn. */
  method ReadBlock(sh: Sheet, r: nat, c: nat) returns (b: Result<Block>)
    requires WellFormed(sh) && r < |sh.rows| && c < sh.width && sh.rows[r][c] != Empty
    ensures b == BlockAt(sh, r, c)
  {
    ghost var w := HeaderRun(sh, r, c, 0);
    HeaderRunFrom(sh, r, c, 0);
    var rowNames: seq<Cell> := [];
    var columns: seq<NamedColumn> := [];
    var n := 0;
    while n < 13 && c + n < sh.width && sh.rows[r][c + n] != Empty
      invariant n <= 13 && c + n <= sh.width
      invariant HeaderRun(sh, r, c, n) == w
      invariant n >= 1 ==> rowNames == ColumnSlice(sh, r, c)
      invariant BlockColumns(sh, r, c, n) == Success(columns)
      decreases 13 - n
    {
      if n == 0 {
        rowNames := ColumnSlice(sh, r, c);
      } else {
        var h := HeaderName(sh.rows[r][c + n]);
        if h.Failure? {
          ReadBlockFails(sh, r, c, n);
          return Failure(h.error);
        }
        columns := SetColumn(columns, h.value, ColumnSlice(sh, r, c + n));
        assert BlockColumns(sh, r, c, n + 1) == Success(columns);
      }
      n := n + 1;
    }
    ReadBlockDone(sh, r, c, n, columns);
    return Success(Block(rowNames, columns));
  }

  /** A header cell that is not a name ends the block loop with its error. */
  lemma ReadBlockFails(sh: Sheet, r: nat, c: nat, n: nat)
    requires WellFormed(sh) && r < |sh.rows| && c < sh.width && sh.rows[r][c] != Empty
    requires 1 <= n < 13 && c + n < sh.width && sh.rows[r][c + n] != Empty
    requires HeaderRun(sh, r, c, n) == HeaderRun(sh, r, c, 0)
    requires BlockColumns(sh, r, c, n).Success? && HeaderName(sh.rows[r][c + n]).Failure?
    ensures BlockAt(sh, r, c) == Failure(HeaderName(sh.rows[r][c + n]).error)
  {
    var w := HeaderRun(sh, r, c, 0);
    assert BlockColumns(sh, r, c, n + 1) == Failure(HeaderName(sh.rows[r][c + n]).error);
    HeaderRunFrom(sh, r, c, n + 1);
    HeaderRunFrom(sh, r, c, 0);
    BlockColumnsFailureSticks(sh, r, c, n + 1, w);
  }

  /** When the block loop stops, it has read exactly the header run. */
  lemma ReadBlockDone(sh: Sheet, r: nat, c: nat, n: nat, columns: seq<NamedColumn>)
    requires WellFormed(sh) && r < |sh.rows| && c < sh.width && sh.rows[r][c] != Empty
    requires n <= 13 && c + n <= sh.width
    requires !(n < 13 && c + n < sh.width && sh.rows[r][c + n] != Empty)
    requires HeaderRun(sh, r, c, n) == HeaderRun(sh, r, c, 0)
    requires BlockColumns(sh, r, c, n) == Success(columns)
    ensures n >= 1
    ensures BlockAt(sh, r, c) == Success(Block(ColumnSlice(sh, r, c), columns))
  {
    HeaderRunFrom(sh, r, c, 0);
  }

  /** The marker search followed by the block loop; `pos[0]` of an empty
      search raises IndexError. */
  method ExtractBlock(sh: Sheet, marker: string) returns (b: Result<Block>)
    requires WellFormed(sh)
    ensures b == BlockUnder(sh, marker)
  {
    var pos := FirstMatch(sh.rows, Text(marker));
    if pos.None? {
      return Failure("IndexError");
    }
    b := ReadBlock(sh, pos.value.0, pos.value.1);
  }

  /** extract_meas_res: the measurement block under `<>`. */
  method ExtractMeasRes(sh: Sheet) returns (b: Result<Block>)
    requires WellFormed(sh)
    ensures b == BlockUnder(sh, "<>")
  {
    b := ExtractBlock(sh, "<>");
  }

  /** A plate-map cell after `fillna('Empty')` and the three label lambdas
      of extract_data_map; a number reaching `re.sub` raises TypeError. */
  function LabelOf(c: Cell): Result<string> {
    match c
    case Empty => Success(Normalise("Empty"))
    case Text(t) => Success(Normalise(t))
    case Number(_) => Failure("TypeError")
  }

  /** An empty well is labelled `empty`; every label is already normal:
      only lower-case letters, digits and `_`, unchanged by normalising it
      again. Only a number fails. */
  lemma LabelOfSpec(c: Cell)
    ensures LabelOf(c).Success? <==> !c.Number?
    ensures c == Empty ==> LabelOf(c) == Success("empty")
    ensures LabelOf(c).Success? ==> Normalise(LabelOf(c).value) == LabelOf(c).value
    ensures LabelOf(c).Success? ==> forall ch :: ch in LabelOf(c).value ==> IsLabelChar(ch)
  {
    match c
    case Empty =>
      WordCharsKeepsWords("Empty");
      assert Lower("Empty") == "empty";
      RemoveSpacesKeepsSpaceless("empty");
      NormaliseIdempotent("Empty");
      NormaliseIsLabel("Empty");
    case Text(t) =>
      NormaliseIdempotent(t);
      NormaliseIsLabel(t);
    case Number(_) =>
  }

  /** One column of the plate map: its header and a label per well. */
  datatype LabelColumn = LabelColumn(header: string, labels: seq<string>)

  /** The plate map: row names and labelled columns. */
  datatype DataMap = DataMap(rowNames: seq<Cell>, columns: seq<LabelColumn>)

  function NormaliseColumn(col: NamedColumn): Result<LabelColumn> {
    match Apply(LabelOf, col.cells)
    case Failure(e) => Failure(e)
    case Success(ls) => Success(LabelColumn(col.header, ls))
  }

  /** extract_data_map's result: the block under `<_>` with every cell
      labelled. */
  function DataMapOf(sh: Sheet): Result<DataMap>
    requires WellFormed(sh)
  {
    match BlockUnder(sh, "<_>")
    case Failure(e) => Failure(e)
    case Success(b) =>
      match Apply(NormaliseColumn, b.columns)
      case Failure(e) => Failure(e)
      case Success(cols) => Success(DataMap(b.rowNames, cols))
  }

  /** The plate map keeps the block's row names and headers and labels each
      of its cells. */
  lemma DataMapLabels(sh: Sheet)
    requires WellFormed(sh) && DataMapOf(sh).Success?
    ensures BlockUnder(sh, "<_>").Success?
    ensures DataMapOf(sh).value.rowNames == BlockUnder(sh, "<_>").value.rowNames
    ensures |DataMapOf(sh).value.columns| == |BlockUnder(sh, "<_>").value.columns|
    ensures forall j :: 0 <= j < |DataMapOf(sh).value.columns| ==>
              var b := BlockUnder(sh, "<_>").value.columns[j];
              var l := DataMapOf(sh).value.columns[j];
              && l.header == b.header
              && |l.labels| == |b.cells|
              && forall i :: 0 <= i < |b.cells| ==> LabelOf(b.cells[i]) == Success(l.labels[i])
  {
    var b := BlockUnder(sh, "<_>").value;
    var cols := Apply(NormaliseColumn, b.columns).value;
    forall j | 0 <= j < |cols|
      ensures cols[j].header == b.columns[j].header && |cols[j].labels| == |b.columns[j].cells|
      ensures forall i :: 0 <= i < |b.columns[j].cells| ==> LabelOf(b.columns[j].cells[i]) == Success(cols[j].labels[i])
    {
      assert NormaliseColumn(b.columns[j]) == Success(cols[j]);
    }
  }

  /** extract_data_map: the block under `<_>`, then each column's cells
      through the label lambdas. */
  method ExtractDataMap(sh: Sheet) returns (m: Result<DataMap>)
    requires WellFormed(sh)
    ensures m == DataMapOf(sh)
  {
    var block := ExtractBlock(sh, "<_>");
    if block.Failure? {
      return Failure(block.error);
    }
    var cols := block.value.columns;
    var labelled: seq<LabelColumn> := [];
    for j := 0 to |cols|
      invariant Apply(NormaliseColumn, cols[..j]) == Success(labelled)
    {
      var col := NormaliseColumn(cols[j]);
      if col.Failure? {
        ApplyFailsAt(NormaliseColumn, cols, j);
        return Failure(col.error);
      }
      ApplyStep(NormaliseColumn, cols, j, labelled);
      labelled := labelled + [col.value];
    }
    assert cols[..|cols|] == cols;
    return Success(DataMap(block.value.rowNames, labelled));
  }

  /** A well label the tool understands, once its digits are removed. */
  predicate SamOrStd(s: string) {
    s == "sam" || s == "std"
  }

  /** data_map_check: true when some label, with its digits removed, is
      neither `sam` nor `std`. */
  method DataMapCheck(m: DataMap) returns (bad: bool)
    ensures bad <==> exists j, i :: 0 <= j < |m.columns| && 0 <= i < |m.columns[j].labels|
                                    && !SamOrStd(StripDigits(m.columns[j].labels[i]))
  {
    bad := false;
    for j := 0 to |m.columns|
      invariant bad <==> exists j', i :: 0 <= j' < j && 0 <= i < |m.columns[j'].labels|
                                         && !SamOrStd(StripDigits(m.columns[j'].labels[i]))
    {
      var labels := m.columns[j].labels;
      var stripped := seq(|labels|, i requires 0 <= i < |labels| => StripDigits(labels[i]));
      ghost var before := bad;
      for i := 0 to |stripped|
        invariant bad <==> before || exists i' :: 0 <= i' < i && !SamOrStd(StripDigits(labels[i']))
      {
        if stripped[i] == "sam" || stripped[i] == "std" {
          continue;
        } else {
          bad := true;
        }
      }
    }
  }

  /** An empty well fails the map check: `empty` is neither `sam` nor `std`
      once digits are removed. */
  lemma EmptyWellFailsCheck(m: DataMap, j: nat, i: nat)
    requires j < |m.columns| && i < |m.columns[j].labels| && m.columns[j].labels[i] == "empty"
    ensures exists j', i' :: 0 <= j' < |m.columns| && 0 <= i' < |m.columns[j'].labels|
                             && !SamOrStd(StripDigits(m.columns[j'].labels[i']))
  {
    StripDigitsOfEmpty();
    assert !SamOrStd(StripDigits(m.columns[j].labels[i]));
  }

  lemma StripDigitsOfEmpty()
    ensures StripDigits("empty") == "empty"
  {
    assert StripDigits("") == "";
    assert StripDigits("e") == "e" by { assert "e"[..0] == ""; }
    assert StripDigits("em") == "em" by { assert "em"[..1] == "e"; }
    assert StripDigits("emp") == "emp" by { assert "emp"[..2] == "em"; }
    assert StripDigits("empt") == "empt" by { assert "empt"[..3] == "emp"; }
    assert "empty"[..4] == "empt";
  }

  /** The distinct labels of the map, `set(imp_data_map.stack())`. */
  function MapLabels(m: DataMap): set<string> {
    set j, i | 0 <= j < |m.columns| && 0 <= i < |m.columns[j].labels| :: m.columns[j].labels[i]
  }

  /** The labels naming a standard: those containing `std`. */
  function StandardLabels(labels: set<string>): set<string> {
    set l | l in labels && Contains(l, "std")
  }

  /** The counting loop of extract_data_standards, over the label set in
      whatever order the set yields them. */
  method CountStandards(labels: set<string>) returns (count: nat)
    ensures count == |StandardLabels(labels)|
  {
    count := 0;
    var rest := labels;
    assert labels - rest == {};
    assert StandardLabels({}) == {};
    while rest != {}
      invariant rest <= labels
      invariant count == |StandardLabels(labels - rest)|
      decreases |rest|
    {
      var v :| v in rest;
      ghost var done := labels - rest;
      assert labels - (rest - {v}) == done + {v};
      assert v !in done;
      if Contains(v, "std") {
        assert StandardLabels(done + {v}) == StandardLabels(done) + {v};
        count := count + 1;
      } else {
        assert StandardLabels(done + {v}) == StandardLabels(done);
      }
      rest := rest - {v};
    }
    assert labels - rest == labels;
  }

  /** The value that replaces a zero concentration. */
  const Epsilon: real := 0.0001

  /** One standard: its name key and its concentration cell. */
  datatype Standard = Standard(name: string, value: Cell)

  /** `x.lower()` then `x.replace(' ', '')` on a standard's name; a cell
      that is not text has no `lower` and raises AttributeError. */
  function NameKey(c: Cell): Result<string> {
    if c.Text? then Success(RemoveSpaces(Lower(c.s))) else Failure("AttributeError")
  }

  /** The standards table under a `<|>` marker at `p` can be read for `n`
      standards: `n` rows exist below it, a value column exists right of it,
      and every name cell is text. */
  predicate StandardsReadable(sh: Sheet, p: (nat, nat), n: nat)
    requires WellFormed(sh)
  {
    && p.0 + n < |sh.rows| && p.1 + 1 < sh.width
    && forall i :: p.0 + 1 <= i <= p.0 + n ==> sh.rows[i][p.1].Text?
  }

  /** `st` is the standard read from row `i`: the name key of the cell in
      column `c`, and the value right of it with a zero replaced by
      `Epsilon`. */
  predicate StandardFrom(sh: Sheet, i: nat, c: nat, st: Standard)
    requires WellFormed(sh) && i < |sh.rows| && c + 1 < sh.width
  {
    && sh.rows[i][c].Text?
    && st.name == RemoveSpaces(Lower(sh.rows[i][c].s))
    && st.value == if sh.rows[i][c + 1] == Number(0.0) then Number(Epsilon) else sh.rows[i][c + 1]
  }

  /** `sts` are the `n` standards read below the marker at `p`, in row order. */
  predicate StandardsRead(sh: Sheet, p: (nat, nat), n: nat, sts: seq<Standard>)
    requires WellFormed(sh) && p.0 + n < |sh.rows| && p.1 + 1 < sh.width
  {
    |sts| == n && forall k :: 0 <= k < n ==> StandardFrom(sh, p.0 + 1 + k, p.1, sts[k])
  }

  /** The reading part of extract_data_standards: `count` names below the
      marker at `p` (the `std_list` loop), their values one column right,
      the name lambdas and the zero replacement. */
  method ReadStandards(sh: Sheet, p: (nat, nat), count: nat) returns (r: Result<seq<Standard>>)
    requires WellFormed(sh) && p.0 < |sh.rows| && p.1 < sh.width
    ensures r.Success? <==> StandardsReadable(sh, p, count)
    ensures r.Success? ==> StandardsRead(sh, p, count, r.value)
  {
    var row, col := p.0, p.1;
    var names: seq<Cell> := [];
    var n := 1;
    while n <= count
      invariant 1 <= n <= count + 1 && row + n - 1 < |sh.rows|
      invariant |names| == n - 1
      invariant forall k :: 0 <= k < n - 1 ==> names[k] == sh.rows[row + 1 + k][col]
    {
      if row + n >= |sh.rows| {
        return Failure("IndexError");
      }
      names := names + [sh.rows[row + n][col]];
      n := n + 1;
    }
    if col + 1 >= sh.width {
      return Failure("IndexError");
    }
    var values := seq(count, k requires 0 <= k < count => sh.rows[row + 1 + k][col + 1]);
    var standards: seq<Standard> := [];
    for k := 0 to count
      invariant |standards| == k
      invariant forall i :: 0 <= i < k ==> StandardFrom(sh, row + 1 + i, col, standards[i])
    {
      var key := NameKey(names[k]);
      if key.Failure? {
        assert !sh.rows[row + 1 + k][col].Text?;
        return Failure(key.error);
      }
      var v := values[k];
      if v == Number(0.0) {
        v := Number(Epsilon);
      }
      standards := standards + [Standard(key.value, v)];
      assert StandardFrom(sh, row + 1 + k, col, standards[k]);
    }
    forall i | p.0 + 1 <= i <= p.0 + count ensures sh.rows[i][col].Text? {
      assert StandardFrom(sh, row + 1 + (i - row - 1), col, standards[i - row - 1]);
    }
    return Success(standards);
  }

  /** extract_data_standards: count the distinct map labels that contain
      `std`, then read that many names and values below the `<|>` marker. */
  method ExtractDataStandards(sh: Sheet) returns (r: Result<seq<Standard>>)
    requires WellFormed(sh)
    ensures DataMapOf(sh).Failure? ==> r == Failure(DataMapOf(sh).error)
    ensures DataMapOf(sh).Success? && FirstMatch(sh.rows, Text("<|>")).None? ==> r == Failure("IndexError")
    ensures DataMapOf(sh).Success? && FirstMatch(sh.rows, Text("<|>")).Some? ==>
      var n := |StandardLabels(MapLabels(DataMapOf(sh).value))|;
      var p := FirstMatch(sh.rows, Text("<|>")).value;
      && (r.Success? <==> StandardsReadable(sh, p, n))
      && (r.Success? ==> StandardsRead(sh, p, n, r.value))
  {
    var m := ExtractDataMap(sh);
    if m.Failure? {
      return Failure(m.error);
    }
    var count := CountStandards(MapLabels(m.value));
    var pos := FirstMatch(sh.rows, Text("<|>"));
    if pos.None? {
      return Failure("IndexError");
    }
    r := ReadStandards(sh, pos.value, count);
  }

  /** One row of the sample specification: a normalised abbreviation and its
      description cell. */
  datatype SpecRow = SpecRow(abbr: string, description: Cell)

  /** How many rows the `while` loop of extract_specification reads down
      column `c` from row `start`: until an empty cell or the sheet's end.
      `n` rows have been read so far. */
  function SpecRun(sh: Sheet, start: nat, c: nat, n: nat): nat
    requires WellFormed(sh) && c < sh.width && start + n <= |sh.rows|
    decreases |sh.rows| - (start + n)
  {
    if start + n < |sh.rows| && sh.rows[start + n][c] != Empty then SpecRun(sh, start, c, n + 1) else n
  }

  lemma {:induction false} SpecRunFrom(sh: Sheet, start: nat, c: nat, n: nat)
    requires WellFormed(sh) && c < sh.width && start + n <= |sh.rows|
    ensures var w := SpecRun(sh, start, c, n);
      && n <= w && start + w <= |sh.rows|
      && (forall i :: start + n <= i < start + w ==> sh.rows[i][c] != Empty)
      && (start + w < |sh.rows| ==> sh.rows[start + w][c] == Empty)
    decreases |sh.rows| - (start + n)
  {
    if start + n < |sh.rows| && sh.rows[start + n][c] != Empty {
      SpecRunFrom(sh, start, c, n + 1);
    }
  }

  /** `re.sub` and the other lambdas on an abbreviation cell: text is
      normalised, anything else raises TypeError. */
  function AbbrOf(c: Cell): Result<string> {
    if c.Text? then Success(Normalise(c.s)) else Failure("TypeError")
  }

  /** extract_specification's result (its `sort_values` call discards its
      result and changes nothing). */
  function SpecificationOf(sh: Sheet): Result<seq<SpecRow>>
    requires WellFormed(sh)
  {
    match FirstMatch(sh.rows, Text("<||>"))
    case None => Failure("IndexError")
    case Some(p) => SpecificationAt(sh, p)
  }

  /** The specification under a `<||>` marker at row `p.0`, column `p.1`:
      `iloc[N, c + 1]` past the sheet's right edge raises IndexError. */
  function SpecificationAt(sh: Sheet, p: (nat, nat)): Result<seq<SpecRow>>
    requires WellFormed(sh) && p.0 < |sh.rows| && p.1 < sh.width
  {
    var start := p.0 + 1;
    var w := SpecRun(sh, start, p.1, 0);
    if w > 0 && p.1 + 1 >= sh.width then Failure("IndexError")
    else
      SpecRunFrom(sh, start, p.1, 0);
      SpecRowsOf(CellsDown(sh, start, p.1, w), CellsDown(sh, start, p.1 + 1, w))
  }

  /** The `n` cells of column `c` from row `start` down. */
  function CellsDown(sh: Sheet, start: nat, c: nat, n: nat): (cells: seq<Cell>)
    requires WellFormed(sh) && start + n <= |sh.rows| && (n == 0 || c < sh.width)
    ensures |cells| == n
    ensures forall k :: 0 <= k < n ==> cells[k] == sh.rows[start + k][c]
  {
    seq(n, k requires 0 <= k < n => sh.rows[start + k][c])
  }

  /** The specification rows made from the abbreviation and description
      cells read, once the abbreviations are normalised. */
  function SpecRowsOf(abbr: seq<Cell>, descr: seq<Cell>): Result<seq<SpecRow>>
    requires |abbr| == |descr|
  {
    match Apply(AbbrOf, abbr)
    case Failure(e) => Failure(e)
    case Success(names) => Success(seq(|descr|, k requires 0 <= k < |descr| => SpecRow(names[k], descr[k])))
  }

  /** The specification rows are read from the row below `<||>` down to the
      first empty cell or the sheet's end; each abbreviation is a text cell,
      normalised, with the cell to its right as its description. */
  lemma SpecificationRows(sh: Sheet)
    requires WellFormed(sh) && SpecificationOf(sh).Success?
    ensures FirstMatch(sh.rows, Text("<||>")).Some?
    ensures var p := FirstMatch(sh.rows, Text("<||>")).value;
            var spec := SpecificationOf(sh).value;
      && p.0 + 1 + |spec| <= |sh.rows|
      && (p.0 + 1 + |spec| < |sh.rows| ==> sh.rows[p.0 + 1 + |spec|][p.1] == Empty)
      && (|spec| > 0 ==> p.1 + 1 < sh.width)
      && forall k :: 0 <= k < |spec| ==>
           && AbbrOf(sh.rows[p.0 + 1 + k][p.1]) == Success(spec[k].abbr)
           && spec[k].description == sh.rows[p.0 + 1 + k][p.1 + 1]
  {
    var p := FirstMatch(sh.rows, Text("<||>")).value;
    assert HoldsAt(sh.rows, Text("<||>"), p);
    SpecificationAtRows(sh, p);
  }

  /** SpecificationRows for a marker at a given position. */
  lemma SpecificationAtRows(sh: Sheet, p: (nat, nat))
    requires WellFormed(sh) && p.0 < |sh.rows| && p.1 < sh.width
    requires SpecificationAt(sh, p).Success?
    ensures p.0 + 1 + |SpecificationAt(sh, p).value| <= |sh.rows|
    ensures var n := |SpecificationAt(sh, p).value|;
      p.0 + 1 + n < |sh.rows| ==> sh.rows[p.0 + 1 + n][p.1] == Empty
    ensures |SpecificationAt(sh, p).value| > 0 ==> p.1 + 1 < sh.width
    ensures var spec := SpecificationAt(sh, p).value;
      forall k :: 0 <= k < |spec| ==>
           && AbbrOf(sh.rows[p.0 + 1 + k][p.1]) == Success(spec[k].abbr)
           && spec[k].description == sh.rows[p.0 + 1 + k][p.1 + 1]
  {
    var start := p.0 + 1;
    SpecRunFrom(sh, start, p.1, 0);
    var w := SpecRun(sh, start, p.1, 0);
    assert !(w > 0 && p.1 + 1 >= sh.width);
    var a := CellsDown(sh, start, p.1, w);
    var d := CellsDown(sh, start, p.1 + 1, w);
    assert SpecificationAt(sh, p) == SpecRowsOf(a, d);
    SpecRowsOfSpec(a, d);
    var spec := SpecificationAt(sh, p).value;
    assert |spec| == w;
    forall k | 0 <= k < |spec|
      ensures AbbrOf(sh.rows[p.0 + 1 + k][p.1]) == Success(spec[k].abbr)
      ensures spec[k].description == sh.rows[p.0 + 1 + k][p.1 + 1]
    {
      assert a[k] == sh.rows[p.0 + 1 + k][p.1];
      assert d[k] == sh.rows[p.0 + 1 + k][p.1 + 1];
    }
  }

  /** Each specification row holds a normalised text abbreviation and the
      description read beside it. */
  lemma SpecRowsOfSpec(abbr: seq<Cell>, descr: seq<Cell>)
    requires |abbr| == |descr| && SpecRowsOf(abbr, descr).Success?
    ensures |SpecRowsOf(abbr, descr).value| == |abbr|
    ensures forall k :: 0 <= k < |abbr| ==>
      && AbbrOf(abbr[k]) == Success(SpecRowsOf(abbr, descr).value[k].abbr)
      && SpecRowsOf(abbr, descr).value[k].description == descr[k]
  {
  }

  /** extract_specification: read abbreviations and descriptions down from
      the row below `<||>`, then normalise the abbreviations. */
  method ExtractSpecification(sh: Sheet) returns (r: Result<seq<SpecRow>>)
    requires WellFormed(sh)
    ensures r == SpecificationOf(sh)
  {
    var pos := FirstMatch(sh.rows, Text("<||>"));
    if pos.None? {
      return Failure("IndexError");
    }
    assert HoldsAt(sh.rows, Text("<||>"), pos.value);
    r := ReadSpecification(sh, pos.value);
  }

  /** The `while` loop of extract_specification under a marker at row
      `p.0`, column `p.1`, and the normalising of what it read. */
  method ReadSpecification(sh: Sheet, p: (nat, nat)) returns (r: Result<seq<SpecRow>>)
    requires WellFormed(sh) && p.0 < |sh.rows| && p.1 < sh.width
    ensures r == SpecificationAt(sh, p)
  {
    var start, c := p.0 + 1, p.1;
    ghost var w := SpecRun(sh, start, c, 0);
    SpecRunFrom(sh, start, c, 0);
    var abbr: seq<Cell> := [];
    var descr: seq<Cell> := [];
    var n := 0;
    while start + n < |sh.rows| && sh.rows[start + n][c] != Empty
      invariant start + n <= |sh.rows|
      invariant SpecRun(sh, start, c, n) == w
      invariant n > 0 ==> c + 1 < sh.width
      invariant |abbr| == n && |descr| == n
      invariant forall k :: 0 <= k < n ==> abbr[k] == sh.rows[start + k][c]
      invariant forall k :: 0 <= k < n ==> descr[k] == sh.rows[start + k][c + 1]
      decreases |sh.rows| - (start + n)
    {
      if c + 1 >= sh.width {
        SpecRunFrom(sh, start, c, n + 1);
        return Failure("IndexError");
      }
      abbr := abbr + [sh.rows[start + n][c]];
      descr := descr + [sh.rows[start + n][c + 1]];
      n := n + 1;
    }
    SpecificationOfRead(sh, p, n, abbr, descr);
    var names := Apply(AbbrOf, abbr);
    if names.Failure? {
      return Failure(names.error);
    }
    return Success(seq(n, k requires 0 <= k < n => SpecRow(names.value[k], descr[k])));
  }

  /** When the reading loop of extract_specification has read `n` cells and
      stopped, the result is that of normalising what it read. */
  lemma SpecificationOfRead(sh: Sheet, p: (nat, nat), n: nat, abbr: seq<Cell>, descr: seq<Cell>)
    requires WellFormed(sh) && p.0 < |sh.rows| && p.1 < sh.width
    requires p.0 + 1 + n <= |sh.rows|
    requires SpecRun(sh, p.0 + 1, p.1, n) == SpecRun(sh, p.0 + 1, p.1, 0)
    requires !(p.0 + 1 + n < |sh.rows| && sh.rows[p.0 + 1 + n][p.1] != Empty)
    requires n > 0 ==> p.1 + 1 < sh.width
    requires |abbr| == n && |descr| == n
    requires forall k :: 0 <= k < n ==> abbr[k] == sh.rows[p.0 + 1 + k][p.1]
    requires forall k :: 0 <= k < n ==> descr[k] == sh.rows[p.0 + 1 + k][p.1 + 1]
    ensures SpecificationAt(sh, p) == SpecRowsOf(abbr, descr)
  {
    SpecRunFrom(sh, p.0 + 1, p.1, n);
    assert SpecRun(sh, p.0 + 1, p.1, 0) == n;
    assert SpecificationAt(sh, p) == SpecRowsOf(CellsDown(sh, p.0 + 1, p.1, n), CellsDown(sh, p.0 + 1, p.1 + 1, n));
    assert abbr == CellsDown(sh, p.0 + 1, p.1, n);
    assert descr == CellsDown(sh, p.0 + 1, p.1 + 1, n);
  }

  /** The plate map as a grid of labels, row by row, as the equality mask
      of get_full_specification sees it. */
  function LabelGrid(m: DataMap): seq<seq<Option<string>>> {
    seq(|m.rowNames|, i requires 0 <= i < |m.rowNames| =>
      seq(|m.columns|, j requires 0 <= j < |m.columns| =>
        if i < |m.columns[j].labels| then Some(m.columns[j].labels[i]) else None))
  }

  /** `"-".join((row name, column header))` for a well; a row name that is
      not text raises TypeError. */
  function PositionText(m: DataMap, p: (nat, nat)): Result<string> {
    if p.0 < |m.rowNames| && p.1 < |m.columns| && m.rowNames[p.0].Text? then
      Success(m.rowNames[p.0].s + "-" + m.columns[p.1].header)
    else Failure("TypeError")
  }

  function PositionOf(m: DataMap): ((nat, nat)) -> Result<string> {
    p => PositionText(m, p)
  }

  /** The wells listed for label `a` are exactly the wells of the map
      holding `a`, in row-major order, each written `row-column`. */
  lemma PositionsOfLabel(m: DataMap, a: string)
    requires Apply(PositionOf(m), Matches(LabelGrid(m), Some(a))).Success?
    ensures var ps := Matches(LabelGrid(m), Some(a));
            var texts := Apply(PositionOf(m), ps).value;
      && |texts| == |ps|
      && (forall p :: p in ps <==> p.0 < |m.rowNames| && p.1 < |m.columns|
                                    && p.0 < |m.columns[p.1].labels| && m.columns[p.1].labels[p.0] == a)
      && (forall k, l :: 0 <= k < l < |ps| ==> RowMajorBefore(ps[k], ps[l]))
      && (forall k :: 0 <= k < |ps| ==>
            && ps[k].0 < |m.rowNames| && ps[k].1 < |m.columns| && m.rowNames[ps[k].0].Text?
            && texts[k] == m.rowNames[ps[k].0].s + "-" + m.columns[ps[k].1].header)
  {
    var g := LabelGrid(m);
    var ps := Matches(g, Some(a));
    MatchesSpec(g, Some(a));
    forall k | 0 <= k < |ps| ensures PositionOf(m)(ps[k]).Success? {
    }
  }

  /** `fillna("-")` on a description. */
  function FillDash(c: Cell): Cell {
    if c == Empty then Text("-") else c
  }

  /** A row of the full specification: abbreviation, description and the
      wells holding the abbreviation. */
  datatype FullSpecRow = FullSpecRow(abbr: string, description: Cell, position: string)

  function FullRow(m: DataMap, s: SpecRow): Result<FullSpecRow> {
    match Apply(PositionOf(m), Matches(LabelGrid(m), Some(s.abbr)))
    case Failure(e) => Failure(e)
    case Success(texts) => Success(FullSpecRow(s.abbr, FillDash(s.description), Join(", ", texts)))
  }

  function FullRowOf(m: DataMap): SpecRow -> Result<FullSpecRow> {
    s => FullRow(m, s)
  }

  /** get_full_specification's result; both of its reads of the configuration
      file yield the same sheet `sh`. */
  function FullSpecificationOf(sh: Sheet): Result<seq<FullSpecRow>>
    requires WellFormed(sh)
  {
    match SpecificationOf(sh)
    case Failure(e) => Failure(e)
    case Success(spec) =>
      match DataMapOf(sh)
      case Failure(e) => Failure(e)
      case Success(m) => Apply(FullRowOf(m), spec)
  }

  /** One full row per specification row, with the abbreviation kept, an
      empty description shown as `-`, and the position string joining that
      abbreviation's wells with `, `. */
  lemma FullSpecificationRows(sh: Sheet)
    requires WellFormed(sh) && FullSpecificationOf(sh).Success?
    ensures SpecificationOf(sh).Success? && DataMapOf(sh).Success?
    ensures |FullSpecificationOf(sh).value| == |SpecificationOf(sh).value|
    ensures forall k :: 0 <= k < |SpecificationOf(sh).value| ==>
              var s := SpecificationOf(sh).value[k];
              var m := DataMapOf(sh).value;
              var f := FullSpecificationOf(sh).value[k];
              && f.abbr == s.abbr
              && f.description != Empty
              && (s.description != Empty ==> f.description == s.description)
              && Apply(PositionOf(m), Matches(LabelGrid(m), Some(s.abbr))).Success?
              && f.position == Join(", ", Apply(PositionOf(m), Matches(LabelGrid(m), Some(s.abbr))).value)
  {
    var spec := SpecificationOf(sh).value;
    var m := DataMapOf(sh).value;
    forall k | 0 <= k < |spec| ensures FullRowOf(m)(spec[k]).Success? {
    }
  }

  /** get_full_specification: for each specification row, search the plate
      map for its abbreviation and write the wells found. */
  method GetFullSpecification(sh: Sheet) returns (r: Result<seq<FullSpecRow>>)
    requires WellFormed(sh)
    ensures r == FullSpecificationOf(sh)
  {
    var spec := ExtractSpecification(sh);
    if spec.Failure? {
      return Failure(spec.error);
    }
    var m := ExtractDataMap(sh);
    if m.Failure? {
      return Failure(m.error);
    }
    var map_ := m.value;
    var rows := spec.value;
    var grid := LabelGrid(map_);
    var out: seq<FullSpecRow> := [];
    var N := 0;
    while N < |rows|
      invariant N <= |rows|
      invariant Apply(FullRowOf(map_), rows[..N]) == Success(out)
    {
      var position := Matches(grid, Some(rows[N].abbr));
      var written := WritePositions(map_, position);
      if written.Failure? {
        assert FullRowOf(map_)(rows[N]) == Failure(written.error);
        ApplyFailsAt(FullRowOf(map_), rows, N);
        return Failure(written.error);
      }
      assert FullRowOf(map_)(rows[N]) == Success(FullSpecRow(rows[N].abbr, FillDash(rows[N].description), Join(", ", written.value)));
      ApplyStep(FullRowOf(map_), rows, N, out);
      out := out + [FullSpecRow(rows[N].abbr, FillDash(rows[N].description), Join(", ", written.value))];
      N := N + 1;
    }
    assert rows[..N] == rows;
    return Success(out);
  }

  /** The inner `while` loop of get_full_specification: write each well
      found for one abbreviation as `row-column`, in the order found. */
  method WritePositions(m: DataMap, position: seq<(nat, nat)>) returns (r: Result<seq<string>>)
    ensures r == Apply(PositionOf(m), position)
  {
    var written: seq<string> := [];
    var pn := 0;
    while pn < |position|
      invariant pn <= |position|
      invariant Apply(PositionOf(m), position[..pn]) == Success(written)
    {
      var t := PositionText(m, position[pn]);
      if t.Failure? {
        ApplyFailsAt(PositionOf(m), position, pn);
        return Failure(t.error);
      }
      ApplyStep(PositionOf(m), position, pn, written);
      written := written + [t.value];
      pn := pn + 1;
    }
    assert position[..pn] == position;
    return Success(written);
  }
}
