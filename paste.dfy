/** `pasteCellArray`: write a block into a worksheet from an anchor cell,
    walking the block by position. The sheet calls it makes are `PasteOps`;
    what those calls leave in the sheet follows from `Sheet.Apply`. */
module RangePaste {
  import opened Common
  import opened Address
  import opened Styles
  import opened Sheet
  import opened Blocks

  /* ---------------------------------------------------------------------
     Options.
     --------------------------------------------------------------------- */

  /** PHP's `isset($options[$key])`: present and not null. */
  predicate Isset(options: map<string, Value>, key: string) {
    key in options && options[key] != Null
  }

  /** Whether the paste does what `key` switches: an unset option is set to
      `true` first, and the option then counts only when it is `=== true`. */
  predicate Flag(options: map<string, Value>, key: string) {
    !Isset(options, key) || options[key] == Bool(true)
  }

  datatype Flags = Flags(withValue: bool, withStyle: bool)

  function OptionFlags(options: map<string, Value>): Flags {
    Flags(Flag(options, "withValue"), Flag(options, "withStyle"))
  }

  /** Both options are on unless the caller sets them; setting one to
      anything but `true` (`false`, `1`, `"yes"`) switches it off. */
  lemma OptionDefaults(options: map<string, Value>, key: string)
    ensures !Isset(options, key) ==> Flag(options, key)
    ensures Isset(options, key) ==> (Flag(options, key) <==> options[key] == Bool(true))
    ensures OptionFlags(map[]) == Flags(true, true)
    ensures !OptionFlags(map["withValue" := Int(1)]).withValue
  {
  }

  /* ---------------------------------------------------------------------
     The calls, cell by cell.
     --------------------------------------------------------------------- */

  /** The destination column of the cell at position `j` of a row, for an
      anchor in column `col0`; the `- 1` is the one the paste loop makes. */
  function DestColumn(col0: int, j: int): int { col0 + j - 1 }

  /** The calls for one cell written at (col, row): its value, its style,
      then (in the first block row) auto-size off and the column width,
      then (in the first column of a row) the row height. */
  function CellOps(rec: CellRecord, col: int, row: int, f: Flags, firstRow: bool, firstCol: bool): seq<Op> {
    ValueOps(rec, col, row, f) + StyleOps(rec, col, row, f) + WidthOps(rec, col, firstRow) + HeightOps(rec, row, firstCol)
  }

  function ValueOps(rec: CellRecord, col: int, row: int, f: Flags): seq<Op> {
    if f.withValue then [SetValue(Coord(col, row), rec.value)] else []
  }

  function StyleOps(rec: CellRecord, col: int, row: int, f: Flags): seq<Op> {
    if f.withStyle then [Op.ApplyStyle(Coord(col, row), rec.style)] else []
  }

  function WidthOps(rec: CellRecord, col: int, firstRow: bool): seq<Op> {
    if firstRow then [Op.SetAutoSize(col, false), Op.SetWidth(col, rec.colWidth)] else []
  }

  function HeightOps(rec: CellRecord, row: int, firstCol: bool): seq<Op> {
    if firstCol then [SetHeight(row, rec.rowHeight)] else []
  }

  /** The calls for the first `n` cells of a row written at row `row`. */
  function RowOps(cells: Row, col0: int, row: int, f: Flags, firstRow: bool, n: nat): seq<Op>
    requires n <= |cells|
  {
    if n == 0 then [] else
      RowOps(cells, col0, row, f, firstRow, n - 1) +
      CellOps(cells[n - 1].val, DestColumn(col0, n - 1), row, f, firstRow, n - 1 == 0)
  }

  /** The calls for the first `m` rows of a block anchored at (col0, row0). */
  function BlockOps(b: Block, col0: int, row0: int, f: Flags, m: nat): seq<Op>
    requires m <= |b|
  {
    if m == 0 then [] else
      BlockOps(b, col0, row0, f, m - 1) +
      RowOps(b[m - 1].val, col0, row0 + m - 1, f, m - 1 == 0, |b[m - 1].val|)
  }

  /** The calls `pasteCellArray` makes for the anchor as the cell pattern
      matched it: none at all when it did not match. What these calls do
      to a sheet is stated by `PasteRejectsAnchor`, `PasteCells`,
      `PasteStyles`, `PasteKeepsOutside` and `PasteDimensions`. */
  function PasteOps(b: Block, anchor: Option<CellRef>, options: map<string, Value>): (ops: seq<Op>)
    requires anchor.Some? ==> anchor.value.WellFormed()
    ensures anchor.None? ==> ops == []
  {
    match anchor
    case None => []
    case Some(a) => BlockOps(b, a.Column(), a.Row(), OptionFlags(options), |b|)
  }

  /* ---------------------------------------------------------------------
     What the calls write where.
     --------------------------------------------------------------------- */

  /** The position in a row of the cell that lands in column `c`. */
  function PosOfColumn(col0: int, c: int): int { c - col0 + 1 }

  /* What each of the four groups of calls for one cell writes. */

  lemma ValueOpsQueries(rec: CellRecord, col: int, row: int, f: Flags, k: Coord, c: int, r: int)
    ensures var ops := ValueOps(rec, col, row, f);
      && LastValue(ops, k) == (if f.withValue && k == Coord(col, row) then Some(rec.value) else None)
      && LastStyle(ops, k) == None
      && LastAutoSize(ops, c) == None && LastWidth(ops, c) == None && WidthSets(ops, c) == 0
      && LastHeight(ops, r) == None && HeightSets(ops, r) == 0
  {
    if f.withValue {
      OneCallQueries(SetValue(Coord(col, row), rec.value), k, c, r);
    }
  }

  lemma StyleOpsQueries(rec: CellRecord, col: int, row: int, f: Flags, k: Coord, c: int, r: int)
    ensures var ops := StyleOps(rec, col, row, f);
      && LastValue(ops, k) == None
      && LastStyle(ops, k) == (if f.withStyle && k == Coord(col, row) then Some(rec.style) else None)
      && LastAutoSize(ops, c) == None && LastWidth(ops, c) == None && WidthSets(ops, c) == 0
      && LastHeight(ops, r) == None && HeightSets(ops, r) == 0
  {
    if f.withStyle {
      OneCallQueries(Op.ApplyStyle(Coord(col, row), rec.style), k, c, r);
    }
  }

  lemma WidthOpsQueries(rec: CellRecord, col: int, firstRow: bool, k: Coord, c: int, r: int)
    ensures var ops := WidthOps(rec, col, firstRow);
      && LastValue(ops, k) == None && LastStyle(ops, k) == None
      && LastAutoSize(ops, c) == (if firstRow && c == col then Some(false) else None)
      && LastWidth(ops, c) == (if firstRow && c == col then Some(rec.colWidth) else None)
      && WidthSets(ops, c) == (if firstRow && c == col then 1 else 0)
      && LastHeight(ops, r) == None && HeightSets(ops, r) == 0
  {
    if firstRow {
      var a, b := Op.SetAutoSize(col, false), Op.SetWidth(col, rec.colWidth);
      assert WidthOps(rec, col, firstRow) == [a] + [b];
      OneCallQueries(a, k, c, r);
      OneCallQueries(b, k, c, r);
      CellQueriesAppend([a], [b], k);
      WidthQueriesAppend([a], [b], c);
      HeightQueriesAppend([a], [b], r);
    }
  }

  lemma HeightOpsQueries(rec: CellRecord, row: int, firstCol: bool, k: Coord, c: int, r: int)
    ensures var ops := HeightOps(rec, row, firstCol);
      && LastValue(ops, k) == None && LastStyle(ops, k) == None
      && LastAutoSize(ops, c) == None && LastWidth(ops, c) == None && WidthSets(ops, c) == 0
      && LastHeight(ops, r) == (if firstCol && r == row then Some(rec.rowHeight) else None)
      && HeightSets(ops, r) == (if firstCol && r == row then 1 else 0)
  {
    if firstCol {
      OneCallQueries(SetHeight(row, rec.rowHeight), k, c, r);
    }
  }

  /** What the calls for one cell write, cell slot by cell slot. */
  lemma CellValueQueries(rec: CellRecord, col0: int, p: int, row: int, f: Flags, firstRow: bool, firstCol: bool, k: Coord)
    ensures var ops := CellOps(rec, DestColumn(col0, p), row, f, firstRow, firstCol);
      var here := k.row == row && PosOfColumn(col0, k.col) == p;
      && LastValue(ops, k) == (if f.withValue && here then Some(rec.value) else None)
      && LastStyle(ops, k) == (if f.withStyle && here then Some(rec.style) else None)
  {
    var col := DestColumn(col0, p);
    var p1, p2 := ValueOps(rec, col, row, f), StyleOps(rec, col, row, f);
    var p3, p4 := WidthOps(rec, col, firstRow), HeightOps(rec, row, firstCol);
    ValueOpsQueries(rec, col, row, f, k, 0, 0);
    StyleOpsQueries(rec, col, row, f, k, 0, 0);
    WidthOpsQueries(rec, col, firstRow, k, 0, 0);
    HeightOpsQueries(rec, row, firstCol, k, 0, 0);
    CellQueriesAppend(p1, p2, k);
    CellQueriesAppend(p1 + p2, p3, k);
    CellQueriesAppend(p1 + p2 + p3, p4, k);
    if k == Coord(col, row) {
      assert k.row == row && PosOfColumn(col0, k.col) == p;
    } else {
      assert !(k.row == row && PosOfColumn(col0, k.col) == p);
    }
  }

  /** What the calls for one cell write, column by column. */
  lemma CellWidthQueries(rec: CellRecord, col0: int, p: int, row: int, f: Flags, firstRow: bool, firstCol: bool, c: int)
    ensures var ops := CellOps(rec, DestColumn(col0, p), row, f, firstRow, firstCol);
      WidthsAre(ops, c, if firstRow && PosOfColumn(col0, c) == p then Some(rec.colWidth) else None)
  {
    var col := DestColumn(col0, p);
    var p1, p2 := ValueOps(rec, col, row, f), StyleOps(rec, col, row, f);
    var p3, p4 := WidthOps(rec, col, firstRow), HeightOps(rec, row, firstCol);
    var k := Coord(0, 0);
    ValueOpsQueries(rec, col, row, f, k, c, 0);
    StyleOpsQueries(rec, col, row, f, k, c, 0);
    WidthOpsQueries(rec, col, firstRow, k, c, 0);
    HeightOpsQueries(rec, row, firstCol, k, c, 0);
    WidthQueriesAppend(p1, p2, c);
    WidthQueriesAppend(p1 + p2, p3, c);
    WidthQueriesAppend(p1 + p2 + p3, p4, c);
    assert c == col <==> PosOfColumn(col0, c) == p;
  }

  /** What the calls for one cell write, row by row. */
  lemma CellHeightQueries(rec: CellRecord, col: int, row: int, f: Flags, firstRow: bool, firstCol: bool, r: int)
    ensures HeightsAre(CellOps(rec, col, row, f, firstRow, firstCol), r,
      if firstCol && r == row then Some(rec.rowHeight) else None)
  {
    var p1, p2 := ValueOps(rec, col, row, f), StyleOps(rec, col, row, f);
    var p3, p4 := WidthOps(rec, col, firstRow), HeightOps(rec, row, firstCol);
    var k := Coord(0, 0);
    ValueOpsQueries(rec, col, row, f, k, 0, r);
    StyleOpsQueries(rec, col, row, f, k, 0, r);
    WidthOpsQueries(rec, col, firstRow, k, 0, r);
    HeightOpsQueries(rec, row, firstCol, k, 0, r);
    HeightQueriesAppend(p1, p2, r);
    HeightQueriesAppend(p1 + p2, p3, r);
    HeightQueriesAppend(p1 + p2 + p3, p4, r);
  }

  lemma CellOrder(rec: CellRecord, col: int, row: int, f: Flags, firstRow: bool, firstCol: bool)
    ensures AutoSizeOffBeforeWidth(CellOps(rec, col, row, f, firstRow, firstCol))
  {
    var p1, p2 := ValueOps(rec, col, row, f), StyleOps(rec, col, row, f);
    var p3, p4 := WidthOps(rec, col, firstRow), HeightOps(rec, row, firstCol);
    AutoSizeOffAppend(p1, p2);
    AutoSizeOffAppend(p1 + p2, p3);
    AutoSizeOffAppend(p1 + p2 + p3, p4);
  }

  /* One more cell of a row. */

  lemma RowValueStep(cells: Row, col0: int, row: int, f: Flags, firstRow: bool, n: nat, k: Coord)
    requires 0 < n <= |cells|
    requires RowValuesAre(cells, col0, row, f, firstRow, n - 1, k)
    ensures RowValuesAre(cells, col0, row, f, firstRow, n, k)
  {
    var init := RowOps(cells, col0, row, f, firstRow, n - 1);
    var last := CellOps(cells[n - 1].val, DestColumn(col0, n - 1), row, f, firstRow, n - 1 == 0);
    assert RowOps(cells, col0, row, f, firstRow, n) == init + last;
    CellQueriesAppend(init, last, k);
    CellValueQueries(cells[n - 1].val, col0, n - 1, row, f, firstRow, n - 1 == 0, k);
    var j := PosOfColumn(col0, k.col);
    if f.withValue && k.row == row && j == n - 1 {
      assert 0 <= j < n;
    } else if f.withValue && k.row == row && 0 <= j < n - 1 {
      assert 0 <= j < n && j != n - 1;
    } else {
      assert !(f.withValue && k.row == row && 0 <= j < n);
    }
  }

  /** The first `n` cells of a row write, at `k`, the value of the cell at
      its position, if `withValue` is on and it has one, and nothing else. */
  ghost predicate RowValuesAre(cells: Row, col0: int, row: int, f: Flags, firstRow: bool, n: nat, k: Coord)
    requires n <= |cells|
  {
    var j := PosOfColumn(col0, k.col);
    LastValue(RowOps(cells, col0, row, f, firstRow, n), k) ==
      (if f.withValue && k.row == row && 0 <= j < n then Some(cells[j].val.value) else None)
  }

  lemma RowStyleStep(cells: Row, col0: int, row: int, f: Flags, firstRow: bool, n: nat, k: Coord)
    requires 0 < n <= |cells|
    requires RowStylesAre(cells, col0, row, f, firstRow, n - 1, k)
    ensures RowStylesAre(cells, col0, row, f, firstRow, n, k)
  {
    var init := RowOps(cells, col0, row, f, firstRow, n - 1);
    var last := CellOps(cells[n - 1].val, DestColumn(col0, n - 1), row, f, firstRow, n - 1 == 0);
    assert RowOps(cells, col0, row, f, firstRow, n) == init + last;
    CellQueriesAppend(init, last, k);
    CellValueQueries(cells[n - 1].val, col0, n - 1, row, f, firstRow, n - 1 == 0, k);
    var j := PosOfColumn(col0, k.col);
    if f.withStyle && k.row == row && j == n - 1 {
      assert 0 <= j < n;
    } else if f.withStyle && k.row == row && 0 <= j < n - 1 {
      assert 0 <= j < n && j != n - 1;
    } else {
      assert !(f.withStyle && k.row == row && 0 <= j < n);
    }
  }

  /** The first `n` cells of a row apply, at `k`, the style of the cell
      at its position, if `withStyle` is on and it has one, and nothing
      else. */
  ghost predicate RowStylesAre(cells: Row, col0: int, row: int, f: Flags, firstRow: bool, n: nat, k: Coord)
    requires n <= |cells|
  {
    var j := PosOfColumn(col0, k.col);
    LastStyle(RowOps(cells, col0, row, f, firstRow, n), k) ==
      (if f.withStyle && k.row == row && 0 <= j < n then Some(cells[j].val.style) else None)
  }

  lemma RowWidthStep(cells: Row, col0: int, row: int, f: Flags, firstRow: bool, n: nat, c: int)
    requires 0 < n <= |cells|
    requires RowWidthsAre(cells, col0, row, f, firstRow, n - 1, c)
    ensures RowWidthsAre(cells, col0, row, f, firstRow, n, c)
  {
    var init := RowOps(cells, col0, row, f, firstRow, n - 1);
    var last := CellOps(cells[n - 1].val, DestColumn(col0, n - 1), row, f, firstRow, n - 1 == 0);
    assert RowOps(cells, col0, row, f, firstRow, n) == init + last;
    CellWidthQueries(cells[n - 1].val, col0, n - 1, row, f, firstRow, n - 1 == 0, c);
    var j := PosOfColumn(col0, c);
    WidthsCombine(init, last, c,
      if firstRow && 0 <= j < n - 1 then Some(cells[j].val.colWidth) else None,
      if firstRow && j == n - 1 then Some(cells[n - 1].val.colWidth) else None);
  }

  /** In the first block row, the first `n` cells switch auto-size off for
      column `c` and set its width once, to the width of the cell at its
      position, if it has one; no other row touches a column. */
  ghost predicate RowWidthsAre(cells: Row, col0: int, row: int, f: Flags, firstRow: bool, n: nat, c: int)
    requires n <= |cells|
  {
    var j := PosOfColumn(col0, c);
    WidthsAre(RowOps(cells, col0, row, f, firstRow, n), c, if firstRow && 0 <= j < n then Some(cells[j].val.colWidth) else None)
  }

  lemma RowHeightStep(cells: Row, col0: int, row: int, f: Flags, firstRow: bool, n: nat, r: int)
    requires 0 < n <= |cells|
    requires RowHeightsAre(cells, col0, row, f, firstRow, n - 1, r)
    ensures RowHeightsAre(cells, col0, row, f, firstRow, n, r)
  {
    var init := RowOps(cells, col0, row, f, firstRow, n - 1);
    var last := CellOps(cells[n - 1].val, DestColumn(col0, n - 1), row, f, firstRow, n - 1 == 0);
    assert RowOps(cells, col0, row, f, firstRow, n) == init + last;
    CellHeightQueries(cells[n - 1].val, DestColumn(col0, n - 1), row, f, firstRow, n - 1 == 0, r);
    HeightsCombine(init, last, r,
      if r == row && n - 1 > 0 then Some(cells[0].val.rowHeight) else None,
      if n - 1 == 0 && r == row then Some(cells[n - 1].val.rowHeight) else None);
  }

  /** The first `n` cells of a row set row `r`'s height once, to the first
      cell's, if `r` is that row, and not at all otherwise. */
  ghost predicate RowHeightsAre(cells: Row, col0: int, row: int, f: Flags, firstRow: bool, n: nat, r: int)
    requires n <= |cells|
  {
    HeightsAre(RowOps(cells, col0, row, f, firstRow, n), r, if r == row && n > 0 then Some(cells[0].val.rowHeight) else None)
  }

  /* A whole row. */

  lemma {:induction false} RowValues(cells: Row, col0: int, row: int, f: Flags, firstRow: bool, n: nat, k: Coord)
    requires n <= |cells|
    ensures RowValuesAre(cells, col0, row, f, firstRow, n, k)
  {
    if n > 0 {
      RowValues(cells, col0, row, f, firstRow, n - 1, k);
      RowValueStep(cells, col0, row, f, firstRow, n, k);
    }
  }

  lemma {:induction false} RowStyles(cells: Row, col0: int, row: int, f: Flags, firstRow: bool, n: nat, k: Coord)
    requires n <= |cells|
    ensures RowStylesAre(cells, col0, row, f, firstRow, n, k)
  {
    if n > 0 {
      RowStyles(cells, col0, row, f, firstRow, n - 1, k);
      RowStyleStep(cells, col0, row, f, firstRow, n, k);
    }
  }

  lemma {:induction false} RowWidthQueries(cells: Row, col0: int, row: int, f: Flags, firstRow: bool, n: nat, c: int)
    requires n <= |cells|
    ensures RowWidthsAre(cells, col0, row, f, firstRow, n, c)
  {
    if n > 0 {
      RowWidthQueries(cells, col0, row, f, firstRow, n - 1, c);
      RowWidthStep(cells, col0, row, f, firstRow, n, c);
    }
  }

  lemma {:induction false} RowHeightQueries(cells: Row, col0: int, row: int, f: Flags, firstRow: bool, n: nat, r: int)
    requires n <= |cells|
    ensures RowHeightsAre(cells, col0, row, f, firstRow, n, r)
  {
    if n > 0 {
      RowHeightQueries(cells, col0, row, f, firstRow, n - 1, r);
      RowHeightStep(cells, col0, row, f, firstRow, n, r);
    }
  }

  lemma {:induction false} RowOrder(cells: Row, col0: int, row: int, f: Flags, firstRow: bool, n: nat)
    requires n <= |cells|
    ensures AutoSizeOffBeforeWidth(RowOps(cells, col0, row, f, firstRow, n))
  {
    if n > 0 {
      var init := RowOps(cells, col0, row, f, firstRow, n - 1);
      var last := CellOps(cells[n - 1].val, DestColumn(col0, n - 1), row, f, firstRow, n - 1 == 0);
      assert RowOps(cells, col0, row, f, firstRow, n) == init + last;
      RowOrder(cells, col0, row, f, firstRow, n - 1);
      CellOrder(cells[n - 1].val, DestColumn(col0, n - 1), row, f, firstRow, n - 1 == 0);
      AutoSizeOffAppend(init, last);
    }
  }

  /* One more row of a block. */

  lemma BlockValueStep(b: Block, col0: int, row0: int, f: Flags, m: nat, k: Coord)
    requires 0 < m <= |b|
    requires BlockValuesAre(b, col0, row0, f, m - 1, k)
    ensures BlockValuesAre(b, col0, row0, f, m, k)
  {
    var cells := b[m - 1].val;
    var init := BlockOps(b, col0, row0, f, m - 1);
    var last := RowOps(cells, col0, row0 + m - 1, f, m - 1 == 0, |cells|);
    assert BlockOps(b, col0, row0, f, m) == init + last;
    CellQueriesAppend(init, last, k);
    RowValues(cells, col0, row0 + m - 1, f, m - 1 == 0, |cells|, k);
    if k.row - row0 == m - 1 {
      assert k.row == row0 + m - 1;
    } else {
      assert k.row != row0 + m - 1;
    }
  }

  /** The first `m` block rows write, at `k`, the value of the cell that
      lands there, if `withValue` is on and one does, and nothing else. */
  ghost predicate BlockValuesAre(b: Block, col0: int, row0: int, f: Flags, m: nat, k: Coord)
    requires m <= |b|
  {
    var i, j := k.row - row0, PosOfColumn(col0, k.col);
    LastValue(BlockOps(b, col0, row0, f, m), k) ==
      (if f.withValue && 0 <= i < m && 0 <= j < |b[i].val| then Some(b[i].val[j].val.value) else None)
  }

  lemma BlockStyleStep(b: Block, col0: int, row0: int, f: Flags, m: nat, k: Coord)
    requires 0 < m <= |b|
    requires BlockStylesAre(b, col0, row0, f, m - 1, k)
    ensures BlockStylesAre(b, col0, row0, f, m, k)
  {
    var cells := b[m - 1].val;
    var init := BlockOps(b, col0, row0, f, m - 1);
    var last := RowOps(cells, col0, row0 + m - 1, f, m - 1 == 0, |cells|);
    assert BlockOps(b, col0, row0, f, m) == init + last;
    CellQueriesAppend(init, last, k);
    RowStyles(cells, col0, row0 + m - 1, f, m - 1 == 0, |cells|, k);
    if k.row - row0 == m - 1 {
      assert k.row == row0 + m - 1;
    } else {
      assert k.row != row0 + m - 1;
    }
  }

  /** The first `m` block rows apply, at `k`, the style of the cell that
      lands there, if `withStyle` is on and one does, and nothing else. */
  ghost predicate BlockStylesAre(b: Block, col0: int, row0: int, f: Flags, m: nat, k: Coord)
    requires m <= |b|
  {
    var i, j := k.row - row0, PosOfColumn(col0, k.col);
    LastStyle(BlockOps(b, col0, row0, f, m), k) ==
      (if f.withStyle && 0 <= i < m && 0 <= j < |b[i].val| then Some(b[i].val[j].val.style) else None)
  }

  lemma BlockWidthStep(b: Block, col0: int, row0: int, f: Flags, m: nat, c: int)
    requires 0 < m <= |b|
    requires BlockWidthsAre(b, col0, row0, f, m - 1, c)
    ensures BlockWidthsAre(b, col0, row0, f, m, c)
  {
    var cells := b[m - 1].val;
    var init := BlockOps(b, col0, row0, f, m - 1);
    var last := RowOps(cells, col0, row0 + m - 1, f, m - 1 == 0, |cells|);
    assert BlockOps(b, col0, row0, f, m) == init + last;
    RowWidthQueries(cells, col0, row0 + m - 1, f, m - 1 == 0, |cells|, c);
    var j := PosOfColumn(col0, c);
    WidthsCombine(init, last, c,
      if 0 < m - 1 && 0 <= j < |b[0].val| then Some(b[0].val[j].val.colWidth) else None,
      if m - 1 == 0 && 0 <= j < |cells| then Some(cells[j].val.colWidth) else None);
  }

  /** Only the first block row touches column `c`: it switches auto-size
      off and sets the width once, to the width of the cell at its
      position, if there is one. */
  ghost predicate BlockWidthsAre(b: Block, col0: int, row0: int, f: Flags, m: nat, c: int)
    requires m <= |b|
  {
    var j := PosOfColumn(col0, c);
    WidthsAre(BlockOps(b, col0, row0, f, m), c, if 0 < m && 0 <= j < |b[0].val| then Some(b[0].val[j].val.colWidth) else None)
  }

  lemma BlockHeightStep(b: Block, col0: int, row0: int, f: Flags, m: nat, r: int)
    requires 0 < m <= |b|
    requires BlockHeightsAre(b, col0, row0, f, m - 1, r)
    ensures BlockHeightsAre(b, col0, row0, f, m, r)
  {
    var cells := b[m - 1].val;
    var init := BlockOps(b, col0, row0, f, m - 1);
    var last := RowOps(cells, col0, row0 + m - 1, f, m - 1 == 0, |cells|);
    assert BlockOps(b, col0, row0, f, m) == init + last;
    RowHeightQueries(cells, col0, row0 + m - 1, f, m - 1 == 0, |cells|, r);
    var i := r - row0;
    var ha := if 0 <= i < m - 1 && 0 < |b[i].val| then Some(b[i].val[0].val.rowHeight) else None;
    var hb := if r == row0 + m - 1 && |cells| > 0 then Some(cells[0].val.rowHeight) else None;
    HeightsCombine(init, last, r, ha, hb);
    assert Or(hb, ha) == if 0 <= i < m && 0 < |b[i].val| then Some(b[i].val[0].val.rowHeight) else None;
  }

  /** Row `r` gets its height once, from the first cell of the block row
      that lands there, if it has cells, and not at all otherwise. */
  ghost predicate BlockHeightsAre(b: Block, col0: int, row0: int, f: Flags, m: nat, r: int)
    requires m <= |b|
  {
    var i := r - row0;
    HeightsAre(BlockOps(b, col0, row0, f, m), r, if 0 <= i < m && 0 < |b[i].val| then Some(b[i].val[0].val.rowHeight) else None)
  }

  /* A whole block. */

  lemma {:induction false} BlockValues(b: Block, col0: int, row0: int, f: Flags, m: nat, k: Coord)
    requires m <= |b|
    ensures BlockValuesAre(b, col0, row0, f, m, k)
  {
    if m > 0 {
      BlockValues(b, col0, row0, f, m - 1, k);
      BlockValueStep(b, col0, row0, f, m, k);
    }
  }

  lemma {:induction false} BlockStyles(b: Block, col0: int, row0: int, f: Flags, m: nat, k: Coord)
    requires m <= |b|
    ensures BlockStylesAre(b, col0, row0, f, m, k)
  {
    if m > 0 {
      BlockStyles(b, col0, row0, f, m - 1, k);
      BlockStyleStep(b, col0, row0, f, m, k);
    }
  }

  lemma {:induction false} BlockWidthQueries(b: Block, col0: int, row0: int, f: Flags, m: nat, c: int)
    requires m <= |b|
    ensures BlockWidthsAre(b, col0, row0, f, m, c)
  {
    if m > 0 {
      BlockWidthQueries(b, col0, row0, f, m - 1, c);
      BlockWidthStep(b, col0, row0, f, m, c);
    }
  }

  lemma {:induction false} BlockHeightQueries(b: Block, col0: int, row0: int, f: Flags, m: nat, r: int)
    requires m <= |b|
    ensures BlockHeightsAre(b, col0, row0, f, m, r)
  {
    if m > 0 {
      BlockHeightQueries(b, col0, row0, f, m - 1, r);
      BlockHeightStep(b, col0, row0, f, m, r);
    }
  }

  lemma {:induction false} BlockOrder(b: Block, col0: int, row0: int, f: Flags, m: nat)
    requires m <= |b|
    ensures AutoSizeOffBeforeWidth(BlockOps(b, col0, row0, f, m))
  {
    if m > 0 {
      var cells := b[m - 1].val;
      BlockOrder(b, col0, row0, f, m - 1);
      RowOrder(cells, col0, row0 + m - 1, f, m - 1 == 0, |cells|);
      AutoSizeOffAppend(BlockOps(b, col0, row0, f, m - 1), RowOps(cells, col0, row0 + m - 1, f, m - 1 == 0, |cells|));
    }
  }

  /* ---------------------------------------------------------------------
     What a paste does to the sheet.
     --------------------------------------------------------------------- */

  /** Whether the block has a cell at row position `i`, column position `j`. */
  predicate InBlock(b: Block, i: int, j: int) {
    0 <= i < |b| && 0 <= j < |b[i].val|
  }

  /** An anchor that does not match the cell pattern leaves every cell,
      style, width, auto-size flag and height of the sheet as it was. */
  lemma PasteRejectsAnchor(s: SheetState, b: Block, dstCell: string, options: map<string, Value>)
    requires ParseCell(dstCell).None?
    ensures Apply(s, PasteOps(b, ParseCell(dstCell), options)) == s
  {
  }

  /** The address mapping: the cell at position (i, j) of the block lands in
      row `anchorRow + i` and column `anchorColumn + j - 1`, whatever the
      block's own keys; it is the only one to land there. Its value is
      written when `withValue` is on and its style when `withStyle` is
      on; every other cell keeps the value and the style it had. */
  lemma PasteCells(s: SheetState, b: Block, a: CellRef, options: map<string, Value>, i: int, j: int)
    requires a.WellFormed()
    ensures
      var ops := PasteOps(b, Some(a), options);
      var k := Coord(DestColumn(a.Column(), j), a.Row() + i);
      var f := OptionFlags(options);
      && Get(Apply(s, ops).values, k) == (if f.withValue && InBlock(b, i, j) then Some(b[i].val[j].val.value) else Get(s.values, k))
      && Get(Apply(s, ops).styles, k) ==
        (if f.withStyle && InBlock(b, i, j) then Some(KeepDiagonal(s.StyleAt(k), b[i].val[j].val.style)) else Get(s.styles, k))
  {
    var col0, row0, f := a.Column(), a.Row(), OptionFlags(options);
    assert PasteOps(b, Some(a), options) == BlockOps(b, col0, row0, f, |b|);
    BlockValuesAt(s, b, col0, row0, f, i, j);
    BlockStylesAt(s, b, col0, row0, f, i, j);
  }

  /** The style the paste leaves at each cell: the style of the cell that
      lands there, where one does and `withStyle` is on; the style it had
      everywhere else. */
  lemma PasteStyles(s: SheetState, b: Block, a: CellRef, options: map<string, Value>, i: int, j: int)
    requires a.WellFormed()
    ensures
      var s' := Apply(s, PasteOps(b, Some(a), options));
      var k := Coord(DestColumn(a.Column(), j), a.Row() + i);
      var f := OptionFlags(options);
      s'.StyleAt(k) == (if f.withStyle && InBlock(b, i, j) then KeepDiagonal(s.StyleAt(k), b[i].val[j].val.style) else s.StyleAt(k))
  {
    PasteCells(s, b, a, options, i, j);
    PasteKeepsDefaults(s, b, Some(a), options);
  }

  /** Outside the rectangle the block lands on, the paste leaves values
      and styles as they were. */
  lemma PasteKeepsOutside(s: SheetState, b: Block, a: CellRef, options: map<string, Value>, k: Coord)
    requires a.WellFormed()
    requires !InBlock(b, k.row - a.Row(), PosOfColumn(a.Column(), k.col))
    ensures
      var s' := Apply(s, PasteOps(b, Some(a), options));
      s'.ValueAt(k) == s.ValueAt(k) && s'.StyleAt(k) == s.StyleAt(k)
  {
    var i, j := k.row - a.Row(), PosOfColumn(a.Column(), k.col);
    assert Coord(DestColumn(a.Column(), j), a.Row() + i) == k;
    PasteCells(s, b, a, options, i, j);
    PasteKeepsDefaults(s, b, Some(a), options);
  }

  lemma BlockValuesAt(s: SheetState, b: Block, col0: int, row0: int, f: Flags, i: int, j: int)
    ensures
      var s' := Apply(s, BlockOps(b, col0, row0, f, |b|));
      var k := Coord(DestColumn(col0, j), row0 + i);
      Get(s'.values, k) == (if f.withValue && InBlock(b, i, j) then Some(b[i].val[j].val.value) else Get(s.values, k))
  {
    var k := Coord(DestColumn(col0, j), row0 + i);
    assert k.row - row0 == i && PosOfColumn(col0, k.col) == j;
    BlockValues(b, col0, row0, f, |b|, k);
    ApplyValueAt(s, BlockOps(b, col0, row0, f, |b|), k);
  }

  lemma BlockStylesAt(s: SheetState, b: Block, col0: int, row0: int, f: Flags, i: int, j: int)
    ensures
      var s' := Apply(s, BlockOps(b, col0, row0, f, |b|));
      var k := Coord(DestColumn(col0, j), row0 + i);
      Get(s'.styles, k) ==
        (if f.withStyle && InBlock(b, i, j) then Some(KeepDiagonal(s.StyleAt(k), b[i].val[j].val.style)) else Get(s.styles, k))
  {
    var k := Coord(DestColumn(col0, j), row0 + i);
    assert k.row - row0 == i && PosOfColumn(col0, k.col) == j;
    BlockStyles(b, col0, row0, f, |b|, k);
    ApplyStyleAt(s, BlockOps(b, col0, row0, f, |b|), k);
  }

  /** Once per column, once per row: the first block row sets, for each of
      its cells, auto-size off and the width of that cell's column, and no
      later row sets a width; the first cell of each row sets that row's
      height, and no later cell does. Every width comes right after
      auto-size was switched off for its column. */
  lemma PasteDimensions(s: SheetState, b: Block, a: CellRef, options: map<string, Value>, j: int, i: int)
    requires a.WellFormed()
    ensures
      var ops := PasteOps(b, Some(a), options);
      var s' := Apply(s, ops);
      var c := DestColumn(a.Column(), j);
      var r := a.Row() + i;
      && WidthSets(ops, c) == (if InBlock(b, 0, j) then 1 else 0)
      && Get(s'.widths, c) == (if InBlock(b, 0, j) then Some(b[0].val[j].val.colWidth) else Get(s.widths, c))
      && Get(s'.autoSize, c) == (if InBlock(b, 0, j) then Some(false) else Get(s.autoSize, c))
      && HeightSets(ops, r) == (if InBlock(b, i, 0) then 1 else 0)
      && Get(s'.heights, r) == (if InBlock(b, i, 0) then Some(b[i].val[0].val.rowHeight) else Get(s.heights, r))
      && AutoSizeOffBeforeWidth(ops)
  {
    PasteWidthsAt(s, b, a, options, j);
    PasteHeightsAt(s, b, a, options, i);
  }

  lemma PasteWidthsAt(s: SheetState, b: Block, a: CellRef, options: map<string, Value>, j: int)
    requires a.WellFormed()
    ensures
      var ops := PasteOps(b, Some(a), options);
      var s' := Apply(s, ops);
      var c := DestColumn(a.Column(), j);
      && WidthSets(ops, c) == (if InBlock(b, 0, j) then 1 else 0)
      && Get(s'.widths, c) == (if InBlock(b, 0, j) then Some(b[0].val[j].val.colWidth) else Get(s.widths, c))
      && Get(s'.autoSize, c) == (if InBlock(b, 0, j) then Some(false) else Get(s.autoSize, c))
      && AutoSizeOffBeforeWidth(ops)
  {
    var col0, row0, f := a.Column(), a.Row(), OptionFlags(options);
    assert PasteOps(b, Some(a), options) == BlockOps(b, col0, row0, f, |b|);
    BlockWidthsAt(s, b, col0, row0, f, j);
    BlockOrder(b, col0, row0, f, |b|);
  }

  lemma PasteHeightsAt(s: SheetState, b: Block, a: CellRef, options: map<string, Value>, i: int)
    requires a.WellFormed()
    ensures
      var ops := PasteOps(b, Some(a), options);
      var s' := Apply(s, ops);
      var r := a.Row() + i;
      && HeightSets(ops, r) == (if InBlock(b, i, 0) then 1 else 0)
      && Get(s'.heights, r) == (if InBlock(b, i, 0) then Some(b[i].val[0].val.rowHeight) else Get(s.heights, r))
  {
    var col0, row0, f := a.Column(), a.Row(), OptionFlags(options);
    assert PasteOps(b, Some(a), options) == BlockOps(b, col0, row0, f, |b|);
    BlockHeightsAt(s, b, col0, row0, f, i);
  }

  lemma BlockWidthsAt(s: SheetState, b: Block, col0: int, row0: int, f: Flags, j: int)
    ensures
      var ops := BlockOps(b, col0, row0, f, |b|);
      var s' := Apply(s, ops);
      var c := DestColumn(col0, j);
      && WidthSets(ops, c) == (if InBlock(b, 0, j) then 1 else 0)
      && Get(s'.widths, c) == (if InBlock(b, 0, j) then Some(b[0].val[j].val.colWidth) else Get(s.widths, c))
      && Get(s'.autoSize, c) == (if InBlock(b, 0, j) then Some(false) else Get(s.autoSize, c))
  {
    var c := DestColumn(col0, j);
    assert PosOfColumn(col0, c) == j;
    BlockWidthQueries(b, col0, row0, f, |b|, c);
    ApplyWidthAt(s, BlockOps(b, col0, row0, f, |b|), c);
  }

  lemma BlockHeightsAt(s: SheetState, b: Block, col0: int, row0: int, f: Flags, i: int)
    ensures
      var ops := BlockOps(b, col0, row0, f, |b|);
      var s' := Apply(s, ops);
      var r := row0 + i;
      && HeightSets(ops, r) == (if InBlock(b, i, 0) then 1 else 0)
      && Get(s'.heights, r) == (if InBlock(b, i, 0) then Some(b[i].val[0].val.rowHeight) else Get(s.heights, r))
  {
    var r := row0 + i;
    assert r - row0 == i;
    BlockHeightQueries(b, col0, row0, f, |b|, r);
    ApplyHeightAt(s, BlockOps(b, col0, row0, f, |b|), r);
  }

  /** Only cells, styles, widths, auto-size flags and heights change; the
      sheet's defaults stay. */
  lemma PasteKeepsDefaults(s: SheetState, b: Block, anchor: Option<CellRef>, options: map<string, Value>)
    requires anchor.Some? ==> anchor.value.WellFormed()
    ensures
      var s' := Apply(s, PasteOps(b, anchor, options));
      s'.defaultStyle == s.defaultStyle && s'.defaultWidth == s.defaultWidth && s'.defaultHeight == s.defaultHeight
  {
    ApplyKeepsDefaults(s, PasteOps(b, anchor, options));
  }

  /** The paste walks the block by position: two blocks with the same
      records in the same places make the same calls, whatever their keys. */
  lemma PasteIgnoresKeys(b1: Block, b2: Block, anchor: Option<CellRef>, options: map<string, Value>)
    requires SamePositions(b1, b2)
    requires anchor.Some? ==> anchor.value.WellFormed()
    ensures PasteOps(b1, anchor, options) == PasteOps(b2, anchor, options)
  {
    if anchor.Some? {
      var a := anchor.value;
      BlockOpsIgnoresKeys(b1, b2, a.Column(), a.Row(), OptionFlags(options), |b1|);
    }
  }

  lemma {:induction false} BlockOpsIgnoresKeys(b1: Block, b2: Block, col0: int, row0: int, f: Flags, m: nat)
    requires SamePositions(b1, b2)
    requires m <= |b1|
    ensures BlockOps(b1, col0, row0, f, m) == BlockOps(b2, col0, row0, f, m)
  {
    if m > 0 {
      BlockOpsIgnoresKeys(b1, b2, col0, row0, f, m - 1);
      BlockOpsStepIgnoresKeys(b1, b2, col0, row0, f, m);
    }
  }

  /** The inductive step: the block's next row is the same in both. */
  lemma BlockOpsStepIgnoresKeys(b1: Block, b2: Block, col0: int, row0: int, f: Flags, m: nat)
    requires SamePositions(b1, b2)
    requires 0 < m <= |b1|
    requires BlockOps(b1, col0, row0, f, m - 1) == BlockOps(b2, col0, row0, f, m - 1)
    ensures BlockOps(b1, col0, row0, f, m) == BlockOps(b2, col0, row0, f, m)
  {
    BlockRowIgnoresKeys(b1, b2, col0, row0, f, m - 1);
    BlockOpsCongruent(b1, b2, col0, row0, f, m);
  }

  /** Equal calls for the first `m - 1` rows and equal calls for row `m - 1`
      make equal calls for the first `m` rows. */
  lemma BlockOpsCongruent(b1: Block, b2: Block, col0: int, row0: int, f: Flags, m: nat)
    requires 0 < m <= |b1| == |b2|
    requires BlockOps(b1, col0, row0, f, m - 1) == BlockOps(b2, col0, row0, f, m - 1)
    requires RowOps(b1[m - 1].val, col0, row0 + (m - 1), f, m - 1 == 0, |b1[m - 1].val|) ==
             RowOps(b2[m - 1].val, col0, row0 + (m - 1), f, m - 1 == 0, |b2[m - 1].val|)
    ensures BlockOps(b1, col0, row0, f, m) == BlockOps(b2, col0, row0, f, m)
  {
  }

  lemma BlockRowIgnoresKeys(b1: Block, b2: Block, col0: int, row0: int, f: Flags, i: nat)
    requires SamePositions(b1, b2)
    requires i < |b1|
    ensures RowOps(b1[i].val, col0, row0 + i, f, i == 0, |b1[i].val|) == RowOps(b2[i].val, col0, row0 + i, f, i == 0, |b2[i].val|)
  {
    assert SameCells(b1[i].val, b2[i].val);
    RowOpsIgnoresKeys(b1[i].val, b2[i].val, col0, row0 + i, f, i == 0, |b1[i].val|);
  }

  lemma {:induction false} RowOpsIgnoresKeys(c1: Row, c2: Row, col0: int, row: int, f: Flags, firstRow: bool, n: nat)
    requires SameCells(c1, c2) && n <= |c1|
    ensures RowOps(c1, col0, row, f, firstRow, n) == RowOps(c2, col0, row, f, firstRow, n)
  {
    if n > 0 {
      RowOpsIgnoresKeys(c1, c2, col0, row, f, firstRow, n - 1);
      assert c1[n - 1].val == c2[n - 1].val;
    }
  }

  /* ---------------------------------------------------------------------
     The paste loop.
     --------------------------------------------------------------------- */

  /** `pasteCellArray`: match the anchor, default the options, then walk
      the block. */
  method PasteCellArray(sheet: Worksheet, cellArray: Block, dstCell: string, options: map<string, Value>)
    requires sheet.Valid()
    modifies sheet
    ensures sheet.Valid() && sheet.log == old(sheet.log) + PasteOps(cellArray, ParseCell(dstCell), options)
    ensures sheet.State() == Apply(old(sheet.State()), PasteOps(cellArray, ParseCell(dstCell), options))
  {
    ghost var log0, s0 := sheet.log, sheet.State();
    var destCellMatch := ParseCell(dstCell);
    if destCellMatch.None? {
      assert log0 + [] == log0;
      return;
    }
    var option := options;
    if !Isset(option, "withValue") {
      option := option["withValue" := Bool(true)];
    }
    if !Isset(option, "withStyle") {
      option := option["withStyle" := Bool(true)];
    }
    var f := Flags(option["withValue"] == Bool(true), option["withStyle"] == Bool(true));
    assert f == OptionFlags(options);
    var a := destCellMatch.value;
    PasteBlock(sheet, cellArray, a.Column(), a.Row(), f);
    LoggedCalls(sheet.start, log0, PasteOps(cellArray, ParseCell(dstCell), options), s0, sheet.State());
  }

  /* The logs the two loops build, call by call: `before` and then the
     calls of the first `n` cells of a row, or of the first `m` rows of a
     block. `LogOfRow` and `LogOfBlock` say that these are `before`
     followed by `RowOps` and `BlockOps`. */

  function RowLog(before: seq<Op>, cells: Row, col0: int, row: int, f: Flags, firstRow: bool, n: nat): seq<Op>
    requires n <= |cells|
  {
    if n == 0 then before
    else RowLog(before, cells, col0, row, f, firstRow, n - 1) + CellOps(cells[n - 1].val, DestColumn(col0, n - 1), row, f, firstRow, n - 1 == 0)
  }

  function BlockLog(before: seq<Op>, b: Block, col0: int, row0: int, f: Flags, m: nat): seq<Op>
    requires m <= |b|
  {
    if m == 0 then before
    else RowLog(BlockLog(before, b, col0, row0, f, m - 1), b[m - 1].val, col0, row0 + m - 1, f, m - 1 == 0, |b[m - 1].val|)
  }

  lemma BlockLogStep(before: seq<Op>, b: Block, col0: int, row0: int, f: Flags, m: nat)
    requires m < |b|
    ensures BlockLog(before, b, col0, row0, f, m + 1) ==
      RowLog(BlockLog(before, b, col0, row0, f, m), b[m].val, col0, row0 + m, f, m == 0, |b[m].val|)
  {
  }

  /** A row's log, once all of its cells are in, is the block's log one row on. */
  lemma RowClosesBlock(before: seq<Op>, b: Block, col0: int, row0: int, f: Flags, m: nat,
                       rowLog0: seq<Op>, cells: Row, row: int, n: nat, log: seq<Op>)
    requires m < |b| && cells == b[m].val && row == row0 + m && n == |cells|
    requires rowLog0 == BlockLog(before, b, col0, row0, f, m)
    requires log == RowLog(rowLog0, cells, col0, row, f, m == 0, n)
    ensures log == BlockLog(before, b, col0, row0, f, m + 1)
  {
    BlockLogStep(before, b, col0, row0, f, m);
  }

  lemma {:induction false} LogOfRow(before: seq<Op>, cells: Row, col0: int, row: int, f: Flags, firstRow: bool, n: nat)
    requires n <= |cells|
    ensures RowLog(before, cells, col0, row, f, firstRow, n) == before + RowOps(cells, col0, row, f, firstRow, n)
  {
    if n == 0 {
      AppendNone(before);
    } else {
      LogOfRow(before, cells, col0, row, f, firstRow, n - 1);
      AppendAssoc3(before, RowOps(cells, col0, row, f, firstRow, n - 1),
        CellOps(cells[n - 1].val, DestColumn(col0, n - 1), row, f, firstRow, n - 1 == 0));
    }
  }

  lemma {:induction false} LogOfBlock(before: seq<Op>, b: Block, col0: int, row0: int, f: Flags, m: nat)
    requires m <= |b|
    ensures BlockLog(before, b, col0, row0, f, m) == before + BlockOps(b, col0, row0, f, m)
  {
    if m == 0 {
      AppendNone(before);
    } else {
      var init := BlockOps(b, col0, row0, f, m - 1);
      var cells := b[m - 1].val;
      LogOfBlock(before, b, col0, row0, f, m - 1);
      LogOfRow(before + init, cells, col0, row0 + m - 1, f, m - 1 == 0, |cells|);
      AppendAssoc3(before, init, RowOps(cells, col0, row0 + m - 1, f, m - 1 == 0, |cells|));
    }
  }

  /** The outer `foreach` of `pasteCellArray`, over the rows of the block
      with its `$rowCount` counter. */
  method PasteBlock(sheet: Worksheet, cellArray: Block, destColumnStart: int, destRowStart: int, f: Flags)
    requires sheet.Valid()
    modifies sheet
    ensures sheet.Valid() && sheet.log == old(sheet.log) + BlockOps(cellArray, destColumnStart, destRowStart, f, |cellArray|)
  {
    ghost var log0 := sheet.log;
    var rowCount := 0;
    while rowCount < |cellArray|
      invariant 0 <= rowCount <= |cellArray|
      invariant sheet.Valid() && sheet.log == BlockLog(log0, cellArray, destColumnStart, destRowStart, f, rowCount)
    {
      PasteRow(sheet, cellArray, destColumnStart, destRowStart, f, rowCount, log0);
      rowCount := rowCount + 1;
    }
    LogOfBlock(log0, cellArray, destColumnStart, destRowStart, f, |cellArray|);
  }

  /** The body of the outer loop: the inner `foreach`, over the cells of
      row `rowCount` with its `$colCount` counter. */
  method PasteRow(sheet: Worksheet, cellArray: Block, destColumnStart: int, destRowStart: int, f: Flags,
                  rowCount: nat, ghost log0: seq<Op>)
    requires rowCount < |cellArray|
    requires sheet.Valid() && sheet.log == BlockLog(log0, cellArray, destColumnStart, destRowStart, f, rowCount)
    modifies sheet
    ensures sheet.Valid() && sheet.log == BlockLog(log0, cellArray, destColumnStart, destRowStart, f, rowCount + 1)
  {
    ghost var before := sheet.log;
    var row := cellArray[rowCount].val;
    var rowIndex := destRowStart + rowCount;
    var colCount := 0;
    while colCount < |row|
      invariant 0 <= colCount <= |row|
      invariant sheet.Valid() && sheet.log == RowLog(before, row, destColumnStart, rowIndex, f, rowCount == 0, colCount)
    {
      PasteCell(sheet, row, destColumnStart, rowIndex, f, rowCount == 0, colCount, before);
      colCount := colCount + 1;
    }
    RowClosesBlock(log0, cellArray, destColumnStart, destRowStart, f, rowCount, before, row, rowIndex, colCount, sheet.log);
  }

  /** The body of the inner loop: the calls for cell `colCount` of the row,
      in four guarded steps. */
  method PasteCell(sheet: Worksheet, row: Row, destColumnStart: int, rowIndex: int, f: Flags, firstRow: bool,
                   colCount: nat, ghost before: seq<Op>)
    requires colCount < |row|
    requires sheet.Valid() && sheet.log == RowLog(before, row, destColumnStart, rowIndex, f, firstRow, colCount)
    modifies sheet
    ensures sheet.Valid() && sheet.log == RowLog(before, row, destColumnStart, rowIndex, f, firstRow, colCount + 1)
  {
    ghost var log1 := sheet.log;
    var cell := row[colCount].val;
    var colIndex := destColumnStart + colCount - 1;
    PasteValue(sheet, cell, colIndex, rowIndex, f);
    PasteStyle(sheet, cell, colIndex, rowIndex, f);
    PasteWidth(sheet, cell, colIndex, firstRow);
    PasteHeight(sheet, cell, rowIndex, colCount == 0);
    AppendAssoc5(log1, ValueOps(cell, colIndex, rowIndex, f), StyleOps(cell, colIndex, rowIndex, f),
      WidthOps(cell, colIndex, firstRow), HeightOps(cell, rowIndex, colCount == 0));
  }

  method PasteValue(sheet: Worksheet, cell: CellRecord, colIndex: int, rowIndex: int, f: Flags)
    requires sheet.Valid()
    modifies sheet
    ensures sheet.Valid() && sheet.log == old(sheet.log) + ValueOps(cell, colIndex, rowIndex, f)
  {
    if f.withValue {
      sheet.SetCellValue(Coord(colIndex, rowIndex), cell.value);
    } else {
      assert sheet.log + [] == sheet.log;
    }
  }

  method PasteStyle(sheet: Worksheet, cell: CellRecord, colIndex: int, rowIndex: int, f: Flags)
    requires sheet.Valid()
    modifies sheet
    ensures sheet.Valid() && sheet.log == old(sheet.log) + StyleOps(cell, colIndex, rowIndex, f)
  {
    if f.withStyle {
      sheet.ApplyStyle(Coord(colIndex, rowIndex), cell.style);
    } else {
      assert sheet.log + [] == sheet.log;
    }
  }

  /** The column width, but once per column. */
  method PasteWidth(sheet: Worksheet, cell: CellRecord, colIndex: int, firstRow: bool)
    requires sheet.Valid()
    modifies sheet
    ensures sheet.Valid() && sheet.log == old(sheet.log) + WidthOps(cell, colIndex, firstRow)
  {
    if firstRow {
      sheet.SetAutoSize(colIndex, false);
      sheet.SetWidth(colIndex, cell.colWidth);
    } else {
      assert sheet.log + [] == sheet.log;
    }
  }

  /** The row height, once per row. */
  method PasteHeight(sheet: Worksheet, cell: CellRecord, rowIndex: int, firstCol: bool)
    requires sheet.Valid()
    modifies sheet
    ensures sheet.Valid() && sheet.log == old(sheet.log) + HeightOps(cell, rowIndex, firstCol)
  {
    if firstCol {
      sheet.SetRowHeight(rowIndex, cell.rowHeight);
    } else {
      assert sheet.log + [] == sheet.log;
    }
  }
}
