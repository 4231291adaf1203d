/** `copyRange`: read a range into a block, then paste the block at an
    anchor with the default options (values and styles both written). */
module RangeCopy {
  import opened Common
  import opened Address
  import opened Styles
  import opened Sheet
  import opened Blocks
  import opened RangeExtract
  import opened RangePaste

  /** The `TypeError` PHP raises when the extractor's missing return value
      is passed into the `array` parameter of `pasteCellArray`. It is an
      `\Error`, not an `\Exception`. */
  const MalformedRange: Throwable := Error("TypeError")

  /** What `copyRange` does to a sheet in state `s`: fail on a range that
      does not match the pattern, otherwise paste the block that range
      reads at the anchor `dstCell`. */
  function Copy(s: SheetState, srcRange: string, dstCell: string): (r: Outcome<SheetState>)
    ensures r.Raised? <==> ParseRange(srcRange).None?
    ensures r.Raised? ==> r.thrown == MalformedRange
    ensures r.Ok? && ParseCell(dstCell).None? ==> r.value == s
  {
    match Extract(s, srcRange)
    case None => Raised(MalformedRange)
    case Some(b) => Ok(Apply(s, PasteOps(b, ParseCell(dstCell), map[])))
  }

  /** A malformed range is not a silent no-op: the call throws, and it
      throws something a `catch (\Exception ...)` does not intercept. */
  lemma CopyRejectsRange(s: SheetState, dstCell: string)
    ensures Copy(s, "A1-B2", dstCell).Raised?
    ensures !Copy(s, "A1-B2", dstCell).thrown.Exception?
  {
    DashedRangeRejected();
  }

  /** The sheet a copy from a well-formed range to a well-formed anchor
      leaves. */
  lemma CopyOf(s: SheetState, rr: RangeRef, a: CellRef)
    requires rr.WellFormed() && a.WellFormed()
    ensures Copy(s, rr.Text(), a.Text()) == Ok(Apply(s, PasteOps(RangeBlock(s, rr), Some(a), map[])))
  {
    ExtractOf(s, rr);
    ParseCellText(a);
  }

  /** The record at position (i, j) of a rectangle read from (c0, r0) is
      the record of the cell `i` rows and `j` columns into it. */
  lemma RectRecordAt(f: (int, int) -> CellRecord, r0: int, c0: int, rows: nat, cols: nat, i: int, j: int)
    requires 0 <= i < rows && 0 <= j < cols
    ensures InBlock(Rect(f, r0, c0, rows, cols), i, j)
    ensures Rect(f, r0, c0, rows, cols)[i].val[j].val == f(c0 + j, r0 + i)
  {
    RectAt(f, r0, c0, rows, cols, i);
    RowRecordsAt(f, r0 + i, c0, cols, j);
  }

  /** A pasted record carrying a cell's value puts that value at its
      destination. */
  lemma PasteValueFrom(s: SheetState, b: Block, a: CellRef, i: int, j: int, src: Coord)
    requires a.WellFormed() && InBlock(b, i, j)
    requires b[i].val[j].val.value == s.ValueAt(src)
    ensures Apply(s, PasteOps(b, Some(a), map[])).ValueAt(Coord(DestColumn(a.Column(), j), a.Row() + i)) == s.ValueAt(src)
  {
    OptionDefaults(map[], "withValue");
    PasteCells(s, b, a, map[], i, j);
  }

  /** A pasted record carrying a cell's style gives its destination that
      style, except that the destination keeps its own diagonal direction. */
  lemma PasteStyleFrom(s: SheetState, b: Block, a: CellRef, i: int, j: int, src: Coord)
    requires a.WellFormed() && InBlock(b, i, j)
    requires b[i].val[j].val.style == s.StyleAt(src)
    ensures var dst := Coord(DestColumn(a.Column(), j), a.Row() + i);
      Apply(s, PasteOps(b, Some(a), map[])).StyleAt(dst) == KeepDiagonal(s.StyleAt(dst), s.StyleAt(src))
  {
    OptionDefaults(map[], "withStyle");
    PasteStyles(s, b, a, map[], i, j);
  }

  /** A pasted first row and first column carrying the source's width and
      height give the destination column and row that width and height. */
  lemma PasteDimensionsFrom(s: SheetState, b: Block, a: CellRef, i: int, j: int, src: Coord)
    requires a.WellFormed() && InBlock(b, i, 0) && InBlock(b, 0, j)
    requires b[0].val[j].val.colWidth == s.WidthAt(src.col)
    requires b[i].val[0].val.rowHeight == s.HeightAt(src.row)
    ensures
      var s' := Apply(s, PasteOps(b, Some(a), map[]));
      && s'.WidthAt(DestColumn(a.Column(), j)) == s.WidthAt(src.col)
      && Get(s'.autoSize, DestColumn(a.Column(), j)) == Some(false)
      && s'.HeightAt(a.Row() + i) == s.HeightAt(src.row)
  {
    PasteDimensions(s, b, a, map[], j, i);
  }

  /** A copy reproduces the source: the cell `i` rows and `j` columns into
      the range gets, at the anchor's offset, the value and the style the
      source cell had, and its column and row get the source's width and
      height, with auto-size off. */
  lemma PasteReproduces(s: SheetState, rr: RangeRef, a: CellRef, i: int, j: int)
    requires rr.WellFormed() && a.WellFormed()
    requires
      var bd := RangeBounds(rr);
      0 <= i < Count(bd.rowStart, bd.rowEnd) && 0 <= j < Count(bd.colStart, bd.colEnd)
    ensures
      var bd := RangeBounds(rr);
      var s' := Apply(s, PasteOps(RangeBlock(s, rr), Some(a), map[]));
      var src := Coord(bd.colStart + j, bd.rowStart + i);
      var dst := Coord(DestColumn(a.Column(), j), a.Row() + i);
      && s'.ValueAt(dst) == s.ValueAt(src)
      && s'.StyleAt(dst) == KeepDiagonal(s.StyleAt(dst), s.StyleAt(src))
      && s'.WidthAt(dst.col) == s.WidthAt(src.col)
      && Get(s'.autoSize, dst.col) == Some(false)
      && s'.HeightAt(dst.row) == s.HeightAt(src.row)
  {
    ReproducesCell(s, rr, a, i, j);
    ReproducesDimensions(s, rr, a, i, j);
  }

  lemma ReproducesCell(s: SheetState, rr: RangeRef, a: CellRef, i: int, j: int)
    requires rr.WellFormed() && a.WellFormed()
    requires
      var bd := RangeBounds(rr);
      0 <= i < Count(bd.rowStart, bd.rowEnd) && 0 <= j < Count(bd.colStart, bd.colEnd)
    ensures
      var bd := RangeBounds(rr);
      var s' := Apply(s, PasteOps(RangeBlock(s, rr), Some(a), map[]));
      var src := Coord(bd.colStart + j, bd.rowStart + i);
      var dst := Coord(DestColumn(a.Column(), j), a.Row() + i);
      s'.ValueAt(dst) == s.ValueAt(src) && s'.StyleAt(dst) == KeepDiagonal(s.StyleAt(dst), s.StyleAt(src))
  {
    var bd := RangeBounds(rr);
    var rows, cols := Count(bd.rowStart, bd.rowEnd), Count(bd.colStart, bd.colEnd);
    var src := Coord(bd.colStart + j, bd.rowStart + i);
    RectRecordAt(Cells(s), bd.rowStart, bd.colStart, rows, cols, i, j);
    PasteValueFrom(s, RangeBlock(s, rr), a, i, j, src);
    PasteStyleFrom(s, RangeBlock(s, rr), a, i, j, src);
  }

  lemma ReproducesDimensions(s: SheetState, rr: RangeRef, a: CellRef, i: int, j: int)
    requires rr.WellFormed() && a.WellFormed()
    requires
      var bd := RangeBounds(rr);
      0 <= i < Count(bd.rowStart, bd.rowEnd) && 0 <= j < Count(bd.colStart, bd.colEnd)
    ensures
      var bd := RangeBounds(rr);
      var s' := Apply(s, PasteOps(RangeBlock(s, rr), Some(a), map[]));
      var src := Coord(bd.colStart + j, bd.rowStart + i);
      var dst := Coord(DestColumn(a.Column(), j), a.Row() + i);
      && s'.WidthAt(dst.col) == s.WidthAt(src.col)
      && Get(s'.autoSize, dst.col) == Some(false)
      && s'.HeightAt(dst.row) == s.HeightAt(src.row)
  {
    var bd := RangeBounds(rr);
    var rows, cols := Count(bd.rowStart, bd.rowEnd), Count(bd.colStart, bd.colEnd);
    var src := Coord(bd.colStart + j, bd.rowStart + i);
    RectRecordAt(Cells(s), bd.rowStart, bd.colStart, rows, cols, 0, j);
    RectRecordAt(Cells(s), bd.rowStart, bd.colStart, rows, cols, i, 0);
    PasteDimensionsFrom(s, RangeBlock(s, rr), a, i, j, src);
  }

  /** `copyRange` from a well-formed range to a well-formed anchor: the
      values, styles, widths and heights of the source turn up at the
      anchor's offset. */
  lemma CopyReproduces(s: SheetState, rr: RangeRef, a: CellRef, i: int, j: int)
    requires rr.WellFormed() && a.WellFormed()
    requires
      var bd := RangeBounds(rr);
      0 <= i < Count(bd.rowStart, bd.rowEnd) && 0 <= j < Count(bd.colStart, bd.colEnd)
    ensures Copy(s, rr.Text(), a.Text()).Ok?
    ensures
      var bd := RangeBounds(rr);
      var s' := Copy(s, rr.Text(), a.Text()).value;
      var src := Coord(bd.colStart + j, bd.rowStart + i);
      var dst := Coord(DestColumn(a.Column(), j), a.Row() + i);
      && s'.ValueAt(dst) == s.ValueAt(src)
      && s'.StyleAt(dst) == KeepDiagonal(s.StyleAt(dst), s.StyleAt(src))
      && s'.WidthAt(dst.col) == s.WidthAt(src.col)
      && s'.HeightAt(dst.row) == s.HeightAt(src.row)
  {
    CopyOf(s, rr, a);
    PasteReproduces(s, rr, a, i, j);
  }

  /** Outside the destination rectangle, a copy leaves values and styles
      alone. */
  lemma CopyKeepsOutside(s: SheetState, rr: RangeRef, a: CellRef, k: Coord)
    requires rr.WellFormed() && a.WellFormed()
    requires !InBlock(RangeBlock(s, rr), k.row - a.Row(), PosOfColumn(a.Column(), k.col))
    ensures Copy(s, rr.Text(), a.Text()).Ok?
    ensures
      var s' := Copy(s, rr.Text(), a.Text()).value;
      s'.ValueAt(k) == s.ValueAt(k) && s'.StyleAt(k) == s.StyleAt(k)
  {
    CopyOf(s, rr, a);
    PasteKeepsOutside(s, RangeBlock(s, rr), a, map[], k);
  }

  /** `copyRange`. */
  method CopyRange(sheet: Worksheet, srcRange: string, dstCell: string) returns (r: Outcome<()>)
    requires sheet.Valid()
    modifies sheet
    ensures sheet.Valid()
    ensures r.Raised? <==> Copy(old(sheet.State()), srcRange, dstCell).Raised?
    ensures r.Raised? ==> r.thrown == MalformedRange && sheet.log == old(sheet.log)
    ensures r.Ok? ==> sheet.State() == Copy(old(sheet.State()), srcRange, dstCell).value
  {
    var template := RangeToCellArray(sheet, srcRange);
    if template.None? {
      return Raised(MalformedRange);
    }
    PasteCellArray(sheet, template.value, dstCell, map[]);
    return Ok(());
  }
}
