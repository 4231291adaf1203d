/** `rangeToCellArray`: read a rectangle of a worksheet into a block. */
module RangeExtract {
  import opened Common
  import opened Address
  import opened Styles
  import opened Sheet
  import opened Blocks

  /** The record the extractor builds for the cell at (col, row). */
  function Record(s: SheetState, col: int, row: int): CellRecord {
    CellRecord(
      s.ValueAt(Coord(col, row)),
      s.StyleAt(Coord(col, row)),
      s.WidthAt(col),
      s.HeightAt(row))
  }

  /** The extractor's view of a sheet: the record of each (col, row). */
  function Cells(s: SheetState): (int, int) -> CellRecord {
    (col, row) => Record(s, col, row)
  }

  /** How many integers `lo..hi` holds (none when `lo > hi`). */
  function Count(lo: int, hi: int): nat {
    if lo <= hi then hi - lo + 1 else 0
  }

  /** The first `n` records of row `row`, starting at column `c0`. */
  function RowRecords(f: (int, int) -> CellRecord, row: int, c0: int, n: nat): (r: Row)
    ensures |r| == n
  {
    if n == 0 then [] else RowRecords(f, row, c0, n - 1) + [Keyed(c0 + n - 1, f(c0 + n - 1, row))]
  }

  /** The first `m` rows of the rectangle from row `r0`, column `c0`, with
      `cols` columns. A row gets an entry only when a cell is written into
      it, so a rectangle without columns has no rows either. */
  function Rect(f: (int, int) -> CellRecord, r0: int, c0: int, m: nat, cols: nat): (b: Block)
    ensures |b| == if cols == 0 then 0 else m
  {
    if cols == 0 || m == 0 then []
    else Rect(f, r0, c0, m - 1, cols) + [Keyed(r0 + m - 1, RowRecords(f, r0 + m - 1, c0, cols))]
  }

  lemma {:induction false} RowRecordsAt(f: (int, int) -> CellRecord, row: int, c0: int, n: nat, j: nat)
    requires j < n
    ensures RowRecords(f, row, c0, n)[j] == Keyed(c0 + j, f(c0 + j, row))
  {
    if j < n - 1 {
      RowRecordsAt(f, row, c0, n - 1, j);
    }
  }

  lemma {:induction false} RectAt(f: (int, int) -> CellRecord, r0: int, c0: int, m: nat, cols: nat, i: nat)
    requires cols > 0 && i < m
    ensures Rect(f, r0, c0, m, cols)[i] == Keyed(r0 + i, RowRecords(f, r0 + i, c0, cols))
  {
    if i < m - 1 {
      RectAt(f, r0, c0, m - 1, cols, i);
    }
  }

  /** The rectangle a matching range denotes: its rows as written, its
      columns as library column indices less one. */
  datatype Bounds = Bounds(rowStart: int, rowEnd: int, colStart: int, colEnd: int)

  function RangeBounds(rr: RangeRef): Bounds
    requires rr.WellFormed()
  {
    Bounds(rr.start.Row(), rr.end.Row(), rr.start.Column() - 1, rr.end.Column() - 1)
  }

  /** The block read from the rectangle of a well-formed range. */
  function RangeBlock(s: SheetState, rr: RangeRef): Block
    requires rr.WellFormed()
  {
    var bd := RangeBounds(rr);
    Rect(Cells(s), bd.rowStart, bd.colStart, Count(bd.rowStart, bd.rowEnd), Count(bd.colStart, bd.colEnd))
  }

  /** What `rangeToCellArray` returns for a sheet in state `s`: nothing for
      a range that does not match the pattern, the block otherwise. */
  function Extract(s: SheetState, srcRange: string): Option<Block> {
    match ParseRange(srcRange)
    case None => None
    case Some(rr) => Some(RangeBlock(s, rr))
  }

  /** A range that does not match the pattern yields no block at all. */
  lemma ExtractRejects(s: SheetState, srcRange: string)
    ensures Extract(s, srcRange).None? <==> ParseRange(srcRange).None?
    ensures Extract(s, "A1-B2").None?
  {
    DashedRangeRejected();
  }

  /** The text of a well-formed range matches, so `Extract` gives the
      rectangle its bounds denote. */
  lemma ExtractOf(s: SheetState, rr: RangeRef)
    requires rr.WellFormed()
    ensures
      var bd := RangeBounds(rr);
      Extract(s, rr.Text()) ==
        Some(Rect(Cells(s), bd.rowStart, bd.colStart, Count(bd.rowStart, bd.rowEnd), Count(bd.colStart, bd.colEnd)))
    ensures Extract(s, rr.Text()) == Some(RangeBlock(s, rr))
  {
    ParseRangeText(rr);
  }

  /** The shape of an extracted block, through PHP's `$block[$row][$col]`:
      there is a record exactly for each row of the range and each working
      column of it, and that record holds the cell's value, its style,
      its own column's width and its own row's height. */
  lemma ExtractLookup(s: SheetState, rr: RangeRef, row: int, col: int)
    requires rr.WellFormed()
    ensures Extract(s, rr.Text()).Some?
    ensures
      var bd := RangeBounds(rr);
      Lookup(Extract(s, rr.Text()).value, row, col) ==
        (if bd.rowStart <= row <= bd.rowEnd && bd.colStart <= col <= bd.colEnd
         then Some(Record(s, col, row)) else None)
  {
    ExtractOf(s, rr);
    var bd := RangeBounds(rr);
    RectLookup(Cells(s), bd.rowStart, bd.colStart, Count(bd.rowStart, bd.rowEnd), Count(bd.colStart, bd.colEnd), row, col);
  }

  /** Rows come in increasing order from the first row of the range, one
      per row of it (none at all when it has no working column), and each
      row holds the working columns in increasing order. */
  lemma ExtractOrder(s: SheetState, rr: RangeRef)
    requires rr.WellFormed()
    ensures Extract(s, rr.Text()).Some?
    ensures
      var bd := RangeBounds(rr);
      |Extract(s, rr.Text()).value| == (if bd.colStart <= bd.colEnd then Count(bd.rowStart, bd.rowEnd) else 0)
    ensures KeysFrom(Extract(s, rr.Text()).value, RangeBounds(rr).rowStart)
    ensures
      var b := Extract(s, rr.Text()).value;
      forall i :: 0 <= i < |b| ==>
        KeysFrom(b[i].val, RangeBounds(rr).colStart) &&
        |b[i].val| == Count(RangeBounds(rr).colStart, RangeBounds(rr).colEnd)
  {
    ExtractOf(s, rr);
    var bd := RangeBounds(rr);
    RectKeys(Cells(s), bd.rowStart, bd.colStart, Count(bd.rowStart, bd.rowEnd), Count(bd.colStart, bd.colEnd));
  }

  lemma RectKeys(f: (int, int) -> CellRecord, r0: int, c0: int, m: nat, cols: nat)
    ensures KeysFrom(Rect(f, r0, c0, m, cols), r0)
    ensures
      var b := Rect(f, r0, c0, m, cols);
      forall i :: 0 <= i < |b| ==> KeysFrom(b[i].val, c0) && |b[i].val| == cols
  {
    var b := Rect(f, r0, c0, m, cols);
    forall i | 0 <= i < |b|
      ensures b[i].key == r0 + i && KeysFrom(b[i].val, c0) && |b[i].val| == cols
    {
      RectAt(f, r0, c0, m, cols, i);
      RowKeys(f, r0 + i, c0, cols);
    }
  }

  lemma RowKeys(f: (int, int) -> CellRecord, row: int, c0: int, n: nat)
    ensures KeysFrom(RowRecords(f, row, c0, n), c0)
  {
    forall j | 0 <= j < n ensures RowRecords(f, row, c0, n)[j].key == c0 + j {
      RowRecordsAt(f, row, c0, n, j);
    }
  }

  lemma RectLookup(f: (int, int) -> CellRecord, r0: int, c0: int, m: nat, cols: nat, row: int, col: int)
    ensures Lookup(Rect(f, r0, c0, m, cols), row, col) ==
      if r0 <= row < r0 + m && c0 <= col < c0 + cols then Some(f(col, row)) else None
  {
    var b := Rect(f, r0, c0, m, cols);
    if cols > 0 {
      RectKeys(f, r0, c0, m, cols);
      FindConsecutive(b, r0, row);
      if r0 <= row < r0 + m {
        RectAt(f, r0, c0, m, cols, row - r0);
        var cells := RowRecords(f, row, c0, cols);
        RowKeys(f, row, c0, cols);
        FindConsecutive(cells, c0, col);
        if c0 <= col < c0 + cols {
          RowRecordsAt(f, row, c0, cols, col - c0);
        }
      }
    }
  }

  /** `rangeToCellArray`: match the range, then read its rectangle, cell
      by cell, through `Record`. */
  method RangeToCellArray(sheet: Worksheet, srcRange: string) returns (block: Option<Block>)
    ensures block == Extract(sheet.State(), srcRange)
  {
    var m := ParseRange(srcRange);
    if m.None? {
      return None;
    }
    var bd := RangeBounds(m.value);
    var returnValue := ReadRect(Cells(sheet.State()), bd.rowStart, bd.rowEnd, bd.colStart, bd.colEnd);
    return Some(returnValue);
  }

  /** The nested loops of `rangeToCellArray` over rows and columns; `cell`
      reads the record of one (col, row). */
  method ReadRect(cell: (int, int) -> CellRecord, srcRowStart: int, srcRowEnd: int, srcColumnStart: int, srcColumnEnd: int)
    returns (returnValue: Block)
    ensures returnValue ==
      Rect(cell, srcRowStart, srcColumnStart, Count(srcRowStart, srcRowEnd), Count(srcColumnStart, srcColumnEnd))
  {
    ghost var rows, cols := Count(srcRowStart, srcRowEnd), Count(srcColumnStart, srcColumnEnd);
    returnValue := [];
    var row := srcRowStart;
    while row <= srcRowEnd
      invariant srcRowStart <= row
      invariant row - srcRowStart <= rows
      invariant returnValue == Rect(cell, srcRowStart, srcColumnStart, row - srcRowStart, cols)
      decreases srcRowEnd - row
    {
      var cells: Row := [];
      var col := srcColumnStart;
      while col <= srcColumnEnd
        invariant srcColumnStart <= col
        invariant col - srcColumnStart <= cols
        invariant cells == RowRecords(cell, row, srcColumnStart, col - srcColumnStart)
        decreases srcColumnEnd - col
      {
        cells := cells + [Keyed(col, cell(col, row))];
        col := col + 1;
      }
      // $returnValue[$row] comes into being with its first cell
      if |cells| > 0 {
        returnValue := returnValue + [Keyed(row, cells)];
      }
      row := row + 1;
    }
  }
}
