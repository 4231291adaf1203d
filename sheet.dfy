/** The worksheet as the clone engine sees it: cell values and styles by
    (column index, row), column widths and auto-size flags by column index,
    row heights by row. Reading a cell or a dimension that was never set
    gives the sheet's default. The engine changes a sheet only through the
    five calls of `Op`; `Apply` is what a sequence of those calls does. */
module Sheet {
  import opened Common
  import opened Styles

  /** A cell position: the column index handed to the worksheet accessor
      and the row number. */
  datatype Coord = Coord(col: int, row: int)

  datatype SheetState = SheetState(
    values: map<Coord, Value>,
    styles: map<Coord, Style>,
    widths: map<int, real>,
    autoSize: map<int, bool>,
    heights: map<int, real>,
    defaultStyle: Style,
    defaultWidth: real,
    defaultHeight: real)
  {
    function ValueAt(k: Coord): Value { Get(values, k).GetOr(Null) }

    function StyleAt(k: Coord): Style { Get(styles, k).GetOr(defaultStyle) }

    function WidthAt(col: int): real { Get(widths, col).GetOr(defaultWidth) }

    function HeightAt(row: int): real { Get(heights, row).GetOr(defaultHeight) }
  }

  /** The worksheet calls the paste step makes:
      `setCellValue`, `getStyle(..)->applyFromArray`,
      `getColumnDimensionByColumn(..)->setAutoSize`, `..->setWidth` and
      `getRowDimension(..)->setRowHeight`. `ApplyStyle` applies the array
      `getFormArray` built for `style`. The reader takes every field of that
      array except the diagonal direction, so the cell ends up with `style`
      and keeps its own diagonal direction (see `ApplyStyleIsApplyForm`). */
  datatype Op =
    | SetValue(at: Coord, v: Value)
    | ApplyStyle(at: Coord, style: Style)
    | SetAutoSize(col: int, on: bool)
    | SetWidth(col: int, w: real)
    | SetHeight(row: int, h: real)

  function Step(s: SheetState, op: Op): SheetState {
    match op
    case SetValue(k, v) => s.(values := s.values[k := v])
    case ApplyStyle(k, st) => s.(styles := s.styles[k := KeepDiagonal(s.StyleAt(k), st)])
    case SetAutoSize(c, on) => s.(autoSize := s.autoSize[c := on])
    case SetWidth(c, w) => s.(widths := s.widths[c := w])
    case SetHeight(r, h) => s.(heights := s.heights[r := h])
  }

  /** The sheet after the calls `ops`, made in order. */
  function Apply(s: SheetState, ops: seq<Op>): SheetState
    decreases |ops|
  {
    if |ops| == 0 then s else Apply(Step(s, ops[0]), ops[1..])
  }

  /** The style call's effect is what applying the `getFormArray` array
      does, whatever style the cell had before. */
  lemma ApplyStyleIsApplyForm(s: SheetState, k: Coord, st: Style)
    ensures Step(s, ApplyStyle(k, st)).StyleAt(k) == ApplyForm(s.StyleAt(k), FormArray(st))
  {
    FormArrayRoundTrip(s.StyleAt(k), st);
  }

  /** One more call at the end. */
  lemma {:induction false} ApplySnoc(s: SheetState, ops: seq<Op>, op: Op)
    ensures Apply(s, ops + [op]) == Step(Apply(s, ops), op)
    decreases |ops|
  {
    if |ops| == 0 {
      assert (ops + [op])[1..] == [];
    } else {
      assert (ops + [op])[1..] == ops[1..] + [op];
      ApplySnoc(Step(s, ops[0]), ops[1..], op);
    }
  }

  /** Making the calls `a` and then the calls `b` is making `a + b`. */
  lemma {:induction false} ApplyAppend(s: SheetState, a: seq<Op>, b: seq<Op>)
    ensures Apply(s, a + b) == Apply(Apply(s, a), b)
    decreases |a|
  {
    if |a| == 0 {
      assert a + b == b;
    } else {
      assert (a + b)[1..] == a[1..] + b;
      ApplyAppend(Step(s, a[0]), a[1..], b);
    }
  }

  /* ---------------------------------------------------------------------
     What a sequence of calls leaves behind, slot by slot.
     --------------------------------------------------------------------- */

  /** The value of the last `SetValue` at `k`. */
  function LastValue(ops: seq<Op>, k: Coord): Option<Value>
    decreases |ops|
  {
    if |ops| == 0 then None
    else
      var op := ops[|ops| - 1];
      if op.SetValue? && op.at == k then Some(op.v) else LastValue(ops[..|ops| - 1], k)
  }

  /** The style of the last `ApplyStyle` at `k`. */
  function LastStyle(ops: seq<Op>, k: Coord): Option<Style>
    decreases |ops|
  {
    if |ops| == 0 then None
    else
      var op := ops[|ops| - 1];
      if op.ApplyStyle? && op.at == k then Some(op.style) else LastStyle(ops[..|ops| - 1], k)
  }

  function LastAutoSize(ops: seq<Op>, c: int): Option<bool>
    decreases |ops|
  {
    if |ops| == 0 then None
    else
      var op := ops[|ops| - 1];
      if op.SetAutoSize? && op.col == c then Some(op.on) else LastAutoSize(ops[..|ops| - 1], c)
  }

  function LastWidth(ops: seq<Op>, c: int): Option<real>
    decreases |ops|
  {
    if |ops| == 0 then None
    else
      var op := ops[|ops| - 1];
      if op.SetWidth? && op.col == c then Some(op.w) else LastWidth(ops[..|ops| - 1], c)
  }

  function LastHeight(ops: seq<Op>, r: int): Option<real>
    decreases |ops|
  {
    if |ops| == 0 then None
    else
      var op := ops[|ops| - 1];
      if op.SetHeight? && op.row == r then Some(op.h) else LastHeight(ops[..|ops| - 1], r)
  }

  /** How many times the width of column `c` is set. */
  function WidthSets(ops: seq<Op>, c: int): nat
    decreases |ops|
  {
    if |ops| == 0 then 0
    else
      var op := ops[|ops| - 1];
      WidthSets(ops[..|ops| - 1], c) + (if op.SetWidth? && op.col == c then 1 else 0)
  }

  /** How many times the height of row `r` is set. */
  function HeightSets(ops: seq<Op>, r: int): nat
    decreases |ops|
  {
    if |ops| == 0 then 0
    else
      var op := ops[|ops| - 1];
      HeightSets(ops[..|ops| - 1], r) + (if op.SetHeight? && op.row == r then 1 else 0)
  }

  /** Every width is set right after auto-size was switched off for that
      column. */
  ghost predicate AutoSizeOffBeforeWidth(ops: seq<Op>) {
    forall i :: 0 <= i < |ops| ==> AutoSizeOffAt(ops, i)
  }

  /** The call at `i`, if it sets a width, follows auto-size off for its
      column. */
  ghost predicate AutoSizeOffAt(ops: seq<Op>, i: nat)
    requires i < |ops|
  {
    ops[i].SetWidth? ==> 0 < i && ops[i - 1] == SetAutoSize(ops[i].col, false)
  }

  /* The sheet after `ops`, slot by slot: a value, style, auto-size flag,
     width or height is the last one written there, or the old one if none
     was; the defaults never change. */

  /** One call writes only its own slot. */
  lemma StepAt(s: SheetState, op: Op, k: Coord, c: int, r: int)
    ensures Get(Step(s, op).values, k) == if op.SetValue? && op.at == k then Some(op.v) else Get(s.values, k)
    ensures Get(Step(s, op).styles, k) ==
      if op.ApplyStyle? && op.at == k then Some(KeepDiagonal(s.StyleAt(k), op.style)) else Get(s.styles, k)
    ensures Get(Step(s, op).autoSize, c) == if op.SetAutoSize? && op.col == c then Some(op.on) else Get(s.autoSize, c)
    ensures Get(Step(s, op).widths, c) == if op.SetWidth? && op.col == c then Some(op.w) else Get(s.widths, c)
    ensures Get(Step(s, op).heights, r) == if op.SetHeight? && op.row == r then Some(op.h) else Get(s.heights, r)
  {
  }

  lemma {:induction false} ApplyValueAt(s: SheetState, ops: seq<Op>, k: Coord)
    ensures Get(Apply(s, ops).values, k) == Or(LastValue(ops, k), Get(s.values, k))
    decreases |ops|
  {
    if |ops| > 0 {
      var init, last := ops[..|ops| - 1], ops[|ops| - 1];
      ApplyValueAt(s, init, k);
      assert init + [last] == ops;
      ApplySnoc(s, init, last);
      StepAt(Apply(s, init), last, k, 0, 0);
    }
  }

  /** A cell's style is the last one applied to it, with the diagonal
      direction it had before the calls, or its old style if none was. */
  lemma {:induction false} ApplyStyleAt(s: SheetState, ops: seq<Op>, k: Coord)
    ensures Get(Apply(s, ops).styles, k) ==
      if LastStyle(ops, k).Some? then Some(KeepDiagonal(s.StyleAt(k), LastStyle(ops, k).value)) else Get(s.styles, k)
    decreases |ops|
  {
    if |ops| > 0 {
      var init, last := ops[..|ops| - 1], ops[|ops| - 1];
      ApplyStyleAt(s, init, k);
      ApplyKeepsDefaults(s, init);
      assert Apply(s, init).StyleAt(k).borders.diagonalDirection == s.StyleAt(k).borders.diagonalDirection;
      assert init + [last] == ops;
      ApplySnoc(s, init, last);
      StepAt(Apply(s, init), last, k, 0, 0);
    }
  }

  lemma {:induction false} ApplyWidthAt(s: SheetState, ops: seq<Op>, c: int)
    ensures Get(Apply(s, ops).autoSize, c) == Or(LastAutoSize(ops, c), Get(s.autoSize, c))
    ensures Get(Apply(s, ops).widths, c) == Or(LastWidth(ops, c), Get(s.widths, c))
    decreases |ops|
  {
    if |ops| > 0 {
      var init, last := ops[..|ops| - 1], ops[|ops| - 1];
      ApplyWidthAt(s, init, c);
      assert init + [last] == ops;
      ApplySnoc(s, init, last);
      StepAt(Apply(s, init), last, Coord(0, 0), c, 0);
    }
  }

  lemma {:induction false} ApplyHeightAt(s: SheetState, ops: seq<Op>, r: int)
    ensures Get(Apply(s, ops).heights, r) == Or(LastHeight(ops, r), Get(s.heights, r))
    decreases |ops|
  {
    if |ops| > 0 {
      var init, last := ops[..|ops| - 1], ops[|ops| - 1];
      ApplyHeightAt(s, init, r);
      assert init + [last] == ops;
      ApplySnoc(s, init, last);
      StepAt(Apply(s, init), last, Coord(0, 0), 0, r);
    }
  }

  lemma {:induction false} ApplyKeepsDefaults(s: SheetState, ops: seq<Op>)
    ensures Apply(s, ops).defaultStyle == s.defaultStyle
    ensures Apply(s, ops).defaultWidth == s.defaultWidth
    ensures Apply(s, ops).defaultHeight == s.defaultHeight
    decreases |ops|
  {
    if |ops| > 0 {
      ApplyKeepsDefaults(Step(s, ops[0]), ops[1..]);
    }
  }

  /** What a single call writes, query by query. */
  lemma OneCallQueries(op: Op, k: Coord, c: int, r: int)
    ensures LastValue([op], k) == if op.SetValue? && op.at == k then Some(op.v) else None
    ensures LastStyle([op], k) == if op.ApplyStyle? && op.at == k then Some(op.style) else None
    ensures LastAutoSize([op], c) == if op.SetAutoSize? && op.col == c then Some(op.on) else None
    ensures LastWidth([op], c) == if op.SetWidth? && op.col == c then Some(op.w) else None
    ensures WidthSets([op], c) == if op.SetWidth? && op.col == c then 1 else 0
    ensures LastHeight([op], r) == if op.SetHeight? && op.row == r then Some(op.h) else None
    ensures HeightSets([op], r) == if op.SetHeight? && op.row == r then 1 else 0
  {
    assert [op][..0] == [];
  }

  /** Each query splits over a concatenation of call sequences: the last
      write of `a + b` is the last of `b` if `b` has one, and the counts of
      writes add up. */
  lemma {:induction false} CellQueriesAppend(a: seq<Op>, b: seq<Op>, k: Coord)
    ensures LastValue(a + b, k) == Or(LastValue(b, k), LastValue(a, k))
    ensures LastStyle(a + b, k) == Or(LastStyle(b, k), LastStyle(a, k))
    decreases |b|
  {
    if |b| == 0 {
      assert a + b == a;
    } else {
      var init := b[..|b| - 1];
      assert (a + b)[..|a + b| - 1] == a + init;
      CellQueriesAppend(a, init, k);
    }
  }

  lemma {:induction false} WidthQueriesAppend(a: seq<Op>, b: seq<Op>, c: int)
    ensures LastAutoSize(a + b, c) == Or(LastAutoSize(b, c), LastAutoSize(a, c))
    ensures LastWidth(a + b, c) == Or(LastWidth(b, c), LastWidth(a, c))
    ensures WidthSets(a + b, c) == WidthSets(a, c) + WidthSets(b, c)
    decreases |b|
  {
    if |b| == 0 {
      assert a + b == a;
    } else {
      var init := b[..|b| - 1];
      assert (a + b)[..|a + b| - 1] == a + init;
      WidthQueriesAppend(a, init, c);
    }
  }

  lemma {:induction false} HeightQueriesAppend(a: seq<Op>, b: seq<Op>, r: int)
    ensures LastHeight(a + b, r) == Or(LastHeight(b, r), LastHeight(a, r))
    ensures HeightSets(a + b, r) == HeightSets(a, r) + HeightSets(b, r)
    decreases |b|
  {
    if |b| == 0 {
      assert a + b == a;
    } else {
      var init := b[..|b| - 1];
      assert (a + b)[..|a + b| - 1] == a + init;
      HeightQueriesAppend(a, init, r);
    }
  }

  /** `ops` leaves column `c` alone when `w` is `None`; otherwise it
      switches auto-size off for it and sets its width once, to `w`. */
  ghost predicate WidthsAre(ops: seq<Op>, c: int, w: Option<real>) {
    && LastAutoSize(ops, c) == (if w.Some? then Some(false) else None)
    && LastWidth(ops, c) == w
    && WidthSets(ops, c) == (if w.Some? then 1 else 0)
  }

  /** Of two call sequences, at most one touching column `c`: their
      concatenation touches it as that one does. */
  lemma WidthsCombine(a: seq<Op>, b: seq<Op>, c: int, wa: Option<real>, wb: Option<real>)
    requires !(wa.Some? && wb.Some?)
    requires WidthsAre(a, c, wa) && WidthsAre(b, c, wb)
    ensures WidthsAre(a + b, c, Or(wb, wa))
  {
    WidthQueriesAppend(a, b, c);
  }

  /** `ops` leaves row `r`'s height alone when `h` is `None`; otherwise it
      sets it once, to `h`. */
  ghost predicate HeightsAre(ops: seq<Op>, r: int, h: Option<real>) {
    LastHeight(ops, r) == h && HeightSets(ops, r) == (if h.Some? then 1 else 0)
  }

  /** Of two call sequences, at most one setting row `r`'s height: their
      concatenation sets it as that one does. */
  lemma HeightsCombine(a: seq<Op>, b: seq<Op>, r: int, ha: Option<real>, hb: Option<real>)
    requires !(ha.Some? && hb.Some?)
    requires HeightsAre(a, r, ha) && HeightsAre(b, r, hb)
    ensures HeightsAre(a + b, r, Or(hb, ha))
  {
    HeightQueriesAppend(a, b, r);
  }

  lemma AutoSizeOffAppend(a: seq<Op>, b: seq<Op>)
    requires AutoSizeOffBeforeWidth(a) && AutoSizeOffBeforeWidth(b)
    ensures AutoSizeOffBeforeWidth(a + b)
  {
    forall i | 0 <= i < |a + b|
      ensures AutoSizeOffAt(a + b, i)
    {
      if i < |a| {
        assert AutoSizeOffAt(a, i);
      } else {
        assert AutoSizeOffAt(b, i - |a|);
        assert (a + b)[i] == b[i - |a|];
        if i > |a| {
          assert (a + b)[i - 1] == b[i - |a| - 1];
        }
      }
    }
  }

  /* Regrouping a concatenation of call sequences, for the loops' logs. */

  /** Appending no calls leaves a log as it is. */
  lemma AppendNone(a: seq<Op>)
    ensures a + [] == a
  {
  }

  /** Appending two groups of calls one after the other is appending them
      together. */
  lemma AppendAssoc3(a: seq<Op>, b: seq<Op>, c: seq<Op>)
    ensures a + b + c == a + (b + c)
  {
  }

  /** Appending a cell's four groups of calls one after the other is
      appending the cell's calls. */
  lemma AppendAssoc5(l: seq<Op>, p1: seq<Op>, p2: seq<Op>, p3: seq<Op>, p4: seq<Op>)
    ensures l + p1 + p2 + p3 + p4 == l + (p1 + p2 + p3 + p4)
  {
  }

  /** A worksheet: the object `copyRange` reads from and pastes into. Its
      ghost `log` records the calls made on it since it was created, and
      `Valid` ties the two views together: the sheet is what those calls
      made of the sheet it started as. */
  class Worksheet {
    var values: map<Coord, Value>
    var styles: map<Coord, Style>
    var widths: map<int, real>
    var autoSize: map<int, bool>
    var heights: map<int, real>
    const defaultStyle: Style
    const defaultWidth: real
    const defaultHeight: real
    ghost const start: SheetState
    ghost var log: seq<Op>

    function State(): SheetState
      reads this
    {
      SheetState(values, styles, widths, autoSize, heights, defaultStyle, defaultWidth, defaultHeight)
    }

    ghost predicate Valid()
      reads this
    {
      State() == Apply(start, log)
    }

    constructor (st: Style, width: real, height: real)
      ensures Valid() && log == []
      ensures State() == SheetState(map[], map[], map[], map[], map[], st, width, height)
    {
      values, styles, widths, autoSize, heights := map[], map[], map[], map[], map[];
      defaultStyle, defaultWidth, defaultHeight := st, width, height;
      start := SheetState(map[], map[], map[], map[], map[], st, width, height);
      log := [];
    }

    method SetCellValue(k: Coord, v: Value)
      requires Valid()
      modifies this
      ensures Valid() && log == old(log) + [SetValue(k, v)]
      ensures State() == Step(old(State()), SetValue(k, v))
    {
      values := values[k := v];
      ApplySnoc(start, log, SetValue(k, v));
      log := log + [SetValue(k, v)];
    }

    /** `getStyle(..)->applyFromArray(..)` with the array `getFormArray`
        built for `st`, read over the cell's current style. */
    method ApplyStyle(k: Coord, st: Style)
      requires Valid()
      modifies this
      ensures Valid() && log == old(log) + [Op.ApplyStyle(k, st)]
      ensures State() == Step(old(State()), Op.ApplyStyle(k, st))
    {
      ghost var s0 := State();
      var current := Get(styles, k).GetOr(defaultStyle);
      FormArrayRoundTrip(current, st);
      styles := styles[k := ApplyForm(current, FormArray(st))];
      assert State() == s0.(styles := s0.styles[k := KeepDiagonal(s0.StyleAt(k), st)]);
      ApplySnoc(start, log, Op.ApplyStyle(k, st));
      log := log + [Op.ApplyStyle(k, st)];
    }

    method SetAutoSize(c: int, on: bool)
      requires Valid()
      modifies this
      ensures Valid() && log == old(log) + [Op.SetAutoSize(c, on)]
      ensures State() == Step(old(State()), Op.SetAutoSize(c, on))
    {
      autoSize := autoSize[c := on];
      ApplySnoc(start, log, Op.SetAutoSize(c, on));
      log := log + [Op.SetAutoSize(c, on)];
    }

    method SetWidth(c: int, w: real)
      requires Valid()
      modifies this
      ensures Valid() && log == old(log) + [Op.SetWidth(c, w)]
      ensures State() == Step(old(State()), Op.SetWidth(c, w))
    {
      widths := widths[c := w];
      ApplySnoc(start, log, Op.SetWidth(c, w));
      log := log + [Op.SetWidth(c, w)];
    }

    method SetRowHeight(r: int, h: real)
      requires Valid()
      modifies this
      ensures Valid() && log == old(log) + [SetHeight(r, h)]
      ensures State() == Step(old(State()), SetHeight(r, h))
    {
      heights := heights[r := h];
      ApplySnoc(start, log, SetHeight(r, h));
      log := log + [SetHeight(r, h)];
    }
  }

  /** What a run of calls on a valid sheet did to it, read off its log. */
  lemma LoggedCalls(start: SheetState, log0: seq<Op>, ops: seq<Op>, before: SheetState, after: SheetState)
    requires before == Apply(start, log0)
    requires after == Apply(start, log0 + ops)
    ensures after == Apply(before, ops)
  {
    ApplyAppend(start, log0, ops);
  }
}
