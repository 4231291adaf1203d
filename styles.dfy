/** The style descriptor codec. `FormArray` is `getFormArray`: it turns a
    cell style into the nested array that `applyFromArray` accepts, reading
    every field it lists (font, the five borders and the diagonal direction,
    alignment, number format, fill, quote prefix). `ApplyForm` is how
    `applyFromArray` reads such an array back: a key it looks for and finds
    sets its field, and any other key changes nothing. The builder files
    the diagonal direction under `diagonaldirection`, while the reader
    looks for `diagonalDirection`. So a cell given the array keeps its own
    diagonal direction (`FormArrayRoundTrip`). */
module Styles {
  import opened Common

  datatype Font = Font(
    name: string, size: real, bold: bool, italic: bool,
    underline: string, strikethrough: bool, color: string)

  datatype Border = Border(borderStyle: string, color: string)

  datatype Borders = Borders(
    bottom: Border, top: Border, left: Border, right: Border, diagonal: Border,
    diagonalDirection: int)

  datatype Alignment = Alignment(
    horizontal: string, vertical: string, textRotation: int,
    wrapText: bool, shrinkToFit: bool)

  datatype Fill = Fill(fillType: string, startColor: string, endColor: string)

  /** The style of one cell, restricted to the fields the codec carries. */
  datatype Style = Style(
    font: Font, borders: Borders, alignment: Alignment,
    numberFormat: string, fill: Fill, quotePrefix: bool)

  /** A PHP array as the style codec builds it: a scalar leaf, or a node
      from string keys to sub-arrays. */
  datatype Form = Leaf(v: Value) | Node(m: map<string, Form>)

  function KeyedStr(key: string, c: string): Form {
    Node(map[key := Leaf(Str(c))])
  }

  function BorderForm(b: Border): Form {
    Node(map["borderStyle" := Leaf(Str(b.borderStyle)), "color" := KeyedStr("rgb", b.color)])
  }

  function FontForm(f: Font): Form {
    Node(map[
      "name" := Leaf(Str(f.name)),
      "size" := Leaf(Float(f.size)),
      "bold" := Leaf(Bool(f.bold)),
      "italic" := Leaf(Bool(f.italic)),
      "underline" := Leaf(Str(f.underline)),
      "strikethrough" := Leaf(Bool(f.strikethrough)),
      "color" := KeyedStr("rgb", f.color)])
  }

  function BordersForm(b: Borders): Form {
    Node(map[
      "bottom" := BorderForm(b.bottom),
      "top" := BorderForm(b.top),
      "left" := BorderForm(b.left),
      "right" := BorderForm(b.right),
      "diagonal" := BorderForm(b.diagonal),
      "diagonaldirection" := Leaf(Int(b.diagonalDirection))])
  }

  function AlignmentForm(a: Alignment): Form {
    Node(map[
      "horizontal" := Leaf(Str(a.horizontal)),
      "vertical" := Leaf(Str(a.vertical)),
      "textRotation" := Leaf(Int(a.textRotation)),
      "wrapText" := Leaf(Bool(a.wrapText)),
      "shrinkToFit" := Leaf(Bool(a.shrinkToFit))])
  }

  function FillForm(f: Fill): Form {
    Node(map[
      "fillType" := Leaf(Str(f.fillType)),
      "startColor" := KeyedStr("argb", f.startColor),
      "endColor" := KeyedStr("argb", f.endColor)])
  }

  /* ---------------------------------------------------------------------
     Reading an array back onto a style. Each accessor falls back to the
     current field when the key is missing or holds a value of another kind.
     --------------------------------------------------------------------- */

  /** The sub-array under `key`; an empty array when there is none. */
  function Sub(f: Form, key: string): Form {
    if f.Node? && key in f.m then f.m[key] else Node(map[])
  }

  function StrAt(f: Form, key: string, current: string): string {
    match Sub(f, key)
    case Leaf(Str(s)) => s
    case _ => current
  }

  function BoolAt(f: Form, key: string, current: bool): bool {
    match Sub(f, key)
    case Leaf(Bool(b)) => b
    case _ => current
  }

  function IntAt(f: Form, key: string, current: int): int {
    match Sub(f, key)
    case Leaf(Int(i)) => i
    case _ => current
  }

  function RealAt(f: Form, key: string, current: real): real {
    match Sub(f, key)
    case Leaf(Float(x)) => x
    case _ => current
  }

  function ApplyBorder(b: Border, f: Form): Border {
    Border(StrAt(f, "borderStyle", b.borderStyle), StrAt(Sub(f, "color"), "rgb", b.color))
  }

  function ApplyFont(c: Font, f: Form): Font {
    Font(
      StrAt(f, "name", c.name),
      RealAt(f, "size", c.size),
      BoolAt(f, "bold", c.bold),
      BoolAt(f, "italic", c.italic),
      StrAt(f, "underline", c.underline),
      BoolAt(f, "strikethrough", c.strikethrough),
      StrAt(Sub(f, "color"), "rgb", c.color))
  }

  function ApplyBorders(c: Borders, f: Form): Borders {
    Borders(
      ApplyBorder(c.bottom, Sub(f, "bottom")),
      ApplyBorder(c.top, Sub(f, "top")),
      ApplyBorder(c.left, Sub(f, "left")),
      ApplyBorder(c.right, Sub(f, "right")),
      ApplyBorder(c.diagonal, Sub(f, "diagonal")),
      IntAt(f, "diagonalDirection", c.diagonalDirection))
  }

  function ApplyAlignment(c: Alignment, f: Form): Alignment {
    Alignment(
      StrAt(f, "horizontal", c.horizontal),
      StrAt(f, "vertical", c.vertical),
      IntAt(f, "textRotation", c.textRotation),
      BoolAt(f, "wrapText", c.wrapText),
      BoolAt(f, "shrinkToFit", c.shrinkToFit))
  }

  function ApplyFill(c: Fill, f: Form): Fill {
    Fill(
      StrAt(f, "fillType", c.fillType),
      StrAt(Sub(f, "startColor"), "argb", c.startColor),
      StrAt(Sub(f, "endColor"), "argb", c.endColor))
  }

  /** Applying an array to the style a cell already has. */
  function ApplyForm(current: Style, f: Form): Style {
    Style(
      ApplyFont(current.font, Sub(f, "font")),
      ApplyBorders(current.borders, Sub(f, "borders")),
      ApplyAlignment(current.alignment, Sub(f, "alignment")),
      StrAt(Sub(f, "numberFormat"), "formatCode", current.numberFormat),
      ApplyFill(current.fill, Sub(f, "fill")),
      BoolAt(f, "quotePrefix", current.quotePrefix))
  }

  /** An empty array changes nothing: this is why the codec must emit every
      key rather than omit the ones that look like defaults. */
  lemma ApplyEmptyForm(current: Style)
    ensures ApplyForm(current, Node(map[])) == current
  {
  }

  /** `getFormArray`: the array it builds, key by key. */
  function FormArray(st: Style): Form {
    Node(map[
      "font" := FontForm(st.font),
      "borders" := BordersForm(st.borders),
      "alignment" := AlignmentForm(st.alignment),
      "numberFormat" := KeyedStr("formatCode", st.numberFormat),
      "fill" := FillForm(st.fill),
      "quotePrefix" := Leaf(Bool(st.quotePrefix))])
  }

  /** `st` with the diagonal direction of `current`. */
  function KeepDiagonal(current: Style, st: Style): Style {
    st.(borders := st.borders.(diagonalDirection := current.borders.diagonalDirection))
  }

  /** The array `getFormArray` builds, applied to a cell of any style,
      gives that cell every field of the style it was read from except
      the diagonal direction. The reader never sees that field's key, so
      the cell keeps its own. */
  lemma FormArrayRoundTrip(current: Style, st: Style)
    ensures ApplyForm(current, FormArray(st)) == KeepDiagonal(current, st)
  {
    var f := FormArray(st);
    FormArraySubs(st);
    FontOfForm(current, st, f);
    BordersOfForm(current, st, f);
    AlignmentOfForm(current, st, f);
    FillOfForm(current, st, f);
    ScalarsOfForm(current, st, f);
  }

  /** The six sub-arrays of `getFormArray`'s array. */
  lemma FormArraySubs(st: Style)
    ensures Sub(FormArray(st), "font") == FontForm(st.font)
    ensures Sub(FormArray(st), "borders") == BordersForm(st.borders)
    ensures Sub(FormArray(st), "alignment") == AlignmentForm(st.alignment)
    ensures Sub(FormArray(st), "numberFormat") == KeyedStr("formatCode", st.numberFormat)
    ensures Sub(FormArray(st), "fill") == FillForm(st.fill)
    ensures Sub(FormArray(st), "quotePrefix") == Leaf(Bool(st.quotePrefix))
  {
  }

  /* Each part of a style comes back from its sub-array. */

  lemma FontOfForm(current: Style, st: Style, f: Form)
    requires Sub(f, "font") == FontForm(st.font)
    ensures ApplyForm(current, f).font == st.font
  {
    FontRoundTrip(current.font, st.font);
  }

  lemma BordersOfForm(current: Style, st: Style, f: Form)
    requires Sub(f, "borders") == BordersForm(st.borders)
    ensures ApplyForm(current, f).borders == st.borders.(diagonalDirection := current.borders.diagonalDirection)
  {
    BordersRoundTrip(current.borders, st.borders);
  }

  lemma AlignmentOfForm(current: Style, st: Style, f: Form)
    requires Sub(f, "alignment") == AlignmentForm(st.alignment)
    ensures ApplyForm(current, f).alignment == st.alignment
  {
    AlignmentRoundTrip(current.alignment, st.alignment);
  }

  lemma FillOfForm(current: Style, st: Style, f: Form)
    requires Sub(f, "fill") == FillForm(st.fill)
    ensures ApplyForm(current, f).fill == st.fill
  {
    FillRoundTrip(current.fill, st.fill);
  }

  lemma ScalarsOfForm(current: Style, st: Style, f: Form)
    requires Sub(f, "numberFormat") == KeyedStr("formatCode", st.numberFormat)
    requires Sub(f, "quotePrefix") == Leaf(Bool(st.quotePrefix))
    ensures ApplyForm(current, f).numberFormat == st.numberFormat
    ensures ApplyForm(current, f).quotePrefix == st.quotePrefix
  {
    assert Sub(KeyedStr("formatCode", st.numberFormat), "formatCode") == Leaf(Str(st.numberFormat));
  }

  lemma FontRoundTrip(current: Font, x: Font)
    ensures ApplyFont(current, FontForm(x)) == x
  {
  }

  lemma BorderRoundTrip(current: Border, b: Border)
    ensures ApplyBorder(current, BorderForm(b)) == b
  {
  }

  /** All five borders come back; the diagonal direction stays as it was,
      since it is filed under a key the reader does not look for. */
  lemma BordersRoundTrip(current: Borders, b: Borders)
    ensures ApplyBorders(current, BordersForm(b)) == b.(diagonalDirection := current.diagonalDirection)
  {
    BordersFormSubs(b);
    BorderRoundTrip(current.bottom, b.bottom);
    BorderRoundTrip(current.top, b.top);
    BorderRoundTrip(current.left, b.left);
    BorderRoundTrip(current.right, b.right);
    BorderRoundTrip(current.diagonal, b.diagonal);
  }

  /** What the reader finds in the borders array under each key it asks for. */
  lemma BordersFormSubs(b: Borders)
    ensures var f := BordersForm(b);
      && Sub(f, "bottom") == BorderForm(b.bottom) && Sub(f, "top") == BorderForm(b.top)
      && Sub(f, "left") == BorderForm(b.left) && Sub(f, "right") == BorderForm(b.right)
      && Sub(f, "diagonal") == BorderForm(b.diagonal)
      && "diagonalDirection" !in f.m
  {
    var f := BordersForm(b);
    assert Sub(f, "bottom") == BorderForm(b.bottom);
    assert Sub(f, "top") == BorderForm(b.top);
    assert Sub(f, "left") == BorderForm(b.left);
    assert Sub(f, "right") == BorderForm(b.right);
    assert Sub(f, "diagonal") == BorderForm(b.diagonal);
  }

  lemma AlignmentRoundTrip(current: Alignment, a: Alignment)
    ensures ApplyAlignment(current, AlignmentForm(a)) == a
  {
  }

  lemma FillRoundTrip(current: Fill, x: Fill)
    ensures ApplyFill(current, FillForm(x)) == x
  {
  }

  /** Two styles with the same array are the same style. */
  lemma FormArrayInjective(s1: Style, s2: Style)
    requires FormArray(s1) == FormArray(s2)
    ensures s1 == s2
  {
    FormArrayRoundTrip(s1, s1);
    FormArrayRoundTrip(s1, s2);
    FormArraySubs(s1);
    FormArraySubs(s2);
    assert Sub(BordersForm(s1.borders), "diagonaldirection") == Leaf(Int(s1.borders.diagonalDirection));
    assert Sub(BordersForm(s2.borders), "diagonaldirection") == Leaf(Int(s2.borders.diagonalDirection));
  }

  /** The diagonal direction is lost: the array of a style with another
      direction than the cell's does not give the cell that style. */
  lemma DiagonalDirectionLost(current: Style, st: Style)
    requires st.borders.diagonalDirection != current.borders.diagonalDirection
    ensures ApplyForm(current, FormArray(st)) != st
  {
    FormArrayRoundTrip(current, st);
  }
}
