/** Spreadsheet-style addresses: column letters, row digits, a single cell
    `B7` and a range `A27:B100`, together with the two patterns the clone
    engine matches them against, `^([A-Z]+)(\d+)$` and
    `^([A-Z]+)(\d+):([A-Z]+)(\d+)$`. */
module Address {
  import opened Common

  predicate IsLetter(ch: char) { 'A' <= ch <= 'Z' }

  /** `\d` without the `u` modifier: the ASCII digits only. */
  predicate IsDigit(ch: char) { '0' <= ch <= '9' }

  predicate AllLetters(s: string) { forall i :: 0 <= i < |s| ==> IsLetter(s[i]) }

  predicate AllDigits(s: string) { forall i :: 0 <= i < |s| ==> IsDigit(s[i]) }

  /* ---------------------------------------------------------------------
     Column letters as a bijective base-26 numeral (A = 1 ... Z = 26,
     AA = 27). This is the meaning of the library's columnIndexFromString
     and stringFromColumnIndex; the library itself is not modelled.
     --------------------------------------------------------------------- */

  function ColumnIndex(s: string): (n: nat)
    requires AllLetters(s)
    ensures |s| > 0 <==> n > 0
  {
    if |s| == 0 then 0
    else 26 * ColumnIndex(s[..|s| - 1]) + (s[|s| - 1] as int - 'A' as int + 1)
  }

  function ColumnString(n: nat): (s: string)
    ensures AllLetters(s)
    ensures |s| > 0 <==> n > 0
  {
    if n == 0 then []
    else ColumnString((n - 1) / 26) + [((n - 1) % 26 + 'A' as int) as char]
  }

  /** Rendering a column index and reading it back gives the index again. */
  lemma {:induction false} ColumnIndexOfString(n: nat)
    ensures ColumnIndex(ColumnString(n)) == n
  {
    if n > 0 {
      var s := ColumnString(n);
      assert s[..|s| - 1] == ColumnString((n - 1) / 26);
      ColumnIndexOfString((n - 1) / 26);
    }
  }

  /** Reading column letters and rendering the index gives the letters again. */
  lemma {:induction false} ColumnStringOfIndex(s: string)
    requires AllLetters(s)
    ensures ColumnString(ColumnIndex(s)) == s
  {
    if |s| > 0 {
      var p := s[..|s| - 1];
      var d := s[|s| - 1] as int - 'A' as int;
      var n := ColumnIndex(s);
      assert n - 1 == 26 * ColumnIndex(p) + d;
      assert (n - 1) / 26 == ColumnIndex(p) && (n - 1) % 26 == d;
      ColumnStringOfIndex(p);
      assert s == p + [s[|s| - 1]];
    }
  }

  /** The numeric value of a digit string, as PHP reads a numeric string. */
  function DigitsValue(s: string): (n: nat)
    requires AllDigits(s)
  {
    if |s| == 0 then 0
    else 10 * DigitsValue(s[..|s| - 1]) + (s[|s| - 1] as int - '0' as int)
  }

  /* ---------------------------------------------------------------------
     A greedy scan for a run of letters or digits. Letters and digits are
     disjoint, so the two anchored patterns have exactly one way to match,
     and that way is the one the greedy scan finds.
     --------------------------------------------------------------------- */

  datatype CharClass = Letters | Digits

  predicate InClass(ch: char, k: CharClass) {
    match k
    case Letters => IsLetter(ch)
    case Digits => IsDigit(ch)
  }

  /** The end of the longest run of class `k` that starts at `i`. */
  function Span(s: string, i: nat, k: CharClass): (j: nat)
    requires i <= |s|
    ensures i <= j <= |s|
    ensures forall m :: i <= m < j ==> InClass(s[m], k)
    ensures j < |s| ==> !InClass(s[j], k)
    decreases |s| - i
  {
    if i < |s| && InClass(s[i], k) then Span(s, i + 1, k) else i
  }

  /** A run that cannot be extended is the one `Span` finds. */
  lemma {:induction false} SpanIs(s: string, i: nat, j: nat, k: CharClass)
    requires i <= j <= |s|
    requires forall m :: i <= m < j ==> InClass(s[m], k)
    requires j < |s| ==> !InClass(s[j], k)
    ensures Span(s, i, k) == j
    decreases j - i
  {
    if i < j {
      SpanIs(s, i + 1, j, k);
    }
  }

  /* ---------------------------------------------------------------------
     Cell and range references.
     --------------------------------------------------------------------- */

  /** A single-cell address `<letters><digits>`; the digits are kept as
      written, so the text of a reference is recovered exactly. */
  datatype CellRef = CellRef(letters: string, digits: string) {
    predicate WellFormed() {
      |letters| > 0 && AllLetters(letters) && |digits| > 0 && AllDigits(digits)
    }

    function Text(): string { letters + digits }

    /** The library's column index of the letters, `A` = 1. */
    function Column(): int
      requires WellFormed()
    {
      ColumnIndex(letters)
    }

    function Row(): int
      requires WellFormed()
    {
      DigitsValue(digits)
    }
  }

  /** A range `<cell>:<cell>`. Nothing orders its two corners. */
  datatype RangeRef = RangeRef(start: CellRef, end: CellRef) {
    predicate WellFormed() { start.WellFormed() && end.WellFormed() }

    function Text(): string { start.Text() + ":" + end.Text() }
  }

  /** `preg_match('/^([A-Z]+)(\d+)$/', s)`: the two groups, or `None`. */
  function ParseCell(s: string): (r: Option<CellRef>)
    ensures r.Some? ==> r.value.WellFormed() && r.value.Text() == s
  {
    var j := Span(s, 0, Letters);
    var k := Span(s, j, Digits);
    if 0 < j < k == |s| then
      assert s[..j] + s[j..] == s;
      Some(CellRef(s[..j], s[j..]))
    else None
  }

  /** `preg_match('/^([A-Z]+)(\d+):([A-Z]+)(\d+)$/', s)`: the four groups,
      or `None`. */
  function ParseRange(s: string): (r: Option<RangeRef>)
    ensures r.Some? ==> r.value.WellFormed() && r.value.Text() == s
  {
    var j := Span(s, 0, Letters);
    var k := Span(s, j, Digits);
    if 0 < j < k < |s| && s[k] == ':' then
      match ParseCell(s[k + 1..])
      case None => None
      case Some(e) =>
        assert s[..j] + s[j..k] + ":" + s[k + 1..] == s;
        Some(RangeRef(CellRef(s[..j], s[j..k]), e))
    else None
  }

  /** The greedy scans find the two groups of a cell's text, whatever
      follows it, as long as what follows does not start with a digit. */
  lemma SpansOfCell(c: CellRef, rest: string)
    requires c.WellFormed()
    requires |rest| > 0 ==> !IsDigit(rest[0])
    ensures Span(c.Text() + rest, 0, Letters) == |c.letters|
    ensures Span(c.Text() + rest, |c.letters|, Digits) == |c.Text()|
  {
    LetterScan(c, rest);
    DigitScan(c, rest);
  }

  /** The letter scan stops where the digits start. */
  lemma LetterScan(c: CellRef, rest: string)
    requires c.WellFormed()
    ensures Span(c.Text() + rest, 0, Letters) == |c.letters|
  {
    var a, t := c.letters, c.digits + rest;
    assert c.Text() + rest == a + t;
    assert t[0] == c.digits[0];
    SpanPrefix(a, t, 0, Letters);
    SpanSuffix(a, t, 0, Letters);
  }

  /** The digit scan from the end of the letters stops where `rest` starts. */
  lemma DigitScan(c: CellRef, rest: string)
    requires c.WellFormed()
    requires |rest| > 0 ==> !IsDigit(rest[0])
    ensures Span(c.Text() + rest, |c.letters|, Digits) == |c.Text()|
  {
    var a, d := c.letters, c.digits;
    assert c.Text() + rest == a + (d + rest);
    SpanSuffix(a, d + rest, 0, Digits);
    SpanPrefix(d, rest, 0, Digits);
    SpanSuffix(d, rest, 0, Digits);
  }

  /** A scan runs through a prefix of its class. */
  lemma {:induction false} SpanPrefix(a: string, t: string, i: nat, k: CharClass)
    requires i <= |a|
    requires forall m :: i <= m < |a| ==> InClass(a[m], k)
    ensures Span(a + t, i, k) == Span(a + t, |a|, k)
    decreases |a| - i
  {
    if i < |a| {
      assert (a + t)[i] == a[i];
      SpanPrefix(a, t, i + 1, k);
    }
  }

  /** A scan inside a suffix goes as it would on the suffix alone. */
  lemma {:induction false} SpanSuffix(p: string, t: string, j: nat, k: CharClass)
    requires j <= |t|
    ensures Span(p + t, |p| + j, k) == |p| + Span(t, j, k)
    decreases |t| - j
  {
    if j < |t| {
      assert (p + t)[|p| + j] == t[j];
      SpanSuffix(p, t, j + 1, k);
    }
  }

  /** The text of every well-formed cell reference matches the cell pattern,
      and yields that reference back. */
  lemma ParseCellText(c: CellRef)
    requires c.WellFormed()
    ensures ParseCell(c.Text()) == Some(c)
  {
    var s := c.Text();
    SpansOfCell(c, []);
    assert s + [] == s;
    assert s[..|c.letters|] == c.letters && s[|c.letters|..] == c.digits;
  }

  /** The cell pattern matches exactly the texts of well-formed references. */
  lemma ParseCellIff(s: string, c: CellRef)
    ensures ParseCell(s) == Some(c) <==> c.WellFormed() && c.Text() == s
  {
    if c.WellFormed() && c.Text() == s {
      ParseCellText(c);
    }
  }

  /** The text of every well-formed range matches the range pattern, and
      yields that range back. */
  lemma ParseRangeText(r: RangeRef)
    requires r.WellFormed()
    ensures ParseRange(r.Text()) == Some(r)
  {
    RangeTextParts(r);
    SpansOfCell(r.start, ":" + r.end.Text());
    ParseCellText(r.end);
  }

  /** Where the pieces of a range's text sit in it. */
  lemma RangeTextParts(r: RangeRef)
    requires r.WellFormed()
    ensures
      var s, a, b := r.Text(), |r.start.letters|, |r.start.Text()|;
      && s == r.start.Text() + (":" + r.end.Text())
      && b < |s| && s[b] == ':' && s[b + 1..] == r.end.Text()
      && s[..a] == r.start.letters && s[a..b] == r.start.digits
  {
    var s := r.Text();
    var b := |r.start.Text()|;
    assert s == r.start.Text() + (":" + r.end.Text());
    assert s[b] == ':';
    assert s[b + 1..] == r.end.Text();
  }

  /** The range pattern matches exactly the texts of well-formed ranges. */
  lemma ParseRangeIff(s: string, r: RangeRef)
    ensures ParseRange(s) == Some(r) <==> r.WellFormed() && r.Text() == s
  {
    if r.WellFormed() && r.Text() == s {
      ParseRangeText(r);
    }
  }

  /** A range written with a dash instead of a colon does not match. */
  lemma DashedRangeRejected()
    ensures ParseRange("A1-B2") == None
  {
    var s := "A1-B2";
    SpanIs(s, 0, 1, Letters);
    SpanIs(s, 1, 2, Digits);
  }
}
