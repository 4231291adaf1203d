/** The in-memory range block: a PHP array of rows, each a PHP array of
    cell records, both keyed and both kept in insertion order. */
module Blocks {
  import opened Common
  import opened Styles

  /** One copied cell: its value, its style (held as the style descriptor
      that `getFormArray` turns into an array; `Styles.FormArrayInjective`
      shows the array carries all of it, `Styles.FormArrayRoundTrip` what a
      paste reads back), the width of its column and the
      height of its row. */
  datatype CellRecord = CellRecord(value: Value, style: Style, colWidth: real, rowHeight: real)

  /** One entry of an ordered PHP array with integer keys. */
  datatype Keyed<T> = Keyed(key: int, val: T)

  type Row = seq<Keyed<CellRecord>>

  type Block = seq<Keyed<Row>>

  /** `$entries[$key]`: the entry with that key, if there is one. */
  function Find<T>(entries: seq<Keyed<T>>, key: int): Option<T>
    decreases |entries|
  {
    if |entries| == 0 then None
    else if entries[0].key == key then Some(entries[0].val)
    else Find(entries[1..], key)
  }

  /** `$block[$row][$col]`. */
  function Lookup(b: Block, row: int, col: int): Option<CellRecord> {
    match Find(b, row)
    case None => None
    case Some(cells) => Find(cells, col)
  }

  /** The keys run `lo`, `lo + 1`, ... in order. */
  ghost predicate KeysFrom<T>(entries: seq<Keyed<T>>, lo: int) {
    forall j :: 0 <= j < |entries| ==> entries[j].key == lo + j
  }

  /** With consecutive keys, looking a key up finds the entry at its offset. */
  lemma {:induction false} FindConsecutive<T>(entries: seq<Keyed<T>>, lo: int, key: int)
    requires KeysFrom(entries, lo)
    ensures Find(entries, key) == if lo <= key < lo + |entries| then Some(entries[key - lo].val) else None
    decreases |entries|
  {
    if |entries| > 0 && entries[0].key != key {
      assert KeysFrom(entries[1..], lo + 1) by {
        forall j | 0 <= j < |entries| - 1 ensures entries[1..][j].key == lo + 1 + j {
          assert entries[1..][j] == entries[j + 1];
        }
      }
      FindConsecutive(entries[1..], lo + 1, key);
    }
  }

  /** Two blocks hold the same records at the same positions, whatever
      their keys. */
  ghost predicate SamePositions(b1: Block, b2: Block) {
    |b1| == |b2| && forall i :: 0 <= i < |b1| ==> SameCells(b1[i].val, b2[i].val)
  }

  /** Two rows hold the same records at the same positions. */
  ghost predicate SameCells(c1: Row, c2: Row) {
    |c1| == |c2| && forall j :: 0 <= j < |c1| ==> c1[j].val == c2[j].val
  }
}
