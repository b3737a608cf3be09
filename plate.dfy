/** The physical constants of the case (index.ts:9-34) and the key holes of
    the top plate (index.ts:149, index.ts:231-235). Lengths are millimetres,
    key positions are in units of the key pitch U; arithmetic is exact. */
module Plate {
  import opened LayoutTypes

  /** The key pitch. */
  const U: real := 19.05
  const HoleWidth: real := 14.0
  const HoleGap: real := U - HoleWidth
  /** The margin around the key area; the board needs it to be positive. */
  const BoardPadding: real := HoleGap
  /** The width of the laser cut. */
  const Kerf: real := 0.2
  const Kerf2: real := 0.5 * Kerf
  const BoardWidth: real := 7.75 * U - HoleGap + 2.0 * BoardPadding
  const BoardHeight: real := 5.0 * U - HoleGap + 2.0 * BoardPadding
  const CornerRadius: real := 5.05
  const BoardOffsetPadding: real := 0.75 * BoardPadding + Kerf
  const BoardOffsetX: real := 1.0 * (BoardWidth + BoardOffsetPadding)
  const BoardOffsetY: real := 1.0 * (BoardHeight + BoardOffsetPadding)
  const ScrewSizeSmall: real := 2.1
  const ScrewSizeBig: real := 3.4
  const ScrewPadding: real := HoleGap
  /** The side of the square of padding around a corner screw. */
  const ScrewSquare: real := ScrewSizeBig + 2.0 * ScrewPadding
  const ScrewSquare2: real := 0.5 * ScrewSquare
  /** What is left between a screw square and a key hole half a unit from the edge. */
  const ScrewPaddingGap: real := (BoardPadding + 0.5 * U) - ScrewSquare
  /** How far down the top-right screw square sits. */
  const ScrewTopRight: real := BoardPadding + U - HoleGap

  /** An axis-parallel rectangle: top-left corner, width and height. */
  datatype Rect = Rect(x: real, y: real, w: real, h: real)

  /** The constants that the rest of the geometry relies on: the padding is
      positive, the screw squares leave room before the outermost key holes,
      and the board is 7.75 by 5 units of keys inside its padding. */
  lemma {:induction false} ConstantFacts()
    ensures BoardPadding > 0.0 && ScrewPaddingGap > 0.0
    ensures BoardWidth - 2.0 * BoardPadding == 7.75 * U - HoleGap
    ensures BoardHeight - 2.0 * BoardPadding == 5.0 * U - HoleGap
    ensures ScrewSquare == 13.5 && ScrewPaddingGap == 1.075
  {
  }

  /** The left edge of the one-unit square at the middle of a key, in units
      (index.ts:149, index.ts:233): the square lies centred in the key's
      footprint `[x, x + w]` whenever the key is at least one unit wide. */
  function KeyCentre(cell: FieldData): (c: real)
    ensures c + 0.5 == cell.x + cell.w / 2.0
    ensures c - cell.x == (cell.x + cell.w) - (c + 1.0)
    ensures cell.w >= 1.0 ==> cell.x <= c && c + 1.0 <= cell.x + cell.w
  {
    cell.x + 0.5 * (cell.w - 1.0)
  }

  /** The top-plate hole of a key in row `row` (index.ts:233-234): a square
      shrunk by the kerf, whatever the key's width, centred on the middle of
      the key's footprint in the key grid that starts half a gap inside the
      board edge. */
  function KeyHole(cell: FieldData, row: nat): (r: Rect)
    ensures r.w == HoleWidth - Kerf && r.h == HoleWidth - Kerf
    ensures r.x + r.w / 2.0 == HoleGap / 2.0 + (cell.x + cell.w / 2.0) * U
    ensures r.y + r.h / 2.0 == HoleGap / 2.0 + (row as real + 0.5) * U
  {
    var c := KeyCentre(cell);
    Rect(BoardPadding + c * U + Kerf2, BoardPadding + (row as real) * U + Kerf2, HoleWidth - Kerf, HoleWidth - Kerf)
  }

  /** A key whose footprint lies in the 7.75 by 5 unit key area gets a hole
      strictly inside the board's padding. */
  lemma {:induction false} KeyHoleInsideBoard(cell: FieldData, row: nat)
    requires 0.0 <= cell.x && 1.0 <= cell.w && cell.x + cell.w <= 7.75 && row < 5
    ensures BoardPadding < KeyHole(cell, row).x
    ensures KeyHole(cell, row).x + KeyHole(cell, row).w < BoardWidth - BoardPadding
    ensures BoardPadding < KeyHole(cell, row).y
    ensures KeyHole(cell, row).y + KeyHole(cell, row).h < BoardHeight - BoardPadding
  {
    var c := KeyCentre(cell);
    assert 0.0 <= c <= 6.75;
    var r := KeyHole(cell, row);
    assert r.x == BoardPadding + c * 19.05 + 0.1;
    assert r.y == BoardPadding + (row as real) * 19.05 + 0.1;
  }

  /** Keys of one row whose footprints do not overlap get holes that do not
      overlap either, with at least the hole gap plus the kerf between them. */
  lemma {:induction false} HolesApart(a: FieldData, b: FieldData, row: nat)
    requires 1.0 <= a.w && 1.0 <= b.w && a.x + a.w <= b.x
    ensures KeyHole(a, row).x + KeyHole(a, row).w + HoleGap + Kerf <= KeyHole(b, row).x
  {
    var ca, cb := KeyCentre(a), KeyCentre(b);
    assert cb - ca >= 1.0;
    assert KeyHole(b, row).x - KeyHole(a, row).x == (cb - ca) * 19.05;
  }

  // ---------------------------------------------------------------------
  // The holes of a whole layout

  /** The number of cells of the layout. */
  function CellCount(layout: Layout): nat
    decreases |layout|
  {
    if layout == [] then 0 else CellCount(layout[..|layout| - 1]) + |layout[|layout| - 1]|
  }

  /** The holes of one row, in the order of its cells. */
  function RowHoles(cells: Row, row: nat): (holes: seq<Rect>)
    decreases |cells|
    ensures |holes| == |cells|
  {
    if cells == [] then [] else RowHoles(cells[..|cells| - 1], row) + [KeyHole(cells[|cells| - 1], row)]
  }

  /** The holes of the top plate, row after row. */
  function Holes(layout: Layout): (holes: seq<Rect>)
    decreases |layout|
    ensures |holes| == CellCount(layout)
  {
    if layout == [] then []
    else Holes(layout[..|layout| - 1]) + RowHoles(layout[|layout| - 1], |layout| - 1)
  }

  /** The nested loops of index.ts:231-235, collecting the rectangles. */
  method TopPlateHoles(layout: Layout) returns (holes: seq<Rect>)
    ensures holes == Holes(layout)
  {
    holes := [];
    for row := 0 to |layout|
      invariant holes == Holes(layout[..row])
    {
      var cells := layout[row];
      ghost var before := holes;
      for col := 0 to |cells|
        invariant holes == before + RowHoles(cells[..col], row)
      {
        assert cells[..col + 1][..col] == cells[..col];
        holes := holes + [KeyHole(cells[col], row)];
      }
      assert cells[..|cells|] == cells;
      assert layout[..row + 1][..row] == layout[..row];
    }
    assert layout[..|layout|] == layout;
  }

  lemma {:induction false} RowHolesAt(cells: Row, row: nat, c: nat)
    requires c < |cells|
    ensures RowHoles(cells, row)[c] == KeyHole(cells[c], row)
    decreases |cells|
  {
    var pre := cells[..|cells| - 1];
    if c < |pre| {
      RowHolesAt(pre, row, c);
      assert pre[c] == cells[c];
    }
  }

  /** The top plate has one hole per cell, in row-major order: the holes of
      row `r` come after those of the rows before it, cell by cell. */
  lemma {:induction false} HolesRowMajor(layout: Layout, r: nat, c: nat)
    requires r < |layout| && c < |layout[r]|
    ensures CellCount(layout[..r]) + c < |Holes(layout)|
    ensures Holes(layout)[CellCount(layout[..r]) + c] == KeyHole(layout[r][c], r)
    decreases |layout|
  {
    var n := |layout| - 1;
    var pre := layout[..n];
    if r < n {
      HolesRowMajor(pre, r, c);
      assert pre[..r] == layout[..r];
      assert pre[r] == layout[r];
    } else {
      RowHolesAt(layout[n], n, c);
    }
  }

  /** A layout of one row with one plain key has a single hole at the corner
      of the key area, inside the padding by half the kerf. */
  lemma {:induction false} OneKeyPlate()
    ensures Holes([[FieldData(0.0, 1.0)]]) == [Rect(BoardPadding + Kerf2, BoardPadding + Kerf2, HoleWidth - Kerf, HoleWidth - Kerf)]
  {
    var layout: Layout := [[FieldData(0.0, 1.0)]];
    assert layout[..0] == [];
    assert layout[0][..0] == [];
  }
}
