/** Values shared by the layout parser and the plate geometry (index.ts:3-7). */
module LayoutTypes {

  datatype Option<T> = None | Some(value: T)

  /** A metadata object `{x:…,w:…}` or a resolved key cell, both in key units.
      In a metadata object a field equal to `Unset` counts as absent. */
  datatype FieldData = FieldData(x: real, w: real)

  /** The sentinel the source writes for "not given" (index.ts:44, 97, 101). */
  const Unset: real := -1.0

  /** One field of a row: a metadata object or a quoted key token. */
  datatype Field = Meta(data: FieldData) | Key

  /** A row of resolved cells, left to right, and a layout, top to bottom. */
  type Row = seq<FieldData>
  type Layout = seq<Row>

  /** The number conversion the source delegates to `parseFloat`. */
  type NumParser = string -> real

  /** `[field, rest]` or `'error'` (index.ts:38). */
  datatype FieldResult = FieldOk(field: Field, rest: string) | FieldError

  /** `[cells, rest]` or `'error'` (index.ts:79). */
  datatype LineResult = LineOk(cells: Row, rest: string) | LineError

  /** The layout or `'error'` (index.ts:116). */
  datatype LayoutResult = Parsed(rows: Layout) | Unparseable
}
