# Keyboard case generator: layout parser and top-plate geometry

This project models the core of a generator for laser-cut keyboard cases
(`index.ts`). The generator reads a keyboard layout written in a small subset
of the keyboard-layout-editor language, for example `[{x:1},"a","b"]`. It
resolves each key token to a cell `(x, w)` in key units, then draws the case
plates in millimetres.

The model covers:

- the three parse functions: `parseKeyboardLayoutField`,
  `parseKeyboardLayoutLine` and `parseKeyboardLayout`;
- the key-centre formula `x + 0.5*(w - 1)`;
- the top plate's key holes, one kerf-shrunk square per cell, in row-major
  order;
- the physical constants;
- the extents of the connector notches on layers 2 and 3, for the left and
  the right half.

Modules, one per concern:

- `LayoutTypes` (`layout_types.dfy`): the records of `index.ts:3-7` and the
  parse results, `'error'` included.
- `Text` (`text.dfy`): `indexOf` for one character and `split` on a
  one-character separator.
- `LayoutGrammar` (`grammar.dfy`): the parser as functions over the remaining
  text, one per parse function. The running cursor and the pending metadata
  are parameters.
- `LayoutParser` (`parser.dfy`): the parser as the source writes it, as
  methods with `while`/`for` loops that re-slice the text. Each method is
  proved equal to its `LayoutGrammar` function.
- `FieldLemmas`, `RowLemmas` and `LayoutLemmas`: what fields, rows and
  layouts mean.
  - `RowLemmas` factors row parsing into tokenising (`LexLine`) and then
    resolving cells (`ResolveRow`). It states the per-key rule of
    `index.ts:96-108` for the k-th cell of any row.
- `LayoutWriter` (`writer.dfy`): a writer for the layout language and the
  round trip back through the parser.
- `Scenarios` (`scenarios.dfy`): worked examples. These are whole layouts and
  what they parse to, error cases, and the hole of a one-key layout.
- `Plate` (`plate.dfy`): constants, key centres and the top-plate holes, with
  a method using the source's nested loops.
- `Connectors` (`connectors.dfy`): the notch extents of layers 2 and 3 and
  their left/right mirror relation.

Numbers are exact reals. `parseFloat` is the parameter `num: string -> real`
of every parse function. A pair without `:` gives `num("undefined")`, since
`parseFloat(undefined)` reads the string `"undefined"`.

In some places `index.ts` behaves in ways one might not expect, and the
model keeps that behaviour:

- A malformed number does not fail the parse. It is whatever `parseFloat`
  returns, here `num` of the text.
- An error carries no position. It is the single value `'error'`
  (`FieldError`, `LineError`, `Unparseable`).
- A second metadata object before a key replaces the first wholesale; fields
  are not merged one by one (`index.ts:110`). So `[{x:1},{w:2},"a"]` gives
  the cell `(0, 2)`, not `(1, 2)`: `Scenarios.ObjectsReplace`.
- A comma directly before `]` is an error, because the field after the comma
  is read as `]` (`index.ts:84-91`): `Scenarios.TrailingComma`.
- A row also ends at the end of the text. A last row without `]` is accepted
  (`index.ts:83`, `index.ts:114`): `LayoutLemmas.UnclosedLastRow`.

## Model

| member | source | states |
|---|---|---|
| Text.IndexOf | index.ts:45 | the result is -1 or an index of `s` holding `c` |
| Text.IndexOfFirst | index.ts:45 | `indexOf` returns -1 exactly when `c` does not occur, and otherwise no `c` comes before the returned index |
| Text.Split | index.ts:50 | `split` always returns at least one piece |
| Text.SplitPieces | index.ts:50-52 | no piece of `split` holds the separator, and the pieces joined with it give back the text |
| Text.SplitAtFirst | index.ts:50-52 | splitting `a + d + b`, with `a` free of `d`, yields `a` followed by the pieces of `b` |
| Text.SplitFirst | index.ts:50-52 | `split` gives more than one piece exactly when the separator occurs; its first piece is the separator-free text up to the first separator or the end |
| LayoutGrammar.QuoteEnd | index.ts:63-69 | the quote scan stops at or after its start, on a `"` when inside the text, at most one past the end |
| LayoutGrammar.ObjectField | index.ts:43-61 | an accepted object consumes at least its `{` and is a metadata field, never a key |
| LayoutGrammar.KeyField | index.ts:62-74 | an accepted quoted token consumes at least its opening quote and is a key token |
| LayoutGrammar.ParseField | index.ts:38-78 | an accepted field consumes at least one character, and it is a key token exactly when the text starts with `"` |
| LayoutGrammar.FieldAccepts | index.ts:38-78 | a field is accepted iff the text is non-empty and is `{` with some `}` or `"` with a closing quote; what is left is a suffix of the text |
| LayoutGrammar.SkipCommaSuffix | index.ts:84-86 | the skip before a field drops at most one character, and drops one exactly when the text starts with `,`; the rest is the end of the text |
| LayoutGrammar.ResolveDefaults | index.ts:96-103 | a key with no pending metadata is a unit key at the cursor; pending metadata giving both values places it there; its width is never -1, and its `x` is -1 only if the cursor is |
| LayoutGrammar.ParseLine | index.ts:79-115 | what is left after an accepted row is no longer than the row's text |
| LayoutGrammar.LineAfter | index.ts:89-111 | after the head field, what is left of an accepted row is no longer than the text |
| LayoutGrammar.SkipToRow | index.ts:130-132 | the skip between rows stops at the end of the text or at a `[` |
| LayoutGrammar.SkipToRowSuffix | index.ts:130-132 | the skip drops exactly a `[`-free prefix and keeps the rest unchanged |
| LayoutParser.ReadField | index.ts:38-78 | parseKeyboardLayoutField, written with its branches and slices, returns ParseField of its text |
| LayoutParser.ReadPairs | index.ts:50-59 | the loop over the pairs of an object yields MetaOf of the object's body |
| LayoutParser.ScanQuote | index.ts:63-69 | the `while` loop over a quoted token, with its backslash skip, stops at QuoteEnd(text, 1) |
| LayoutParser.ReadLine | index.ts:79-115 | parseKeyboardLayoutLine, with its mutable cursor, pending metadata and result list, returns ParseLine(text, 0, none) |
| LayoutParser.ReadLayout | index.ts:116-136 | parseKeyboardLayout returns ParseLayout of its text |
| LayoutParser.SkipNoise | index.ts:130-132 | the inner skip loop returns SkipToRow of the rest |
| FieldLemmas.ScanOverBody | index.ts:63-69 | the scan passes over any escape-balanced body without stopping |
| FieldLemmas.ScannedIsBody | index.ts:63-69 | what the scan passes over is an escape-balanced quote-free body |
| FieldLemmas.QuotedKey | index.ts:62-74 | `"`, an escape-balanced body, `"` and any rest read as one key token leaving exactly the rest |
| FieldLemmas.KeyTokenShape | index.ts:62-74 | conversely, every accepted key token is `"` + an escape-balanced body + `"` in front of what is left |
| FieldLemmas.UnterminatedKey | index.ts:70-72 | a quote followed by an escape-balanced body, or by one ending in a lone backslash, with no closing quote is an error |
| FieldLemmas.PairParts | index.ts:52-57 | a pair's key is the `:`-free text before its first `:`; its value is the `:`-free text after it up to the next `:` or the end; a pair without `:` is all key with the value `"undefined"` |
| FieldLemmas.PairEffect | index.ts:52-58 | one pair sets the field its key names (`x` or `w`) to its value read as a number and leaves the other alone; any other key changes nothing |
| FieldLemmas.PairsLastWins | index.ts:51-59 | applying an object's pairs in order: a repeated key takes its last value, and a field no pair names keeps its starting value |
| FieldLemmas.MetaOfValues | index.ts:50-59 | an object body's `x` and `w` are the last values its comma-separated pairs give them, -1 for one no pair gives |
| FieldLemmas.MetaObject | index.ts:43-61 | `{body}rest` with `}`-free body reads as one object whose `x` and `w` are the last values given, -1 if none, leaving `rest` |
| FieldLemmas.FieldExtends | index.ts:38-78 | text appended after an accepted field leaves the field unchanged and ends up at the end of what is left |
| FieldLemmas.MetaExtends | index.ts:43-61 | an object with a closing `}` is read the same whatever follows |
| FieldLemmas.KeyExtends | index.ts:62-74 | a closed key token is read the same whatever follows |
| FieldLemmas.PairOf | index.ts:52-57 | the pair `k:v`, with `v` free of `:`, has key `k` and value `v` |
| RowLemmas.LexLine | index.ts:83-112 | the token sequence of a row stops at `]` or at the end of the text |
| RowLemmas.ResolveRow | index.ts:95-111 | resolving a row's fields yields exactly one cell per key token and none for metadata |
| RowLemmas.LineFactors | index.ts:83-112 | reading a row is tokenising it and then resolving its fields, for every cursor and pending metadata |
| RowLemmas.LineEndsAtBracket | index.ts:83-114 | whether a row is accepted does not depend on the cursor or pending metadata; an accepted row ends at `]` or at the end of the text |
| RowLemmas.LexRestSuffix | index.ts:83-112 | what is left after a row's tokens is the end of its text: the tokenizer only drops characters from the front |
| RowLemmas.LineRestSuffix | index.ts:83-114 | what is left after an accepted row is the end of its text |
| RowLemmas.KeyIndex | index.ts:95-105 | the position of the k-th key token holds a key token |
| RowLemmas.KeyIndexCounts | index.ts:95-105 | the k-th key token has exactly k key tokens before it, so cells follow the textual order of keys |
| RowLemmas.CellAt | index.ts:96-108 | the k-th cell: `w` is the pending `w` if given and not -1, else 1; `x` is the pending `x` if given and not -1, else the start cursor for the first cell or the previous cell's `x + w`; pending is only the field right before the key |
| RowLemmas.CellResolved | index.ts:95-108 | the k-th cell is Resolve of the cursor after k-1 cells and of the metadata that precedes the key |
| LayoutLemmas.LayoutStart | index.ts:116-121 | the empty text is the empty layout; a text starting with anything but `[` is an error |
| LayoutLemmas.LineRejects | index.ts:84-91 | a field position, after its optional comma, that holds anything but `{` or `"` fails the row: a space after a comma, a comma before `]`, two commas |
| LayoutLemmas.LineExtends | index.ts:83-114 | text appended after a row's `]` leaves its cells unchanged and ends up at the end of what is left |
| LayoutLemmas.SkipsNoise | index.ts:130-132 | the skip between rows drops exactly the `[`-free text before the next row |
| LayoutLemmas.LayoutOfRows | index.ts:118-133 | a closed row, `[`-free noise, then more text: the row's cells come first and the rest is read on its own, so rows keep textual order and a later failure fails all |
| LayoutLemmas.LayoutRowCount | index.ts:116-136 | a parsed layout is empty exactly for the empty text and has no more rows than the text has characters, each row taking its own `[` |
| LayoutLemmas.SkipCommaExtends | index.ts:84-86 | skipping the optional comma commutes with appending text |
| LayoutLemmas.UnclosedLastRow | index.ts:83-114 | a last row without a closing `]` is accepted with its cells |
| LayoutWriter.LexRow | index.ts:79-115 | a written row tokenises to one object and one key per cell, given that each written value reads back and is free of `,`, `:` and `}` |
| LayoutWriter.ResolveTokens | index.ts:95-108 | resolving the written row's fields gives back the cells, whatever the starting cursor, when no value is -1 |
| LayoutWriter.RowRoundTrip | index.ts:79-115 | a written row reads back as its cells, ending at `]`, whatever the starting cursor and pending metadata, given that each written value of the row reads back and no value is -1 |
| LayoutWriter.RoundTrip | index.ts:116-136 | the written text of any layout parses back to that layout, given that each written value reads back and no value is -1 |
| LayoutWriter.CellMetaField | index.ts:43-61 | a written `{x:…,w:…}` object reads back as the cell it was written from, given that its two written values read back |
| Plate.ConstantFacts | index.ts:9-34 | the board padding is positive, the screw padding gap is positive (1.075 mm), the screw square is 13.5 mm, and inside its padding the board is 7.75 × 5 pitches less one hole gap |
| Plate.KeyCentre | index.ts:149 | the centre `x + 0.5*(w-1)` is the middle of the cell in key-left-edge coordinates, as far from `x` as its unit box is from `x + w`, and lies inside the cell for `w >= 1` |
| Plate.KeyHole | index.ts:233-234 | every hole has side `hole_width - kerf` whatever `w`, and is centred on the cell's centre and the row's centre on the pitch grid |
| Plate.KeyHoleInsideBoard | index.ts:231-235 | the hole of a cell with `0 <= x`, `1 <= w`, `x + w <= 7.75` in one of rows 0-4 lies strictly inside the board padding |
| Plate.HolesApart | index.ts:233-234 | when cell `a` ends where cell `b` starts or earlier (both `w >= 1`), their holes are at least the hole gap plus kerf apart |
| Plate.RowHoles | index.ts:232-235 | a row gets exactly one hole per cell |
| Plate.Holes | index.ts:231-236 | the top plate gets exactly one hole per cell of the layout |
| Plate.TopPlateHoles | index.ts:231-236 | the nested `for` loops over rows and columns produce Holes(layout) |
| Plate.RowHolesAt | index.ts:232-235 | the c-th hole of a row is the hole of its c-th cell |
| Plate.HolesRowMajor | index.ts:231-236 | the hole of cell (r, c) is at position `cells before row r + c` of the plate's holes: row-major order |
| Plate.OneKeyPlate | index.ts:231-235 | a single unit key at (0, 0) gets the hole at `board_padding + kerf2` on both axes |
| Connectors.HalfOf | index.ts:254 | the selection alone: the left half is chosen exactly when the keyboard name is `left` |
| Connectors.TopLengthsFor | index.ts:252-275 | on both layers and both halves, the top-edge lengths clear the screw square on the left and the padding on the right, and leave room for a notch |
| Connectors.Notch | index.ts:184-200 | the notch starts half a kerf after the left top length and ends half a kerf before the right top length |
| Connectors.Mirror | index.ts:252-275 | mirroring an opening across the board's width swaps and reflects its ends |
| Connectors.MirroredNotches | index.ts:252-275 | on both layers the right half's notch is the left half's notch mirrored and shifted by half a pitch |
| Connectors.NamedNotch | index.ts:252-276 | the notch cut for a keyboard name, on either layer, is the left half's notch exactly when the name is `left`; for every other name it is that notch mirrored and shifted by half a pitch |
| Connectors.NotchWidths | index.ts:252-275 | the layer-2 notch is one pitch plus the USB and TRRS half widths minus kerf wide, and the layer-3 notch is the TRRS legs plus half width minus kerf wide |
| Scenarios.KeyFirst | index.ts:95-108 | a one-character key token at the head of a row gets Resolve(cursor, pending) and the row continues at its right edge |
| Scenarios.KeyThen | index.ts:84-108 | the same after a separating comma |
| Scenarios.OffsetFirst | index.ts:109-111 | `{x:1}` becomes the pending metadata with `w` unset |
| Scenarios.WideThen | index.ts:84-111 | `,{w:2}` replaces whatever metadata was pending |
| Scenarios.OffsetThenKeysFields | index.ts:96-108 | a row whose fields are `{x:1}`, key, key gives the cells (1,1), (2,1) |
| Scenarios.OffsetRowThen | index.ts:84-111 | the row text `{x:1},"a","b"` with any labels and anything after it gives the cells (1,1), (2,1) and continues at 3 |
| Scenarios.OffsetThenKeys | index.ts:79-136 | the layout text `[{x:1},"a","b"]`, whatever the two one-character labels other than `"` and `\`, parses to the single row (1,1), (2,1) |
| Scenarios.OffsetThenKeysAB | index.ts:116-136 | the literal layout `[{x:1},"a","b"]` parses to the single row (1,1), (2,1) |
| Scenarios.WideSecondKeyFields | index.ts:96-108 | a row whose fields are key, `{w:2}`, key gives the cells (0,1), (1,2) |
| Scenarios.WideRowThen | index.ts:84-111 | the row text `"a",{w:2},"b"` with any labels and anything after it gives the cells (0,1), (1,2) and continues at 3 |
| Scenarios.WideSecondKey | index.ts:79-136 | the layout text `["a",{w:2},"b"]`, whatever the two one-character labels other than `"` and `\`, parses to the single row (0,1), (1,2) |
| Scenarios.WideSecondKeyAB | index.ts:116-136 | the literal layout `["a",{w:2},"b"]` parses to the single row (0,1), (1,2) |
| Scenarios.ReplaceRowThen | index.ts:107-111 | after `{x:1},{w:2}`, a key is placed at the cursor with width 2: the second object replaced the first |
| Scenarios.ObjectsReplace | index.ts:116-136 | the whole layout `[{x:1},{w:2},"a"]` parses to the single cell (0, 2) |
| Scenarios.TrailingComma | index.ts:84-91 | `["a",]` is an error |
| Scenarios.UnclosedLabel | index.ts:63-72 | `["a]` is an error |
| Scenarios.OneKeyLayoutPlate | index.ts:231-235 | `["a"]` parses, and its top plate is the single hole at `board_padding + kerf2` |

## Left out

- Reading the layout files, writing the SVG file and all console output
  (`main`, `showKeyPositions`' printing, the error messages in `getSvg`): I/O.
- `parseFloat` itself: numbers are the abstract parameter `num`. So NaN,
  Infinity and partial numeric prefixes are not modelled, and neither is the
  fact that NaN compares unequal to -1.
- IEEE-754 rounding: the parser's cursor update `x += fieldData.w`
  (`index.ts:108`), the key-centre formula and all plate geometry are exact
  real arithmetic.
- The SVG text: path commands, transforms, styles, the board outline, the
  screw-pad paths of `get_layer` and its `connected` mode. The model keeps
  the numbers these are built from (constants, hole rectangles, notch
  extents), not the strings.
- `drawHex` and the screw circles: trigonometry and fixed positions with no
  decision logic.
- Layers 4 onward and the placement of each half's group of layers: repeated
  outline and circle text at fixed offsets.
- Key labels: the parser skips a quoted token's contents, and so does the
  model.
