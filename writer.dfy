/** Writing a layout back in the layout language, and the round trip: the
    written text parses to the layout it came from. Cells are written as
    `{x:…,w:…},""`, rows as `[…]` followed by a newline. */
module LayoutWriter {
  import opened LayoutTypes
  import opened Text
  import opened LayoutGrammar
  import opened FieldLemmas
  import opened RowLemmas
  import opened LayoutLemmas

  /** `show` writes the number `v` so that `num` reads it back, with none of
      the characters that delimit pairs and objects. */
  ghost predicate Shows(num: NumParser, show: real -> string, v: real) {
    num(show(v)) == v && ',' !in show(v) && ':' !in show(v) && '}' !in show(v)
  }

  /** Every value of the cells is written so that it reads back. */
  ghost predicate ShowsCells(num: NumParser, show: real -> string, cells: Row) {
    forall c | 0 <= c < |cells| :: Shows(num, show, cells[c].x) && Shows(num, show, cells[c].w)
  }

  /** Every value of the layout is written so that it reads back. */
  ghost predicate ShowsLayout(num: NumParser, show: real -> string, rows: Layout) {
    forall r | 0 <= r < |rows| :: ShowsCells(num, show, rows[r])
  }

  /** No value of the layout collides with the "unset" sentinel. */
  ghost predicate NoUnset(rows: Layout) {
    forall r, c | 0 <= r < |rows| && 0 <= c < |rows[r]| :: rows[r][c].x != Unset && rows[r][c].w != Unset
  }

  function CellMeta(c: FieldData, show: real -> string): string {
    "{x:" + show(c.x) + ",w:" + show(c.w) + "}"
  }

  function CellText(c: FieldData, show: real -> string): string {
    CellMeta(c, show) + ",\"\""
  }

  function RowText(cells: Row, show: real -> string): string
    decreases |cells|
  {
    if cells == [] then "" else CellText(cells[0], show) + RowText(cells[1..], show)
  }

  function LayoutText(rows: Layout, show: real -> string): string
    decreases |rows|
  {
    if rows == [] then "" else "[" + (RowText(rows[0], show) + "]") + "\n" + LayoutText(rows[1..], show)
  }

  /** The fields a written row consists of. */
  function Tokens(cells: Row): seq<Field>
    decreases |cells|
  {
    if cells == [] then [] else [Meta(cells[0]), Key] + Tokens(cells[1..])
  }

  // ---------------------------------------------------------------------

  lemma {:induction false} SplitBody(X: string, W: string)
    requires ',' !in X && ',' !in W
    ensures Split("x:" + X + ",w:" + W, ',') == ["x:" + X, "w:" + W]
  {
    var px, pw := "x:" + X, "w:" + W;
    assert "x:" + X + ",w:" + W == px + [','] + pw;
    SplitAtFirst(px, ',', pw);
    SplitFree(pw, ',');
  }

  lemma {:induction false} LastValues(X: string, W: string)
    requires ':' !in X && ':' !in W
    ensures LastValue(["x:" + X, "w:" + W], "x") == Some(X)
    ensures LastValue(["x:" + X, "w:" + W], "w") == Some(W)
  {
    var px, pw := "x:" + X, "w:" + W;
    assert px == ['x', ':'] + X && pw == ['w', ':'] + W;
    PairOf('x', X);
    PairOf('w', W);
    assert [px, pw][1..] == [pw];
    assert [pw][1..] == [];
    assert LastValue([pw], "x") == None;
    assert LastValue([pw], "w") == Some(W);
  }

  lemma {:induction false} MetaBody(X: string, W: string, num: NumParser)
    requires ',' !in X && ',' !in W && ':' !in X && ':' !in W
    ensures MetaOf("x:" + X + ",w:" + W, num) == FieldData(num(X), num(W))
  {
    SplitBody(X, W);
    LastValues(X, W);
    PairsLastWins(FieldData(Unset, Unset), ["x:" + X, "w:" + W], num);
  }

  lemma {:induction false} CellMetaField(c: FieldData, rest: string, num: NumParser, show: real -> string)
    requires Shows(num, show, c.x) && Shows(num, show, c.w)
    ensures ParseField(CellMeta(c, show) + rest, num) == FieldOk(Meta(c), rest)
  {
    var X, W := show(c.x), show(c.w);
    assert num(X) == c.x && ',' !in X && ':' !in X && '}' !in X;
    assert num(W) == c.w && ',' !in W && ':' !in W && '}' !in W;
    var body := "x:" + X + ",w:" + W;
    MetaBody(X, W, num);
    assert '}' !in body;
    MetaField(body, rest, num);
    BracedBody(X, W, rest);
  }

  lemma {:induction false} BracedBody(X: string, W: string, rest: string)
    ensures "{x:" + X + ",w:" + W + "}" + rest == ['{'] + ("x:" + X + ",w:" + W) + ['}'] + rest
  {
  }

  /** MetaObject restated with MetaOf. */
  lemma {:induction false} MetaField(body: string, rest: string, num: NumParser)
    requires '}' !in body
    ensures ParseField(['{'] + body + ['}'] + rest, num) == FieldOk(Meta(MetaOf(body, num)), rest)
  {
    MetaObject(body, rest, num);
    PairsLastWins(FieldData(Unset, Unset), Split(body, ','), num);
  }

  lemma {:induction false} EmptyKeyField(rest: string, num: NumParser)
    ensures ParseField("\"\"" + rest, num) == FieldOk(Key, rest)
  {
    QuotedKey([], rest, num);
    assert ['"'] + [] + ['"'] + rest == "\"\"" + rest;
  }

  /** A written cell lexes as its metadata object and a key. */
  lemma {:induction false} LexCell(c: FieldData, s: string, num: NumParser, show: real -> string)
    requires Shows(num, show, c.x) && Shows(num, show, c.w)
    requires LexLine(s, num).Lexed?
    ensures LexLine(CellText(c, show) + s, num) == Lexed([Meta(c), Key] + LexLine(s, num).fields, LexLine(s, num).rest)
  {
    var m := CellMeta(c, show);
    CellMetaField(c, "," + ("\"\"" + s), num, show);
    LexMetaKey(m, Meta(c), s, num);
  }

  /** A field `m` followed by `,""` lexes as that field and a key. */
  lemma {:induction false} LexMetaKey(m: string, f: Field, s: string, num: NumParser)
    requires |m| > 0 && m[0] == '{'
    requires ParseField(m + ("," + ("\"\"" + s)), num) == FieldOk(f, "," + ("\"\"" + s))
    requires LexLine(s, num).Lexed?
    ensures LexLine(m + ",\"\"" + s, num) == Lexed([f, Key] + LexLine(s, num).fields, LexLine(s, num).rest)
  {
    var l := LexLine(s, num);
    var keyText := "\"\"" + s;
    var commaKey := "," + keyText;
    var t := m + commaKey;
    CellText3(m, s);
    EmptyKeyField(s, num);
    assert commaKey[0] == ',' && commaKey[1..] == keyText;
    LexStep(commaKey, Key, s, num);
    assert t[0] == '{';
    LexStep(t, f, commaKey, num);
    ConsTwo(f, Key, l.fields);
  }

  lemma {:induction false} ConsTwo(a: Field, b: Field, fs: seq<Field>)
    ensures [a] + ([b] + fs) == [a, b] + fs
  {
  }

  lemma {:induction false} CellText3(m: string, s: string)
    ensures m + ",\"\"" + s == m + ("," + ("\"\"" + s))
  {
  }

  lemma {:induction false} LexRow(cells: Row, num: NumParser, show: real -> string)
    requires ShowsCells(num, show, cells)
    ensures LexLine(RowText(cells, show) + "]", num) == Lexed(Tokens(cells), "]")
    decreases |cells|
  {
    if cells != [] {
      ShowsCellsParts(num, show, cells);
      LexRow(cells[1..], num, show);
      FirstCellThenRest(cells, num, show);
    }
  }

  /** The cells of a row written so that it reads back are too. */
  lemma {:induction false} ShowsCellsParts(num: NumParser, show: real -> string, cells: Row)
    requires cells != [] && ShowsCells(num, show, cells)
    ensures ShowsCells(num, show, cells[1..])
    ensures Shows(num, show, cells[0].x) && Shows(num, show, cells[0].w)
  {
    assert forall c | 0 <= c < |cells[1..]| :: cells[1..][c] == cells[c + 1];
  }

  /** A row whose first cell reads back and whose remaining cells lex to
      their tokens lexes to its tokens. */
  lemma {:induction false} FirstCellThenRest(cells: Row, num: NumParser, show: real -> string)
    requires cells != []
    requires Shows(num, show, cells[0].x) && Shows(num, show, cells[0].w)
    requires LexLine(RowText(cells[1..], show) + "]", num) == Lexed(Tokens(cells[1..]), "]")
    ensures LexLine(RowText(cells, show) + "]", num) == Lexed(Tokens(cells), "]")
  {
    assert RowText(cells, show) + "]" == CellText(cells[0], show) + (RowText(cells[1..], show) + "]");
    LexCell(cells[0], RowText(cells[1..], show) + "]", num, show);
  }

  lemma {:induction false} ResolveTokens(cells: Row, cursor: real, pending: Option<FieldData>)
    requires forall c | 0 <= c < |cells| :: cells[c].x != Unset && cells[c].w != Unset
    ensures ResolveRow(Tokens(cells), cursor, pending) == cells
    decreases |cells|
  {
    if cells != [] {
      var c := cells[0];
      var fs := Tokens(cells);
      assert fs[1..][1..] == Tokens(cells[1..]);
      assert Resolve(cursor, Some(c)) == c;
      ResolveTokens(cells[1..], c.x + c.w, None);
    }
  }

  /** A written row reads back as its cells, whatever the cursor it starts at
      and whatever metadata is pending. */
  lemma {:induction false} RowRoundTrip(cells: Row, num: NumParser, show: real -> string, cursor: real, pending: Option<FieldData>)
    requires ShowsCells(num, show, cells)
    requires forall c | 0 <= c < |cells| :: cells[c].x != Unset && cells[c].w != Unset
    ensures ParseLine(RowText(cells, show) + "]", cursor, pending, num) == LineOk(cells, "]")
  {
    LexRow(cells, num, show);
    LineFactors(RowText(cells, show) + "]", cursor, pending, num);
    ResolveTokens(cells, cursor, pending);
  }

  /** The written text of a layout parses back to that layout, provided each
      of its values is written so that it reads back and none is the -1
      sentinel (which the parser would read as "not given"). */
  lemma {:induction false} RoundTrip(rows: Layout, num: NumParser, show: real -> string)
    requires ShowsLayout(num, show, rows)
    requires NoUnset(rows)
    ensures ParseLayout(LayoutText(rows, show), num) == Parsed(rows)
    decreases |rows|
  {
    if rows != [] {
      NoUnsetParts(rows);
      ShowsParts(num, show, rows);
      RoundTrip(rows[1..], num, show);
      RowRoundTrip(rows[0], num, show, 0.0, None);
      FirstRowThenRest(rows, num, show);
    }
  }

  /** A layout whose first row and remaining rows each read back reads back. */
  lemma {:induction false} FirstRowThenRest(rows: Layout, num: NumParser, show: real -> string)
    requires rows != []
    requires ParseLine(RowText(rows[0], show) + "]", 0.0, None, num) == LineOk(rows[0], "]")
    requires ParseLayout(LayoutText(rows[1..], show), num) == Parsed(rows[1..])
    ensures ParseLayout(LayoutText(rows, show), num) == Parsed(rows)
  {
    var row := RowText(rows[0], show) + "]";
    var more := LayoutText(rows[1..], show);
    LayoutTextCons(rows, show);
    LayoutTextStart(rows[1..], show);
    assert '[' !in "\n";
    RowThenLayout(LayoutText(rows, show), row, "\n", more, num, rows[0], rows[1..]);
    assert [rows[0]] + rows[1..] == rows;
  }

  /** The rows of a layout without the sentinel are free of it too. */
  lemma {:induction false} NoUnsetParts(rows: Layout)
    requires rows != [] && NoUnset(rows)
    ensures NoUnset(rows[1..])
    ensures forall c | 0 <= c < |rows[0]| :: rows[0][c].x != Unset && rows[0][c].w != Unset
  {
    forall r, c | 0 <= r < |rows[1..]| && 0 <= c < |rows[1..][r]|
      ensures rows[1..][r][c].x != Unset && rows[1..][r][c].w != Unset
    {
      assert rows[1..][r] == rows[r + 1];
    }
  }

  /** The rows of a layout written so that it reads back are too. */
  lemma {:induction false} ShowsParts(num: NumParser, show: real -> string, rows: Layout)
    requires rows != [] && ShowsLayout(num, show, rows)
    ensures ShowsLayout(num, show, rows[1..])
    ensures ShowsCells(num, show, rows[0])
  {
    assert forall r | 0 <= r < |rows[1..]| :: rows[1..][r] == rows[r + 1];
  }

  /** The written text of a layout starts with the `[` of its first row. */
  lemma {:induction false} LayoutTextStart(rows: Layout, show: real -> string)
    ensures LayoutText(rows, show) == [] || LayoutText(rows, show)[0] == '['
  {
  }

  /** The written text of a layout, row by row. */
  lemma {:induction false} LayoutTextCons(rows: Layout, show: real -> string)
    requires rows != []
    ensures LayoutText(rows, show) == "[" + (RowText(rows[0], show) + "]") + "\n" + LayoutText(rows[1..], show)
  {
  }

  /** LayoutOfRows for a text already cut into its parts. */
  lemma {:induction false} RowThenLayout(t: string, row: string, noise: string, more: string, num: NumParser, cells: Row, rows: Layout)
    requires t == "[" + row + noise + more
    requires ParseLine(row, 0.0, None, num) == LineOk(cells, "]")
    requires '[' !in noise
    requires more == [] || more[0] == '['
    requires ParseLayout(more, num) == Parsed(rows)
    ensures ParseLayout(t, num) == Parsed([cells] + rows)
  {
    LayoutOfRows(row, noise, more, num);
  }
}
