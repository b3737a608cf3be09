/** Worked examples of the layout language: whole layouts and what they
    parse to, including the top-plate hole of a one-key layout. Key labels
    are any one character other than `"` and `\`. */
module Scenarios {
  import opened LayoutTypes
  import opened Text
  import opened LayoutGrammar
  import opened FieldLemmas
  import opened LayoutLemmas
  import opened Plate
  import opened RowLemmas

  /** A one-character key label. */
  lemma {:induction false} KeyText(ch: char, rest: string, num: NumParser)
    requires ch != '"' && ch != '\\'
    ensures ParseField(['"', ch, '"'] + rest, num) == FieldOk(Key, rest)
  {
    assert QuotedBody([ch][1..]);
    QuotedKey([ch], rest, num);
    assert ['"'] + [ch] + ['"'] + rest == ['"', ch, '"'] + rest;
  }

  /** An object giving one of `x` and `w`; the other stays unset. */
  lemma {:induction false} OneValue(k: char, v: string, rest: string, num: NumParser)
    requires k == 'x' || k == 'w'
    requires ':' !in v && ',' !in v && '}' !in v
    ensures ParseField(['{', k, ':'] + v + ['}'] + rest, num) ==
            FieldOk(Meta(if k == 'x' then FieldData(num(v), Unset) else FieldData(Unset, num(v))), rest)
  {
    var body := [k, ':'] + v;
    assert ['{', k, ':'] + v + ['}'] + rest == ['{'] + body + ['}'] + rest;
    MetaObject(body, rest, num);
    SplitFree(body, ',');
    PairOf(k, v);
    assert [body][1..] == [];
  }

  lemma {:induction false} AfterComma(s: string)
    ensures SkipComma("," + s) == s
  {
  }

  lemma {:induction false} LineEnd(cursor: real, pending: Option<FieldData>, num: NumParser)
    ensures ParseLine("]", cursor, pending, num) == LineOk([], "]")
  {
  }

  // ---------------------------------------------------------------------
  // One field at the head of a row, the rest of the row `r` left open

  /** `"a"` then `r`: the key gets the cell the cursor and the pending
      metadata give it, and `r` is read from where it ends. */
  lemma {:induction false} KeyFirst(a: char, r: string, cursor: real, pending: Option<FieldData>, num: NumParser)
    requires a != '"' && a != '\\'
    ensures ParseLine(['"', a, '"'] + r, cursor, pending, num) ==
            Prepend([Resolve(cursor, pending)], ParseLine(r, Resolve(cursor, pending).x + Resolve(cursor, pending).w, None, num))
  {
    var c := Resolve(cursor, pending);
    var t := ['"', a, '"'] + r;
    assert t[0] == '"' && SkipComma(t) == t;
    KeyText(a, r, num);
    LineKeyStep(t, cursor, pending, num, r, c.x + c.w);
  }

  /** `,"a"` then `r`: the same after a separating comma. */
  lemma {:induction false} KeyThen(a: char, r: string, cursor: real, pending: Option<FieldData>, num: NumParser)
    requires a != '"' && a != '\\'
    ensures ParseLine("," + (['"', a, '"'] + r), cursor, pending, num) ==
            Prepend([Resolve(cursor, pending)], ParseLine(r, Resolve(cursor, pending).x + Resolve(cursor, pending).w, None, num))
  {
    var c := Resolve(cursor, pending);
    var t := "," + (['"', a, '"'] + r);
    assert t[0] == ',';
    KeyText(a, r, num);
    AfterComma(['"', a, '"'] + r);
    LineKeyStep(t, cursor, pending, num, r, c.x + c.w);
  }

  /** `{x:1}` then `r`: the object becomes the pending metadata. */
  lemma {:induction false} OffsetFirst(r: string, cursor: real, pending: Option<FieldData>, num: NumParser)
    ensures ParseLine("{x:1}" + r, cursor, pending, num) == ParseLine(r, cursor, Some(FieldData(num("1"), Unset)), num)
  {
    var t := "{x:1}" + r;
    assert t[0] == '{' && SkipComma(t) == t;
    OneValue('x', "1", r, num);
    assert ['{', 'x', ':'] + "1" + ['}'] == "{x:1}";
    LineMetaStep(t, cursor, pending, num, FieldData(num("1"), Unset), r);
  }

  /** `,{w:2}` then `r`: the object replaces whatever metadata was pending. */
  lemma {:induction false} WideThen(r: string, cursor: real, pending: Option<FieldData>, num: NumParser)
    ensures ParseLine("," + ("{w:2}" + r), cursor, pending, num) == ParseLine(r, cursor, Some(FieldData(Unset, num("2"))), num)
  {
    var t := "," + ("{w:2}" + r);
    assert t[0] == ',';
    OneValue('w', "2", r, num);
    assert ['{', 'w', ':'] + "2" + ['}'] == "{w:2}";
    AfterComma("{w:2}" + r);
    LineMetaStep(t, cursor, pending, num, FieldData(Unset, num("2")), r);
  }

  // ---------------------------------------------------------------------
  // Whole layouts

  /** A layout of one closed row. */
  lemma {:induction false} OneRow(t: string, row: string, num: NumParser, cells: Row)
    requires t == "[" + row
    requires ParseLine(row, 0.0, None, num) == LineOk(cells, "]")
    ensures ParseLayout(t, num) == Parsed([cells])
  {
    // LayoutOfRows with no noise after the row and no rows after it
    assert t == "[" + row + "" + "";
    LayoutOfRows(row, "", "", num);
    assert [cells] + [] == [cells];
  }

  /** The cells of a row whose tail is `]`. */
  lemma {:induction false} RowEnd(x: LineResult, cells: Row, cursor: real, num: NumParser)
    requires x == Prepend(cells, ParseLine("]", cursor, None, num))
    ensures x == LineOk(cells, "]")
  {
    LineEnd(cursor, None, num);
    assert cells + [] == cells;
  }

  /** `{x:1},"a","b"`, as a row's fields: the offset places the first key at
      1 and the second follows it at 2 (any row text with these fields). */
  lemma {:induction false} OffsetThenKeysFields(t: string, rest: string, num: NumParser)
    requires LexLine(t, num) == Lexed([Meta(FieldData(1.0, Unset)), Key, Key], rest)
    ensures ParseLine(t, 0.0, None, num) == LineOk([FieldData(1.0, 1.0), FieldData(2.0, 1.0)], rest)
  {
    LineFactors(t, 0.0, None, num);
    var fs: seq<Field> := [Meta(FieldData(1.0, Unset)), Key, Key];
    ResolveMeta(FieldData(1.0, Unset), fs[1..], 0.0, None);
    ResolveKey([Key], 0.0, Some(FieldData(1.0, Unset)));
    ResolveKey([], 2.0, None);
    assert [Meta(FieldData(1.0, Unset))] + fs[1..] == fs;
    assert [Key] + [Key] == fs[1..];
  }

  /** `"a",{w:2},"b"`, as a row's fields: the wide key starts where the first
      key ends (any row text with these fields). */
  lemma {:induction false} WideSecondKeyFields(t: string, rest: string, num: NumParser)
    requires LexLine(t, num) == Lexed([Key, Meta(FieldData(Unset, 2.0)), Key], rest)
    ensures ParseLine(t, 0.0, None, num) == LineOk([FieldData(0.0, 1.0), FieldData(1.0, 2.0)], rest)
  {
    LineFactors(t, 0.0, None, num);
    var fs: seq<Field> := [Key, Meta(FieldData(Unset, 2.0)), Key];
    ResolveKey(fs[1..], 0.0, None);
    ResolveMeta(FieldData(Unset, 2.0), [Key], 1.0, None);
    ResolveKey([], 1.0, Some(FieldData(Unset, 2.0)));
    assert [Key] + fs[1..] == fs;
    assert [Meta(FieldData(Unset, 2.0))] + [Key] == fs[1..];
  }

  /** The first row of OffsetThenKeys, with the text after its second key
      left open. */
  lemma {:induction false} OffsetRowThen(a: char, b: char, r: string, num: NumParser)
    requires a != '"' && a != '\\' && b != '"' && b != '\\'
    requires num("1") == 1.0
    ensures ParseLine("{x:1}" + ("," + (['"', a, '"'] + ("," + (['"', b, '"'] + r)))), 0.0, None, num) ==
            Prepend([FieldData(1.0, 1.0), FieldData(2.0, 1.0)], ParseLine(r, 3.0, None, num))
  {
    var r2 := "," + (['"', b, '"'] + r);
    var r1 := "," + (['"', a, '"'] + r2);
    var offset := Some(FieldData(1.0, Unset));
    KeyThen(b, r, 2.0, None, num);
    assert ParseLine(r2, 2.0, None, num) == Prepend([FieldData(2.0, 1.0)], ParseLine(r, 3.0, None, num));
    KeyThen(a, r2, 0.0, offset, num);
    assert ParseLine(r1, 0.0, offset, num) == Prepend([FieldData(1.0, 1.0)], ParseLine(r2, 2.0, None, num));
    var tail := ParseLine(r, 3.0, None, num);
    PrependTwice([FieldData(1.0, 1.0)], [FieldData(2.0, 1.0)], tail);
    assert [FieldData(1.0, 1.0)] + [FieldData(2.0, 1.0)] == [FieldData(1.0, 1.0), FieldData(2.0, 1.0)];
    assert ParseLine(r1, 0.0, offset, num) == Prepend([FieldData(1.0, 1.0), FieldData(2.0, 1.0)], tail);
    OffsetFirst(r1, 0.0, None, num);
  }

  lemma {:induction false} OffsetKeysText(a: char, b: char)
    ensures "[" + ("{x:1}" + ("," + (['"', a, '"'] + ("," + (['"', b, '"'] + "]"))))) ==
            "[{x:1}," + ['"', a, '"'] + "," + ['"', b, '"'] + "]"
  {
  }

  /** `[{x:1},"a","b"]`: the offset places the first key at 1 and the second
      follows it at 2, whatever the two labels. */
  lemma {:induction false} OffsetThenKeys(a: char, b: char, num: NumParser)
    requires a != '"' && a != '\\' && b != '"' && b != '\\'
    requires num("1") == 1.0
    ensures ParseLayout("[{x:1}," + ['"', a, '"'] + "," + ['"', b, '"'] + "]", num) ==
            Parsed([[FieldData(1.0, 1.0), FieldData(2.0, 1.0)]])
  {
    var row := "{x:1}" + ("," + (['"', a, '"'] + ("," + (['"', b, '"'] + "]"))));
    var cells := [FieldData(1.0, 1.0), FieldData(2.0, 1.0)];
    OffsetRowThen(a, b, "]", num);
    RowEnd(ParseLine(row, 0.0, None, num), cells, 3.0, num);
    OffsetKeysText(a, b);
    OneRow("[{x:1}," + ['"', a, '"'] + "," + ['"', b, '"'] + "]", row, num, cells);
  }

  /** OffsetThenKeys for the labels `a` and `b`. */
  lemma {:induction false} OffsetThenKeysAB(num: NumParser)
    requires num("1") == 1.0
    ensures ParseLayout("[{x:1},\"a\",\"b\"]", num) == Parsed([[FieldData(1.0, 1.0), FieldData(2.0, 1.0)]])
  {
    var t := "[{x:1}," + ['"', 'a', '"'] + "," + ['"', 'b', '"'] + "]";
    assert t == "[{x:1},\"a\",\"b\"]";
    OffsetThenKeys('a', 'b', num);
  }

  /** The first row of WideSecondKey, with the text after its second key
      left open. */
  lemma {:induction false} WideRowThen(a: char, b: char, r: string, num: NumParser)
    requires a != '"' && a != '\\' && b != '"' && b != '\\'
    requires num("2") == 2.0
    ensures ParseLine(['"', a, '"'] + ("," + ("{w:2}" + ("," + (['"', b, '"'] + r)))), 0.0, None, num) ==
            Prepend([FieldData(0.0, 1.0), FieldData(1.0, 2.0)], ParseLine(r, 3.0, None, num))
  {
    var r2 := "," + (['"', b, '"'] + r);
    var r1 := "," + ("{w:2}" + r2);
    var wide := Some(FieldData(Unset, 2.0));
    KeyThen(b, r, 1.0, wide, num);
    assert ParseLine(r2, 1.0, wide, num) == Prepend([FieldData(1.0, 2.0)], ParseLine(r, 3.0, None, num));
    WideThen(r2, 1.0, None, num);
    assert ParseLine(r1, 1.0, None, num) == ParseLine(r2, 1.0, wide, num);
    var tail := ParseLine(r, 3.0, None, num);
    PrependTwice([FieldData(0.0, 1.0)], [FieldData(1.0, 2.0)], tail);
    assert [FieldData(0.0, 1.0)] + [FieldData(1.0, 2.0)] == [FieldData(0.0, 1.0), FieldData(1.0, 2.0)];
    KeyFirst(a, r1, 0.0, None, num);
  }

  lemma {:induction false} WideKeyText(a: char, b: char)
    ensures "[" + (['"', a, '"'] + ("," + ("{w:2}" + ("," + (['"', b, '"'] + "]"))))) ==
            "[" + ['"', a, '"'] + ",{w:2}," + ['"', b, '"'] + "]"
  {
  }

  /** `["a",{w:2},"b"]`: the wide key starts where the first key ends,
      whatever the two labels. */
  lemma {:induction false} WideSecondKey(a: char, b: char, num: NumParser)
    requires a != '"' && a != '\\' && b != '"' && b != '\\'
    requires num("2") == 2.0
    ensures ParseLayout("[" + ['"', a, '"'] + ",{w:2}," + ['"', b, '"'] + "]", num) ==
            Parsed([[FieldData(0.0, 1.0), FieldData(1.0, 2.0)]])
  {
    var row := ['"', a, '"'] + ("," + ("{w:2}" + ("," + (['"', b, '"'] + "]"))));
    var cells := [FieldData(0.0, 1.0), FieldData(1.0, 2.0)];
    WideRowThen(a, b, "]", num);
    RowEnd(ParseLine(row, 0.0, None, num), cells, 3.0, num);
    WideKeyText(a, b);
    OneRow("[" + ['"', a, '"'] + ",{w:2}," + ['"', b, '"'] + "]", row, num, cells);
  }

  /** WideSecondKey for the labels `a` and `b`. */
  lemma {:induction false} WideSecondKeyAB(num: NumParser)
    requires num("2") == 2.0
    ensures ParseLayout("[\"a\",{w:2},\"b\"]", num) == Parsed([[FieldData(0.0, 1.0), FieldData(1.0, 2.0)]])
  {
    var t := "[" + ['"', 'a', '"'] + ",{w:2}," + ['"', 'b', '"'] + "]";
    assert t == "[\"a\",{w:2},\"b\"]";
    WideSecondKey('a', 'b', num);
  }

  /** The row of ObjectsReplace, with the text after its key left open. */
  lemma {:induction false} ReplaceRowThen(a: char, r: string, num: NumParser)
    requires a != '"' && a != '\\'
    requires num("2") == 2.0
    ensures ParseLine("{x:1}" + ("," + ("{w:2}" + ("," + (['"', a, '"'] + r)))), 0.0, None, num) ==
            Prepend([FieldData(0.0, 2.0)], ParseLine(r, 2.0, None, num))
  {
    var r2 := "," + (['"', a, '"'] + r);
    var r1 := "," + ("{w:2}" + r2);
    var wide := Some(FieldData(Unset, 2.0));
    KeyThen(a, r, 0.0, wide, num);
    assert ParseLine(r2, 0.0, wide, num) == Prepend([FieldData(0.0, 2.0)], ParseLine(r, 2.0, None, num));
    WideThen(r2, 0.0, Some(FieldData(num("1"), Unset)), num);
    assert ParseLine(r1, 0.0, Some(FieldData(num("1"), Unset)), num) == ParseLine(r2, 0.0, wide, num);
    OffsetFirst(r1, 0.0, None, num);
  }

  lemma {:induction false} ReplaceText(a: char)
    ensures "[" + ("{x:1}" + ("," + ("{w:2}" + ("," + (['"', a, '"'] + "]"))))) == "[{x:1},{w:2}," + ['"', a, '"'] + "]"
  {
  }

  /** `[{x:1},{w:2},"a"]`: the second object replaces the first as a whole,
      so `x` is unset again and the key stays at the cursor, whatever number
      `{x:1}` held. */
  lemma {:induction false} ObjectsReplace(a: char, num: NumParser)
    requires a != '"' && a != '\\'
    requires num("2") == 2.0
    ensures ParseLayout("[{x:1},{w:2}," + ['"', a, '"'] + "]", num) == Parsed([[FieldData(0.0, 2.0)]])
  {
    var row := "{x:1}" + ("," + ("{w:2}" + ("," + (['"', a, '"'] + "]"))));
    var cells := [FieldData(0.0, 2.0)];
    ReplaceRowThen(a, "]", num);
    RowEnd(ParseLine(row, 0.0, None, num), cells, 2.0, num);
    ReplaceText(a);
    OneRow("[{x:1},{w:2}," + ['"', a, '"'] + "]", row, num, cells);
  }

  /** A field that does not parse fails its row. */
  lemma {:induction false} FieldFails(t: string, cursor: real, pending: Option<FieldData>, num: NumParser)
    requires |t| > 0 && t[0] != ']'
    requires ParseField(SkipComma(t), num) == FieldError
    ensures ParseLine(t, cursor, pending, num) == LineError
  {
  }

  /** A layout whose first row is malformed. */
  lemma {:induction false} RowFails(t: string, row: string, num: NumParser)
    requires t == "[" + row
    requires ParseLine(row, 0.0, None, num) == LineError
    ensures ParseLayout(t, num) == Unparseable
  {
    assert t[1..] == row;
  }

  /** `["a",]`: a comma right before the `]` leaves `]` where a field must be. */
  lemma TrailingComma(num: NumParser)
    ensures ParseLayout("[\"a\",]", num) == Unparseable
  {
    var row := ['"', 'a', '"'] + ",]";
    KeyText('a', ",]", num);
    LineKeyStep(row, 0.0, None, num, ",]", 1.0);
    LineRejects(",]", 1.0, None, num);
    assert "[\"a\",]" == "[" + row;
    RowFails("[\"a\",]", row, num);
  }

  /** `["a]`: a label with no closing quote fails the whole layout. */
  lemma UnclosedLabel(num: NumParser)
    ensures ParseLayout("[\"a]", num) == Unparseable
  {
    var row := ['"'] + "a]";
    UnterminatedKey("a]", num);
    FieldFails(row, 0.0, None, num);
    assert "[\"a]" == "[" + row;
    RowFails("[\"a]", row, num);
  }

  /** `["a"]` has one plain key, whose top-plate hole sits half a kerf inside
      the corner of the key area. */
  lemma OneKeyLayoutPlate(num: NumParser)
    ensures ParseLayout("[\"a\"]", num).Parsed?
    ensures Holes(ParseLayout("[\"a\"]", num).rows) ==
            [Rect(BoardPadding + Kerf2, BoardPadding + Kerf2, HoleWidth - Kerf, HoleWidth - Kerf)]
  {
    var row := "\"a\"" + "]";
    KeyText('a', "]", num);
    LineKeyStep(row, 0.0, None, num, "]", 1.0);
    LineEnd(1.0, None, num);
    OneRow("[\"a\"]", row, num, [FieldData(0.0, 1.0)]);
    OneKeyPlate();
  }
}
