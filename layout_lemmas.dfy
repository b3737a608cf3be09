/** What a layout means: rows in textual order, the text between a row's `]`
    and the next `[` ignored, errors anywhere failing the whole layout. */
module LayoutLemmas {
  import opened LayoutTypes
  import opened LayoutGrammar
  import opened FieldLemmas

  /** Empty text is the empty layout; text that starts with anything but `[`
      is an error (index.ts:118-121). */
  lemma {:induction false} LayoutStart(t: string, num: NumParser)
    ensures t == [] ==> ParseLayout(t, num) == Parsed([])
    ensures t != [] && t[0] != '[' ==> ParseLayout(t, num) == Unparseable
  {
  }

  /** A field position holding anything but `{` or `"`, after the optional
      comma, fails the row: a space after a comma, a trailing comma before
      `]`, two commas in a row (index.ts:75-77, 84-91). */
  lemma {:induction false} LineRejects(t: string, cursor: real, pending: Option<FieldData>, num: NumParser)
    requires |t| > 0 && t[0] != ']'
    requires var s := SkipComma(t); s == [] || (s[0] != '{' && s[0] != '"')
    ensures ParseLine(t, cursor, pending, num) == LineError
  {
  }

  /** Text after a row's closing `]` does not change how the row is read. */
  lemma {:induction false} LineExtends(t: string, s: string, cursor: real, pending: Option<FieldData>, num: NumParser)
    requires ParseLine(t, cursor, pending, num).LineOk?
    requires ParseLine(t, cursor, pending, num).rest != []
    ensures ParseLine(t + s, cursor, pending, num) ==
            LineOk(ParseLine(t, cursor, pending, num).cells, ParseLine(t, cursor, pending, num).rest + s)
    decreases |t|
  {
    assert |t| > 0;
    if t[0] != ']' {
      var sc := SkipComma(t);
      SkipCommaExtends(t, s);
      var f := ParseField(sc, num);
      assert f.FieldOk?;
      FieldExtends(sc, s, num);
      if f.field == Key {
        var cell := Resolve(cursor, pending);
        var next := cell.x + cell.w;
        LineKeyStep(t, cursor, pending, num, f.rest, next);
        LineKeyStep(t + s, cursor, pending, num, f.rest + s, next);
        LineExtends(f.rest, s, next, None, num);
      } else {
        LineMetaStep(t, cursor, pending, num, f.field.data, f.rest);
        LineMetaStep(t + s, cursor, pending, num, f.field.data, f.rest + s);
        LineExtends(f.rest, s, cursor, Some(f.field.data), num);
      }
    }
  }

  /** Skipping between rows drops exactly the text before the next `[`. */
  lemma {:induction false} SkipsNoise(noise: string, more: string)
    requires '[' !in noise
    requires more == [] || more[0] == '['
    ensures SkipToRow(noise + more) == more
    decreases |noise|
  {
    if noise != [] {
      assert (noise + more)[1..] == noise[1..] + more;
      SkipsNoise(noise[1..], more);
    }
  }

  /** A closed row, then any text free of `[`, then the rest of the layout:
      the row's cells come first and the rest is read on its own, so rows
      appear in textual order and a failure in a later row fails the whole
      layout. `row` is the text after the `[`, up to and including its `]`. */
  lemma {:induction false} LayoutOfRows(row: string, noise: string, more: string, num: NumParser)
    requires ParseLine(row, 0.0, None, num).LineOk?
    requires ParseLine(row, 0.0, None, num).rest == "]"
    requires '[' !in noise
    requires more == [] || more[0] == '['
    ensures ParseLayout("[" + row + noise + more, num) ==
            PrependRows([ParseLine(row, 0.0, None, num).cells], ParseLayout(more, num))
  {
    var cells := ParseLine(row, 0.0, None, num).cells;
    var tail := noise + more;
    LineExtends(row, tail, 0.0, None, num);
    assert "]" + tail == ("]" + noise) + more;
    SkipsNoise("]" + noise, more);
    Regroup("[", row, noise, more);
    LayoutStep(row + tail, num);
  }

  /** The first row of a layout that starts with `[`. */
  lemma {:induction false} LayoutStep(body: string, num: NumParser)
    requires ParseLine(body, 0.0, None, num).LineOk?
    ensures var r := ParseLine(body, 0.0, None, num);
            ParseLayout("[" + body, num) == PrependRows([r.cells], ParseLayout(SkipToRow(r.rest), num))
  {
    assert ("[" + body)[1..] == body;
  }

  lemma {:induction false} Regroup(a: string, b: string, c: string, d: string)
    ensures a + b + c + d == a + (b + (c + d))
  {
  }

  /** A parsed layout has no more rows than its text has characters, and
      it is empty only for the empty text: every row starts with its own `[`. */
  lemma {:induction false} LayoutRowCount(t: string, num: NumParser)
    decreases |t|
    ensures var r := ParseLayout(t, num);
            r.Parsed? ==> |r.rows| <= |t| && (r.rows == [] <==> t == [])
  {
    if |t| > 0 && t[0] == '[' {
      var l := ParseLine(t[1..], 0.0, None, num);
      if l.LineOk? {
        var more := SkipToRow(l.rest);
        LayoutRowCount(more, num);
      }
    }
  }

  lemma {:induction false} SkipCommaExtends(t: string, s: string)
    requires |t| > 0
    ensures SkipComma(t + s) == SkipComma(t) + s
  {
    if t[0] == ',' {
      assert (t + s)[1..] == t[1..] + s;
    }
  }

  /** A last row with no closing `]` is accepted (index.ts:83, 114). */
  lemma {:induction false} UnclosedLastRow(row: string, num: NumParser)
    requires ParseLine(row, 0.0, None, num).LineOk?
    requires ParseLine(row, 0.0, None, num).rest == []
    ensures ParseLayout("[" + row, num) == Parsed([ParseLine(row, 0.0, None, num).cells])
  {
    var t := "[" + row;
    assert t[1..] == row;
    var r := ParseLine(row, 0.0, None, num);
    assert SkipToRow(r.rest) == [];
    assert ParseLayout(t, num) == PrependRows([r.cells], ParseLayout([], num));
    assert [r.cells] + [] == [r.cells];
  }
}
