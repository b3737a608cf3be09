/** The parser of index.ts:38-136 as the source writes it: loops that re-slice
    the remaining text, a running cursor, one pending-metadata slot and a
    growing result. Each method is proved to compute its LayoutGrammar function. */
module LayoutParser {
  import opened LayoutTypes
  import opened Text
  import opened LayoutGrammar

  /** parseKeyboardLayoutField (index.ts:38-78). */
  method ReadField(text: string, num: NumParser) returns (r: FieldResult)
    ensures r == ParseField(text, num)
  {
    if |text| == 0 {
      return FieldError;
    }
    if text[0] == '{' {
      var endPos := IndexOf(text, '}');
      if endPos == -1 {
        return FieldError;
      }
      var res := ReadPairs(text[1..endPos], num);
      return FieldOk(Meta(res), text[endPos + 1..]);
    } else if text[0] == '"' {
      var pos := ScanQuote(text);
      if pos >= |text| {
        return FieldError;
      }
      return FieldOk(Key, text[pos + 1..]);
    } else {
      return FieldError;
    }
  }

  /** The `for (let pairText of pairs)` loop of index.ts:50-59 over the body of
      a metadata object, starting from `{x: -1, w: -1}`. */
  method ReadPairs(body: string, num: NumParser) returns (res: FieldData)
    ensures res == MetaOf(body, num)
  {
    res := FieldData(Unset, Unset);
    var pairs := Split(body, ',');
    for i := 0 to |pairs|
      invariant ApplyPairs(res, pairs[i..], num) == MetaOf(body, num)
    {
      ghost var before := res;
      var pair := Split(pairs[i], ':');
      if pair[0] == "x" {
        res := res.(x := num(if |pair| > 1 then pair[1] else "undefined"));
      }
      if pair[0] == "w" {
        res := res.(w := num(if |pair| > 1 then pair[1] else "undefined"));
      }
      assert res == ApplyPair(before, pairs[i], num);
      PairsStep(before, pairs, i, num);
    }
  }

  /** ApplyPairs from position `i` is ApplyPair at `i`, then the rest. */
  lemma {:induction false} PairsStep(d: FieldData, pairs: seq<string>, i: nat, num: NumParser)
    requires i < |pairs|
    ensures ApplyPairs(d, pairs[i..], num) == ApplyPairs(ApplyPair(d, pairs[i], num), pairs[i + 1..], num)
  {
    assert pairs[i..][1..] == pairs[i + 1..];
  }

  /** The scan for the closing quote of a key token (index.ts:63-69);
      `text` starts with the opening quote. */
  method ScanQuote(text: string) returns (pos: nat)
    ensures pos == QuoteEnd(text, 1)
  {
    pos := 1;
    while pos < |text| && text[pos] != '"'
      invariant 1 <= pos <= |text| + 1
      invariant QuoteEnd(text, pos) == QuoteEnd(text, 1)
      decreases |text| + 1 - pos
    {
      if text[pos] == '\\' {
        pos := pos + 1;
      }
      pos := pos + 1;
    }
  }

  /** parseKeyboardLayoutLine (index.ts:79-115), called on the text after `[`. */
  method ReadLine(text0: string, num: NumParser) returns (r: LineResult)
    ensures r == ParseLine(text0, 0.0, None, num)
  {
    var text := text0;
    var x := 0.0;
    var lastFieldData: Option<FieldData> := None;
    var res: Row := [];
    while |text| > 0 && text[0] != ']'
      invariant Prepend(res, ParseLine(text, x, lastFieldData, num)) == ParseLine(text0, 0.0, None, num)
      decreases |text|
    {
      ghost var before := text;
      if text[0] == ',' {
        text := text[1..];
      }
      assert text == SkipComma(before);
      var pair := ReadField(text, num);
      if pair.FieldError? {
        assert ParseLine(before, x, lastFieldData, num) == LineError;
        return LineError;
      }
      text := pair.rest;
      if pair.field == Key {
        ghost var cursor, pending := x, lastFieldData;
        var fieldData := FieldData(x, 1.0);
        if lastFieldData.Some? && lastFieldData.value.x != Unset {
          x := lastFieldData.value.x;
          fieldData := fieldData.(x := x);
        }
        if lastFieldData.Some? && lastFieldData.value.w != Unset {
          fieldData := fieldData.(w := lastFieldData.value.w);
        }
        res := res + [fieldData];
        lastFieldData := None;
        x := x + fieldData.w;
        LineKeyStep(before, cursor, pending, num, text, x);
        PrependTwice(res[..|res| - 1], [fieldData], ParseLine(text, x, None, num));
      } else {
        LineMetaStep(before, x, lastFieldData, num, pair.field.data, text);
        lastFieldData := Some(pair.field.data);
      }
    }
    return LineOk(res, text);
  }

  /** parseKeyboardLayout (index.ts:116-136). */
  method ReadLayout(text0: string, num: NumParser) returns (r: LayoutResult)
    ensures r == ParseLayout(text0, num)
  {
    var text := text0;
    var res: Layout := [];
    while |text| > 0
      invariant PrependRows(res, ParseLayout(text, num)) == ParseLayout(text0, num)
      decreases |text|
    {
      if text[0] != '[' {
        return Unparseable;
      }
      var pair := ReadLine(text[1..], num);
      if pair.LineError? {
        return Unparseable;
      }
      text := SkipNoise(pair.rest);
      PrependRowsTwice(res, [pair.cells], ParseLayout(text, num));
      res := res + [pair.cells];
    }
    return Parsed(res);
  }

  /** The loop of index.ts:130-132 that drops everything before the next `[`. */
  method SkipNoise(rest: string) returns (text: string)
    ensures text == SkipToRow(rest)
  {
    text := rest;
    while |text| > 0 && text[0] != '['
      invariant SkipToRow(text) == SkipToRow(rest)
      decreases |text|
    {
      text := text[1..];
    }
  }

  lemma {:induction false} PrependRowsTwice(a: Layout, b: Layout, r: LayoutResult)
    ensures PrependRows(a, PrependRows(b, r)) == PrependRows(a + b, r)
  {
    if r.Parsed? {
      assert a + (b + r.rows) == (a + b) + r.rows;
    }
  }
}
