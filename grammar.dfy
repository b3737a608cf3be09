/** The layout language as functions over the remaining text, one per parse
    function of index.ts. The imperative parser in LayoutParser is proved
    equal to these, and LayoutLemmas proves what they mean. */
module LayoutGrammar {
  import opened LayoutTypes
  import opened Text

  // ---------------------------------------------------------------------
  // Metadata objects `{k:v,k:v}` (index.ts:43-61)

  /** The text before the first `:` of one `k:v` pair (PairParts). */
  function PairKey(pair: string): string {
    Split(pair, ':')[0]
  }

  /** The text between the first and second `:` of a pair (PairParts). A pair
      with no `:` has no value; `parseFloat` then reads the string "undefined". */
  function PairValue(pair: string): string {
    var parts := Split(pair, ':');
    if |parts| > 1 then parts[1] else "undefined"
  }

  /** One pass of the `for (let pairText of pairs)` body: keys `x` and `w`
      overwrite their field, every other key is ignored. */
  function ApplyPair(d: FieldData, pair: string, num: NumParser): FieldData {
    var key := PairKey(pair);
    if key == "x" then d.(x := num(PairValue(pair)))
    else if key == "w" then d.(w := num(PairValue(pair)))
    else d
  }

  /** The pairs applied from left to right. */
  function ApplyPairs(d: FieldData, pairs: seq<string>, num: NumParser): FieldData
    decreases |pairs|
  {
    if pairs == [] then d else ApplyPairs(ApplyPair(d, pairs[0], num), pairs[1..], num)
  }

  /** The metadata object whose body (between `{` and `}`) is `body`. */
  function MetaOf(body: string, num: NumParser): FieldData {
    ApplyPairs(FieldData(Unset, Unset), Split(body, ','), num)
  }

  // ---------------------------------------------------------------------
  // Quoted key tokens (index.ts:62-74)

  /** Where the quote scan of index.ts:63-69 stops when started at `pos`:
      at the first `"` it reaches, a backslash making it step over the next
      character. A value of at least |t| means no closing quote. */
  function QuoteEnd(t: string, pos: nat): (e: nat)
    decreases |t| + 1 - pos
    ensures pos <= e
    ensures e < |t| ==> t[e] == '"'
    ensures pos <= |t| ==> e <= |t| + 1
  {
    if pos >= |t| || t[pos] == '"' then pos
    else if t[pos] == '\\' then QuoteEnd(t, pos + 2)
    else QuoteEnd(t, pos + 1)
  }

  // ---------------------------------------------------------------------
  // Fields (index.ts:38-78)

  /** One field at the head of `t` and the text after it. */
  function ParseField(t: string, num: NumParser): (r: FieldResult)
    ensures r.FieldOk? ==> |r.rest| < |t|
    ensures r.FieldOk? ==> (r.field == Key <==> t[0] == '"')
  {
    if |t| == 0 then FieldError
    else if t[0] == '{' then ObjectField(t, num)
    else if t[0] == '"' then KeyField(t)
    else FieldError
  }

  /** A metadata object: everything up to the first `}` (index.ts:43-61). */
  function ObjectField(t: string, num: NumParser): (r: FieldResult)
    requires |t| > 0 && t[0] == '{'
    ensures r.FieldOk? ==> |r.rest| < |t| && r.field.Meta?
  {
    var endPos := IndexOf(t, '}');
    if endPos == -1 then FieldError
    else FieldOk(Meta(MetaOf(t[1..endPos], num)), t[endPos + 1..])
  }

  /** A quoted key token: everything up to the closing quote (index.ts:62-74). */
  function KeyField(t: string): (r: FieldResult)
    requires |t| > 0
    ensures r.FieldOk? ==> |r.rest| < |t| && r.field == Key
  {
    var pos := QuoteEnd(t, 1);
    if pos >= |t| then FieldError else FieldOk(Key, t[pos + 1..])
  }

  /** A field is accepted exactly when it is an object with a closing `}`
      or a quoted token with a closing quote; what is left is a suffix of `t`. */
  lemma {:induction false} FieldAccepts(t: string, num: NumParser)
    ensures ParseField(t, num).FieldOk? <==>
              |t| > 0 && ((t[0] == '{' && '}' in t) || (t[0] == '"' && QuoteEnd(t, 1) < |t|))
    ensures ParseField(t, num).FieldOk? ==> ParseField(t, num).rest == t[|t| - |ParseField(t, num).rest|..]
  {
    if |t| > 0 && t[0] == '{' {
      IndexOfFirst(t, '}');
    }
  }

  /** The optional comma is the only character the skip can drop. */
  lemma {:induction false} SkipCommaSuffix(t: string)
    requires |t| > 0
    ensures |t| - 1 <= |SkipComma(t)| <= |t|
    ensures t == t[..|t| - |SkipComma(t)|] + SkipComma(t)
    ensures |SkipComma(t)| < |t| <==> t[0] == ','
  {
    if t[0] == ',' {
      assert t == [t[0]] + t[1..];
    }
  }

  /** What is left after an accepted field is the end of its text. */
  lemma {:induction false} FieldRestSuffix(t: string, num: NumParser)
    ensures var f := ParseField(t, num);
            f.FieldOk? ==> t == t[..|t| - |f.rest|] + f.rest
  {
    FieldAccepts(t, num);
  }

  /** The end of the end of a text is the end of that text. */
  lemma {:induction false} PrefixChain(t: string, fr: string, lr: string)
    requires |fr| <= |t| && t == t[..|t| - |fr|] + fr
    requires |lr| <= |fr| && fr == fr[..|fr| - |lr|] + lr
    ensures |lr| <= |t| && t == t[..|t| - |lr|] + lr
  {
    var p, q := t[..|t| - |fr|], fr[..|fr| - |lr|];
    assert t == (p + q) + lr;
    assert t[..|t| - |lr|] == p + q;
  }

  // ---------------------------------------------------------------------
  // Rows (index.ts:79-115)

  /** The cell a key token gets from the running cursor and the pending
      metadata (index.ts:96-103). */
  function Resolve(cursor: real, pending: Option<FieldData>): FieldData {
    FieldData(
      if pending.Some? && pending.value.x != Unset then pending.value.x else cursor,
      if pending.Some? && pending.value.w != Unset then pending.value.w else 1.0)
  }

  /** With no metadata a key is a unit key at the cursor; metadata giving
      both values places the key exactly there; a key's width is never the
      -1 sentinel, and its `x` is -1 only if the cursor is. */
  lemma {:induction false} ResolveDefaults(cursor: real, pending: Option<FieldData>)
    ensures pending.None? ==> Resolve(cursor, pending) == FieldData(cursor, 1.0)
    ensures pending.Some? && pending.value.x != Unset && pending.value.w != Unset ==>
              Resolve(cursor, pending) == pending.value
    ensures Resolve(cursor, pending).w != Unset
    ensures Resolve(cursor, pending).x == Unset ==> cursor == Unset
  {
  }

  /** `cells` put in front of the cells of a row result. */
  function Prepend(cells: Row, r: LineResult): LineResult {
    match r
    case LineOk(more, rest) => LineOk(cells + more, rest)
    case LineError => LineError
  }

  /** Prepending twice is prepending the two rows joined. */
  lemma {:induction false} PrependTwice(a: Row, b: Row, r: LineResult)
    ensures Prepend(a, Prepend(b, r)) == Prepend(a + b, r)
  {
    if r.LineOk? {
      assert a + (b + r.cells) == (a + b) + r.cells;
    }
  }

  /** The text after the optional comma that may precede a field (index.ts:84-86). */
  function SkipComma(t: string): string
    requires |t| > 0
  {
    if t[0] == ',' then t[1..] else t
  }

  /** The row at the head of `t` (after its `[`), read until `]` or the end of
      the text, with the running cursor and pending metadata as parameters. */
  function ParseLine(t: string, cursor: real, pending: Option<FieldData>, num: NumParser): (r: LineResult)
    decreases |t|, 1
    ensures r.LineOk? ==> |r.rest| <= |t|
  {
    if |t| == 0 || t[0] == ']' then LineOk([], t)
    else LineAfter(t, ParseField(SkipComma(t), num), cursor, pending, num)
  }

  /** The rest of the row once the field `f` at the head of `t` is read: a key
      gets its cell and clears the pending metadata, an object becomes the
      pending metadata (index.ts:89-111). */
  function LineAfter(t: string, f: FieldResult, cursor: real, pending: Option<FieldData>, num: NumParser): (r: LineResult)
    requires f.FieldOk? ==> |f.rest| < |t|
    decreases |t|, 0
    ensures r.LineOk? ==> |r.rest| <= |t|
  {
    match f
    case FieldError => LineError
    case FieldOk(Key, rest) =>
      var cell := Resolve(cursor, pending);
      Prepend([cell], ParseLine(rest, cell.x + cell.w, None, num))
    case FieldOk(Meta(d), rest) =>
      ParseLine(rest, cursor, Some(d), num)
  }

  /** One step of ParseLine on a key token. */
  lemma {:induction false} LineKeyStep(t: string, cursor: real, pending: Option<FieldData>, num: NumParser, rest: string, next: real)
    requires |t| > 0 && t[0] != ']'
    requires ParseField(SkipComma(t), num) == FieldOk(Key, rest)
    requires next == Resolve(cursor, pending).x + Resolve(cursor, pending).w
    ensures ParseLine(t, cursor, pending, num) == Prepend([Resolve(cursor, pending)], ParseLine(rest, next, None, num))
  {
  }

  /** One step of ParseLine on a metadata object. */
  lemma {:induction false} LineMetaStep(t: string, cursor: real, pending: Option<FieldData>, num: NumParser, d: FieldData, rest: string)
    requires |t| > 0 && t[0] != ']'
    requires ParseField(SkipComma(t), num) == FieldOk(Meta(d), rest)
    ensures ParseLine(t, cursor, pending, num) == ParseLine(rest, cursor, Some(d), num)
  {
  }

  // ---------------------------------------------------------------------
  // Layouts (index.ts:116-136)

  /** `t` without the characters before its first `[` (index.ts:130-132). */
  function SkipToRow(t: string): (r: string)
    decreases |t|
    ensures |r| <= |t|
    ensures r == [] || r[0] == '['
  {
    if |t| == 0 || t[0] == '[' then t else SkipToRow(t[1..])
  }

  /** SkipToRow drops a prefix free of `[` and keeps the rest of `t` as it is. */
  lemma {:induction false} SkipToRowSuffix(t: string)
    decreases |t|
    ensures t == t[..|t| - |SkipToRow(t)|] + SkipToRow(t)
    ensures '[' !in t[..|t| - |SkipToRow(t)|]
  {
    if |t| > 0 && t[0] != '[' {
      var r := SkipToRow(t[1..]);
      SkipToRowSuffix(t[1..]);
      var k := |t| - |r|;
      assert t[..k] == [t[0]] + t[1..][..k - 1];
    }
  }

  /** `rows` put in front of the rows of a layout result. */
  function PrependRows(rows: Layout, r: LayoutResult): LayoutResult {
    match r
    case Parsed(more) => Parsed(rows + more)
    case Unparseable => Unparseable
  }

  /** The layout the text describes. */
  function ParseLayout(t: string, num: NumParser): LayoutResult
    decreases |t|
  {
    if |t| == 0 then Parsed([])
    else if t[0] != '[' then Unparseable
    else
      match ParseLine(t[1..], 0.0, None, num)
      case LineError => Unparseable
      case LineOk(cells, rest) => PrependRows([cells], ParseLayout(SkipToRow(rest), num))
  }
}
