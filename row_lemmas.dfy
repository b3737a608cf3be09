/** What a row means: the parser of a row is a tokenizer (the fields in
    textual order) followed by a resolver (the cursor and pending-metadata
    state machine of index.ts:95-111), and each key's cell is determined by
    the cell before it and the field just before the key. */
module RowLemmas {
  import opened LayoutTypes
  import opened LayoutGrammar

  // ---------------------------------------------------------------------
  // Tokens and resolution

  datatype LexResult = Lexed(fields: seq<Field>, rest: string) | LexError

  /** The fields of the row at the head of `t`, in textual order, with the
      text from the closing `]` on. */
  function LexLine(t: string, num: NumParser): (r: LexResult)
    decreases |t|, 1
    ensures r.Lexed? ==> r.rest == [] || r.rest[0] == ']'
  {
    if |t| == 0 || t[0] == ']' then Lexed([], t)
    else LexAfter(t, ParseField(SkipComma(t), num), num)
  }

  /** The fields of the row after its first field `f`, itself included. */
  function LexAfter(t: string, f: FieldResult, num: NumParser): (r: LexResult)
    requires f.FieldOk? ==> |f.rest| < |t|
    decreases |t|, 0
    ensures r.Lexed? ==> r.rest == [] || r.rest[0] == ']'
  {
    match f
    case FieldError => LexError
    case FieldOk(f, rest) =>
      match LexLine(rest, num)
      case LexError => LexError
      case Lexed(fs, r) => Lexed([f] + fs, r)
  }

  /** One step of LexLine on a field. */
  lemma {:induction false} LexStep(t: string, f: Field, rest: string, num: NumParser)
    requires |t| > 0 && t[0] != ']'
    requires ParseField(SkipComma(t), num) == FieldOk(f, rest)
    requires LexLine(rest, num).Lexed?
    ensures LexLine(t, num) == Lexed([f] + LexLine(rest, num).fields, LexLine(rest, num).rest)
  {
  }

  /** The number of key tokens among `fs`. */
  function KeyCount(fs: seq<Field>): nat {
    if fs == [] then 0 else (if fs[0] == Key then 1 else 0) + KeyCount(fs[1..])
  }

  /** The cells of a row from its fields, a starting cursor and pending metadata. */
  function ResolveRow(fs: seq<Field>, cursor: real, pending: Option<FieldData>): (cells: Row)
    decreases |fs|
    ensures |cells| == KeyCount(fs)
  {
    if fs == [] then []
    else match fs[0]
      case Meta(d) => ResolveRow(fs[1..], cursor, Some(d))
      case Key =>
        var cell := Resolve(cursor, pending);
        var next := cell.x + cell.w;
        [cell] + ResolveRow(fs[1..], next, None)
  }

  /** The row result of resolving a token sequence. */
  function Resolved(l: LexResult, cursor: real, pending: Option<FieldData>): LineResult {
    match l
    case LexError => LineError
    case Lexed(fs, rest) => LineOk(ResolveRow(fs, cursor, pending), rest)
  }

  /** Resolving a key token first. */
  lemma {:induction false} ResolveKey(fs: seq<Field>, cursor: real, pending: Option<FieldData>)
    ensures ResolveRow([Key] + fs, cursor, pending) ==
            [Resolve(cursor, pending)] + ResolveRow(fs, Resolve(cursor, pending).x + Resolve(cursor, pending).w, None)
  {
    assert ([Key] + fs)[1..] == fs;
  }

  /** Resolving a metadata object first. */
  lemma {:induction false} ResolveMeta(d: FieldData, fs: seq<Field>, cursor: real, pending: Option<FieldData>)
    ensures ResolveRow([Meta(d)] + fs, cursor, pending) == ResolveRow(fs, cursor, Some(d))
  {
    assert ([Meta(d)] + fs)[1..] == fs;
  }

  /** Parsing a row is tokenizing it and then resolving its fields; in
      particular each key token adds exactly one cell and metadata none. */
  lemma {:induction false} LineFactors(t: string, cursor: real, pending: Option<FieldData>, num: NumParser)
    decreases |t|
    ensures ParseLine(t, cursor, pending, num) == Resolved(LexLine(t, num), cursor, pending)
  {
    if |t| > 0 && t[0] != ']' {
      var f := ParseField(SkipComma(t), num);
      if f.FieldOk? {
        var cell := Resolve(cursor, pending);
        var next := if f.field == Key then cell.x + cell.w else cursor;
        var p := if f.field == Key then None else Some(f.field.data);
        LineFactors(f.rest, next, p, num);
        if f.field == Key {
          KeyFactors(t, cursor, pending, num, f.rest);
        } else {
          MetaFactors(t, cursor, pending, num, f.field.data, f.rest);
        }
      }
    }
  }

  /** A row is read up to its `]` or to the end of the text, whatever the
      cursor and the pending metadata, and whether it is read at all does not
      depend on them either. */
  lemma {:induction false} LineEndsAtBracket(t: string, cursor: real, pending: Option<FieldData>, num: NumParser)
    ensures ParseLine(t, cursor, pending, num).LineOk? <==> LexLine(t, num).Lexed?
    ensures ParseLine(t, cursor, pending, num).LineOk? ==>
              var rest := ParseLine(t, cursor, pending, num).rest;
              rest == [] || rest[0] == ']'
  {
    LineFactors(t, cursor, pending, num);
  }

  /** What is left after the fields of a row is the end of its text: the
      tokenizer only ever drops characters from the front. */
  lemma {:induction false} LexRestSuffix(t: string, num: NumParser)
    decreases |t|
    ensures var l := LexLine(t, num);
            l.Lexed? ==> |l.rest| <= |t| && t == t[..|t| - |l.rest|] + l.rest
  {
    if |t| > 0 && t[0] != ']' {
      var sc := SkipComma(t);
      var f := ParseField(sc, num);
      if f.FieldOk? {
        SkipCommaSuffix(t);
        FieldRestSuffix(sc, num);
        PrefixChain(t, sc, f.rest);
        LexRestSuffix(f.rest, num);
      }
      LexAfterSuffix(t, f, num);
    }
  }

  /** The induction step of LexRestSuffix, for any first field. */
  lemma {:induction false} LexAfterSuffix(t: string, f: FieldResult, num: NumParser)
    requires f.FieldOk? ==> |f.rest| < |t| && t == t[..|t| - |f.rest|] + f.rest
    requires f.FieldOk? ==> var l := LexLine(f.rest, num);
                            l.Lexed? ==> |l.rest| <= |f.rest| && f.rest == f.rest[..|f.rest| - |l.rest|] + l.rest
    ensures var l := LexAfter(t, f, num);
            l.Lexed? ==> |l.rest| <= |t| && t == t[..|t| - |l.rest|] + l.rest
  {
    if f.FieldOk? && LexLine(f.rest, num).Lexed? {
      PrefixChain(t, f.rest, LexLine(f.rest, num).rest);
    }
  }

  /** What is left after an accepted row is the end of its text. */
  lemma {:induction false} LineRestSuffix(t: string, cursor: real, pending: Option<FieldData>, num: NumParser)
    ensures var r := ParseLine(t, cursor, pending, num);
            r.LineOk? ==> t == t[..|t| - |r.rest|] + r.rest
  {
    LineFactors(t, cursor, pending, num);
    LexRestSuffix(t, num);
  }

  /** The induction step of LineFactors on a key token. */
  lemma {:induction false} KeyFactors(t: string, cursor: real, pending: Option<FieldData>, num: NumParser, rest: string)
    requires |t| > 0 && t[0] != ']'
    requires ParseField(SkipComma(t), num) == FieldOk(Key, rest)
    requires var cell := Resolve(cursor, pending);
             ParseLine(rest, cell.x + cell.w, None, num) == Resolved(LexLine(rest, num), cell.x + cell.w, None)
    ensures ParseLine(t, cursor, pending, num) == Resolved(LexLine(t, num), cursor, pending)
  {
    var cell := Resolve(cursor, pending);
    LineKeyStep(t, cursor, pending, num, rest, cell.x + cell.w);
    LexAny(t, Key, rest, num);
    KeyResolved(LexLine(rest, num), LexLine(t, num), ParseLine(t, cursor, pending, num),
                ParseLine(rest, cell.x + cell.w, None, num), cursor, pending);
  }

  /** One step of LexLine on a field, whether or not the rest tokenizes. */
  lemma {:induction false} LexAny(t: string, f: Field, rest: string, num: NumParser)
    requires |t| > 0 && t[0] != ']'
    requires ParseField(SkipComma(t), num) == FieldOk(f, rest)
    ensures LexLine(t, num) == (match LexLine(rest, num)
                                case LexError => LexError
                                case Lexed(fs, r) => Lexed([f] + fs, r))
  {
  }

  /** KeyFactors on the results alone: a key in front of the tokens is a cell
      in front of the resolved cells. */
  lemma {:induction false} KeyResolved(l: LexResult, lt: LexResult, a: LineResult, p: LineResult,
                                       cursor: real, pending: Option<FieldData>)
    requires var cell := Resolve(cursor, pending);
             p == Resolved(l, cell.x + cell.w, None) && a == Prepend([cell], p)
    requires lt == (match l
                    case LexError => LexError
                    case Lexed(fs, r) => Lexed([Key] + fs, r))
    ensures a == Resolved(lt, cursor, pending)
  {
    if l.Lexed? {
      ResolveKey(l.fields, cursor, pending);
    }
  }

  /** The induction step of LineFactors on a metadata object. */
  lemma {:induction false} MetaFactors(t: string, cursor: real, pending: Option<FieldData>, num: NumParser, d: FieldData, rest: string)
    requires |t| > 0 && t[0] != ']'
    requires ParseField(SkipComma(t), num) == FieldOk(Meta(d), rest)
    requires ParseLine(rest, cursor, Some(d), num) == Resolved(LexLine(rest, num), cursor, Some(d))
    ensures ParseLine(t, cursor, pending, num) == Resolved(LexLine(t, num), cursor, pending)
  {
    LineMetaStep(t, cursor, pending, num, d, rest);
    LexAny(t, Meta(d), rest, num);
    MetaResolved(LexLine(rest, num), LexLine(t, num), d, cursor, pending);
  }

  /** MetaFactors on the results alone. */
  lemma {:induction false} MetaResolved(l: LexResult, lt: LexResult, d: FieldData, cursor: real, pending: Option<FieldData>)
    requires lt == (match l
                    case LexError => LexError
                    case Lexed(fs, r) => Lexed([Meta(d)] + fs, r))
    ensures Resolved(l, cursor, Some(d)) == Resolved(lt, cursor, pending)
  {
    if l.Lexed? {
      ResolveMeta(d, l.fields, cursor, pending);
    }
  }

  // ---------------------------------------------------------------------
  // The cell of each key

  /** The position in `fs` of its k-th key token. */
  function KeyIndex(fs: seq<Field>, k: nat): (i: nat)
    requires k < KeyCount(fs)
    ensures i < |fs| && fs[i] == Key
  {
    if fs[0] == Key then
      if k == 0 then 0 else KeyIndex(fs[1..], k - 1) + 1
    else
      KeyIndex(fs[1..], k) + 1
  }

  /** The k-th key token has exactly k key tokens before it. */
  lemma {:induction false} KeyIndexCounts(fs: seq<Field>, k: nat)
    requires k < KeyCount(fs)
    ensures KeyCount(fs[..KeyIndex(fs, k)]) == k
  {
    var i := KeyIndex(fs, k);
    if i > 0 {
      var k' := if fs[0] == Key then k - 1 else k;
      KeyIndexCounts(fs[1..], k');
      assert fs[..i] == [fs[0]] + fs[1..][..i - 1];
      assert fs[..i][1..] == fs[1..][..i - 1];
    }
  }

  /** The metadata a key at position i sees: the field just before it when
      that is a metadata object, else none (or, for the first field, the
      metadata pending on entry). */
  function PendingAt(fs: seq<Field>, i: nat, pending: Option<FieldData>): Option<FieldData>
    requires i < |fs|
  {
    if i == 0 then pending
    else if fs[i - 1].Meta? then Some(fs[i - 1].data)
    else None
  }

  /** The k-th cell of a row. Its width is the pending metadata's `w` when that
      is present and not -1, else 1; its left edge is the pending metadata's `x`
      when present and not -1, else the cursor, which is the starting cursor
      for the first key and the right edge `x + w` of the previous cell for
      the others. The pending metadata is only ever the field just before the
      key: a later object replaces an earlier one wholesale, and a key clears it. */
  lemma {:induction false} CellAt(fs: seq<Field>, cursor: real, pending: Option<FieldData>, k: nat)
    requires k < KeyCount(fs)
    ensures var cells := ResolveRow(fs, cursor, pending);
            var p := PendingAt(fs, KeyIndex(fs, k), pending);
            var c := if k == 0 then cursor else cells[k - 1].x + cells[k - 1].w;
            cells[k].w == (if p.Some? && p.value.w != Unset then p.value.w else 1.0) &&
            cells[k].x == (if p.Some? && p.value.x != Unset then p.value.x else c)
  {
    CellResolved(fs, cursor, pending, k);
    assert CursorAt(ResolveRow(fs, cursor, pending), k, cursor) == if k == 0 then cursor else ResolveRow(fs, cursor, pending)[k - 1].x + ResolveRow(fs, cursor, pending)[k - 1].w;
  }

  /** The cursor the k-th key of `cells` starts from. */
  function CursorAt(cells: Row, k: nat, cursor: real): real
    requires k <= |cells|
  {
    if k == 0 then cursor else cells[k - 1].x + cells[k - 1].w
  }

  /** CellAt with the rule of index.ts:96-103 left folded in Resolve. */
  lemma {:induction false} CellResolved(fs: seq<Field>, cursor: real, pending: Option<FieldData>, k: nat)
    requires k < KeyCount(fs)
    ensures var cells := ResolveRow(fs, cursor, pending);
            cells[k] == Resolve(CursorAt(cells, k, cursor), PendingAt(fs, KeyIndex(fs, k), pending))
    decreases |fs|
  {
    if fs[0] == Key {
      if k > 0 {
        var cell := Resolve(cursor, pending);
        CellResolved(fs[1..], cell.x + cell.w, None, k - 1);
        CellAfterKey(fs, cursor, pending, k);
      }
    } else {
      CellResolved(fs[1..], cursor, Some(fs[0].data), k);
      CellAfterMeta(fs, cursor, pending, k);
    }
  }

  /** The induction step of CellResolved past a key token. */
  lemma {:induction false} CellAfterKey(fs: seq<Field>, cursor: real, pending: Option<FieldData>, k: nat)
    requires 0 < k < KeyCount(fs) && fs[0] == Key
    requires var cell := Resolve(cursor, pending);
             var more := ResolveRow(fs[1..], cell.x + cell.w, None);
             k - 1 < |more| &&
             more[k - 1] == Resolve(CursorAt(more, k - 1, cell.x + cell.w), PendingAt(fs[1..], KeyIndex(fs[1..], k - 1), None))
    ensures var cells := ResolveRow(fs, cursor, pending);
            cells[k] == Resolve(CursorAt(cells, k, cursor), PendingAt(fs, KeyIndex(fs, k), pending))
  {
    var cell := Resolve(cursor, pending);
    var more := ResolveRow(fs[1..], cell.x + cell.w, None);
    var cells := ResolveRow(fs, cursor, pending);
    assert cells == [cell] + more;
    KeyIndexStep(fs, k);
    PendingStep(fs, KeyIndex(fs[1..], k - 1), pending, None);
    assert CursorAt(cells, k, cursor) == CursorAt(more, k - 1, cell.x + cell.w);
  }

  /** The induction step of CellResolved past a metadata object. */
  lemma {:induction false} CellAfterMeta(fs: seq<Field>, cursor: real, pending: Option<FieldData>, k: nat)
    requires k < KeyCount(fs) && fs[0].Meta?
    requires var more := ResolveRow(fs[1..], cursor, Some(fs[0].data));
             k < |more| &&
             more[k] == Resolve(CursorAt(more, k, cursor), PendingAt(fs[1..], KeyIndex(fs[1..], k), Some(fs[0].data)))
    ensures var cells := ResolveRow(fs, cursor, pending);
            cells[k] == Resolve(CursorAt(cells, k, cursor), PendingAt(fs, KeyIndex(fs, k), pending))
  {
    var cells := ResolveRow(fs, cursor, pending);
    assert cells == ResolveRow(fs[1..], cursor, Some(fs[0].data));
    KeyIndexStep(fs, k);
    PendingStep(fs, KeyIndex(fs[1..], k), pending, Some(fs[0].data));
  }

  /** KeyIndex past the first field. */
  lemma {:induction false} KeyIndexStep(fs: seq<Field>, k: nat)
    requires k < KeyCount(fs) && (fs[0].Meta? || k > 0)
    ensures fs[0] == Key ==> k - 1 < KeyCount(fs[1..]) && KeyIndex(fs, k) == KeyIndex(fs[1..], k - 1) + 1
    ensures fs[0].Meta? ==> k < KeyCount(fs[1..]) && KeyIndex(fs, k) == KeyIndex(fs[1..], k) + 1
  {
  }

  /** PendingAt past the first field, which is pending on entry to the rest. */
  lemma {:induction false} PendingStep(fs: seq<Field>, j: nat, pending: Option<FieldData>, p: Option<FieldData>)
    requires j + 1 < |fs|
    requires p == if fs[0].Meta? then Some(fs[0].data) else None
    ensures PendingAt(fs, j + 1, pending) == PendingAt(fs[1..], j, p)
  {
  }
}
