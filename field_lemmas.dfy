/** What one field means: the shape of a quoted key token, the value a
    metadata object carries, and the fact that a field is read from a prefix
    of the text alone. */
module FieldLemmas {
  import opened LayoutTypes
  import opened Text
  import opened LayoutGrammar

  // ---------------------------------------------------------------------
  // Quoted key tokens (index.ts:62-74)

  /** The inside of a quoted token: characters other than `"` and `\`, and
      escapes made of a backslash and any one character. */
  predicate QuotedBody(b: string)
    decreases |b|
  {
    b == [] ||
    (b[0] != '"' && b[0] != '\\' && QuotedBody(b[1..])) ||
    (|b| >= 2 && b[0] == '\\' && QuotedBody(b[2..]))
  }

  /** The quote scan steps over a whole body without stopping. */
  lemma {:induction false} ScanOverBody(t: string, pos: nat, b: string)
    requires pos + |b| <= |t| && t[pos..pos + |b|] == b
    requires QuotedBody(b)
    ensures QuoteEnd(t, pos) == QuoteEnd(t, pos + |b|)
    decreases |b|
  {
    if b == [] {
    } else if b[0] != '"' && b[0] != '\\' && QuotedBody(b[1..]) {
      assert t[pos] == b[0];
      assert t[pos + 1..pos + 1 + |b[1..]|] == b[1..];
      ScanOverBody(t, pos + 1, b[1..]);
    } else {
      assert t[pos] == b[0];
      assert t[pos + 2..pos + 2 + |b[2..]|] == b[2..];
      ScanOverBody(t, pos + 2, b[2..]);
    }
  }

  /** What the scan steps over before it stops at a quote is a body. */
  lemma {:induction false} ScannedIsBody(t: string, pos: nat)
    requires pos <= |t| && QuoteEnd(t, pos) < |t|
    ensures QuotedBody(t[pos..QuoteEnd(t, pos)])
    decreases |t| - pos
  {
    var e := QuoteEnd(t, pos);
    if t[pos] == '"' {
      assert t[pos..e] == [];
    } else if t[pos] == '\\' {
      ScannedIsBody(t, pos + 2);
      assert t[pos..e][2..] == t[pos + 2..e];
    } else {
      ScannedIsBody(t, pos + 1);
      assert t[pos..e][1..] == t[pos + 1..e];
    }
  }

  /** A quote, a body and a quote make one key token, whatever follows. */
  lemma {:induction false} QuotedKey(b: string, rest: string, num: NumParser)
    requires QuotedBody(b)
    ensures ParseField(['"'] + b + ['"'] + rest, num) == FieldOk(Key, rest)
  {
    var t := ['"'] + b + ['"'] + rest;
    assert t[1..1 + |b|] == b;
    ScanOverBody(t, 1, b);
    assert t[1 + |b|] == '"';
    assert t[|b| + 2..] == rest;
  }

  /** Every key token is a quote, a body and the first unescaped quote. */
  lemma {:induction false} KeyTokenShape(t: string, num: NumParser)
    requires ParseField(t, num).FieldOk? && ParseField(t, num).field == Key
    ensures exists b :: QuotedBody(b) && t == ['"'] + b + ['"'] + ParseField(t, num).rest
  {
    assert t[0] == '"';
    var e := QuoteEnd(t, 1);
    assert ParseField(t, num) == KeyField(t) == FieldOk(Key, t[e + 1..]);
    ScannedIsBody(t, 1);
    var b := t[1..e];
    Cut4(t, 1, e);
  }

  /** A text cut at two positions into a head, a middle, one character and a tail. */
  lemma {:induction false} Cut4(t: string, i: nat, e: nat)
    requires 0 < i <= e < |t|
    ensures t == t[..i] + t[i..e] + [t[e]] + t[e + 1..]
    ensures i == 1 ==> t[..i] == [t[0]]
  {
    assert t[..i] + t[i..e] + [t[e]] + t[e + 1..] == t[..e] + [t[e]] + t[e + 1..];
  }

  /** A token whose closing quote is missing, or escaped by a final backslash,
      is an error: `["a]` does not parse. */
  lemma {:induction false} UnterminatedKey(b: string, num: NumParser)
    requires QuotedBody(b) || (|b| > 0 && b[|b| - 1] == '\\' && QuotedBody(b[..|b| - 1]))
    ensures ParseField(['"'] + b, num) == FieldError
  {
    var t := ['"'] + b;
    if QuotedBody(b) {
      assert t[1..1 + |b|] == b;
      ScanOverBody(t, 1, b);
    } else {
      var b0 := b[..|b| - 1];
      assert t[1..1 + |b0|] == b0;
      ScanOverBody(t, 1, b0);
      assert t[1 + |b0|] == '\\';
    }
  }

  // ---------------------------------------------------------------------
  // Metadata objects (index.ts:43-61)

  /** The value of the last pair in `pairs` whose key is `key`. */
  function LastValue(pairs: seq<string>, key: string): Option<string>
    decreases |pairs|
  {
    if pairs == [] then None
    else
      var later := LastValue(pairs[1..], key);
      if later.Some? then later
      else if PairKey(pairs[0]) == key then Some(PairValue(pairs[0]))
      else None
  }

  /** One pair sets the field its key names to the number its value reads
      as and leaves the other field alone; a key other than `x` and `w`
      changes nothing. */
  lemma {:induction false} PairEffect(d: FieldData, pair: string, num: NumParser)
    ensures ApplyPair(d, pair, num).x != d.x ==> PairKey(pair) == "x"
    ensures ApplyPair(d, pair, num).w != d.w ==> PairKey(pair) == "w"
    ensures PairKey(pair) == "x" ==> ApplyPair(d, pair, num) == FieldData(num(PairValue(pair)), d.w)
    ensures PairKey(pair) == "w" ==> ApplyPair(d, pair, num) == FieldData(d.x, num(PairValue(pair)))
  {
  }

  /** Within one object a repeated key takes its last value, and a field
      no pair names keeps its starting value. */
  lemma {:induction false} PairsLastWins(d: FieldData, pairs: seq<string>, num: NumParser)
    ensures var lx := LastValue(pairs, "x");
            var lw := LastValue(pairs, "w");
            ApplyPairs(d, pairs, num) ==
              FieldData(if lx.Some? then num(lx.value) else d.x,
                        if lw.Some? then num(lw.value) else d.w)
    decreases |pairs|
  {
    if pairs != [] {
      PairsLastWins(ApplyPair(d, pairs[0], num), pairs[1..], num);
    }
  }

  /** The object whose body is `body` has as `x` and `w` the last values
      its pairs give them, -1 for one that no pair gives. */
  lemma {:induction false} MetaOfValues(body: string, num: NumParser)
    ensures var pairs := Split(body, ',');
            var lx := LastValue(pairs, "x");
            var lw := LastValue(pairs, "w");
            MetaOf(body, num) == FieldData(if lx.Some? then num(lx.value) else Unset,
                                           if lw.Some? then num(lw.value) else Unset)
  {
    PairsLastWins(FieldData(Unset, Unset), Split(body, ','), num);
  }

  /** `{`, a body free of `}`, and `}` make one metadata object, whatever
      follows; its `x` and `w` are the last values given for them, -1 if none. */
  lemma {:induction false} MetaObject(body: string, rest: string, num: NumParser)
    requires '}' !in body
    ensures var pairs := Split(body, ',');
            var lx := LastValue(pairs, "x");
            var lw := LastValue(pairs, "w");
            ParseField(['{'] + body + ['}'] + rest, num) ==
              FieldOk(Meta(FieldData(if lx.Some? then num(lx.value) else Unset,
                                     if lw.Some? then num(lw.value) else Unset)), rest)
  {
    var t := ['{'] + body + ['}'] + rest;
    assert t == (['{'] + body) + ['}'] + rest;
    IndexOfAfter(['{'] + body, '}', rest);
    assert t[1..|body| + 1] == body;
    assert t[|body| + 2..] == rest;
    PairsLastWins(FieldData(Unset, Unset), Split(body, ','), num);
  }

  // ---------------------------------------------------------------------
  // A field is read from a prefix of the text

  lemma {:induction false} QuoteEndExtends(t: string, s: string, pos: nat)
    requires QuoteEnd(t, pos) < |t|
    ensures QuoteEnd(t + s, pos) == QuoteEnd(t, pos)
    decreases |t| - pos
  {
    assert (t + s)[pos] == t[pos];
    if t[pos] != '"' {
      if t[pos] == '\\' {
        QuoteEndExtends(t, s, pos + 2);
      } else {
        QuoteEndExtends(t, s, pos + 1);
      }
    }
  }

  lemma {:induction false} IndexOfExtends(t: string, s: string, c: char)
    requires c in t
    ensures IndexOf(t + s, c) == IndexOf(t, c)
  {
    IndexOfFirst(t, c);
    var i := IndexOf(t, c);
    assert t + s == t[..i] + [c] + (t[i + 1..] + s);
    IndexOfAfter(t[..i], c, t[i + 1..] + s);
  }

  /** Text after a field does not change how the field is read. */
  lemma {:induction false} FieldExtends(t: string, s: string, num: NumParser)
    requires ParseField(t, num).FieldOk?
    ensures ParseField(t + s, num) ==
            FieldOk(ParseField(t, num).field, ParseField(t, num).rest + s)
  {
    if t[0] == '{' {
      MetaExtends(t, s, num);
    } else {
      KeyExtends(t, s, num);
    }
  }

  lemma {:induction false} MetaExtends(t: string, s: string, num: NumParser)
    requires |t| > 0 && t[0] == '{' && 0 <= IndexOf(t, '}')
    ensures var e := IndexOf(t, '}');
            ParseField(t + s, num) == FieldOk(Meta(MetaOf(t[1..e], num)), t[e + 1..] + s)
  {
    var ts := t + s;
    IndexOfFirst(t, '}');
    IndexOfExtends(t, s, '}');
    var e := IndexOf(t, '}');
    assert ts[1..e] == t[1..e];
    assert ts[e + 1..] == t[e + 1..] + s;
  }

  lemma {:induction false} KeyExtends(t: string, s: string, num: NumParser)
    requires |t| > 0 && t[0] == '"' && QuoteEnd(t, 1) < |t|
    ensures ParseField(t + s, num) == FieldOk(Key, t[QuoteEnd(t, 1) + 1..] + s)
  {
    var ts := t + s;
    QuoteEndExtends(t, s, 1);
    var e := QuoteEnd(t, 1);
    assert ts[e + 1..] == t[e + 1..] + s;
  }

  /** The key of a pair is the text before its first `:`, and its value
      the text from there to the second `:` or the end; with no `:` the key
      is the whole pair and the value is "undefined". */
  lemma {:induction false} PairParts(pair: string)
    ensures var k := PairKey(pair);
            ':' !in k && |k| <= |pair| && k == pair[..|k|] && (|k| < |pair| ==> pair[|k|] == ':')
    ensures ':' !in pair ==> PairKey(pair) == pair && PairValue(pair) == "undefined"
    ensures ':' in pair ==>
              var after := pair[|PairKey(pair)| + 1..];
              var v := PairValue(pair);
              ':' !in v && |v| <= |after| && v == after[..|v|] && (|v| < |after| ==> after[|v|] == ':')
  {
    SplitFirst(pair, ':');
    if ':' in pair {
      var a := PairKey(pair);
      assert |a| < |pair|;
      var b := pair[|a| + 1..];
      assert pair == a + [':'] + b;
      SplitAtFirst(a, ':', b);
      SplitFirst(b, ':');
    }
  }

  /** A pair `k:v` has key `k` and value `v`. */
  lemma {:induction false} PairOf(k: char, v: string)
    requires k != ':' && ':' !in v
    ensures PairKey([k, ':'] + v) == [k] && PairValue([k, ':'] + v) == v
  {
    assert [k, ':'] + v == [k] + [':'] + v;
    SplitAtFirst([k], ':', v);
    SplitFree(v, ':');
  }
}
