/** The two string operations of the JavaScript library the parser relies on:
    `String.prototype.indexOf` for one character and `String.prototype.split`
    on a one-character separator. */
module Text {

  /** The index of the first `c` in `s`, or -1 when there is none (the
      "first" and "none" halves are IndexOfFirst). */
  function IndexOf(s: string, c: char): (i: int)
    ensures -1 <= i < |s|
    ensures 0 <= i ==> s[i] == c
  {
    IndexFrom(s, c, 0)
  }

  /** The index of the first `c` in `s` at or after `from`, or -1. */
  function IndexFrom(s: string, c: char, from: nat): (i: int)
    decreases |s| - from
    ensures i == -1 || (from <= i < |s| && s[i] == c)
  {
    if from >= |s| then -1
    else if s[from] == c then from
    else IndexFrom(s, c, from + 1)
  }

  lemma {:induction false} IndexFromFirst(s: string, c: char, from: nat)
    requires from <= |s|
    decreases |s| - from
    ensures IndexFrom(s, c, from) == -1 ==> forall k :: from <= k < |s| ==> s[k] != c
    ensures IndexFrom(s, c, from) != -1 ==> forall k :: from <= k < IndexFrom(s, c, from) ==> s[k] != c
  {
    if from < |s| && s[from] != c {
      IndexFromFirst(s, c, from + 1);
    }
  }

  /** IndexOf finds `c` exactly when `s` holds one, and no earlier `c`. */
  lemma {:induction false} IndexOfFirst(s: string, c: char)
    ensures IndexOf(s, c) == -1 <==> c !in s
    ensures 0 <= IndexOf(s, c) ==> c !in s[..IndexOf(s, c)]
  {
    IndexFromFirst(s, c, 0);
  }

  /** The parts joined back with `d` between them. */
  function Join(parts: seq<string>, d: char): string
    requires |parts| >= 1
  {
    if |parts| == 1 then parts[0] else parts[0] + [d] + Join(parts[1..], d)
  }

  /** `s.split(d)`: the maximal pieces of `s` free of `d`, so it is never empty
      and the empty string splits into one empty piece. */
  function Split(s: string, d: char): (parts: seq<string>)
    decreases |s|
    ensures |parts| >= 1
  {
    var i := IndexOf(s, d);
    if i == -1 then [s] else [s[..i]] + Split(s[i + 1..], d)
  }

  /** The first piece of a split is the text before the first `d`, and there
      is a second piece exactly when `s` holds a `d`. */
  lemma {:induction false} SplitFirst(s: string, d: char)
    ensures |Split(s, d)| > 1 <==> d in s
    ensures var p := Split(s, d)[0];
            d !in p && |p| <= |s| && p == s[..|p|] && (|p| < |s| ==> s[|p|] == d)
  {
    IndexOfFirst(s, d);
  }

  /** The pieces hold no separator and joined with it give back `s`. */
  lemma {:induction false} SplitPieces(s: string, d: char)
    decreases |s|
    ensures forall k :: 0 <= k < |Split(s, d)| ==> d !in Split(s, d)[k]
    ensures Join(Split(s, d), d) == s
  {
    var i := IndexOf(s, d);
    IndexOfFirst(s, d);
    if i != -1 {
      var a, b := s[..i], s[i + 1..];
      SplitPieces(b, d);
      SplitCons(s, d, a, b);
      PiecesCons(a, Split(b, d), d);
    }
  }

  /** One step of Split: the piece before the first separator, then the rest. */
  lemma {:induction false} SplitCons(s: string, d: char, a: string, b: string)
    requires IndexOf(s, d) != -1
    requires a == s[..IndexOf(s, d)] && b == s[IndexOf(s, d) + 1..]
    ensures Split(s, d) == [a] + Split(b, d)
    ensures s == a + [d] + b
  {
  }

  /** Joining and separator-freedom over a piece put in front. */
  lemma {:induction false} PiecesCons(a: string, ts: seq<string>, d: char)
    requires |ts| >= 1
    ensures Join([a] + ts, d) == a + [d] + Join(ts, d)
    ensures d !in a && (forall k :: 0 <= k < |ts| ==> d !in ts[k]) ==>
              forall k :: 0 <= k < |[a] + ts| ==> d !in ([a] + ts)[k]
  {
    assert ([a] + ts)[1..] == ts;
    assert forall k :: 1 <= k < |[a] + ts| ==> ([a] + ts)[k] == ts[k - 1];
  }

  lemma {:induction false} SplitFree(s: string, d: char)
    requires d !in s
    ensures Split(s, d) == [s]
  {
    IndexOfFirst(s, d);
  }

  /** Splitting at the first separator. */
  lemma {:induction false} SplitAtFirst(a: string, d: char, b: string)
    requires d !in a
    ensures Split(a + [d] + b, d) == [a] + Split(b, d)
  {
    var s := a + [d] + b;
    assert s[..|a|] == a;
    assert s[|a| + 1..] == b;
    assert s[|a|] == d;
    IndexOfAfter(a, d, b);
  }

  lemma {:induction false} IndexOfAfter(a: string, c: char, b: string)
    requires c !in a
    ensures IndexOf(a + [c] + b, c) == |a|
  {
    var s := a + [c] + b;
    IndexOfFirst(s, c);
    assert s[|a|] == c;
    assert s[..|a|] == a;
  }
}
