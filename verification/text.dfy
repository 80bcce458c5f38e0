/** String helpers standing in for the JavaScript built-ins the tool uses:
    `toLowerCase`, `startsWith`, `endsWith`, `indexOf`, `split` and `join`,
    plus a filter over sequences. Strings are `seq<char>`. */
module Text {

  /** `toLowerCase` on one character, for the ASCII range. */
  function LowerChar(c: char): char
  {
    if 'A' <= c <= 'Z' then (c as int + 32) as char else c
  }

  function Lower(s: string): (r: string)
    ensures |r| == |s|
    ensures forall i :: 0 <= i < |s| ==> r[i] == LowerChar(s[i])
  {
    seq(|s|, i requires 0 <= i < |s| => LowerChar(s[i]))
  }

  predicate StartsWith(s: string, prefix: string)
  {
    |prefix| <= |s| && s[..|prefix|] == prefix
  }

  predicate EndsWith(s: string, suffix: string)
  {
    |suffix| <= |s| && s[|s| - |suffix|..] == suffix
  }

  /** A character of the regular-expression class `\w`: ASCII letters, digits and `_`. */
  predicate IsWordChar(c: char)
  {
    ('a' <= c <= 'z') || ('A' <= c <= 'Z') || ('0' <= c <= '9') || c == '_'
  }

  /** `String.prototype.indexOf` for one character: the first position of `c`, or -1. */
  function IndexOf(s: string, c: char): (r: int)
    ensures -1 <= r < |s|
    ensures r == -1 <==> c !in s
    ensures 0 <= r ==> s[r] == c && c !in s[..r]
  {
    if |s| == 0 then -1
    else if s[0] == c then 0
    else
      var k := IndexOf(s[1..], c);
      assert s[1..][..if k < 0 then 0 else k] == s[1..1 + if k < 0 then 0 else k];
      if k == -1 then -1 else k + 1
  }

  /** `Array.prototype.join`. */
  function Join(pieces: seq<string>, sep: string): string
  {
    if |pieces| == 0 then ""
    else if |pieces| == 1 then pieces[0]
    else pieces[0] + sep + Join(pieces[1..], sep)
  }

  /** `String.prototype.split` on a one-character separator: the pieces between
      the separators, always at least one (`"".split(",")` is `[""]`). */
  function Split(s: string, sep: char): (pieces: seq<string>)
    ensures |pieces| >= 1
    ensures forall i :: 0 <= i < |pieces| ==> sep !in pieces[i]
    ensures Join(pieces, [sep]) == s
    decreases |s|
  {
    var i := IndexOf(s, sep);
    if i < 0 then [s]
    else
      var rest := Split(s[i + 1..], sep);
      var pieces := [s[..i]] + rest;
      assert pieces[0] == s[..i] && pieces[1..] == rest;
      assert Join(pieces, [sep]) == s[..i] + [sep] + Join(rest, [sep]);
      assert s == s[..i] + [sep] + s[i + 1..];
      assert forall k :: 1 <= k < |pieces| ==> pieces[k] == rest[k - 1];
      pieces
  }

  /** Splitting a joined list gives the list back, provided no piece holds the separator. */
  lemma {:induction false} SplitJoin(pieces: seq<string>, sep: char)
    requires |pieces| >= 1
    requires forall i :: 0 <= i < |pieces| ==> sep !in pieces[i]
    ensures Split(Join(pieces, [sep]), sep) == pieces
    decreases |pieces|
  {
    if |pieces| > 1 {
      var s := Join(pieces, [sep]);
      var tail := Join(pieces[1..], [sep]);
      assert s == pieces[0] + [sep] + tail;
      IndexOfAfter(pieces[0], sep, tail);
      assert s[..|pieces[0]|] == pieces[0];
      assert s[|pieces[0]| + 1..] == tail;
      SplitJoin(pieces[1..], sep);
      assert [pieces[0]] + pieces[1..] == pieces;
    }
  }

  lemma IndexOfAfter(a: string, c: char, b: string)
    requires c !in a
    ensures IndexOf(a + [c] + b, c) == |a|
  {
    var s := a + [c] + b;
    assert s[|a|] == c;
    assert s[..|a|] == a;
  }

  /** `a` is `b` with some elements removed, order kept. */
  predicate IsSubsequence<T(==)>(a: seq<T>, b: seq<T>)
    decreases |b|
  {
    |a| == 0 ||
    (|b| > 0 && ((a[0] == b[0] && IsSubsequence(a[1..], b[1..])) || IsSubsequence(a, b[1..])))
  }

  /** No element occurs twice. */
  predicate Distinct<T(==)>(s: seq<T>)
  {
    forall i, j :: 0 <= i < j < |s| ==> s[i] != s[j]
  }

  /** The elements of `xs` that satisfy `keep`, in their original order. */
  function Filter(xs: seq<string>, keep: string -> bool): (r: seq<string>)
    ensures forall x :: x in r <==> x in xs && keep(x)
    ensures IsSubsequence(r, xs)
    ensures Distinct(xs) ==> Distinct(r)
  {
    if |xs| == 0 then []
    else
      var rest := Filter(xs[1..], keep);
      assert forall x :: x in xs <==> x == xs[0] || x in xs[1..];
      if keep(xs[0]) then
        var r := [xs[0]] + rest;
        assert r[1..] == rest;
        assert Distinct(xs) ==> Distinct(r) by {
          if Distinct(xs) {
            assert xs[0] !in xs[1..];
            assert xs[0] !in rest;
            forall i, j | 0 <= i < j < |r| ensures r[i] != r[j] {
              if i == 0 { assert r[j] in rest; }
              else { assert r[i] == rest[i - 1] && r[j] == rest[j - 1]; }
            }
          }
        }
        r
      else rest
  }
}
