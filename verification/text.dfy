/**
 * The Python string operations the analyzer relies on, for a one-character
 * separator: `s.split(sep)`, `glue.join(parts)`, `s.split(sep)[-1]`.
 */
module Text {

  /** Number of occurrences of `c` in `s`. */
  function Occurrences(s: string, c: char): (n: nat)
    ensures n <= |s|
    ensures n == 0 <==> c !in s
  {
    if s == [] then 0 else (if s[0] == c then 1 else 0) + Occurrences(s[1..], c)
  }

  /** Index of the first `c` in `s`, or `|s|` when there is none. */
  function IndexOf(s: string, c: char): (i: nat)
    ensures i <= |s|
    ensures i < |s| ==> s[i] == c
    ensures c !in s[..i]
    ensures i == |s| <==> c !in s
  {
    if s == [] then 0
    else if s[0] == c then 0
    else
      var j := IndexOf(s[1..], c);
      assert s[..j + 1] == [s[0]] + s[1..][..j];
      j + 1
  }

  /** The first `c` of `a + b` is in `b` when `a` has none. */
  lemma {:induction false} IndexOfAfter(a: string, b: string, c: char)
    requires c !in a
    ensures IndexOf(a + b, c) == |a| + IndexOf(b, c)
  {
    if a != [] {
      assert (a + b)[1..] == a[1..] + b;
      assert a[0] in a;
      IndexOfAfter(a[1..], b, c);
    } else {
      assert a + b == b;
    }
  }

  /** Python's `s.split(sep)`: the pieces between the separators, in order. */
  function Split(s: string, sep: char): (parts: seq<string>)
    ensures |parts| >= 1
  {
    if s == [] then [[]]
    else
      var rest := Split(s[1..], sep);
      if s[0] == sep then [[]] + rest else [[s[0]] + rest[0]] + rest[1..]
  }

  /** Python's `glue.join(parts)`. */
  function Join(parts: seq<string>, glue: string): string
  {
    if parts == [] then []
    else if |parts| == 1 then parts[0]
    else parts[0] + glue + Join(parts[1..], glue)
  }

  /** `s` with every occurrence of `sep` replaced by `glue`, character by character. */
  function Replace(s: string, sep: char, glue: string): string
  {
    if s == [] then [] else (if s[0] == sep then glue else [s[0]]) + Replace(s[1..], sep, glue)
  }

  /** Python's `s.split(sep)[-1]`: the text after the last `sep`. */
  function AfterLast(s: string, sep: char): (r: string)
    ensures sep !in r
    ensures |r| <= |s| && s[|s| - |r|..] == r
    ensures |r| == |s| || s[|s| - |r| - 1] == sep
  {
    SplitLast(s, sep);
    var parts := Split(s, sep);
    parts[|parts| - 1]
  }

  /** Splitting yields one piece more than there are separators. */
  lemma {:induction false} SplitCount(s: string, sep: char)
    ensures |Split(s, sep)| == Occurrences(s, sep) + 1
  {
    if s != [] {
      SplitCount(s[1..], sep);
    }
  }

  /** No piece contains the separator. */
  lemma {:induction false} SplitPieces(s: string, sep: char)
    ensures forall i :: 0 <= i < |Split(s, sep)| ==> sep !in Split(s, sep)[i]
  {
    if s != [] {
      SplitPieces(s[1..], sep);
    }
  }

  /** Joining the pieces with `glue` replaces every separator by `glue`. */
  lemma {:induction false} JoinSplit(s: string, sep: char, glue: string)
    ensures Join(Split(s, sep), glue) == Replace(s, sep, glue)
  {
    if s != [] {
      var rest := Split(s[1..], sep);
      JoinSplit(s[1..], sep, glue);
      if s[0] == sep {
        assert Split(s, sep) == [[]] + rest;
        assert ([[]] + rest)[1..] == rest;
      } else {
        assert Split(s, sep) == [[s[0]] + rest[0]] + rest[1..];
        JoinExtendFirst(s[0], rest, glue);
      }
    }
  }

  /** Prefixing the first part with a character prefixes the joined text with it. */
  lemma JoinExtendFirst(x: char, parts: seq<string>, glue: string)
    requires |parts| >= 1
    ensures Join([[x] + parts[0]] + parts[1..], glue) == [x] + Join(parts, glue)
  {
    var ext := [[x] + parts[0]] + parts[1..];
    if |parts| > 1 {
      assert ext[1..] == parts[1..];
    }
  }

  lemma {:induction false} ReplaceBySelf(s: string, sep: char)
    ensures Replace(s, sep, [sep]) == s
  {
    if s != [] {
      ReplaceBySelf(s[1..], sep);
    }
  }

  /** Round trip: `sep.join(s.split(sep)) == s`. */
  lemma JoinSplitRoundTrip(s: string, sep: char)
    ensures Join(Split(s, sep), [sep]) == s
  {
    JoinSplit(s, sep, [sep]);
    ReplaceBySelf(s, sep);
  }

  /** The first piece is the text before the first separator; the others are the pieces of the rest. */
  lemma {:induction false} SplitFirst(s: string, sep: char)
    ensures Split(s, sep)[0] == s[..IndexOf(s, sep)]
    ensures IndexOf(s, sep) < |s| ==> Split(s, sep)[1..] == Split(s[IndexOf(s, sep) + 1..], sep)
  {
    if s != [] && s[0] != sep {
      SplitFirst(s[1..], sep);
      var j := IndexOf(s[1..], sep);
      assert s[..j + 1] == [s[0]] + s[1..][..j];
      if j < |s[1..]| {
        assert s[1..][j + 1..] == s[j + 2..];
      }
    }
  }

  lemma {:induction false} JoinSnoc(parts: seq<string>, last: string, glue: string)
    requires |parts| >= 1
    ensures Join(parts + [last], glue) == Join(parts, glue) + glue + last
  {
    if |parts| > 1 {
      assert (parts + [last])[1..] == parts[1..] + [last];
      JoinSnoc(parts[1..], last, glue);
    }
  }

  /** The last piece is a suffix of `s`, separator-free, and preceded by a separator unless it is all of `s`. */
  lemma SplitLast(s: string, sep: char)
    ensures var parts := Split(s, sep); var r := parts[|parts| - 1];
      && sep !in r
      && |r| <= |s| && s[|s| - |r|..] == r
      && (|r| == |s| || s[|s| - |r| - 1] == sep)
  {
    var parts := Split(s, sep);
    var n := |parts|;
    SplitPieces(s, sep);
    JoinSplitRoundTrip(s, sep);
    if n > 1 {
      assert parts == parts[..n - 1] + [parts[n - 1]];
      JoinSnoc(parts[..n - 1], parts[n - 1], [sep]);
    }
  }
}
