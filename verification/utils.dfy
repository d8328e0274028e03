/** The two string helpers of src/utils.py that the analyzer's inputs go through. */
module Utils {
  import opened Wrappers
  import opened Text

  /**
   * A manifest boolean attribute as the parser reports it: Python's
   * `True`, `False`, or `None` when the attribute is not declared.
   */
  datatype TriBool = True | False | Unset

  /** The Python spelling of a boolean as it appears in a manifest. */
  function Spelling(b: bool): string
  {
    if b then "true" else "false"
  }

  function FromBool(b: bool): TriBool
  {
    if b then True else False
  }

  /** `str2Bool`: "true" and "false" (lower case, exactly) are booleans; every other string is unset. */
  function Str2Bool(s: string): (b: TriBool)
    ensures b == True <==> s == Spelling(true)
    ensures b == False <==> s == Spelling(false)
    ensures b == Unset <==> s != "true" && s != "false"
  {
    if s == "true" then True
    else if s == "false" then False
    else Unset
  }

  /** Round trip: parsing the spelling of a boolean gives that boolean back. */
  lemma Str2BoolRoundTrip(b: bool)
    ensures Str2Bool(Spelling(b)) == FromBool(b)
  {
  }

  /** Only the two spellings parse to a boolean; "True", "" and "1" do not. */
  lemma Str2BoolOnlySpellings(s: string)
    ensures Str2Bool(s) != Unset ==> exists b :: s == Spelling(b) && Str2Bool(s) == FromBool(b)
    ensures Str2Bool("True") == Unset && Str2Bool("") == Unset && Str2Bool("1") == Unset
  {
    if s == "true" {
      assert s == Spelling(true);
    } else if s == "false" {
      assert s == Spelling(false);
    }
  }

  /**
   * `getResourceTypeName`: the name part of a resource reference `@type/name`,
   * i.e. the piece between the first '/' and the next '/' (or the end), or
   * `None` when the value is `None` or that piece is empty. A value without any
   * '/' makes the source raise an IndexError, hence the precondition.
   */
  function GetResourceTypeName(value: Option<string>): (name: Option<string>)
    requires value.Some? ==> '/' in value.value
    ensures value.None? ==> name.None?
    ensures value.Some? ==>
      var v := value.value;
      var i := IndexOf(v, '/');
      var rest := v[i + 1..];
      var piece := rest[..IndexOf(rest, '/')];
      name == if piece == [] then None else Some(piece)
    ensures name.Some? ==> '/' !in name.value && name.value != []
  {
    if value.None? then None
    else
      var v := value.value;
      SplitFirst(v, '/');
      var i := IndexOf(v, '/');
      SplitFirst(v[i + 1..], '/');
      var piece := Split(v, '/')[1];
      if piece != [] then Some(piece) else None
  }

  /** The piece of `v` that starts at `a` and runs to the next '/' (or the end) is a slice of `v`. */
  lemma PieceAt(v: string, a: nat)
    requires a <= |v|
    ensures var j := IndexOf(v[a..], '/');
      && a + j <= |v|
      && v[a..][..j] == v[a..a + j]
      && (a + j < |v| ==> v[a + j] == '/')
  {
    var j := IndexOf(v[a..], '/');
    assert v[a..][..j] == v[a..a + j];
    if a + j < |v| {
      assert v[a..][j] == v[a + j];
    }
  }

  /** The name is a contiguous part of the reference, right after its first '/'. */
  lemma ResourceNameIsInfix(v: string)
    requires '/' in v
    ensures var name := GetResourceTypeName(Some(v));
      name.Some? ==>
        var i := IndexOf(v, '/');
        i + 1 + |name.value| <= |v| && v[i + 1..i + 1 + |name.value|] == name.value
        && (i + 1 + |name.value| == |v| || v[i + 1 + |name.value|] == '/')
  {
    var i := IndexOf(v, '/');
    PieceAt(v, i + 1);
  }

  /** For a reference `@type/name` whose parts have no '/', the name is returned (None when it is empty). */
  lemma {:induction false} ResourceNameOfReference(t: string, n: string)
    requires '/' !in t && '/' !in n
    ensures GetResourceTypeName(Some("@" + t + "/" + n)) == if n == [] then None else Some(n)
  {
    var v := "@" + t + "/" + n;
    IndexOfAfter("@" + t, "/" + n, '/');
    assert v[|t| + 2..] == n;
    IndexOfAfter(n, [], '/');
    assert n + [] == n;
  }

  /** "a/b/c" names "b": the piece stops at the second '/'. */
  lemma ResourceNameStopsAtSlash()
    ensures GetResourceTypeName(Some("a/b/c")) == Some("b")
  {
    assert IndexOf("a/b/c", '/') == 1 by {
      assert "a/b/c"[1] == '/' && '/' !in "a/b/c"[..1];
    }
    assert "a/b/c"[2..] == "b/c";
    assert IndexOf("b/c", '/') == 1 by {
      assert "b/c"[1] == '/' && '/' !in "b/c"[..1];
    }
    assert "b/c"[..1] == "b";
  }

  /** An empty name piece gives None rather than "": "@xml/" and "a//b". */
  lemma ResourceNameEmptyExamples()
    ensures GetResourceTypeName(Some("@xml/")) == None
    ensures GetResourceTypeName(Some("a//b")) == None
  {
    assert IndexOf("@xml/", '/') == 4 by {
      assert "@xml/"[4] == '/' && '/' !in "@xml/"[..4];
    }
    assert "@xml/"[5..] == "";
    assert IndexOf("a//b", '/') == 1 by {
      assert "a//b"[1] == '/' && '/' !in "a//b"[..1];
    }
    assert "a//b"[2..] == "/b";
  }
}
