/** The two PHP string built-ins the builder's checks rest on: `empty()` and
    `trim()` with its default character list. */
module PhpStrings {

  /** `empty()` on a string: the empty string and "0" are empty. */
  predicate EmptyStr(s: string) {
    s == "" || s == "0"
  }

  /** `empty()` on an integer: only zero is empty. */
  predicate EmptyInt(n: int) {
    n == 0
  }

  /** The characters `trim()` strips by default: space, tab, line feed,
      carriage return, NUL and vertical tab. */
  predicate IsTrimChar(c: char) {
    c == ' ' || c == '\t' || c == '\n' || c == '\r' || c == '\0' || c == '\U{B}'
  }

  predicate AllTrimChars(s: string) {
    forall i :: 0 <= i < |s| ==> IsTrimChar(s[i])
  }

  /** Neither end of `s` is a character `trim()` would strip. */
  predicate IsTrimmed(s: string) {
    s == [] || (!IsTrimChar(s[0]) && !IsTrimChar(s[|s| - 1]))
  }

  /** `ltrim()`: the longest suffix of `s` that does not start with a trim character. */
  function TrimLeft(s: string): (r: string)
    ensures |r| <= |s| && r == s[|s| - |r|..]
    ensures AllTrimChars(s[..|s| - |r|])
    ensures r == [] || !IsTrimChar(r[0])
  {
    if |s| > 0 && IsTrimChar(s[0]) then
      var r := TrimLeft(s[1..]);
      assert s[..|s| - |r|] == [s[0]] + s[1..][..|s| - 1 - |r|];
      assert s[1..][|s| - 1 - |r|..] == s[|s| - |r|..];
      r
    else
      s
  }

  /** `rtrim()`: the longest prefix of `s` that does not end with a trim character. */
  function TrimRight(s: string): (r: string)
    ensures |r| <= |s| && r == s[..|r|]
    ensures AllTrimChars(s[|r|..])
    ensures r == [] || !IsTrimChar(r[|r| - 1])
  {
    if |s| > 0 && IsTrimChar(s[|s| - 1]) then
      var r := TrimRight(s[..|s| - 1]);
      assert s[|r|..] == s[..|s| - 1][|r|..] + [s[|s| - 1]];
      assert s[..|s| - 1][..|r|] == s[..|r|];
      r
    else
      s
  }

  /** `trim()` with the default character list. */
  function Trim(s: string): (r: string)
    ensures |r| <= |s|
    ensures IsTrimmed(r)
    ensures r == "" <==> AllTrimChars(s)
  {
    var l := TrimLeft(s);
    var r := TrimRight(l);
    assert r != [] ==> l[0] == r[0];
    assert l[0..] == l && s[..|s|] == s;
    assert l != [] ==> l[0] == s[|s| - |l|];
    r
  }

  lemma TrimLeftSplit(s: string) returns (before: string)
    ensures AllTrimChars(before) && s == before + TrimLeft(s)
  {
    before := s[..|s| - |TrimLeft(s)|];
  }

  lemma TrimRightSplit(s: string) returns (after: string)
    ensures AllTrimChars(after) && s == TrimRight(s) + after
  {
    after := s[|TrimRight(s)|..];
  }

  /** `trim()` takes off exactly the trim characters around its result. */
  lemma TrimSplit(s: string) returns (before: string, after: string)
    ensures AllTrimChars(before) && AllTrimChars(after)
    ensures s == before + Trim(s) + after
  {
    var l := TrimLeft(s);
    before := TrimLeftSplit(s);
    after := TrimRightSplit(l);
    assert Trim(s) == TrimRight(l);
    AppendAssoc(before, Trim(s), after);
  }

  /** Concatenation regroups freely; the proofs about emitted code use this
      to line fragments up. */
  lemma AppendAssoc(a: string, b: string, c: string)
    ensures (a + b) + c == a + (b + c)
  {
  }

  lemma AppendEmpty(a: string)
    ensures a + "" == a
  {
  }

  lemma AllTrimCharsConcat(a: string, b: string)
    ensures AllTrimChars(a + b) <==> AllTrimChars(a) && AllTrimChars(b)
  {
    if AllTrimChars(a + b) {
      forall i | 0 <= i < |a| ensures IsTrimChar(a[i]) {
        assert a[i] == (a + b)[i];
      }
      forall i | 0 <= i < |b| ensures IsTrimChar(b[i]) {
        assert b[i] == (a + b)[|a| + i];
      }
    }
    if AllTrimChars(a) && AllTrimChars(b) {
      forall i | 0 <= i < |a + b| ensures IsTrimChar((a + b)[i]) {
        if i < |a| {
          assert (a + b)[i] == a[i];
        } else {
          assert (a + b)[i] == b[i - |a|];
        }
      }
    }
  }

  lemma {:induction false} TrimLeftPadded(pad: string, m: string)
    requires AllTrimChars(pad)
    requires m == [] || !IsTrimChar(m[0])
    ensures TrimLeft(pad + m) == m
    decreases |pad|
  {
    if pad == [] {
      assert pad + m == m;
    } else {
      assert (pad + m)[0] == pad[0];
      assert (pad + m)[1..] == pad[1..] + m;
      TrimLeftPadded(pad[1..], m);
    }
  }

  lemma {:induction false} TrimRightPadded(m: string, pad: string)
    requires AllTrimChars(pad)
    requires m == [] || !IsTrimChar(m[|m| - 1])
    ensures TrimRight(m + pad) == m
    decreases |pad|
  {
    if pad == [] {
      assert m + pad == m;
    } else {
      var n := |pad| - 1;
      assert (m + pad)[|m + pad| - 1] == pad[n];
      assert (m + pad)[..|m + pad| - 1] == m + pad[..n];
      TrimRightPadded(m, pad[..n]);
    }
  }

  /** A trimmed string surrounded by trim characters is what `trim()` gives back.
      With TrimSplit this pins `trim()` down: it removes the surrounding
      whitespace and nothing else. */
  lemma TrimPadded(before: string, m: string, after: string)
    requires AllTrimChars(before) && AllTrimChars(after)
    requires IsTrimmed(m)
    ensures Trim(before + m + after) == m
  {
    var s := before + m + after;
    if m == [] {
      assert s == before + after;
      AllTrimCharsConcat(before, after);
    } else {
      AppendAssoc(before, m, after);
      assert (m + after)[0] == m[0];
      TrimLeftPadded(before, m + after);
      TrimRightPadded(m, after);
      assert Trim(s) == TrimRight(TrimLeft(s));
    }
  }

  /** Trimming twice is trimming once. */
  lemma TrimIdempotent(s: string)
    ensures Trim(Trim(s)) == Trim(s)
  {
    TrimPadded([], Trim(s), []);
    assert [] + Trim(s) + [] == Trim(s);
  }
}
