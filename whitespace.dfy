/**
 * Whitespace classes and trimming, as the backend (Python `str.strip`) and the
 * browser extension (JavaScript `String.prototype.trim` and the `\s` class)
 * use them. Trimming is written once, over a whitespace predicate.
 */
module Whitespace {

  /** The characters for which Python's `str.isspace()` holds. */
  predicate IsPySpace(c: char) {
    || c == '\t' || c == '\n' || c == '\U{B}' || c == '\U{C}' || c == '\r'
    || ('\U{1C}' <= c <= '\U{1F}')
    || c == ' ' || c == '\U{85}' || c == '\U{A0}' || c == '\U{1680}'
    || ('\U{2000}' <= c <= '\U{200A}')
    || c == '\U{2028}' || c == '\U{2029}' || c == '\U{202F}' || c == '\U{205F}' || c == '\U{3000}'
  }

  /** JavaScript's WhiteSpace and LineTerminator characters: what `trim()` removes and `\s` matches. */
  predicate IsJsSpace(c: char) {
    || c == '\t' || c == '\n' || c == '\U{B}' || c == '\U{C}' || c == '\r'
    || c == ' ' || c == '\U{A0}' || c == '\U{1680}'
    || ('\U{2000}' <= c <= '\U{200A}')
    || c == '\U{2028}' || c == '\U{2029}' || c == '\U{202F}' || c == '\U{205F}' || c == '\U{3000}'
    || c == '\U{FEFF}'
  }

  /** `s` has no whitespace at either end. */
  predicate Unpadded(s: string, ws: char -> bool) {
    s == [] || (!ws(s[0]) && !ws(s[|s| - 1]))
  }

  /** `s` without its leading whitespace run. */
  function TrimStart(s: string, ws: char -> bool): (r: string)
    ensures |r| <= |s| && r == s[|s| - |r|..]
    ensures forall k :: 0 <= k < |s| - |r| ==> ws(s[k])
    ensures r == [] || !ws(r[0])
  {
    if s != [] && ws(s[0]) then
      var r := TrimStart(s[1..], ws);
      LeadingRunStep(s, |s| - |r|, ws);
      r
    else s
  }

  /** A whitespace character in front of a whitespace run makes a longer run. */
  lemma LeadingRunStep(s: string, n: nat, ws: char -> bool)
    requires 0 < n <= |s| && ws(s[0])
    requires forall k :: 0 <= k < n - 1 ==> ws(s[1..][k])
    ensures forall k :: 0 <= k < n ==> ws(s[k])
  {
    forall k | 0 < k < n
      ensures ws(s[k])
    {
      assert s[k] == s[1..][k - 1];
    }
  }

  /** `s` without its trailing whitespace run. */
  function TrimEnd(s: string, ws: char -> bool): (r: string)
    ensures |r| <= |s| && r == s[..|r|]
    ensures forall k :: |r| <= k < |s| ==> ws(s[k])
    ensures r == [] || !ws(r[|r| - 1])
  {
    if s != [] && ws(s[|s| - 1]) then TrimEnd(s[..|s| - 1], ws) else s
  }

  /** `s` without whitespace at either end (`str.strip()` / `trim()`). */
  function Trim(s: string, ws: char -> bool): (r: string)
    ensures Unpadded(r, ws)
  {
    var t := TrimStart(s, ws);
    var r := TrimEnd(t, ws);
    assert r != [] ==> r[0] == t[0];
    r
  }

  /**
   * What `Trim` removed is whitespace: `s` is a whitespace run, then `Trim(s)`,
   * which starts right after that run, then another whitespace run.
   */
  lemma {:induction false} TrimShape(s: string, ws: char -> bool)
    ensures var i := |s| - |TrimStart(s, ws)|;
      && i + |Trim(s, ws)| <= |s|
      && Trim(s, ws) == s[i..][..|Trim(s, ws)|]
      && (forall k :: 0 <= k < i ==> ws(s[k]))
      && (forall k :: i + |Trim(s, ws)| <= k < |s| ==> ws(s[k]))
  {
    var t := TrimStart(s, ws);
    var i := |s| - |t|;
    var r := Trim(s, ws);
    assert r == TrimEnd(t, ws);
    forall k | i + |r| <= k < |s|
      ensures ws(s[k])
    {
      assert s[k] == t[k - i];
    }
  }

  /** The non-whitespace characters of `s`, in order. */
  function Visible(s: string, ws: char -> bool): string {
    if s == [] then []
    else if ws(s[0]) then Visible(s[1..], ws)
    else [s[0]] + Visible(s[1..], ws)
  }

  lemma {:induction false} VisibleAppend(a: string, b: string, ws: char -> bool)
    ensures Visible(a + b, ws) == Visible(a, ws) + Visible(b, ws)
  {
    if a != [] {
      assert (a + b)[0] == a[0] && (a + b)[1..] == a[1..] + b;
      VisibleAppend(a[1..], b, ws);
    } else {
      assert a + b == b;
    }
  }

  lemma {:induction false} TrimStartKeepsVisible(s: string, ws: char -> bool)
    ensures Visible(TrimStart(s, ws), ws) == Visible(s, ws)
  {
    if s != [] && ws(s[0]) {
      TrimStartKeepsVisible(s[1..], ws);
    }
  }

  lemma {:induction false} TrimEndKeepsVisible(s: string, ws: char -> bool)
    ensures Visible(TrimEnd(s, ws), ws) == Visible(s, ws)
  {
    if s != [] && ws(s[|s| - 1]) {
      var init := s[..|s| - 1];
      TrimEndKeepsVisible(init, ws);
      assert s == init + [s[|s| - 1]];
      VisibleAppend(init, [s[|s| - 1]], ws);
      assert Visible([s[|s| - 1]], ws) == [];
    }
  }

  /** Trimming removes whitespace only: the visible characters are kept, in order. */
  lemma TrimKeepsVisible(s: string, ws: char -> bool)
    ensures Visible(Trim(s, ws), ws) == Visible(s, ws)
  {
    TrimStartKeepsVisible(s, ws);
    TrimEndKeepsVisible(TrimStart(s, ws), ws);
  }

  /** A string with no whitespace at its ends is its own trim. */
  lemma {:induction false} TrimUnpadded(s: string, ws: char -> bool)
    requires Unpadded(s, ws)
    ensures Trim(s, ws) == s
  {
  }

  /** Trimming twice is trimming once. */
  lemma TrimIdempotent(s: string, ws: char -> bool)
    ensures Trim(Trim(s, ws), ws) == Trim(s, ws)
  {
  }
}
