/**
 * The page-text helpers of final11/project/extension/helpers.js: choosing the
 * text of the first matching page region, cleaning its whitespace, and
 * shortening long text to a head and a tail before it is sent.
 */
module Helpers {
  import opened Wrappers
  import opened Whitespace

  // summarizeForSend -----------------------------------------------------------

  const DefaultMaxChars: nat := 4000
  const Separator := "\n...\n"

  /** JavaScript's `s.slice(0, end)`. */
  function SliceTo(s: string, end: int): string {
    if end <= 0 then [] else if end >= |s| then s else s[..end]
  }

  /** JavaScript's `s.slice(start)`: a negative start counts from the end, and `-0` is `0`. */
  function SliceFrom(s: string, start: int): string {
    if start < 0 then (if |s| + start <= 0 then s else s[|s| + start..])
    else if start >= |s| then []
    else s[start..]
  }

  /** `Math.floor(maxChars * 0.7)`. */
  function HeadLength(maxChars: nat): nat {
    (7 * maxChars) / 10
  }

  /** `Math.floor(maxChars * 0.2)`. */
  function TailLength(maxChars: nat): nat {
    (2 * maxChars) / 10
  }

  /**
   * Text within the budget is sent as it is; longer text is cut to its head,
   * the separator and its tail. A zero tail length makes `slice(-0)` return
   * the whole text, so the "tail" is then all of it.
   */
  function SummarizeForSend(text: string, maxChars: nat): (r: string)
    ensures |text| <= maxChars ==> r == text
    ensures |text| > maxChars ==>
      var h, k := HeadLength(maxChars), TailLength(maxChars);
      && |r| == h + |Separator| + (if k > 0 then k else |text|)
      && r[..h] == text[..h]
      && r[h..h + |Separator|] == Separator
      && (k > 0 ==> r[h + |Separator|..] == text[|text| - k..])
      && (k == 0 ==> r[h + |Separator|..] == text)
  {
    if |text| <= maxChars then text
    else SliceTo(text, HeadLength(maxChars)) + Separator + SliceFrom(text, -(TailLength(maxChars) as int))
  }

  /** For budgets of at least 50 a shortened text fits the budget, so it is strictly shorter than the input. */
  lemma SummaryFitsBudget(text: string, maxChars: nat)
    requires |text| > maxChars >= 50
    ensures |SummarizeForSend(text, maxChars)| <= maxChars < |text|
  {
  }

  /** With the default budget a long text always comes out as 2800 + 5 + 800 characters. */
  lemma DefaultSummaryLength(text: string)
    requires |text| > DefaultMaxChars
    ensures |SummarizeForSend(text, DefaultMaxChars)| == 3605
  {
  }

  /** Below a budget of 5 the tail is the whole text, so "shortening" makes the text longer. */
  lemma TinyBudgetGrows(text: string, maxChars: nat)
    requires maxChars < 5 && |text| > maxChars
    ensures |SummarizeForSend(text, maxChars)| == HeadLength(maxChars) + |Separator| + |text|
    ensures |SummarizeForSend(text, maxChars)| > |text|
  {
  }

  // extractPageText: whitespace cleaning ---------------------------------------

  /** Every whitespace character is a plain space and no two whitespace characters are adjacent. */
  ghost predicate Collapsed(s: string, ws: char -> bool) {
    && (forall i :: 0 <= i < |s| && ws(s[i]) ==> s[i] == ' ')
    && (forall i, j :: 0 <= i < j < |s| && j == i + 1 ==> !(ws(s[i]) && ws(s[j])))
  }

  /**
   * `s.replace(/\s+/g, " ")` for the whitespace class `ws`: every maximal
   * whitespace run becomes one space. A whitespace character is dropped
   * when the next one is whitespace too, so each run leaves one space, at
   * its last character.
   */
  function CollapseRuns(s: string, ws: char -> bool): string
    decreases |s|
  {
    if s == [] then []
    else if !ws(s[0]) then [s[0]] + CollapseRuns(s[1..], ws)
    else if |s| > 1 && ws(s[1]) then CollapseRuns(s[1..], ws)
    else " " + CollapseRuns(s[1..], ws)
  }

  /** Collapsing keeps emptiness and whether each end is whitespace. */
  lemma {:induction false} CollapseRunsEnds(s: string, ws: char -> bool)
    requires ws(' ')
    ensures var r := CollapseRuns(s, ws);
      && (s == [] <==> r == [])
      && (s != [] ==> (ws(r[0]) <==> ws(s[0])))
      && (s != [] ==> (ws(r[|r| - 1]) <==> ws(s[|s| - 1])))
    decreases |s|
  {
    if s != [] {
      CollapseRunsEnds(s[1..], ws);
      if |s| > 1 {
        assert s[1..][0] == s[1] && s[1..][|s| - 2] == s[|s| - 1];
      }
    }
  }

  /** Collapsing leaves single plain spaces only. */
  lemma {:induction false} CollapseRunsCollapsed(s: string, ws: char -> bool)
    requires ws(' ')
    ensures Collapsed(CollapseRuns(s, ws), ws)
    decreases |s|
  {
    if s != [] {
      var r' := CollapseRuns(s[1..], ws);
      CollapseRunsCollapsed(s[1..], ws);
      CollapseRunsEnds(s[1..], ws);
      if |s| > 1 {
        assert s[1..][0] == s[1];
      }
      if !ws(s[0]) || |s| == 1 || !ws(s[1]) {
        ConsCollapsed(if ws(s[0]) then ' ' else s[0], r', ws);
      }
    }
  }

  /** A character in front of collapsed text keeps it collapsed unless it makes a second whitespace character in a row. */
  lemma ConsCollapsed(c: char, r: string, ws: char -> bool)
    requires Collapsed(r, ws)
    requires ws(c) ==> c == ' ' && (r == [] || !ws(r[0]))
    ensures Collapsed([c] + r, ws)
  {
    var s := [c] + r;
    forall i | 0 < i < |s|
      ensures s[i] == r[i - 1]
    {
    }
  }

  /** Collapsing replaces whitespace only: the visible characters are kept, in order. */
  lemma {:induction false} CollapseRunsVisible(s: string, ws: char -> bool)
    requires ws(' ')
    ensures Visible(CollapseRuns(s, ws), ws) == Visible(s, ws)
    decreases |s|
  {
    if s != [] {
      CollapseRunsVisible(s[1..], ws);
      var r' := CollapseRuns(s[1..], ws);
      if !ws(s[0]) {
        assert ([s[0]] + r')[1..] == r';
      } else if |s| == 1 || !ws(s[1]) {
        assert (" " + r')[1..] == r';
      }
    }
  }

  /** Text that is already collapsed is left as it is. */
  lemma {:induction false} CollapseRunsOfCollapsed(s: string, ws: char -> bool)
    requires Collapsed(s, ws)
    ensures CollapseRuns(s, ws) == s
    decreases |s|
  {
    if s != [] {
      assert Collapsed(s[1..], ws) by {
        forall i | 0 <= i < |s| - 1
          ensures s[1..][i] == s[i + 1]
        {
        }
      }
      CollapseRunsOfCollapsed(s[1..], ws);
      if ws(s[0]) && |s| > 1 {
        assert !(ws(s[0]) && ws(s[1]));
      }
      assert [s[0]] + s[1..] == s;
    }
  }

  /** A whitespace run in front of text that starts visibly collapses to one space. */
  lemma {:induction false} CollapseRunsOfRun(w: string, b: string, ws: char -> bool)
    requires w != [] && forall k :: 0 <= k < |w| ==> ws(w[k])
    requires b == [] || !ws(b[0])
    ensures CollapseRuns(w + b, ws) == " " + CollapseRuns(b, ws)
    decreases |w|
  {
    assert (w + b)[0] == w[0];
    assert (w + b)[1..] == w[1..] + b;
    if |w| > 1 {
      assert (w + b)[1] == w[1];
      CollapseRunsOfRun(w[1..], b, ws);
    } else {
      assert w[1..] + b == b;
    }
  }

  /**
   * Collapsing turns a whitespace run between two pieces of text into exactly
   * one space, and collapses each side on its own.
   */
  lemma {:induction false} CollapseRunsSplit(a: string, w: string, b: string, ws: char -> bool)
    requires w != [] && forall k :: 0 <= k < |w| ==> ws(w[k])
    requires a == [] || !ws(a[|a| - 1])
    requires b == [] || !ws(b[0])
    ensures CollapseRuns(a + w + b, ws) == CollapseRuns(a, ws) + " " + CollapseRuns(b, ws)
    decreases |a|
  {
    if a == [] {
      assert a + w + b == w + b;
      CollapseRunsOfRun(w, b, ws);
    } else {
      var a' := a[1..];
      assert a' != [] ==> a'[|a'| - 1] == a[|a| - 1];
      CollapseRunsSplit(a', w, b, ws);
      assert (a + w + b)[0] == a[0];
      assert (a + w + b)[1..] == a' + w + b;
      if ws(a[0]) {
        assert |a| > 1 && (a + w + b)[1] == a[1];
      }
      var c := if !ws(a[0]) then [a[0]] else if ws(a[1]) then [] else " ";
      assert CollapseRuns(a, ws) == c + CollapseRuns(a', ws);
      assert CollapseRuns(a + w + b, ws) == c + CollapseRuns(a' + w + b, ws);
      assert c + (CollapseRuns(a', ws) + " " + CollapseRuns(b, ws)) == c + CollapseRuns(a', ws) + " " + CollapseRuns(b, ws);
    }
  }

  /**
   * `text.trim().replace(/\s+/g, " ")`: no whitespace at either end, only
   * single plain spaces inside, and the visible characters of `s` in order.
   */
  function CleanText(s: string): (r: string)
    ensures Unpadded(r, IsJsSpace)
    ensures Collapsed(r, IsJsSpace)
    ensures Visible(r, IsJsSpace) == Visible(s, IsJsSpace)
  {
    var t := Trim(s, IsJsSpace);
    CollapseRunsEnds(t, IsJsSpace);
    CollapseRunsCollapsed(t, IsJsSpace);
    CollapseRunsVisible(t, IsJsSpace);
    TrimKeepsVisible(s, IsJsSpace);
    CollapseRuns(t, IsJsSpace)
  }

  /** Cleaning cleaned text changes nothing. */
  lemma CleanTextIdempotent(s: string)
    ensures CleanText(CleanText(s)) == CleanText(s)
  {
    var r := CleanText(s);
    TrimUnpadded(r, IsJsSpace);
    CollapseRunsOfCollapsed(r, IsJsSpace);
  }

  /**
   * Two pieces of text with no whitespace at their ends, joined by a
   * whitespace run, clean to the two cleaned pieces joined by one space.
   */
  lemma CleanTextJoins(a: string, w: string, b: string)
    requires a != [] && Unpadded(a, IsJsSpace)
    requires b != [] && Unpadded(b, IsJsSpace)
    requires w != [] && forall k :: 0 <= k < |w| ==> IsJsSpace(w[k])
    ensures CleanText(a + w + b) == CleanText(a) + " " + CleanText(b)
  {
    var s := a + w + b;
    assert s[0] == a[0] && s[|s| - 1] == b[|b| - 1];
    TrimUnpadded(s, IsJsSpace);
    TrimUnpadded(a, IsJsSpace);
    TrimUnpadded(b, IsJsSpace);
    CollapseRunsSplit(a, w, b, IsJsSpace);
  }

  // extractPageText: region selection ------------------------------------------

  /** The page regions tried, in order. */
  const Selectors: seq<string> := ["article", "main", "[role='article']", ".post", ".news"]

  /** An element was found and its rendered text is non-empty (`el && el.innerText`). */
  predicate HasText(region: Option<string>) {
    region.Some? && region.value != ""
  }

  /** The index of the first region with text, or `|regions|` when there is none. */
  function FirstWithText(regions: seq<Option<string>>): (i: nat)
    ensures i <= |regions|
    ensures forall j :: 0 <= j < i ==> !HasText(regions[j])
    ensures i < |regions| ==> HasText(regions[i])
  {
    if regions == [] then 0
    else if HasText(regions[0]) then 0
    else 1 + FirstWithText(regions[1..])
  }

  /** `query`'s answer for each selector, in selector order. */
  function Regions(query: string -> Option<string>): (regions: seq<Option<string>>)
    ensures |regions| == |Selectors|
    ensures forall i :: 0 <= i < |Selectors| ==> regions[i] == query(Selectors[i])
  {
    seq(|Selectors|, i requires 0 <= i < |Selectors| => query(Selectors[i]))
  }

  /**
   * The raw page text: the first selector whose region has text, else the
   * body's text, else empty. `query` gives the rendered text of the first
   * element a selector matches, `None` when nothing matches; `body` is the
   * body's rendered text, `None` when the document has no body.
   */
  function RawPageText(query: string -> Option<string>, body: Option<string>): string {
    var regions := Regions(query);
    var i := FirstWithText(regions);
    if i < |regions| then regions[i].value
    else if body.Some? then body.value
    else ""
  }

  /** `extractPageText`: the cleaned text of the first region with text. */
  method ExtractPageText(query: string -> Option<string>, body: Option<string>) returns (text: string)
    ensures text == CleanText(RawPageText(query, body))
  {
    ghost var regions := Regions(query);
    text := "";
    var i := 0;
    while i < |Selectors|
      invariant 0 <= i <= |Selectors|
      invariant text == ""
      invariant forall j :: 0 <= j < i ==> !HasText(regions[j])
    {
      var region := query(Selectors[i]);
      if region.Some? && region.value != "" {
        assert FirstWithText(regions) == i;
        text := region.value;
        break;
      }
      i := i + 1;
    }
    assert text != "" || FirstWithText(regions) == |regions|;
    if text == "" {
      text := if body.Some? then body.value else "";
    }
    text := CleanText(text);
  }
}
