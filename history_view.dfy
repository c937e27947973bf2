/**
 * The scan-history screen: the case-insensitive search over saved analyses, the
 * title pulled out of each analysis, the expanded card, and clearing.
 */
module HistoryView {
  import opened Prelude
  import JsText
  import Seqs
  import Storage

  /** An item matches when its lowercased analysis contains the lowercased search term. */
  predicate Matches(term: string, item: Storage.HistoryItem) {
    JsText.Includes(JsText.Lower(item.analysisResult), JsText.Lower(term))
  }

  /** `filteredHistory`: the matching items, every copy of each, in history order. */
  function FilteredHistory(history: seq<Storage.HistoryItem>, term: string): (r: seq<Storage.HistoryItem>)
    ensures Seqs.IsSubsequence(r, history)
    ensures forall item :: item in r <==> item in history && Matches(term, item)
    ensures forall item :: multiset(r)[item] == (if Matches(term, item) then multiset(history)[item] else 0)
  {
    var keep := (item: Storage.HistoryItem) => Matches(term, item);
    Seqs.FilterCount(history, keep);
    Seqs.Filter(history, keep)
  }

  /** An item is kept exactly when the lowercased term occurs somewhere in its lowercased analysis. */
  lemma FilteredIff(history: seq<Storage.HistoryItem>, term: string, item: Storage.HistoryItem)
    ensures item in FilteredHistory(history, term) <==>
      item in history && exists i :: JsText.OccursAt(JsText.Lower(item.analysisResult), JsText.Lower(term), i)
  {
    JsText.IncludesIff(JsText.Lower(item.analysisResult), JsText.Lower(term));
  }

  /** An empty search shows the whole history. */
  lemma EmptyTermKeepsAll(history: seq<Storage.HistoryItem>)
    ensures FilteredHistory(history, "") == history
  {
    forall i | 0 <= i < |history| ensures Matches("", history[i]) {
      JsText.IncludesEmpty(JsText.Lower(history[i].analysisResult));
    }
    Seqs.FilterKeepsAll(history, (item: Storage.HistoryItem) => Matches("", item));
  }

  /** The two markers a title follows, lowercased: the bold one is tried first. */
  const BoldMarker := "**brand name:**"
  const PlainMarker := "brand name:"
  const UnknownTitle := "Unknown Medicine"

  /** `marker` occurs at index `i` of `text`, ignoring ASCII case (the regular expressions' `i` flag). */
  predicate MarkerAt(text: string, marker: string, i: int) {
    0 <= i && i + |marker| <= |text| && JsText.Lower(text[i..i + |marker|]) == marker
  }

  /** The leftmost occurrence of `marker` at or after `from`. */
  function FindFrom(text: string, marker: string, from: nat): (r: Option<nat>)
    ensures r.Some? ==> from <= r.value && MarkerAt(text, marker, r.value)
    ensures r.Some? ==> forall j :: from <= j < r.value ==> !MarkerAt(text, marker, j)
    ensures r.None? ==> forall j :: from <= j ==> !MarkerAt(text, marker, j)
    decreases |text| - from
  {
    if from + |marker| > |text| then None
    else if MarkerAt(text, marker, from) then Some(from)
    else FindFrom(text, marker, from + 1)
  }

  /** What `(.*)` captures: the longest prefix that holds no line terminator. */
  function RestOfLine(s: string): (r: string)
    ensures r <= s
    ensures JsText.OneLine(r)
    ensures |r| < |s| ==> JsText.IsLineTerminator(s[|r|])
  {
    if s == [] || JsText.IsLineTerminator(s[0]) then [] else [s[0]] + RestOfLine(s[1..])
  }

  /**
   * The first group of `marker\s*(.*)` matched case-insensitively: after the
   * leftmost marker, whitespace (line breaks included) is skipped, then the
   * rest of that line is taken.
   */
  function Capture(text: string, marker: string): (r: Option<string>)
    ensures r.Some? <==> exists i :: MarkerAt(text, marker, i)
    ensures r.Some? ==> JsText.OneLine(r.value)
  {
    match FindFrom(text, marker, 0)
    case None => None
    case Some(i) => Some(RestOfLine(JsText.TrimStart(text[i + |marker|..])))
  }

  /** The fallback title is one line with no whitespace at either end. */
  lemma UnknownTitleIsClean()
    ensures JsText.OneLine(UnknownTitle)
    ensures !JsText.IsWhitespace(UnknownTitle[0]) && !JsText.IsWhitespace(UnknownTitle[|UnknownTitle| - 1])
  {
    forall k | 0 <= k < |UnknownTitle| ensures !JsText.IsLineTerminator(UnknownTitle[k]) {
      assert UnknownTitle[k] in UnknownTitle;
    }
  }

  /** `getTitle`: the trimmed capture after the bold marker, else after the plain one, else a fallback. */
  function GetTitle(text: string): (title: string)
    ensures JsText.OneLine(title)
    ensures title == [] || (!JsText.IsWhitespace(title[0]) && !JsText.IsWhitespace(title[|title| - 1]))
  {
    match Capture(text, BoldMarker)
    case Some(c) => JsText.TrimKeepsOneLine(c); JsText.Trim(c)
    case None =>
      match Capture(text, PlainMarker)
      case Some(c) => JsText.TrimKeepsOneLine(c); JsText.Trim(c)
      case None => UnknownTitleIsClean(); UnknownTitle
  }

  /** The bold marker contains the plain one two characters in. */
  lemma BoldContainsPlain(text: string, i: int)
    requires MarkerAt(text, BoldMarker, i)
    ensures MarkerAt(text, PlainMarker, i + 2)
  {
    assert BoldMarker[2..13] == PlainMarker;
    var w := text[i..i + |BoldMarker|];
    var v := text[i + 2..i + 2 + |PlainMarker|];
    forall k | 0 <= k < |PlainMarker| ensures JsText.Lower(v)[k] == PlainMarker[k] {
      assert v[k] == w[k + 2];
      assert PlainMarker[k] == BoldMarker[2..13][k];
    }
  }

  /**
   * Without the plain marker, in any letter case, the fallback title is used:
   * the bold marker cannot occur either, since it contains the plain one.
   */
  lemma UnknownUnlessMarker(text: string)
    ensures (forall i :: !MarkerAt(text, PlainMarker, i)) ==> GetTitle(text) == UnknownTitle
  {
    if exists i :: MarkerAt(text, BoldMarker, i) {
      var i :| MarkerAt(text, BoldMarker, i);
      BoldContainsPlain(text, i);
    }
  }

  /** `\s*` consumes a whole run of whitespace, line breaks included, and stops at the first other character. */
  lemma {:induction false} TrimStartSkips(ws: string, t: string)
    requires JsText.AllWhitespace(ws)
    requires t == [] || !JsText.IsWhitespace(t[0])
    ensures JsText.TrimStart(ws + t) == t
    decreases |ws|
  {
    if ws == [] {
      assert ws + t == t;
    } else {
      assert (ws + t)[1..] == ws[1..] + t;
      TrimStartSkips(ws[1..], t);
    }
  }

  /** `(.*)` takes a line up to, and not including, the line terminator that ends it. */
  lemma {:induction false} RestOfLineStops(line: string, rest: string)
    requires JsText.OneLine(line)
    requires rest == [] || JsText.IsLineTerminator(rest[0])
    ensures RestOfLine(line + rest) == line
    decreases |line|
  {
    if line == [] {
      assert line + rest == rest;
    } else {
      assert (line + rest)[1..] == line[1..] + rest;
      RestOfLineStops(line[1..], rest);
    }
  }

  /** The search stops at an occurrence when no earlier index matches. */
  lemma FindsFirst(text: string, marker: string, at: nat)
    requires MarkerAt(text, marker, at)
    requires forall j :: 0 <= j < at ==> !MarkerAt(text, marker, j)
    ensures FindFrom(text, marker, 0) == Some(at)
  {
    var found := FindFrom(text, marker, 0);
    assert found.Some?;
    assert !(found.value < at);
  }

  /** The capture reads what follows the leftmost occurrence of the marker. */
  lemma CaptureFirst(text: string, marker: string, at: nat, after: string)
    requires MarkerAt(text, marker, at)
    requires forall j :: 0 <= j < at ==> !MarkerAt(text, marker, j)
    requires text[at + |marker|..] == after
    ensures Capture(text, marker) == Some(RestOfLine(JsText.TrimStart(after)))
  {
    FindsFirst(text, marker, at);
  }

  /** A marker written in any letter case is found where it was placed, and is followed by what came after it. */
  lemma Placed(pre: string, marker: string, after: string)
    ensures MarkerAt(pre + marker + after, JsText.Lower(marker), |pre|)
    ensures (pre + marker + after)[|pre| + |marker|..] == after
  {
    var text := pre + marker + after;
    assert text[|pre|..|pre| + |marker|] == marker;
  }

  /** When a marker first occurs after `pre`, the capture reads the text after that marker. */
  lemma CaptureAfterPrefix(pre: string, marker: string, after: string)
    requires forall j :: 0 <= j < |pre| ==> !MarkerAt(pre + marker + after, JsText.Lower(marker), j)
    ensures Capture(pre + marker + after, JsText.Lower(marker)) == Some(RestOfLine(JsText.TrimStart(after)))
  {
    Placed(pre, marker, after);
    CaptureFirst(pre + marker + after, JsText.Lower(marker), |pre|, after);
  }

  /** `\s*(.*)` over whitespace, a line and what ends it yields that line. */
  lemma LineAfterSpace(ws: string, line: string, rest: string)
    requires JsText.AllWhitespace(ws)
    requires line != [] && !JsText.IsWhitespace(line[0])
    requires JsText.OneLine(line)
    requires rest == [] || JsText.IsLineTerminator(rest[0])
    ensures RestOfLine(JsText.TrimStart(ws + line + rest)) == line
  {
    assert ws + line + rest == ws + (line + rest);
    TrimStartSkips(ws, line + rest);
    RestOfLineStops(line, rest);
  }

  /**
   * When a marker, in any letter case, first occurs after `pre`, the capture is
   * the line that follows it, whatever whitespace and line breaks come first.
   */
  lemma CaptureAfter(pre: string, marker: string, ws: string, line: string, rest: string)
    requires JsText.AllWhitespace(ws)
    requires line != [] && !JsText.IsWhitespace(line[0])
    requires JsText.OneLine(line)
    requires rest == [] || JsText.IsLineTerminator(rest[0])
    requires forall j :: 0 <= j < |pre| ==> !MarkerAt(pre + marker + ws + line + rest, JsText.Lower(marker), j)
    ensures Capture(pre + marker + ws + line + rest, JsText.Lower(marker)) == Some(line)
  {
    var after := ws + line + rest;
    assert pre + marker + ws + line + rest == pre + marker + after;
    CaptureAfterPrefix(pre, marker, after);
    LineAfterSpace(ws, line, rest);
  }

  /**
   * When the bold marker, in any letter case, first occurs after `pre`, the
   * title is the trimmed line that follows it, whatever whitespace and line
   * breaks come first.
   */
  lemma BoldTitle(pre: string, marker: string, ws: string, line: string, rest: string)
    requires JsText.Lower(marker) == BoldMarker
    requires JsText.AllWhitespace(ws)
    requires line != [] && !JsText.IsWhitespace(line[0])
    requires JsText.OneLine(line)
    requires rest == [] || JsText.IsLineTerminator(rest[0])
    requires forall j :: 0 <= j < |pre| ==> !MarkerAt(pre + marker + ws + line + rest, BoldMarker, j)
    ensures GetTitle(pre + marker + ws + line + rest) == JsText.Trim(line)
  {
    CaptureAfter(pre, marker, ws, line, rest);
  }

  /**
   * Without any bold marker, when the plain marker first occurs after `pre`,
   * the title is the trimmed line that follows it.
   */
  lemma PlainTitle(pre: string, marker: string, ws: string, line: string, rest: string)
    requires JsText.Lower(marker) == PlainMarker
    requires JsText.AllWhitespace(ws)
    requires line != [] && !JsText.IsWhitespace(line[0])
    requires JsText.OneLine(line)
    requires rest == [] || JsText.IsLineTerminator(rest[0])
    requires forall i :: !MarkerAt(pre + marker + ws + line + rest, BoldMarker, i)
    requires forall j :: 0 <= j < |pre| ==> !MarkerAt(pre + marker + ws + line + rest, PlainMarker, j)
    ensures GetTitle(pre + marker + ws + line + rest) == JsText.Trim(line)
  {
    assert Capture(pre + marker + ws + line + rest, BoldMarker) == None;
    CaptureAfter(pre, marker, ws, line, rest);
  }

  /** The markers match in any letter case: the capitalised forms the analyses use are recognised. */
  lemma MarkersIgnoreCase()
    ensures JsText.Lower("**Brand Name:**") == BoldMarker
    ensures JsText.Lower("BRAND NAME:") == PlainMarker
  {
    var l := JsText.Lower("**Brand Name:**");
    forall k | 0 <= k < 15 ensures l[k] == BoldMarker[k] {}
    var p := JsText.Lower("BRAND NAME:");
    forall k | 0 <= k < 11 ensures p[k] == PlainMarker[k] {}
  }

  /** The bold marker opens with two asterisks, which lowercasing leaves alone. */
  lemma BoldOpensWithStars(text: string, j: int)
    ensures MarkerAt(text, BoldMarker, j) ==> text[j] == '*' && text[j + 1] == '*'
  {
    if MarkerAt(text, BoldMarker, j) {
      var w := text[j..j + |BoldMarker|];
      assert JsText.Lower(w)[0] == BoldMarker[0] && JsText.Lower(w)[1] == BoldMarker[1];
    }
  }

  /**
   * An analysis laid out as the scan prompt asks, a heading with no `*` and then
   * a bulleted `**Brand Name:**` line, is titled by the trimmed name on that line.
   */
  lemma ListedTitle(heading: string, name: string, rest: string)
    requires forall k :: 0 <= k < |heading| ==> heading[k] != '*'
    requires name != [] && !JsText.IsWhitespace(name[0])
    requires JsText.OneLine(name)
    requires rest == [] || JsText.IsLineTerminator(rest[0])
    ensures GetTitle(heading + "\n*   **Brand Name:** " + name + rest) == JsText.Trim(name)
  {
    var bullet := "\n*   ";
    var pre := heading + bullet;
    var marker := "**Brand Name:**";
    var text := pre + marker + " " + name + rest;
    assert text == heading + "\n*   **Brand Name:** " + name + rest;
    forall j | 0 <= j < |pre| ensures !MarkerAt(text, BoldMarker, j) {
      BoldOpensWithStars(text, j);
      assert text[j] == pre[j];
      if j < |heading| {
        assert pre[j] == heading[j];
      } else if j == |heading| + 1 {
        assert text[j + 1] == pre[j + 1] == ' ';
      } else {
        assert pre[j] == bullet[j - |heading|];
      }
    }
    MarkersIgnoreCase();
    BoldTitle(pre, marker, " ", name, rest);
  }

  /** The card `expandedId` names, if any: clicking the open card closes it, clicking another opens that one. */
  function ToggleExpanded(expandedId: Option<string>, id: string): (r: Option<string>)
    ensures r.None? <==> expandedId == Some(id)
    ensures r.Some? ==> r.value == id
  {
    if expandedId == Some(id) then None else Some(id)
  }

  /** Clicking the same card twice returns to a state with that card open or every card closed. */
  lemma ToggleTwice(expandedId: Option<string>, id: string)
    ensures ToggleExpanded(ToggleExpanded(expandedId, id), id) == (if expandedId == Some(id) then Some(id) else None)
  {
  }

  /** The screen's state. */
  datatype ViewState = ViewState(history: seq<Storage.HistoryItem>, searchTerm: string, expandedId: Option<string>)

  /** On mount the history is read from the store; nothing is searched or expanded yet. */
  function Mounted(store: Storage.ScanHistoryStore): (v: ViewState)
    reads store
    ensures v.history == store.GetScanHistory()
    ensures v.searchTerm == "" && v.expandedId.None?
  {
    ViewState(store.GetScanHistory(), "", None)
  }

  /** `handleClear`: when the user confirms, the store and the shown history are both emptied. */
  method HandleClear(store: Storage.ScanHistoryStore, view: ViewState, confirmed: bool) returns (next: ViewState)
    modifies store
    ensures confirmed ==> store.GetScanHistory() == [] && next == view.(history := [])
    ensures !confirmed ==> store.slot == old(store.slot) && next == view
  {
    next := view;
    if confirmed {
      store.ClearHistory();
      next := next.(history := []);
    }
  }
}
