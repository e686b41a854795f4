/**
 * The tool directory (links-utils): the table of configured tools, the
 * guard in openTool, escapeRegex, and the search box's filterTools, which
 * shows the rows whose text contains the search term, counts them, and
 * shows or hides a "no results" row.
 */
module LinksUtils {
  import opened Wrappers
  import opened Text

  // ---------------------------------------------------------------------------
  // toolsConfig and openTool
  // ---------------------------------------------------------------------------

  datatype Tool = Tool(title: string, url: string, description: string)

  /** The tools the page can open, by key. */
  const ToolsConfig: map<string, Tool> := map[
    "base64-pdf" := Tool("Decode Base64 to PDF",
                         "https://base64.online/decoders/decode-base64-to-pdf",
                         "Decodifica texto Base64 y lo convierte a PDF"),
    "data-converter" := Tool("Data Converter - JSON to Go",
                             "https://toolset.marco79423.net/en/json-to-go-struct-converter",
                             "Convierte JSON a estructuras Go y otros formatos"),
    "sql-to-go" := Tool("SQL to Go Struct",
                        "https://toolset.marco79423.net/en/sql-ddl-to-go-struct-converter",
                        "Convierte DDL SQL a estructuras Go"),
    "sql-formatter" := Tool("SQL Formatter",
                            "https://www.freeformatter.com/sql-formatter.html",
                            "Formatea y embellece c\U{00F3}digo SQL")
  ]

  /**
   * openTool: the tool whose page opens in a new tab, or None (only an
   * error is logged) when the key is not configured.
   */
  function OpenTool(key: string): (r: Option<Tool>)
    ensures r.None? <==> key !in ToolsConfig
    ensures r.Some? ==> r.value == ToolsConfig[key]
  {
    if key in ToolsConfig then Some(ToolsConfig[key]) else None
  }

  // ---------------------------------------------------------------------------
  // escapeRegex
  // ---------------------------------------------------------------------------

  /** The characters of the class [.*+?^${}()|[\]\\]. */
  predicate IsRegexSpecial(c: char)
  {
    c in ".*+?^${}()|[]\\"
  }

  function CountSpecial(s: string): nat
  {
    if s == [] then 0 else (if IsRegexSpecial(s[0]) then 1 else 0) + CountSpecial(s[1..])
  }

  /** escapeRegex: a backslash before every special character, everything else as it is. */
  function EscapeRegex(s: string): (r: string)
    ensures |r| == |s| + CountSpecial(s)
  {
    if s == [] then []
    else (if IsRegexSpecial(s[0]) then ['\\', s[0]] else [s[0]]) + EscapeRegex(s[1..])
  }

  /** Removes the backslash in front of each escaped character. */
  function Unescape(r: string): string
  {
    if r == [] then []
    else if r[0] == '\\' && |r| >= 2 then [r[1]] + Unescape(r[2..])
    else [r[0]] + Unescape(r[1..])
  }

  /** Deleting each inserted backslash gives back the input. */
  lemma {:induction false} UnescapeEscape(s: string)
    ensures Unescape(EscapeRegex(s)) == s
  {
    if s != [] {
      UnescapeEscape(s[1..]);
      var e := EscapeRegex(s);
      if IsRegexSpecial(s[0]) {
        assert e[0] == '\\' && e[1] == s[0] && e[2..] == EscapeRegex(s[1..]);
      } else {
        assert e[0] == s[0] && e[1..] == EscapeRegex(s[1..]);
      }
    }
  }

  /** Escaping works character by character, so the order of the input is kept. */
  lemma {:induction false} EscapeAppend(s: string, t: string)
    ensures EscapeRegex(s + t) == EscapeRegex(s) + EscapeRegex(t)
  {
    if s != [] {
      assert (s + t)[1..] == s[1..] + t;
      EscapeAppend(s[1..], t);
    } else {
      assert s + t == t;
    }
  }

  /** A string is left unchanged exactly when it has no special character. */
  lemma {:induction false} EscapeIdentityIff(s: string)
    ensures EscapeRegex(s) == s <==> forall k :: 0 <= k < |s| ==> !IsRegexSpecial(s[k])
  {
    if s != [] {
      EscapeIdentityIff(s[1..]);
      if forall k :: 0 <= k < |s| ==> !IsRegexSpecial(s[k]) {
        assert forall k :: 0 <= k < |s[1..]| ==> !IsRegexSpecial(s[1..][k]) by {
          forall k | 0 <= k < |s[1..]| ensures !IsRegexSpecial(s[1..][k]) {
            assert s[1..][k] == s[k + 1];
          }
        }
      } else if EscapeRegex(s) == s {
        assert CountSpecial(s) == 0;
        NoSpecialWhenCountZero(s);
      }
    }
  }

  lemma {:induction false} NoSpecialWhenCountZero(s: string)
    requires CountSpecial(s) == 0
    ensures forall k :: 0 <= k < |s| ==> !IsRegexSpecial(s[k])
  {
    if s != [] {
      NoSpecialWhenCountZero(s[1..]);
      forall k | 1 <= k < |s| ensures !IsRegexSpecial(s[k]) {
        assert s[k] == s[1..][k - 1];
      }
    }
  }

  // ---------------------------------------------------------------------------
  // filterTools
  // ---------------------------------------------------------------------------

  /**
   * A row of the tools table: a tool, with its data-search-terms, name and
   * description, or the "no results" row showNoResultsMessage adds, which
   * has none of the three. shown is false when its display is 'none'.
   */
  datatype Row =
    | ToolRow(searchTerms: string, name: string, description: string, shown: bool)
    | NoResultsRow(shown: bool)

  /** The term searched for: the input lower-cased, then trimmed. */
  function SearchTerm(input: string): string
  {
    Trim(Lower(input))
  }

  /** The text a row is searched in; the "no results" row reads '' for all three parts. */
  function SearchableText(r: Row): string
  {
    match r
    case ToolRow(st, n, d, _) => Lower(st + " " + n + " " + d)
    case NoResultsRow(_) => Lower("" + " " + "" + " " + "")
  }

  /** A row stays visible when the term is empty or occurs in its text. */
  predicate Matches(r: Row, term: string)
  {
    term == [] || Contains(SearchableText(r), term)
  }

  /** The rows with their visibility set by the term (rows.forEach). */
  function Displayed(rows: seq<Row>, term: string): (out: seq<Row>)
    ensures |out| == |rows|
    ensures forall k :: 0 <= k < |rows| ==> out[k] == rows[k].(shown := Matches(rows[k], term))
  {
    seq(|rows|, k requires 0 <= k < |rows| => rows[k].(shown := Matches(rows[k], term)))
  }

  /** How many rows the term matches (visibleCount). */
  function CountMatching(rows: seq<Row>, term: string): nat
  {
    if rows == [] then 0
    else CountMatching(rows[..|rows| - 1], term) + (if Matches(rows[|rows| - 1], term) then 1 else 0)
  }

  function CountShown(rows: seq<Row>): nat
  {
    if rows == [] then 0
    else CountShown(rows[..|rows| - 1]) + (if rows[|rows| - 1].shown then 1 else 0)
  }

  /** The position of the first "no results" row, if any. */
  function NoResultsIndex(rows: seq<Row>): (r: Option<nat>)
    ensures r.Some? ==> r.value < |rows| && rows[r.value].NoResultsRow?
    ensures r.None? ==> forall k :: 0 <= k < |rows| ==> !rows[k].NoResultsRow?
  {
    if rows == [] then None
    else if rows[0].NoResultsRow? then Some(0)
    else
      match NoResultsIndex(rows[1..])
      case None => None
      case Some(i) => Some(i + 1)
  }

  /** showNoResultsMessage: show the row, appending it first when the table has none. */
  function ShowNoResults(rows: seq<Row>): seq<Row>
  {
    match NoResultsIndex(rows)
    case Some(i) => rows[i := NoResultsRow(true)]
    case None => rows + [NoResultsRow(true)]
  }

  /** hideNoResultsMessage: hide the row if the table has one. */
  function HideNoResults(rows: seq<Row>): seq<Row>
  {
    match NoResultsIndex(rows)
    case Some(i) => rows[i := NoResultsRow(false)]
    case None => rows
  }

  /** The table filterTools leaves, as written. */
  function FilterAsWritten(rows: seq<Row>, term: string): seq<Row>
  {
    var d := Displayed(rows, term);
    if term == [] then d
    else if CountMatching(rows, term) == 0 then ShowNoResults(d)
    else HideNoResults(d)
  }

  /** visibleCount is the number of rows left visible, and never exceeds totalCount. */
  lemma {:induction false} CountMatchingShown(rows: seq<Row>, term: string)
    ensures CountMatching(rows, term) == CountShown(Displayed(rows, term))
    ensures CountMatching(rows, term) <= |rows|
  {
    if rows != [] {
      var init := rows[..|rows| - 1];
      CountMatchingShown(init, term);
      assert Displayed(rows, term)[..|rows| - 1] == Displayed(init, term);
    }
  }

  /** With an empty term every row is shown, so visibleCount equals totalCount. */
  lemma {:induction false} EmptyTermShowsAll(rows: seq<Row>)
    ensures CountMatching(rows, []) == |rows|
    ensures forall k :: 0 <= k < |FilterAsWritten(rows, [])| ==> FilterAsWritten(rows, [])[k].shown
  {
    if rows != [] {
      EmptyTermShowsAll(rows[..|rows| - 1]);
    }
  }

  /** A text of spaces only contains no term that starts with something other than white space. */
  lemma {:induction false} SpacesContainNoTerm(text: string, term: string)
    requires forall k :: 0 <= k < |text| ==> text[k] == ' '
    requires term != [] && !IsJsSpace(term[0])
    ensures !Contains(text, term)
  {
    forall i | 0 <= i <= |text| - |term| ensures !OccursAt(text, term, i) {
      assert text[i..i + |term|][0] == text[i];
    }
  }

  lemma NoResultsText(b: bool)
    ensures SearchableText(NoResultsRow(b)) == "  "
  {
    var raw := "" + " " + "" + " " + "";
    assert raw == "  ";
    var low := Lower(raw);
    assert |low| == 2 && low[0] == LowerChar(' ') && low[1] == LowerChar(' ');
  }

  /** A term typed in the box never matches the "no results" row (its text is only spaces). */
  lemma NoResultsNeverMatches(input: string, b: bool)
    requires SearchTerm(input) != []
    ensures !Matches(NoResultsRow(b), SearchTerm(input))
  {
    TrimmedStart(Lower(input));
    NoResultsText(b);
    SpacesContainNoTerm("  ", SearchTerm(input));
  }

  /**
   * filterTools after a search that matched nothing and was then cleared:
   * the "no results" row added by the first search is shown next to every
   * tool, and it is counted among the tools.
   */
  lemma NoResultsRowReappears()
    ensures var tools := [ToolRow("", "", "", true)];
      var afterMiss := FilterAsWritten(tools, "x");
      var afterClear := FilterAsWritten(afterMiss, []);
      && afterMiss == [ToolRow("", "", "", false), NoResultsRow(true)]
      && afterClear == [ToolRow("", "", "", true), NoResultsRow(true)]
      && CountMatching(afterMiss, []) == 2
  {
    var tools := [ToolRow("", "", "", true)];
    EmptyToolText();
    SpacesContainNoTerm("  ", "x");
    assert !Matches(tools[0], "x");
    assert tools[..0] == [];
    assert CountMatching(tools, "x") == 0;
    var d := Displayed(tools, "x");
    assert d == [ToolRow("", "", "", false)];
    assert NoResultsIndex(d[1..]) == None;
    var afterMiss := FilterAsWritten(tools, "x");
    assert afterMiss == [ToolRow("", "", "", false), NoResultsRow(true)];
    EmptyTermShowsAll(afterMiss);
    assert Displayed(afterMiss, []) == [ToolRow("", "", "", true), NoResultsRow(true)];
  }

  lemma EmptyToolText()
    ensures SearchableText(ToolRow("", "", "", true)) == "  "
  {
    var raw := "" + " " + "" + " " + "";
    assert raw == "  ";
    var low := Lower(raw);
    assert |low| == 2 && low[0] == LowerChar(' ') && low[1] == LowerChar(' ');
  }

  /** The table holds at most one "no results" row (it is only added when absent). */
  predicate AtMostOneNoResults(rows: seq<Row>)
  {
    forall i, j :: 0 <= i < j < |rows| && rows[i].NoResultsRow? ==> !rows[j].NoResultsRow?
  }

  lemma DisplayedKeepsOne(rows: seq<Row>, term: string)
    requires AtMostOneNoResults(rows)
    ensures AtMostOneNoResults(Displayed(rows, term))
  {
    var d := Displayed(rows, term);
    forall i, j | 0 <= i < j < |d| && d[i].NoResultsRow? ensures !d[j].NoResultsRow? {
      assert rows[i].NoResultsRow?;
    }
  }

  lemma HideNoResultsKeepsOne(rows: seq<Row>)
    requires AtMostOneNoResults(rows)
    ensures AtMostOneNoResults(HideNoResults(rows))
  {
  }

  /** What showNoResultsMessage leaves: tools untouched, one "no results" row, and it is shown. */
  lemma ShowNoResultsFacts(d: seq<Row>)
    requires AtMostOneNoResults(d)
    ensures var s := ShowNoResults(d);
      && |d| <= |s| <= |d| + 1
      && (forall k :: 0 <= k < |d| && d[k].ToolRow? ==> s[k] == d[k])
      && (forall k :: 0 <= k < |s| && s[k].NoResultsRow? ==> s[k] == NoResultsRow(true))
      && NoResultsIndex(s).Some?
      && AtMostOneNoResults(s)
  {
    var s := ShowNoResults(d);
    match NoResultsIndex(d)
    case Some(i) =>
      assert s[i] == NoResultsRow(true);
      assert NoResultsIndex(s).Some? by {
        NoResultsIndexFinds(s, i);
      }
    case None =>
      assert s[|d|] == NoResultsRow(true);
      NoResultsIndexFinds(s, |d|);
  }

  lemma NoResultsIndexFinds(rows: seq<Row>, i: nat)
    requires i < |rows| && rows[i].NoResultsRow?
    ensures NoResultsIndex(rows).Some?
  {
  }

  // Corrected filter: only tool rows are searched and counted, and the
  // "no results" row is shown exactly when a non-empty term matches no tool.

  /** A tool row the term matches. */
  predicate ToolMatches(r: Row, term: string)
  {
    r.ToolRow? && Matches(r, term)
  }

  function CountTools(rows: seq<Row>): nat
  {
    if rows == [] then 0
    else CountTools(rows[..|rows| - 1]) + (if rows[|rows| - 1].ToolRow? then 1 else 0)
  }

  function CountMatchingTools(rows: seq<Row>, term: string): nat
  {
    if rows == [] then 0
    else CountMatchingTools(rows[..|rows| - 1], term) + (if ToolMatches(rows[|rows| - 1], term) then 1 else 0)
  }

  /** Tool rows shown by the term; the "no results" row hidden until decided. */
  function DisplayedTools(rows: seq<Row>, term: string): (out: seq<Row>)
    ensures |out| == |rows|
    ensures forall k :: 0 <= k < |rows| ==> out[k] == rows[k].(shown := ToolMatches(rows[k], term))
  {
    seq(|rows|, k requires 0 <= k < |rows| => rows[k].(shown := ToolMatches(rows[k], term)))
  }

  /** The table the corrected filter leaves. */
  function FilterIntended(rows: seq<Row>, term: string): seq<Row>
  {
    var d := DisplayedTools(rows, term);
    if term != [] && CountMatchingTools(rows, term) == 0 then ShowNoResults(d) else d
  }

  /**
   * In the corrected table a "no results" row is visible exactly when the
   * term is non-empty and matches no tool, and then there is one; tool rows
   * keep their place and are visible exactly when the term matches them.
   */
  lemma FilterIntendedNoResults(rows: seq<Row>, term: string)
    requires AtMostOneNoResults(rows)
    ensures var out := FilterIntended(rows, term);
      var none := term != [] && CountMatchingTools(rows, term) == 0;
      && (forall k :: 0 <= k < |out| && out[k].NoResultsRow? ==> (out[k].shown <==> none))
      && (none ==> NoResultsIndex(out).Some?)
      && (forall k :: 0 <= k < |rows| && rows[k].ToolRow? ==>
            out[k] == rows[k].(shown := Matches(rows[k], term)))
      && AtMostOneNoResults(out)
  {
    var d := DisplayedTools(rows, term);
    assert AtMostOneNoResults(d) by {
      forall i, j | 0 <= i < j < |d| && d[i].NoResultsRow? ensures !d[j].NoResultsRow? {
        assert rows[i].NoResultsRow?;
      }
    }
    if term != [] && CountMatchingTools(rows, term) == 0 {
      ShowNoResultsFacts(d);
    }
  }

  /** The corrected counts: only tool rows are counted, and matches never exceed tools. */
  lemma {:induction false} CountToolsBound(rows: seq<Row>, term: string)
    ensures CountMatchingTools(rows, term) <= CountTools(rows) <= |rows|
    ensures term == [] ==> CountMatchingTools(rows, term) == CountTools(rows)
  {
    if rows != [] {
      CountToolsBound(rows[..|rows| - 1], term);
    }
  }

  /** The "no results" row does not change the corrected counts. */
  lemma {:induction false} CountsIgnoreNoResults(rows: seq<Row>, term: string, b: bool)
    ensures CountTools(rows + [NoResultsRow(b)]) == CountTools(rows)
    ensures CountMatchingTools(rows + [NoResultsRow(b)], term) == CountMatchingTools(rows, term)
  {
    assert (rows + [NoResultsRow(b)])[..|rows|] == rows;
  }

  lemma CountMatchingStep(rows: seq<Row>, term: string, k: nat)
    requires k < |rows|
    ensures CountMatching(rows[..k + 1], term)
            == CountMatching(rows[..k], term) + (if Matches(rows[k], term) then 1 else 0)
  {
    assert rows[..k + 1][..k] == rows[..k];
  }

  lemma CountToolsStep(rows: seq<Row>, term: string, k: nat)
    requires k < |rows|
    ensures CountTools(rows[..k + 1]) == CountTools(rows[..k]) + (if rows[k].ToolRow? then 1 else 0)
    ensures CountMatchingTools(rows[..k + 1], term)
            == CountMatchingTools(rows[..k], term) + (if ToolMatches(rows[k], term) then 1 else 0)
  {
    assert rows[..k + 1][..k] == rows[..k];
  }

  /** The page's tool table. */
  class ToolsTable {
    var rows: seq<Row>

    /** The "no results" row is only ever added when the table has none. */
    ghost predicate Valid()
      reads this
    {
      AtMostOneNoResults(rows)
    }

    constructor (initial: seq<Row>)
      requires AtMostOneNoResults(initial)
      ensures rows == initial && Valid()
    {
      rows := initial;
    }

    /**
     * filterTools as written: every row in the table, the "no results" row
     * included, is shown or hidden by the term and counted.
     */
    method FilterTools(input: string) returns (visible: nat, total: nat)
      requires Valid()
      modifies this
      ensures Valid()
      ensures total == |old(rows)|
      ensures visible == CountMatching(old(rows), SearchTerm(input))
      ensures rows == FilterAsWritten(old(rows), SearchTerm(input))
    {
      var term := SearchTerm(input);
      total := |rows|;
      visible := ShowMatching(term);
      DisplayedKeepsOne(old(rows), term);
      if term != [] {
        if visible == 0 {
          ShowNoResultsFacts(rows);
          rows := ShowNoResults(rows);
        } else {
          HideNoResultsKeepsOne(rows);
          rows := HideNoResults(rows);
        }
      }
    }

    /** The rows.forEach pass of filterTools: set each row's visibility and count the visible ones. */
    method ShowMatching(term: string) returns (visible: nat)
      modifies this
      ensures rows == Displayed(old(rows), term)
      ensures visible == CountMatching(old(rows), term)
    {
      ghost var orig := rows;
      visible := 0;
      var k := 0;
      while k < |rows|
        invariant 0 <= k <= |rows| == |orig|
        invariant forall j :: 0 <= j < k ==> rows[j] == orig[j].(shown := Matches(orig[j], term))
        invariant forall j :: k <= j < |rows| ==> rows[j] == orig[j]
        invariant visible == CountMatching(orig[..k], term)
      {
        var row := rows[k];
        var m := Matches(row, term);
        CountMatchingStep(orig, term, k);
        rows := rows[k := row.(shown := m)];
        if m {
          visible := visible + 1;
        }
        k := k + 1;
      }
      assert orig[..|orig|] == orig;
    }

    /**
     * The corrected filter: only tool rows are searched and counted; the
     * "no results" row is shown for a non-empty term that matches no tool
     * and hidden otherwise.
     */
    method FilterToolsCorrected(input: string) returns (visible: nat, total: nat)
      requires Valid()
      modifies this
      ensures Valid()
      ensures total == CountTools(old(rows))
      ensures visible == CountMatchingTools(old(rows), SearchTerm(input))
      ensures rows == FilterIntended(old(rows), SearchTerm(input))
    {
      var term := SearchTerm(input);
      visible, total := ShowMatchingTools(term);
      FilterIntendedNoResults(old(rows), term);
      if term != [] && visible == 0 {
        rows := ShowNoResults(rows);
      }
    }

    /** The corrected pass: tool rows shown when matched and counted, the "no results" row hidden. */
    method ShowMatchingTools(term: string) returns (visible: nat, total: nat)
      modifies this
      ensures rows == DisplayedTools(old(rows), term)
      ensures total == CountTools(old(rows))
      ensures visible == CountMatchingTools(old(rows), term)
    {
      ghost var orig := rows;
      total := 0;
      visible := 0;
      var k := 0;
      while k < |rows|
        invariant 0 <= k <= |rows| == |orig|
        invariant forall j :: 0 <= j < k ==> rows[j] == orig[j].(shown := ToolMatches(orig[j], term))
        invariant forall j :: k <= j < |rows| ==> rows[j] == orig[j]
        invariant total == CountTools(orig[..k])
        invariant visible == CountMatchingTools(orig[..k], term)
      {
        var row := rows[k];
        var m := ToolMatches(row, term);
        CountToolsStep(orig, term, k);
        rows := rows[k := row.(shown := m)];
        if row.ToolRow? {
          total := total + 1;
        }
        if m {
          visible := visible + 1;
        }
        k := k + 1;
      }
      assert orig[..|orig|] == orig;
    }
  }
}
