/**
 The in-memory log: a bounded FIFO of entries (time in seconds, tag name,
 message) and its two renderings, CSV-like text oldest first and HTML table
 rows newest first with an optional tag filter.
 */
module Logging {
  import opened Words

  /** The capacity of the log. */
  const MAX_LOG_ENTRIES: nat := 200

  /** The tags, in declaration order. */
  datatype LogTag =
    | LogTagGeneric
    | LogTagServerWeb
    | LogTagWifi
    | LogTagHa
    | LogTagShelly
    | LogTagConfig
    | LogTagModbus

  datatype LogEntry = LogEntry(timestamp: string, tag: string, message: string)

  /** The name stored for a tag; the Shelly tag has no case of its own and falls to "Other". */
  function TagToString(tag: LogTag): (s: string)
    ensures s == "Other" <==> tag == LogTagShelly
  {
    match tag
    case LogTagGeneric => "Generic"
    case LogTagServerWeb => "WebServer"
    case LogTagWifi => "WiFi"
    case LogTagHa => "HomeAssistant"
    case LogTagConfig => "Config"
    case LogTagModbus => "Modbus"
    case _ => "Other"
  }

  /** Distinct tags have distinct names, so a name filter selects exactly one tag. */
  lemma TagToStringInjective(a: LogTag, b: LogTag)
    requires TagToString(a) == TagToString(b)
    ensures a == b
  {
    match a
    case LogTagGeneric => assert TagToString(b)[0] == 'G';
    case LogTagServerWeb => assert TagToString(b)[0] == 'W' && TagToString(b)[1] == 'e';
    case LogTagWifi => assert TagToString(b)[0] == 'W' && TagToString(b)[1] == 'i';
    case LogTagHa => assert TagToString(b)[0] == 'H';
    case LogTagShelly =>
    case LogTagConfig => assert TagToString(b)[0] == 'C';
    case LogTagModbus => assert TagToString(b)[0] == 'M';
  }

  /** The entry log() records at time now (ms): whole seconds, the tag's name and the message. */
  function NewEntry(tag: LogTag, message: string, now: Uint32): LogEntry {
    LogEntry(NatToString(now / 1000), TagToString(tag), message)
  }

  /** The entries after log(): the oldest one goes when the log is full, then e is appended. */
  function Appended(es: seq<LogEntry>, e: LogEntry): seq<LogEntry> {
    (if |es| >= MAX_LOG_ENTRIES then es[1..] else es) + [e]
  }

  /**
   The log never exceeds its capacity; below capacity it grows by one, at
   capacity exactly the oldest entry is dropped, the new entry is the last one
   and the earlier ones keep their order.
   */
  lemma AppendedShape(es: seq<LogEntry>, e: LogEntry)
    requires |es| <= MAX_LOG_ENTRIES
    ensures var r := Appended(es, e);
      |r| <= MAX_LOG_ENTRIES && r[|r| - 1] == e
      && (|es| < MAX_LOG_ENTRIES ==> |r| == |es| + 1 && r[..|es|] == es)
      && (|es| == MAX_LOG_ENTRIES ==> |r| == |es| && r[..|r| - 1] == es[1..])
  {
    var r := Appended(es, e);
    if |es| < MAX_LOG_ENTRIES {
      assert r[..|es|] == es;
    } else {
      assert r[..|r| - 1] == es[1..];
    }
  }

  /** What the retained entries are: a suffix of everything ever logged, newest last. */
  lemma {:induction false} AppendedKeepsNewest(es: seq<LogEntry>, all: seq<LogEntry>, e: LogEntry)
    requires |es| <= MAX_LOG_ENTRIES
    requires |es| <= |all| && es == all[|all| - |es|..]
    requires |es| == MAX_LOG_ENTRIES || es == all
    ensures var r := Appended(es, e);
      |r| <= |all + [e]| && r == (all + [e])[|all + [e]| - |r|..]
      && (|r| == MAX_LOG_ENTRIES || r == all + [e])
  {
    var r := Appended(es, e);
    var a := all + [e];
    if |es| >= MAX_LOG_ENTRIES {
      assert r == es[1..] + [e];
      assert es[1..] == all[|all| - |es| + 1..];
      assert a[|a| - |r|..] == all[|all| - |es| + 1..] + [e];
    } else {
      assert r == a;
    }
  }

  // ---------------------------------------------------------------------------
  // Renderings
  // ---------------------------------------------------------------------------

  const TXT_HEADER: string := "Timestamp (s),Tag,Message\r\n"

  /** One line of the text rendering. */
  function TxtLine(e: LogEntry): string {
    e.timestamp + "," + e.tag + "," + e.message + "\r\n"
  }

  /** The text lines of the entries, oldest first. */
  function TxtLines(es: seq<LogEntry>): string {
    if es == [] then "" else TxtLines(es[..|es| - 1]) + TxtLine(es[|es| - 1])
  }

  /** One table row of the HTML rendering. */
  function HtmlRow(e: LogEntry): string {
    "<tr>" + "<td>" + e.timestamp + "s</td>" + "<td>" + e.tag + "</td>" + "<td>" + e.message + "</td>" + "</tr>"
  }

  /** Whether the HTML rendering with this filter shows the entry. */
  predicate Shown(e: LogEntry, filterTag: string) {
    filterTag == "All" || e.tag == filterTag
  }

  /** The rendering of the shown entries, newest first, each by `row`. */
  function Rows(es: seq<LogEntry>, filterTag: string, row: LogEntry -> string): string {
    if es == [] then ""
    else Rows(es[1..], filterTag, row) + (if Shown(es[0], filterTag) then row(es[0]) else "")
  }

  /** The HTML table rows of the shown entries, newest first. */
  function HtmlRows(es: seq<LogEntry>, filterTag: string): string {
    Rows(es, filterTag, HtmlRow)
  }

  /** The entries a filter keeps, in log order. */
  function Matching(es: seq<LogEntry>, filterTag: string): (r: seq<LogEntry>)
    ensures |r| <= |es|
    ensures forall i :: 0 <= i < |r| ==> Shown(r[i], filterTag) && r[i] in es
    ensures forall e :: e in es && Shown(e, filterTag) ==> e in r
  {
    if es == [] then []
    else (if Shown(es[0], filterTag) then [es[0]] else []) + Matching(es[1..], filterTag)
  }

  /** Filtering keeps log order: a later entry comes after the entries kept before it. */
  lemma {:induction false} MatchingSnoc(es: seq<LogEntry>, e: LogEntry, filterTag: string)
    ensures Matching(es + [e], filterTag) == Matching(es, filterTag) + (if Shown(e, filterTag) then [e] else [])
    decreases |es|
  {
    if es == [] {
      assert [e][1..] == [];
    } else {
      assert (es + [e])[0] == es[0];
      assert (es + [e])[1..] == es[1..] + [e];
      MatchingSnoc(es[1..], e, filterTag);
    }
  }

  /** The text lines read oldest first: the newest entry is the last line. */
  lemma TxtLinesOrder(es: seq<LogEntry>, e: LogEntry)
    ensures TxtLines(es + [e]) == TxtLines(es) + TxtLine(e)
  {
    assert (es + [e])[..|es|] == es;
  }

  lemma {:induction false} RowsNewestFirst(es: seq<LogEntry>, e: LogEntry, filterTag: string, row: LogEntry -> string)
    ensures Rows(es + [e], filterTag, row) == (if Shown(e, filterTag) then row(e) else "") + Rows(es, filterTag, row)
    decreases |es|
  {
    if es == [] {
      assert [e][1..] == [];
    } else {
      assert (es + [e])[1..] == es[1..] + [e];
      RowsNewestFirst(es[1..], e, filterTag, row);
    }
  }

  /** The HTML rows read newest first: the newest entry is the first row. */
  lemma HtmlRowsNewestFirst(es: seq<LogEntry>, e: LogEntry, filterTag: string)
    ensures HtmlRows(es + [e], filterTag) == (if Shown(e, filterTag) then HtmlRow(e) else "") + HtmlRows(es, filterTag)
  {
    RowsNewestFirst(es, e, filterTag, HtmlRow);
  }

  lemma {:induction false} RowsFilter(es: seq<LogEntry>, filterTag: string, row: LogEntry -> string)
    ensures Rows(es, filterTag, row) == Rows(Matching(es, filterTag), "All", row)
    decreases |es|
  {
    if es != [] {
      RowsFilter(es[1..], filterTag, row);
      var rest := Matching(es[1..], filterTag);
      if Shown(es[0], filterTag) {
        assert Matching(es, filterTag) == [es[0]] + rest;
        assert ([es[0]] + rest)[1..] == rest;
      } else {
        assert Matching(es, filterTag) == rest;
      }
    }
  }

  /** Filtering shows exactly the entries whose tag is the filter's, all of them: "All" applied to the matching ones. */
  lemma HtmlRowsFilter(es: seq<LogEntry>, filterTag: string)
    ensures HtmlRows(es, filterTag) == HtmlRows(Matching(es, filterTag), "All")
  {
    RowsFilter(es, filterTag, HtmlRow);
  }

  /** The five appends of one row make up that row. */
  lemma AppendRow(html: string, e: LogEntry)
    ensures html + "<tr>" + ("<td>" + e.timestamp + "s</td>") + ("<td>" + e.tag + "</td>")
      + ("<td>" + e.message + "</td>") + "</tr>" == html + HtmlRow(e)
  {
  }

  /** "All" lists every entry. */
  lemma MatchingAll(es: seq<LogEntry>)
    ensures Matching(es, "All") == es
  {
    if es != [] {
      MatchingAll(es[1..]);
    }
  }

  class Logger {
    var logEntries: seq<LogEntry>

    ghost predicate Valid()
      reads this
    {
      |logEntries| <= MAX_LOG_ENTRIES
    }

    /** The single instance starts empty. */
    constructor ()
      ensures Valid() && logEntries == []
    {
      logEntries := [];
    }

    /** log(tag, message) at time now (ms); the serial echo is not modelled. */
    method Log(tag: LogTag, message: string, now: Uint32)
      requires Valid()
      modifies this
      ensures Valid()
      ensures logEntries == Appended(old(logEntries), NewEntry(tag, message, now))
    {
      if |logEntries| >= MAX_LOG_ENTRIES {
        logEntries := logEntries[1..];
      }
      var entry := LogEntry(NatToString(now / 1000), TagToString(tag), message);
      logEntries := logEntries + [entry];
    }

    /** getLogsTxt(): the header, then one line per entry, oldest first. */
    method GetLogsTxt() returns (txt: string)
      ensures txt == TXT_HEADER + TxtLines(logEntries)
    {
      txt := TXT_HEADER;
      for i := 0 to |logEntries|
        invariant txt == TXT_HEADER + TxtLines(logEntries[..i])
      {
        var entry := logEntries[i];
        assert logEntries[..i + 1][..i] == logEntries[..i];
        txt := txt + entry.timestamp + "," + entry.tag + "," + entry.message + "\r\n";
      }
      assert logEntries[..|logEntries|] == logEntries;
    }

    /** getLogsHtml(filterTag): the rows of the entries shown under the filter, newest first. */
    method GetLogsHtmlFiltered(filterTag: string) returns (html: string)
      ensures html == HtmlRows(logEntries, filterTag)
    {
      html := "";
      var i := |logEntries| - 1;
      while i >= 0
        invariant -1 <= i < |logEntries|
        invariant html == HtmlRows(logEntries[i + 1..], filterTag)
        decreases i + 1
      {
        assert logEntries[i..][1..] == logEntries[i + 1..];
        if filterTag == "All" || logEntries[i].tag == filterTag {
          AppendRow(html, logEntries[i]);
          html := html + "<tr>";
          html := html + ("<td>" + logEntries[i].timestamp + "s</td>");
          html := html + ("<td>" + logEntries[i].tag + "</td>");
          html := html + ("<td>" + logEntries[i].message + "</td>");
          html := html + "</tr>";
        }
        i := i - 1;
      }
      assert logEntries[0..] == logEntries;
    }

    /** getLogsHtml(): every entry's row, newest first, the same as the "All" filter. */
    method GetLogsHtml() returns (html: string)
      ensures html == HtmlRows(logEntries, "All")
    {
      html := "";
      var i := |logEntries| - 1;
      while i >= 0
        invariant -1 <= i < |logEntries|
        invariant html == HtmlRows(logEntries[i + 1..], "All")
        decreases i + 1
      {
        assert logEntries[i..][1..] == logEntries[i + 1..];
        AppendRow(html, logEntries[i]);
        html := html + "<tr>";
        html := html + ("<td>" + logEntries[i].timestamp + "s</td>");
        html := html + ("<td>" + logEntries[i].tag + "</td>");
        html := html + ("<td>" + logEntries[i].message + "</td>");
        html := html + "</tr>";
        i := i - 1;
      }
      assert logEntries[0..] == logEntries;
    }
  }
}
