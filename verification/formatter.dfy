/**
 * The report `lookup_medication` returns: a header that repeats the raw
 * query, the matched record when there is one, and a footer with the FASS
 * search link, a disclaimer and the sources, joined with line feeds.
 */
module Formatter {
  import opened Wrappers
  import opened Text
  import opened Directory
  import opened Matcher

  const SearchEndpoint: string := "https://fass.se/search?query="
  const WebNote: string := "Visit the URL above to see full results on FASS.se"

  const HeaderPrefix: string := "## Swedish Medication Lookup: "
  const UseLabel: string := "**Use:** "
  const DosageLabel: string := "**Dosage:** "
  const OtcTag: string := "**OTC:** "
  const WarningsLabel: string := "**Warnings:** "
  const YesLabel: string := "Yes (receptfritt)"
  const NoLabel: string := "No (receptbelagt)"

  const FassHeading: string := "### Full Information on FASS"
  /** The link emoji U+1F517 and a space. */
  const LinkMarker: string := "\U{1F517} "
  const Rule: string := "---"
  const Disclaimer: string :=
    "*This is informational only. " + "Always consult healthcare "
    + "professionals " + "for medical advice.*"
  const Sources: string := "*Sources: FASS.se, L\U{E4}kemedelsverket*"

  // ---------------------------------------------------------------------
  // search link

  /** What `search_fass_web` returns: the raw query, its search URL and a
      fixed note. Nothing is fetched. */
  datatype WebInfo = WebInfo(query: string, searchUrl: string, note: string)

  /** The search URL: the endpoint followed by the percent-encoded query.
      `encode` stands for `urllib.parse.quote`. */
  function SearchUrl(query: string, encode: string -> string): (url: string)
    ensures AfterPrefix(url, SearchEndpoint) == Some(encode(query))
  {
    AfterPrefixIff(SearchEndpoint + encode(query), SearchEndpoint, encode(query));
    SearchEndpoint + encode(query)
  }

  function SearchFassWeb(query: string, encode: string -> string): (w: WebInfo)
    ensures w.query == query && w.note == WebNote
    ensures AfterPrefix(w.searchUrl, SearchEndpoint) == Some(encode(query))
  {
    WebInfo(query, SearchUrl(query, encode), WebNote)
  }

  /** The query can be read back from its URL whenever `decode` undoes
      `encode` on it, as `urllib.parse.unquote` undoes `quote`. */
  lemma SearchUrlRoundTrip(query: string, encode: string -> string, decode: string -> string)
    requires decode(encode(query)) == query
    ensures match AfterPrefix(SearchUrl(query, encode), SearchEndpoint)
            case Some(e) => decode(e) == query
            case None => false
  {
  }

  /** Two queries share a search URL only if they encode alike; with a
      left inverse for `encode` the URL determines the query. */
  lemma SearchUrlInjective(a: string, b: string, encode: string -> string, decode: string -> string)
    requires decode(encode(a)) == a && decode(encode(b)) == b
    ensures SearchUrl(a, encode) == SearchUrl(b, encode) <==> a == b
  {
    if SearchUrl(a, encode) == SearchUrl(b, encode) {
      AfterPrefixIff(SearchUrl(a, encode), SearchEndpoint, encode(b));
    }
  }

  // ---------------------------------------------------------------------
  // record block

  /** The OTC cell: fixed Swedish-annotated labels for yes and no, the
      qualifier itself otherwise. */
  function OtcLabel(otc: Otc): (s: string)
    ensures otc.Qualified? ==> s == otc.note
    ensures !otc.Qualified? ==> (s == YesLabel <==> otc.Yes?)
    ensures !otc.Qualified? ==> (s == NoLabel <==> otc.No?)
  {
    match otc
    case Yes => YesLabel
    case No => NoLabel
    case Qualified(note) => note
  }

  /** A qualifier that is not spelled like a fixed label. */
  predicate PlainQualifier(otc: Otc) {
    otc.Qualified? ==> otc.note != YesLabel && otc.note != NoLabel
  }

  /** Reads an OTC cell back. */
  function ParseOtc(s: string): (otc: Otc)
    ensures PlainQualifier(otc)
  {
    if s == YesLabel then Yes else if s == NoLabel then No else Qualified(s)
  }

  /** The OTC cell is unambiguous for every status whose qualifier is not
      spelled like a fixed label. */
  lemma OtcRoundTrip(otc: Otc)
    requires PlainQualifier(otc)
    ensures ParseOtc(OtcLabel(otc)) == otc
  {
  }

  /** So distinct such statuses render differently. */
  lemma OtcLabelInjective(a: Otc, b: Otc)
    requires PlainQualifier(a) && PlainQualifier(b)
    ensures OtcLabel(a) == OtcLabel(b) <==> a == b
  {
    OtcRoundTrip(a);
    OtcRoundTrip(b);
  }

  /** The record's heading: the title-cased name and the brands joined
      with ", ". */
  function Heading(e: Entry): (h: string)
    ensures AfterPrefix(h, "### ") == Some(Title(e.name) + " (" + Join(e.brands, ", ") + ")")
  {
    var rest := Title(e.name) + " (" + Join(e.brands, ", ") + ")";
    AfterPrefixIff("### " + rest, "### ", rest);
    assert "### " + Title(e.name) + " (" + Join(e.brands, ", ") + ")" == "### " + rest;
    "### " + rest
  }

  /** The record's first line: the heading with its own line feed. */
  function TitleLine(e: Entry): (t: string)
    ensures AfterPrefix(t, "### ") == Some(Title(e.name) + " (" + Join(e.brands, ", ") + ")\n")
  {
    var rest := Title(e.name) + " (" + Join(e.brands, ", ") + ")";
    var h := Heading(e);
    AfterPrefixIff(h, "### ", rest);
    assert h + "\n" == "### " + (rest + "\n");
    AfterPrefixIff(h + "\n", "### ", rest + "\n");
    assert rest + "\n" == Title(e.name) + " (" + Join(e.brands, ", ") + ")\n";
    h + "\n"
  }

  /** The six lines of the record block, the last one empty. */
  function RecordLines(e: Entry): (lines: seq<string>)
    ensures |lines| == 6 && lines[5] == ""
    ensures AfterPrefix(lines[0], "### ") == Some(Title(e.name) + " (" + Join(e.brands, ", ") + ")\n")
    ensures AfterPrefix(lines[1], UseLabel) == Some(e.use)
    ensures AfterPrefix(lines[2], DosageLabel) == Some(e.dose)
    ensures AfterPrefix(lines[3], OtcTag) == Some(OtcLabel(e.otc))
    ensures AfterPrefix(lines[4], WarningsLabel) == Some(e.warnings)
  {
    AfterPrefixIff(UseLabel + e.use, UseLabel, e.use);
    AfterPrefixIff(DosageLabel + e.dose, DosageLabel, e.dose);
    AfterPrefixIff(OtcTag + OtcLabel(e.otc), OtcTag, OtcLabel(e.otc));
    AfterPrefixIff(WarningsLabel + e.warnings, WarningsLabel, e.warnings);
    [ TitleLine(e),
      UseLabel + e.use,
      DosageLabel + e.dose,
      OtcTag + OtcLabel(e.otc),
      WarningsLabel + e.warnings,
      "" ]
  }

  // ---------------------------------------------------------------------
  // whole report

  /** The header line, ending in its own line feed. */
  function HeaderLine(query: string): (h: string)
    ensures AfterPrefix(h, HeaderPrefix) == Some(query + "\n")
  {
    AfterPrefixIff(HeaderPrefix + (query + "\n"), HeaderPrefix, query + "\n");
    assert HeaderPrefix + query + "\n" == HeaderPrefix + (query + "\n");
    HeaderPrefix + query + "\n"
  }

  /** The six lines that end every report. */
  function FooterLines(url: string): (lines: seq<string>)
    ensures |lines| == 6
    ensures AfterPrefix(lines[1], LinkMarker) == Some(url)
  {
    AfterPrefixIff(LinkMarker + url, LinkMarker, url);
    [FassHeading, LinkMarker + url, "", Rule, Disclaimer, Sources]
  }

  /** The list `lookup_medication` builds before joining it. */
  function OutputLines(query: string, found: Option<Entry>, encode: string -> string): (lines: seq<string>)
    ensures |lines| == if found.Some? then 13 else 7
    ensures lines[0] == HeaderLine(query)
    ensures found.Some? ==> lines[1..7] == RecordLines(found.value)
    ensures lines[|lines| - 6..] == FooterLines(SearchUrl(query, encode))
  {
    var record := if found.Some? then RecordLines(found.value) else [];
    var lines := [HeaderLine(query)] + record + FooterLines(SearchUrl(query, encode));
    assert lines[|lines| - 6..] == FooterLines(SearchUrl(query, encode));
    lines
  }

  /** The report for `query` against directory `dir`. */
  function Report(query: string, dir: seq<Entry>, encode: string -> string): (out: string)
    ensures var h := HeaderLine(query) + "\n";
            |h| <= |out| && out[..|h|] == h
    ensures var f := "\n" + Join(FooterLines(SearchUrl(query, encode)), "\n");
            |f| <= |out| && out[|out| - |f|..] == f
  {
    var lines := OutputLines(query, Lookup(query, dir), encode);
    ReportShape(lines);
    Join(lines, "\n")
  }

  /** `lookup_medication(query)`: the report against the built-in table. */
  function LookupMedication(query: string, encode: string -> string): (out: string)
    ensures var h := HeaderLine(query) + "\n";
            |h| <= |out| && out[..|h|] == h
    ensures var f := "\n" + Join(FooterLines(SearchUrl(query, encode)), "\n");
            |f| <= |out| && out[|out| - |f|..] == f
  {
    Report(query, Table, encode)
  }

  /** Joined lines begin with the first line and end with the last six. */
  lemma ReportShape(lines: seq<string>)
    requires |lines| >= 7
    ensures var h := lines[0] + "\n";
            var out := Join(lines, "\n");
            |h| <= |out| && out[..|h|] == h
    ensures var f := "\n" + Join(lines[|lines| - 6..], "\n");
            var out := Join(lines, "\n");
            |f| <= |out| && out[|out| - |f|..] == f
  {
    var n := |lines|;
    var head, tail := lines[..n - 6], lines[n - 6..];
    assert lines == head + tail;
    JoinAppend(head, tail, "\n");
    var out := Join(lines, "\n");
    var f := "\n" + Join(tail, "\n");
    assert out == Join(head, "\n") + f;
    assert out[|out| - |f|..] == f;
    assert out == lines[0] + "\n" + Join(lines[1..], "\n");
    assert out[..|lines[0] + "\n"|] == lines[0] + "\n";
  }

  // ---------------------------------------------------------------------
  // the report as displayed

  /** A record line as shown on screen: the title line's own line feed
      shows as an extra empty line. */
  function ShownRecord(e: Entry): seq<string> {
    [ Heading(e), "",
      UseLabel + e.use, DosageLabel + e.dose, OtcTag + OtcLabel(e.otc),
      WarningsLabel + e.warnings, "" ]
  }

  /** The lines a reader sees: header, blank line, the record if any, then
      the footer. */
  function Screen(query: string, found: Option<Entry>, encode: string -> string): seq<string> {
    [HeaderPrefix + query, ""]
    + (if found.Some? then ShownRecord(found.value) else [])
    + FooterLines(SearchUrl(query, encode))
  }

  /** The shown record is the record block with the heading's line feed
      turned into an empty line. */
  lemma ShownRecordShape(e: Entry, ys: seq<string>)
    ensures ShownRecord(e) + ys == [Heading(e), ""] + (RecordLines(e)[1..] + ys)
  {
    var r := RecordLines(e);
    assert r[1..] == [r[1], r[2], r[3], r[4], r[5]];
    assert ShownRecord(e) == [Heading(e), ""] + r[1..];
  }

  lemma RecordLinesBreak(e: Entry, ys: seq<string>)
    requires |ys| > 0
    ensures Join(RecordLines(e) + ys, "\n") == Join([Heading(e), ""] + (RecordLines(e)[1..] + ys), "\n")
  {
    JoinHeadBreak(RecordLines(e), ys, Heading(e), "\n");
  }

  /** The record block's lines, once joined, are the shown record's. */
  lemma RecordIsShown(e: Entry, ys: seq<string>)
    requires |ys| > 0
    ensures Join(RecordLines(e) + ys, "\n") == Join(ShownRecord(e) + ys, "\n")
  {
    RecordLinesBreak(e, ys);
    ShownRecordShape(e, ys);
  }

  /** The report, once joined, is the screen joined. */
  lemma ReportIsScreen(query: string, found: Option<Entry>, encode: string -> string)
    ensures Join(OutputLines(query, found, encode), "\n") == Join(Screen(query, found, encode), "\n")
  {
    var footer := FooterLines(SearchUrl(query, encode));
    var hd := HeaderPrefix + query;
    var record := if found.Some? then RecordLines(found.value) else [];
    var shown := if found.Some? then ShownRecord(found.value) else [];
    assert OutputLines(query, found, encode) == [hd + "\n"] + (record + footer);
    assert Screen(query, found, encode) == [hd, ""] + (shown + footer);
    BreakIsEmptyLine(hd, record + footer, "\n");
    if found.Some? {
      RecordIsShown(found.value, footer);
      JoinAppend([hd, ""], record + footer, "\n");
      JoinAppend([hd, ""], shown + footer, "\n");
    }
  }

  /** No text of the record, once rendered, contains a line feed. */
  lemma ShownRecordSingleLine(e: Entry)
    requires SingleLine(e)
    ensures NoneContain(ShownRecord(e), '\n')
  {
    TitleAvoids(e.name, '\n');
    JoinAvoids(e.brands, ", ", '\n');
  }

  lemma DisclaimerSingleLine()
    ensures '\n' !in Disclaimer
  {
    assert '\n' !in "*This is informational only. ";
    assert '\n' !in "Always consult healthcare ";
    assert '\n' !in "professionals ";
    assert '\n' !in "for medical advice.*";
  }

  /** The fixed texts of the footer are single lines. */
  lemma FooterSingleLine(url: string)
    requires '\n' !in url
    ensures NoneContain(FooterLines(url), '\n')
  {
    DisclaimerSingleLine();
    assert '\n' !in Sources;
    assert '\n' !in LinkMarker + url;
    assert '\n' !in FassHeading;
  }

  /** No line of the screen contains a line feed. */
  lemma ScreenSingleLine(query: string, found: Option<Entry>, encode: string -> string)
    requires '\n' !in query && '\n' !in encode(query)
    requires found.Some? ==> SingleLine(found.value)
    ensures NoneContain(Screen(query, found, encode), '\n')
  {
    var url := SearchUrl(query, encode);
    assert '\n' !in url;
    FooterSingleLine(url);
    var head := [HeaderPrefix + query, ""] + (if found.Some? then ShownRecord(found.value) else []);
    if found.Some? {
      ShownRecordSingleLine(found.value);
    }
    assert '\n' !in HeaderPrefix + query;
    assert NoneContain(head, '\n');
    assert Screen(query, found, encode) == head + FooterLines(url);
  }

  /** Reading the report back line by line gives exactly the screen, as
      long as neither the query, its encoding nor the record contains a
      line feed. */
  lemma DisplayedLines(query: string, dir: seq<Entry>, encode: string -> string)
    requires '\n' !in query && '\n' !in encode(query)
    requires forall i :: 0 <= i < |dir| ==> SingleLine(dir[i])
    ensures Split(Report(query, dir, encode), '\n') == Screen(query, Lookup(query, dir), encode)
  {
    var found := Lookup(query, dir);
    ReportIsScreen(query, found, encode);
    ScreenSingleLine(query, found, encode);
    SplitJoin(Screen(query, found, encode), '\n');
  }
}
