/**
 * Facts about the reports `lookup_medication` prints for the built-in
 * table: the record block a name or brand query shows, the capitalised
 * title, the bare report of an unknown query, and the OTC qualifier of
 * omeprazol.
 */
module ReportFacts {
  import opened Wrappers
  import opened Text
  import opened Directory
  import opened Matcher
  import opened Formatter
  import opened TableFacts

  /** Every canonical name of the table is one lower-case word, so its
      title only capitalises the first letter. */
  lemma TableNamesTitled(i: nat)
    requires i < |Table|
    ensures Title(Table[i].name) == [UpperChar(Table[i].name[0])] + Table[i].name[1..]
    ensures IsUpperAscii(Title(Table[i].name)[0])
  {
    TableWellFormed();
    var s := Table[i].name;
    assert WellFormedEntry(Table[i]);
    forall k | 0 <= k < |s|
      ensures IsLowerAscii(s[k])
    {
      assert s[k] in s;
    }
    TitleOfLowerWord(s);
  }

  /** A query that is some casing of a canonical name, padded with
      whitespace, prints that entry's record block after the header. */
  lemma NameQueryReport(i: nat, pre: string, x: string, post: string, encode: string -> string)
    requires i < |Table|
    requires AllSpace(pre) && AllSpace(post)
    requires Lower(x) == Table[i].name
    ensures var lines := OutputLines(pre + x + post, Lookup(pre + x + post, Table), encode);
            |lines| == 13 && lines[1..7] == RecordLines(Table[i])
  {
    CanonicalLookup(i, pre, x, post);
  }

  /** The same for a casing of one of the brands. */
  lemma BrandQueryReport(i: nat, k: nat, pre: string, x: string, post: string, encode: string -> string)
    requires i < |Table| && k < |Table[i].brands|
    requires AllSpace(pre) && AllSpace(post)
    requires Lower(x) == Lower(Table[i].brands[k])
    ensures var lines := OutputLines(pre + x + post, Lookup(pre + x + post, Table), encode);
            |lines| == 13 && lines[1..7] == RecordLines(Table[i])
  {
    BrandLookup(i, k, pre, x, post);
  }

  /** A query nothing hits prints only the header and the footer. */
  lemma UnknownQueryReport(encode: string -> string)
    ensures var lines := OutputLines("aspirin", Lookup("aspirin", Table), encode);
            |lines| == 7 && lines[1..] == FooterLines(SearchUrl("aspirin", encode))
  {
    UnknownMedicationExample();
  }

  /** Omeprazol's OTC status is a qualifier, printed as it stands. */
  lemma OmeprazolOtcLine(encode: string -> string)
    ensures var lines := OutputLines("omeprazol", Lookup("omeprazol", Table), encode);
            |lines| == 13
            && AfterPrefix(lines[4], OtcTag) == Some("Low dose OTC, higher doses Rx")
  {
    TableWellFormed();
    assert WellFormedEntry(Table[2]);
    forall k | 0 <= k < |Table[2].name|
      ensures !IsUpperAscii(Table[2].name[k])
    {
      assert Table[2].name[k] in Table[2].name;
    }
    LowerOfNoUpper(Table[2].name);
    NameQueryReport(2, "", Table[2].name, "", encode);
    assert "" + Table[2].name + "" == "omeprazol";
  }
}
