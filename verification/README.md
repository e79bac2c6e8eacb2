# Swedish medication lookup — a verified model

This project models the medication lookup script of the `swedish-medications`
skill (`skills/swedish-medications/scripts/fass_lookup.py`). The model has
four parts:

- **Directory.** A fixed, ordered table of eight common Swedish medications.
  Each record holds:
  - a lower-case canonical name;
  - a list of brand names;
  - use, dose and warnings texts;
  - an over-the-counter status that is yes, no, or a free-text qualifier.
- **Matcher** (`lookup_medication`).
  - The raw query is lower-cased, then stripped.
  - The table is scanned in order. The first entry wins if the query:
    - equals its canonical name;
    - equals one of its brands, lower-cased; or
    - occurs inside its canonical name.
- **URL builder** (`search_fass_web`). Returns the FASS search endpoint
  followed by the percent-encoded raw query. Nothing is fetched.
- **Formatter.** Builds the report as a list of lines joined with line
  feeds:
  - a header that repeats the raw query;
  - the matched record, if there is one;
  - the FASS link block, a disclaimer and the sources line.

Modules:

| file | module | contents |
|---|---|---|
| `wrappers.dfy` | `Wrappers` | `Option` |
| `text.dfy` | `Text` | ASCII models of `str.lower`, `str.strip`, `str.title`, the substring test `p in s`, `sep.join`, and splitting text at a character (which reads printed output back as lines) |
| `directory.dfy` | `Directory` | the record type and the eight-entry `Table` |
| `matcher.dfy` | `Matcher` | normalisation, the hit test, the first-hit scan, `Lookup` |
| `formatter.dfy` | `Formatter` | the search URL, the OTC cell, the record, header and footer lines, the report, and the report read back as screen lines |
| `table_facts.dfy` | `TableFacts` | matcher properties proved for the concrete table |
| `report_facts.dfy` | `ReportFacts` | report properties for the concrete table |

Percent-encoding (`urllib.parse.quote`) is a parameter `encode: string -> string`.
Where a property needs to decode, a second parameter `decode` is assumed to
undo `encode` on the query at hand.

Two points about the order of operations in the code:

- **Order of normalisation.** The code lower-cases the query first and then
  strips it (line 92). On ASCII the order makes no difference
  (`Matcher.NormalizeStripFirst`).
- **Order of the table.** The scan stops at the first hit, so the order of
  the table decides the result whenever a query hits several entries. For
  example, `"in"` occurs in the last five names and finds sertralin
  (`TableFacts.FirstMatchWinsExample`).

A consequence of the code as written: an empty or blank query normalises to
`""`. The empty string occurs in every name, so such a query reports the
first entry, paracetamol (`Matcher.BlankQueryMatchesFirst`).

## Model

| member | source | states |
|---|---|---|
| Text.Lower | skills/swedish-medications/scripts/fass_lookup.py:92 | lower-casing keeps the length, leaves no upper-case letter, keeps every other character and maps each upper-case letter to its lower-case partner |
| Text.IsLowerOfIff | skills/swedish-medications/scripts/fass_lookup.py:101 | the character-wise brand comparison holds exactly when the query equals the brand lower-cased |
| Text.Strip | skills/swedish-medications/scripts/fass_lookup.py:92 | the stripped text has no surrounding whitespace and is a slice of the input with only whitespace cut off either side |
| Text.StripOfPadded | skills/swedish-medications/scripts/fass_lookup.py:92 | stripping whitespace-padded trimmed text gives back exactly that text |
| Text.StripLowerCommute | skills/swedish-medications/scripts/fass_lookup.py:92 | stripping and lower-casing commute, because lower-casing maps whitespace to whitespace and text to text |
| Text.Title | skills/swedish-medications/scripts/fass_lookup.py:110 | title casing keeps length, case-insensitive content and non-letters; it upper-cases the letters that start a word and lower-cases the others |
| Text.TitleOfLowerWord | skills/swedish-medications/scripts/fass_lookup.py:110 | a single lower-case word is title-cased by capitalising its first letter only |
| Text.ContainsIff | skills/swedish-medications/scripts/fass_lookup.py:104 | the substring test holds exactly when the pattern occurs at some position of the text |
| Text.JoinAppend | skills/swedish-medications/scripts/fass_lookup.py:126 | joining a concatenation of two non-empty lists puts exactly one separator between the two joins |
| Text.SplitJoin | skills/swedish-medications/scripts/fass_lookup.py:126 | splitting a joined list of line-feed-free lines at line feeds gives back the list |
| Text.JoinSplit | skills/swedish-medications/scripts/fass_lookup.py:126 | joining the pieces of a split gives back the text |
| Text.AfterPrefixIff | skills/swedish-medications/scripts/fass_lookup.py:21 | reading a prefix off a text yields `v` exactly when the text is the prefix followed by `v` |
| Matcher.Normalize | skills/swedish-medications/scripts/fass_lookup.py:92 | the normalised query has no upper-case letter and no surrounding whitespace, and is the lower-cased query with only whitespace cut off either side |
| Matcher.NormalizeStripFirst | skills/swedish-medications/scripts/fass_lookup.py:92 | lower-casing and then stripping gives the same key as stripping and then lower-casing |
| Matcher.NormalizePadded | skills/swedish-medications/scripts/fass_lookup.py:92 | any casing of a trimmed text, padded with whitespace, normalises to that text lower-cased |
| Matcher.HitsIff | skills/swedish-medications/scripts/fass_lookup.py:101-106 | an entry is hit exactly when the query equals its name, is in its list of lower-cased brands, or occurs somewhere in its name |
| Matcher.NameRuleSubsumed | skills/swedish-medications/scripts/fass_lookup.py:101-104 | the equal-name rule adds nothing to the substring rule |
| Matcher.FindFrom | skills/swedish-medications/scripts/fass_lookup.py:100-106 | the scan from a position returns a hit entry with no hit between that position and it, or none when nothing from that position on is hit |
| Matcher.FirstHit | skills/swedish-medications/scripts/fass_lookup.py:99-106 | the scan returns the first hit entry of the table, or none when no entry is hit |
| Matcher.Lookup | skills/swedish-medications/scripts/fass_lookup.py:92-106 | the lookup finds nothing exactly when no entry is hit by the normalised query, and otherwise returns the earliest entry that is hit |
| Matcher.BlankQueryMatchesFirst | skills/swedish-medications/scripts/fass_lookup.py:92-106 | an empty or whitespace-only query finds the first entry of any non-empty table |
| TableFacts.TableWellFormed | skills/swedish-medications/scripts/fass_lookup.py:29-88 | the table has eight entries with distinct single-word lower-case names and at least one brand each |
| TableFacts.OwnNameFound | skills/swedish-medications/scripts/fass_lookup.py:31-106 | every canonical name of the table stops the scan at its own entry |
| TableFacts.OwnBrandFound | skills/swedish-medications/scripts/fass_lookup.py:31-106 | every brand of the table, lower-cased, stops the scan at the entry that lists it |
| TableFacts.CanonicalLookup | skills/swedish-medications/scripts/fass_lookup.py:92-106 | any casing of a canonical name, with any surrounding whitespace, finds that name's entry |
| TableFacts.BrandLookup | skills/swedish-medications/scripts/fass_lookup.py:92-106 | any casing of a brand, with any surrounding whitespace, finds the entry that lists the brand |
| TableFacts.PanodilExample | skills/swedish-medications/scripts/fass_lookup.py:33 | the query "Panodil" finds paracetamol |
| TableFacts.ZoloftExample | skills/swedish-medications/scripts/fass_lookup.py:54 | the query "Zoloft" finds sertralin |
| TableFacts.NameSubstringExample | skills/swedish-medications/scripts/fass_lookup.py:104-106 | the query "para", a fragment of a canonical name, finds paracetamol |
| TableFacts.BrandFragmentAlvedExample | skills/swedish-medications/scripts/fass_lookup.py:101-106 | "alved" is a fragment of the brand Alvedon, yet the query finds nothing, because brands are not searched for substrings |
| TableFacts.BrandFragmentPamExample | skills/swedish-medications/scripts/fass_lookup.py:101-106 | "pam" is a fragment of the brand Pamol, yet the query finds nothing |
| TableFacts.UnknownMedicationExample | skills/swedish-medications/scripts/fass_lookup.py:99-106 | the query "aspirin" finds nothing |
| TableFacts.InHitsLastFive | skills/swedish-medications/scripts/fass_lookup.py:104 | "in" occurs in each of the last five canonical names |
| TableFacts.FirstMatchWinsExample | skills/swedish-medications/scripts/fass_lookup.py:100-106 | of the five entries "in" hits, the scan returns the earliest, sertralin |
| TableFacts.BlankExamples | skills/swedish-medications/scripts/fass_lookup.py:92-106 | the empty query and a query of spaces both find paracetamol |
| Formatter.SearchUrl | skills/swedish-medications/scripts/fass_lookup.py:20-21 | the URL is the search endpoint followed by the encoded query |
| Formatter.SearchFassWeb | skills/swedish-medications/scripts/fass_lookup.py:18-27 | the result carries the raw query, the fixed note, and a URL made of the endpoint and the encoded query |
| Formatter.SearchUrlRoundTrip | skills/swedish-medications/scripts/fass_lookup.py:20-21 | reading the endpoint off the URL and decoding the rest gives back the raw query |
| Formatter.SearchUrlInjective | skills/swedish-medications/scripts/fass_lookup.py:20-21 | when decoding undoes encoding, two queries have the same URL exactly when they are equal |
| Formatter.OtcLabel | skills/swedish-medications/scripts/fass_lookup.py:113 | a qualifier is shown verbatim; otherwise the cell is "Yes (receptfritt)" exactly for yes and "No (receptbelagt)" exactly for no |
| Formatter.OtcRoundTrip | skills/swedish-medications/scripts/fass_lookup.py:113 | the OTC status can be read back from its cell unless a qualifier is spelled like one of the two fixed labels |
| Formatter.OtcLabelInjective | skills/swedish-medications/scripts/fass_lookup.py:113 | for such statuses, two cells are equal exactly when the statuses are |
| Formatter.Heading | skills/swedish-medications/scripts/fass_lookup.py:110 | after "### " the heading holds the title-cased name, then the brands joined with ", " in parentheses |
| Formatter.TitleLine | skills/swedish-medications/scripts/fass_lookup.py:110 | the record's first list item is the heading followed by its own line feed |
| Formatter.RecordLines | skills/swedish-medications/scripts/fass_lookup.py:110-115 | the record block has six lines, the last empty; line one is "### ", the title-cased name and the comma-joined brands in parentheses, with a line feed; the use, dosage, OTC and warnings values follow their labels verbatim on lines two to five |
| Formatter.HeaderLine | skills/swedish-medications/scripts/fass_lookup.py:96 | after the fixed header prefix the line holds the raw query, unnormalised, and a line feed |
| Formatter.FooterLines | skills/swedish-medications/scripts/fass_lookup.py:117-124 | the footer has six lines, and the URL follows the link marker on the second |
| Formatter.OutputLines | skills/swedish-medications/scripts/fass_lookup.py:95-124 | the list starts with the header line of the raw query; it has the record block in lines two to seven exactly when an entry was found (13 lines, else 7); it always ends with the footer of the raw query's URL |
| Formatter.ReportShape | skills/swedish-medications/scripts/fass_lookup.py:126 | a joined list of at least seven lines starts with the first line and a line feed, and ends with a line feed and the last six lines joined |
| Formatter.Report | skills/swedish-medications/scripts/fass_lookup.py:90-126 | every report starts with the header of the raw query and an empty line, and ends with the footer, whether or not anything matched |
| Formatter.LookupMedication | skills/swedish-medications/scripts/fass_lookup.py:90-126 | the report for the built-in table starts with the header of the raw query and an empty line, and ends with the footer of the raw query's URL |
| Formatter.ReportIsScreen | skills/swedish-medications/scripts/fass_lookup.py:95-126 | the joined report equals the joined screen lines, where the header's and the record title's trailing line feeds become empty lines |
| Formatter.FooterSingleLine | skills/swedish-medications/scripts/fass_lookup.py:119-124 | no footer line contains a line feed when the URL contains none |
| Formatter.DisplayedLines | skills/swedish-medications/scripts/fass_lookup.py:95-126 | splitting the report at line feeds gives exactly the screen: header, empty line, the record block if found, the footer (query, encoding and records free of line feeds) |
| ReportFacts.TableNamesTitled | skills/swedish-medications/scripts/fass_lookup.py:110 | every canonical name of the table title-cases to its first letter capitalised, and that letter is upper case |
| ReportFacts.NameQueryReport | skills/swedish-medications/scripts/fass_lookup.py:92-115 | a query that is a casing of a canonical name, padded with whitespace, prints that entry's record block after the header |
| ReportFacts.BrandQueryReport | skills/swedish-medications/scripts/fass_lookup.py:92-115 | a query that is a casing of a brand, padded with whitespace, prints the owning entry's record block |
| ReportFacts.UnknownQueryReport | skills/swedish-medications/scripts/fass_lookup.py:108-124 | the report for "aspirin" is the header followed directly by the footer |
| ReportFacts.OmeprazolOtcLine | skills/swedish-medications/scripts/fass_lookup.py:113 | the report for "omeprazol" shows the OTC qualifier "Low dose OTC, higher doses Rx" verbatim |

## Left out

- The command-line entry point (lines 128-136) is left out: joining `sys.argv`, the usage message, `print` and `sys.exit(1)` are process I/O.
- `urllib.parse.quote` (line 20) is a library call. It is the parameter `encode`, and its safe-character set is not modelled.
- Queries containing surrogate code points are outside the model. `quote` raises `UnicodeEncodeError` on a lone surrogate, which `sys.argv` can carry, while `encode` is total and a Dafny `char` cannot hold a surrogate.
- The imports `json`, `urllib.request` and `re` are unused by the script. No network request is made anywhere, so none is modelled.
- Text.Lower: models ASCII lower-casing only. Python's `str.lower` also lower-cases non-ASCII letters such as `Å`, `Ä` and `Ö`; the model keeps them unchanged.
- Text.Strip: strips ASCII whitespace only, meaning tab, line feed, vertical tab, form feed, carriage return, 0x1C-0x1F and space. Python's `str.strip` also removes Unicode spaces such as U+00A0 and U+2028.
- Text.Title: treats only ASCII letters as cased. Python's `str.title` also treats non-ASCII letters as cased, both for case mapping and for word boundaries. All eight table names are ASCII.
- Directory: Python's dictionary iteration order is insertion order, so the table is a sequence in that order. The `otc` field holds `True`, `False` or a string in the table, so a three-way datatype covers it. The Python comparison `== True` would also accept `1`, which no entry holds.
- Formatter.DisplayedLines: requires that the query, its encoding and the records contain no line feed. With a line feed, the printed report shows more lines than the list holds. The concrete table meets the requirement, but that is not proved here.
