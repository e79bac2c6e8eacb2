/**
 * The medication directory: a fixed, ordered table of eight common Swedish
 * medications, keyed by a lower-case canonical (generic) name.
 */
module Directory {
  import opened Text

  /** Over-the-counter status: the script stores `True`, `False`, or a
      free-text qualifier for mixed cases. */
  datatype Otc = Yes | No | Qualified(note: string)

  /** One record of the directory. */
  datatype Entry = Entry(
    name: string,
    brands: seq<string>,
    use: string,
    dose: string,
    otc: Otc,
    warnings: string)

  /** The built-in table, in the insertion order the lookup scans it in. */
  const Table: seq<Entry> := [
    Paracetamol, Ibuprofen, Omeprazol, Sertralin,
    Metformin, Atorvastatin, Loratadin, Cetirizin
  ]

  const Paracetamol: Entry :=
    Entry(
      "paracetamol", ["Alvedon", "Panodil", "Pamol"],
      "Pain relief, fever reduction",
      "Adult: 500-1000mg every 4-6h, max 4g/day",
      Yes,
      "Avoid with liver disease, limit alcohol")

  const Ibuprofen: Entry :=
    Entry(
      "ibuprofen", ["Ipren", "Ibumetin", "Brufen"],
      "Pain, inflammation, fever",
      "Adult: 200-400mg every 4-6h, max 1200mg/day (OTC)",
      Yes,
      "Take with food, avoid if stomach ulcers or kidney issues")

  const Omeprazol: Entry :=
    Entry(
      "omeprazol", ["Losec", "Omeprazol"],
      "Acid reflux, stomach ulcers, GERD",
      "Adult: 20mg once daily",
      Qualified("Low dose OTC, higher doses Rx"),
      "Long-term use may affect B12/magnesium")

  const Sertralin: Entry :=
    Entry(
      "sertralin", ["Zoloft", "Sertralin"],
      "Depression, anxiety, OCD, PTSD",
      "Adult: Start 50mg/day, may increase",
      No,
      "Takes 2-4 weeks for effect, do not stop abruptly")

  const Metformin: Entry :=
    Entry(
      "metformin", ["Metformin", "Glucophage"],
      "Type 2 diabetes",
      "Adult: Start 500mg 1-2x/day with food",
      No,
      "Monitor kidney function, stop before contrast imaging")

  const Atorvastatin: Entry :=
    Entry(
      "atorvastatin", ["Lipitor", "Atorvastatin"],
      "High cholesterol, cardiovascular prevention",
      "Adult: 10-80mg once daily",
      No,
      "Report muscle pain, avoid grapefruit")

  const Loratadin: Entry :=
    Entry(
      "loratadin", ["Clarityn", "Loratadin"],
      "Allergies, hay fever, hives",
      "Adult: 10mg once daily",
      Yes,
      "Non-drowsy antihistamine")

  const Cetirizin: Entry :=
    Entry(
      "cetirizin", ["Zyrtec", "Cetirizin"],
      "Allergies, hay fever, hives",
      "Adult: 10mg once daily",
      Yes,
      "May cause slight drowsiness")

  /** A canonical name is a single non-empty word of lower-case letters. */
  predicate IsLowerWord(s: string) {
    |s| > 0 && forall c :: c in s ==> IsLowerAscii(c)
  }

  /** Canonical names are distinct keys. */
  predicate DistinctNames(dir: seq<Entry>) {
    forall i, j :: 0 <= i < j < |dir| ==> dir[i].name != dir[j].name
  }

  /** No text of the entry contains a line break. */
  predicate SingleLine(e: Entry) {
    && '\n' !in e.name
    && NoneContain(e.brands, '\n')
    && '\n' !in e.use
    && '\n' !in e.dose
    && (e.otc.Qualified? ==> '\n' !in e.otc.note)
    && '\n' !in e.warnings
  }

  /** The shape every record of the directory has. */
  predicate WellFormedEntry(e: Entry) {
    IsLowerWord(e.name) && |e.brands| > 0
  }

  predicate WellFormed(dir: seq<Entry>) {
    DistinctNames(dir) && forall i :: 0 <= i < |dir| ==> WellFormedEntry(dir[i])
  }
}
