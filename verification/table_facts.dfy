/**
 * Properties of the matcher proved for the built-in eight-entry
 * table: every canonical name and every brand finds its own entry, whatever
 * its case and surrounding whitespace; substrings reach canonical names but
 * not brands; a blank query lands on the first entry.
 */
module TableFacts {
  import opened Wrappers
  import opened Text
  import opened Directory
  import opened Matcher

  lemma NamesLower01()
    ensures IsLowerWord(Table[0].name) && IsLowerWord(Table[1].name)
  {
  }

  lemma NamesLower23()
    ensures IsLowerWord(Table[2].name) && IsLowerWord(Table[3].name)
  {
  }

  lemma NamesLower45()
    ensures IsLowerWord(Table[4].name) && IsLowerWord(Table[5].name)
  {
  }

  lemma NamesLower67()
    ensures IsLowerWord(Table[6].name) && IsLowerWord(Table[7].name)
  {
  }

  lemma NamesDistinct()
    ensures DistinctNames(Table)
  {
  }

  /** The built-in table has eight records, each with at least one brand and
      a distinct lower-case single-word name. */
  lemma TableWellFormed()
    ensures |Table| == 8
    ensures WellFormed(Table)
  {
    NamesDistinct();
    NamesLower01();
    NamesLower23();
    NamesLower45();
    NamesLower67();
  }

  // ---------------------------------------------------------------------
  // Each lower-case key of the table, looked up on its own, stops the scan
  // at its owner: no earlier entry is hit by it.

  lemma FindsParacetamol(q: string)
    requires q == "paracetamol"
    ensures FirstHit(q, Table) == Some(0)
  {
    assert Hits("paracetamol", Table[0]);
  }

  lemma FindsAlvedon(q: string)
    requires q == "alvedon"
    ensures FirstHit(q, Table) == Some(0)
  {
    assert Hits("alvedon", Table[0]);
  }

  lemma FindsPanodil(q: string)
    requires q == "panodil"
    ensures FirstHit(q, Table) == Some(0)
  {
    assert Hits("panodil", Table[0]);
  }

  lemma FindsPamol(q: string)
    requires q == "pamol"
    ensures FirstHit(q, Table) == Some(0)
  {
    assert Hits("pamol", Table[0]);
  }

  lemma FindsIbuprofen(q: string)
    requires q == "ibuprofen"
    ensures FirstHit(q, Table) == Some(1)
  {
    assert !Hits("ibuprofen", Table[0]);
    assert Hits("ibuprofen", Table[1]);
  }

  lemma FindsIpren(q: string)
    requires q == "ipren"
    ensures FirstHit(q, Table) == Some(1)
  {
    assert !ContainsFrom("paracetamol", "ipren", 5);
    assert !Hits("ipren", Table[0]);
    assert Hits("ipren", Table[1]);
  }

  lemma FindsIbumetin(q: string)
    requires q == "ibumetin"
    ensures FirstHit(q, Table) == Some(1)
  {
    assert !Hits("ibumetin", Table[0]);
    assert Hits("ibumetin", Table[1]);
  }

  lemma FindsBrufen(q: string)
    requires q == "brufen"
    ensures FirstHit(q, Table) == Some(1)
  {
    assert !Hits("brufen", Table[0]);
    assert Hits("brufen", Table[1]);
  }

  lemma OmeprazolSkips0To2(q: string)
    requires q == "omeprazol"
    ensures FindFrom(q, Table, 0) == FindFrom(q, Table, 2)
  {
    assert !Hits("omeprazol", Table[0]);
    assert !Hits("omeprazol", Table[1]);
  }

  lemma OmeprazolStops2(q: string)
    requires q == "omeprazol"
    ensures FindFrom(q, Table, 2) == Some(2)
  {
    assert Hits("omeprazol", Table[2]);
  }

  lemma FindsOmeprazol(q: string)
    requires q == "omeprazol"
    ensures FirstHit(q, Table) == Some(2)
  {
    OmeprazolSkips0To2(q);
    OmeprazolStops2(q);
  }

  lemma LosecSkips0To2(q: string)
    requires q == "losec"
    ensures FindFrom(q, Table, 0) == FindFrom(q, Table, 2)
  {
    assert !ContainsFrom("paracetamol", "losec", 5);
    assert !Hits("losec", Table[0]);
    assert !Hits("losec", Table[1]);
  }

  lemma LosecStops2(q: string)
    requires q == "losec"
    ensures FindFrom(q, Table, 2) == Some(2)
  {
    assert Hits("losec", Table[2]);
  }

  lemma FindsLosec(q: string)
    requires q == "losec"
    ensures FirstHit(q, Table) == Some(2)
  {
    LosecSkips0To2(q);
    LosecStops2(q);
  }

  lemma SertralinSkips0To2(q: string)
    requires q == "sertralin"
    ensures FindFrom(q, Table, 0) == FindFrom(q, Table, 2)
  {
    assert !Hits("sertralin", Table[0]);
    assert !Hits("sertralin", Table[1]);
  }

  lemma SertralinSkips2To3(q: string)
    requires q == "sertralin"
    ensures FindFrom(q, Table, 2) == FindFrom(q, Table, 3)
  {
    assert !Hits("sertralin", Table[2]);
  }

  lemma SertralinStops3(q: string)
    requires q == "sertralin"
    ensures FindFrom(q, Table, 3) == Some(3)
  {
    assert Hits("sertralin", Table[3]);
  }

  lemma FindsSertralin(q: string)
    requires q == "sertralin"
    ensures FirstHit(q, Table) == Some(3)
  {
    SertralinSkips0To2(q);
    SertralinSkips2To3(q);
    SertralinStops3(q);
  }

  lemma ZoloftSkips0To2(q: string)
    requires q == "zoloft"
    ensures FindFrom(q, Table, 0) == FindFrom(q, Table, 2)
  {
    assert !Hits("zoloft", Table[0]);
    assert !Hits("zoloft", Table[1]);
  }

  lemma ZoloftSkips2To3(q: string)
    requires q == "zoloft"
    ensures FindFrom(q, Table, 2) == FindFrom(q, Table, 3)
  {
    assert !Hits("zoloft", Table[2]);
  }

  lemma ZoloftStops3(q: string)
    requires q == "zoloft"
    ensures FindFrom(q, Table, 3) == Some(3)
  {
    assert Hits("zoloft", Table[3]);
  }

  lemma FindsZoloft(q: string)
    requires q == "zoloft"
    ensures FirstHit(q, Table) == Some(3)
  {
    ZoloftSkips0To2(q);
    ZoloftSkips2To3(q);
    ZoloftStops3(q);
  }

  lemma MetforminSkips0To2(q: string)
    requires q == "metformin"
    ensures FindFrom(q, Table, 0) == FindFrom(q, Table, 2)
  {
    assert !Hits("metformin", Table[0]);
    assert !Hits("metformin", Table[1]);
  }

  lemma MetforminSkips2To4(q: string)
    requires q == "metformin"
    ensures FindFrom(q, Table, 2) == FindFrom(q, Table, 4)
  {
    assert !Hits("metformin", Table[2]);
    assert !Hits("metformin", Table[3]);
  }

  lemma MetforminStops4(q: string)
    requires q == "metformin"
    ensures FindFrom(q, Table, 4) == Some(4)
  {
    assert Hits("metformin", Table[4]);
  }

  lemma FindsMetformin(q: string)
    requires q == "metformin"
    ensures FirstHit(q, Table) == Some(4)
  {
    MetforminSkips0To2(q);
    MetforminSkips2To4(q);
    MetforminStops4(q);
  }

  lemma GlucophageSkips0To2(q: string)
    requires q == "glucophage"
    ensures FindFrom(q, Table, 0) == FindFrom(q, Table, 2)
  {
    assert !Hits("glucophage", Table[0]);
    assert !Hits("glucophage", Table[1]);
  }

  lemma GlucophageSkips2To4(q: string)
    requires q == "glucophage"
    ensures FindFrom(q, Table, 2) == FindFrom(q, Table, 4)
  {
    assert !Hits("glucophage", Table[2]);
    assert !Hits("glucophage", Table[3]);
  }

  lemma GlucophageStops4(q: string)
    requires q == "glucophage"
    ensures FindFrom(q, Table, 4) == Some(4)
  {
    assert Hits("glucophage", Table[4]);
  }

  lemma FindsGlucophage(q: string)
    requires q == "glucophage"
    ensures FirstHit(q, Table) == Some(4)
  {
    GlucophageSkips0To2(q);
    GlucophageSkips2To4(q);
    GlucophageStops4(q);
  }

  lemma AtorvastatinSkips0To2(q: string)
    requires q == "atorvastatin"
    ensures FindFrom(q, Table, 0) == FindFrom(q, Table, 2)
  {
    assert !Hits("atorvastatin", Table[0]);
    assert !Hits("atorvastatin", Table[1]);
  }

  lemma AtorvastatinSkips2To4(q: string)
    requires q == "atorvastatin"
    ensures FindFrom(q, Table, 2) == FindFrom(q, Table, 4)
  {
    assert !Hits("atorvastatin", Table[2]);
    assert !Hits("atorvastatin", Table[3]);
  }

  lemma AtorvastatinSkips4To5(q: string)
    requires q == "atorvastatin"
    ensures FindFrom(q, Table, 4) == FindFrom(q, Table, 5)
  {
    assert !Hits("atorvastatin", Table[4]);
  }

  lemma AtorvastatinStops5(q: string)
    requires q == "atorvastatin"
    ensures FindFrom(q, Table, 5) == Some(5)
  {
    assert Hits("atorvastatin", Table[5]);
  }

  lemma FindsAtorvastatin(q: string)
    requires q == "atorvastatin"
    ensures FirstHit(q, Table) == Some(5)
  {
    AtorvastatinSkips0To2(q);
    AtorvastatinSkips2To4(q);
    AtorvastatinSkips4To5(q);
    AtorvastatinStops5(q);
  }

  lemma LipitorSkips0To2(q: string)
    requires q == "lipitor"
    ensures FindFrom(q, Table, 0) == FindFrom(q, Table, 2)
  {
    assert !Hits("lipitor", Table[0]);
    assert !Hits("lipitor", Table[1]);
  }

  lemma LipitorSkips2To4(q: string)
    requires q == "lipitor"
    ensures FindFrom(q, Table, 2) == FindFrom(q, Table, 4)
  {
    assert !Hits("lipitor", Table[2]);
    assert !Hits("lipitor", Table[3]);
  }

  lemma LipitorSkips4To5(q: string)
    requires q == "lipitor"
    ensures FindFrom(q, Table, 4) == FindFrom(q, Table, 5)
  {
    assert !Hits("lipitor", Table[4]);
  }

  lemma LipitorStops5(q: string)
    requires q == "lipitor"
    ensures FindFrom(q, Table, 5) == Some(5)
  {
    assert Hits("lipitor", Table[5]);
  }

  lemma FindsLipitor(q: string)
    requires q == "lipitor"
    ensures FirstHit(q, Table) == Some(5)
  {
    LipitorSkips0To2(q);
    LipitorSkips2To4(q);
    LipitorSkips4To5(q);
    LipitorStops5(q);
  }

  lemma LoratadinSkips0To2(q: string)
    requires q == "loratadin"
    ensures FindFrom(q, Table, 0) == FindFrom(q, Table, 2)
  {
    assert !Hits("loratadin", Table[0]);
    assert !Hits("loratadin", Table[1]);
  }

  lemma LoratadinSkips2To4(q: string)
    requires q == "loratadin"
    ensures FindFrom(q, Table, 2) == FindFrom(q, Table, 4)
  {
    assert !Hits("loratadin", Table[2]);
    assert !Hits("loratadin", Table[3]);
  }

  lemma LoratadinSkips4To6(q: string)
    requires q == "loratadin"
    ensures FindFrom(q, Table, 4) == FindFrom(q, Table, 6)
  {
    assert !Hits("loratadin", Table[4]);
    assert !Hits("loratadin", Table[5]);
  }

  lemma LoratadinStops6(q: string)
    requires q == "loratadin"
    ensures FindFrom(q, Table, 6) == Some(6)
  {
    assert Hits("loratadin", Table[6]);
  }

  lemma FindsLoratadin(q: string)
    requires q == "loratadin"
    ensures FirstHit(q, Table) == Some(6)
  {
    LoratadinSkips0To2(q);
    LoratadinSkips2To4(q);
    LoratadinSkips4To6(q);
    LoratadinStops6(q);
  }

  lemma ClaritynSkips0To2(q: string)
    requires q == "clarityn"
    ensures FindFrom(q, Table, 0) == FindFrom(q, Table, 2)
  {
    assert !Hits("clarityn", Table[0]);
    assert !Hits("clarityn", Table[1]);
  }

  lemma ClaritynSkips2To4(q: string)
    requires q == "clarityn"
    ensures FindFrom(q, Table, 2) == FindFrom(q, Table, 4)
  {
    assert !Hits("clarityn", Table[2]);
    assert !Hits("clarityn", Table[3]);
  }

  lemma ClaritynSkips4To6(q: string)
    requires q == "clarityn"
    ensures FindFrom(q, Table, 4) == FindFrom(q, Table, 6)
  {
    assert !Hits("clarityn", Table[4]);
    assert !Hits("clarityn", Table[5]);
  }

  lemma ClaritynStops6(q: string)
    requires q == "clarityn"
    ensures FindFrom(q, Table, 6) == Some(6)
  {
    assert Hits("clarityn", Table[6]);
  }

  lemma FindsClarityn(q: string)
    requires q == "clarityn"
    ensures FirstHit(q, Table) == Some(6)
  {
    ClaritynSkips0To2(q);
    ClaritynSkips2To4(q);
    ClaritynSkips4To6(q);
    ClaritynStops6(q);
  }

  lemma CetirizinSkips0To2(q: string)
    requires q == "cetirizin"
    ensures FindFrom(q, Table, 0) == FindFrom(q, Table, 2)
  {
    assert !Hits("cetirizin", Table[0]);
    assert !Hits("cetirizin", Table[1]);
  }

  lemma CetirizinSkips2To4(q: string)
    requires q == "cetirizin"
    ensures FindFrom(q, Table, 2) == FindFrom(q, Table, 4)
  {
    assert !Hits("cetirizin", Table[2]);
    assert !Hits("cetirizin", Table[3]);
  }

  lemma CetirizinSkips4To6(q: string)
    requires q == "cetirizin"
    ensures FindFrom(q, Table, 4) == FindFrom(q, Table, 6)
  {
    assert !Hits("cetirizin", Table[4]);
    assert !Hits("cetirizin", Table[5]);
  }

  lemma CetirizinSkips6To7(q: string)
    requires q == "cetirizin"
    ensures FindFrom(q, Table, 6) == FindFrom(q, Table, 7)
  {
    assert !Hits("cetirizin", Table[6]);
  }

  lemma CetirizinStops7(q: string)
    requires q == "cetirizin"
    ensures FindFrom(q, Table, 7) == Some(7)
  {
    assert Hits("cetirizin", Table[7]);
  }

  lemma FindsCetirizin(q: string)
    requires q == "cetirizin"
    ensures FirstHit(q, Table) == Some(7)
  {
    CetirizinSkips0To2(q);
    CetirizinSkips2To4(q);
    CetirizinSkips4To6(q);
    CetirizinSkips6To7(q);
    CetirizinStops7(q);
  }

  lemma ZyrtecSkips0To2(q: string)
    requires q == "zyrtec"
    ensures FindFrom(q, Table, 0) == FindFrom(q, Table, 2)
  {
    assert !Hits("zyrtec", Table[0]);
    assert !Hits("zyrtec", Table[1]);
  }

  lemma ZyrtecSkips2To4(q: string)
    requires q == "zyrtec"
    ensures FindFrom(q, Table, 2) == FindFrom(q, Table, 4)
  {
    assert !Hits("zyrtec", Table[2]);
    assert !Hits("zyrtec", Table[3]);
  }

  lemma ZyrtecSkips4To6(q: string)
    requires q == "zyrtec"
    ensures FindFrom(q, Table, 4) == FindFrom(q, Table, 6)
  {
    assert !Hits("zyrtec", Table[4]);
    assert !ContainsFrom("atorvastatin", "zyrtec", 5);
    assert !Hits("zyrtec", Table[5]);
  }

  lemma ZyrtecSkips6To7(q: string)
    requires q == "zyrtec"
    ensures FindFrom(q, Table, 6) == FindFrom(q, Table, 7)
  {
    assert !Hits("zyrtec", Table[6]);
  }

  lemma ZyrtecStops7(q: string)
    requires q == "zyrtec"
    ensures FindFrom(q, Table, 7) == Some(7)
  {
    assert Hits("zyrtec", Table[7]);
  }

  lemma FindsZyrtec(q: string)
    requires q == "zyrtec"
    ensures FirstHit(q, Table) == Some(7)
  {
    ZyrtecSkips0To2(q);
    ZyrtecSkips2To4(q);
    ZyrtecSkips4To6(q);
    ZyrtecSkips6To7(q);
    ZyrtecStops7(q);
  }

  lemma FindsPara(q: string)
    requires q == "para"
    ensures FirstHit(q, Table) == Some(0)
  {
    assert Hits("para", Table[0]);
  }

  lemma InSkips0To2(q: string)
    requires q == "in"
    ensures FindFrom(q, Table, 0) == FindFrom(q, Table, 2)
  {
    assert !ContainsFrom("paracetamol", "in", 5);
    assert !Hits("in", Table[0]);
    assert !ContainsFrom("ibuprofen", "in", 5);
    assert !Hits("in", Table[1]);
  }

  lemma InSkips2To3(q: string)
    requires q == "in"
    ensures FindFrom(q, Table, 2) == FindFrom(q, Table, 3)
  {
    assert !ContainsFrom("omeprazol", "in", 5);
    assert !Hits("in", Table[2]);
  }

  lemma InStops3(q: string)
    requires q == "in"
    ensures FindFrom(q, Table, 3) == Some(3)
  {
    assert Hits("in", Table[3]);
  }

  lemma FindsIn(q: string)
    requires q == "in"
    ensures FirstHit(q, Table) == Some(3)
  {
    InSkips0To2(q);
    InSkips2To3(q);
    InStops3(q);
  }

  lemma AlvedSkips0To2(q: string)
    requires q == "alved"
    ensures FindFrom(q, Table, 0) == FindFrom(q, Table, 2)
  {
    assert !ContainsFrom("paracetamol", "alved", 5);
    assert !Hits("alved", Table[0]);
    assert !Hits("alved", Table[1]);
  }

  lemma AlvedSkips2To4(q: string)
    requires q == "alved"
    ensures FindFrom(q, Table, 2) == FindFrom(q, Table, 4)
  {
    assert !Hits("alved", Table[2]);
    assert !Hits("alved", Table[3]);
  }

  lemma AlvedSkips4To6(q: string)
    requires q == "alved"
    ensures FindFrom(q, Table, 4) == FindFrom(q, Table, 6)
  {
    assert !Hits("alved", Table[4]);
    assert !ContainsFrom("atorvastatin", "alved", 5);
    assert !Hits("alved", Table[5]);
  }

  lemma AlvedSkips6To8(q: string)
    requires q == "alved"
    ensures FindFrom(q, Table, 6) == FindFrom(q, Table, 8)
  {
    assert !Hits("alved", Table[6]);
    assert !Hits("alved", Table[7]);
  }

  lemma MissesAlved(q: string)
    requires q == "alved"
    ensures FirstHit(q, Table) == None
  {
    AlvedSkips0To2(q);
    AlvedSkips2To4(q);
    AlvedSkips4To6(q);
    AlvedSkips6To8(q);
  }

  lemma PamSkips0To2(q: string)
    requires q == "pam"
    ensures FindFrom(q, Table, 0) == FindFrom(q, Table, 2)
  {
    assert !ContainsFrom("paracetamol", "pam", 5);
    assert !Hits("pam", Table[0]);
    assert !ContainsFrom("ibuprofen", "pam", 5);
    assert !Hits("pam", Table[1]);
  }

  lemma PamSkips2To4(q: string)
    requires q == "pam"
    ensures FindFrom(q, Table, 2) == FindFrom(q, Table, 4)
  {
    assert !ContainsFrom("omeprazol", "pam", 5);
    assert !Hits("pam", Table[2]);
    assert !ContainsFrom("sertralin", "pam", 5);
    assert !Hits("pam", Table[3]);
  }

  lemma PamSkips4To6(q: string)
    requires q == "pam"
    ensures FindFrom(q, Table, 4) == FindFrom(q, Table, 6)
  {
    assert !ContainsFrom("metformin", "pam", 5);
    assert !Hits("pam", Table[4]);
    assert !ContainsFrom("atorvastatin", "pam", 5);
    assert !Hits("pam", Table[5]);
  }

  lemma PamSkips6To8(q: string)
    requires q == "pam"
    ensures FindFrom(q, Table, 6) == FindFrom(q, Table, 8)
  {
    assert !ContainsFrom("loratadin", "pam", 5);
    assert !Hits("pam", Table[6]);
    assert !ContainsFrom("cetirizin", "pam", 5);
    assert !Hits("pam", Table[7]);
  }

  lemma MissesPam(q: string)
    requires q == "pam"
    ensures FirstHit(q, Table) == None
  {
    PamSkips0To2(q);
    PamSkips2To4(q);
    PamSkips4To6(q);
    PamSkips6To8(q);
  }

  lemma AspirinSkips0To2(q: string)
    requires q == "aspirin"
    ensures FindFrom(q, Table, 0) == FindFrom(q, Table, 2)
  {
    assert !Hits("aspirin", Table[0]);
    assert !Hits("aspirin", Table[1]);
  }

  lemma AspirinSkips2To4(q: string)
    requires q == "aspirin"
    ensures FindFrom(q, Table, 2) == FindFrom(q, Table, 4)
  {
    assert !Hits("aspirin", Table[2]);
    assert !Hits("aspirin", Table[3]);
  }

  lemma AspirinSkips4To6(q: string)
    requires q == "aspirin"
    ensures FindFrom(q, Table, 4) == FindFrom(q, Table, 6)
  {
    assert !Hits("aspirin", Table[4]);
    assert !Hits("aspirin", Table[5]);
  }

  lemma AspirinSkips6To8(q: string)
    requires q == "aspirin"
    ensures FindFrom(q, Table, 6) == FindFrom(q, Table, 8)
  {
    assert !Hits("aspirin", Table[6]);
    assert !Hits("aspirin", Table[7]);
  }

  lemma MissesAspirin(q: string)
    requires q == "aspirin"
    ensures FirstHit(q, Table) == None
  {
    AspirinSkips0To2(q);
    AspirinSkips2To4(q);
    AspirinSkips4To6(q);
    AspirinSkips6To8(q);
  }

  lemma ParacetamolBrandsLowered()
    ensures Lower(Table[0].brands[0]) == "alvedon"
    ensures Lower(Table[0].brands[1]) == "panodil"
    ensures Lower(Table[0].brands[2]) == "pamol"
  {
  }

  lemma ParacetamolBrandsFound(k: nat)
    requires k < |Table[0].brands|
    ensures IsTrimmed(Lower(Table[0].brands[k]))
    ensures FirstHit(Lower(Table[0].brands[k]), Table) == Some(0)
  {
    ParacetamolBrandsLowered();
    if k == 0 {
      FindsAlvedon(Lower(Table[0].brands[0]));
    } else if k == 1 {
      FindsPanodil(Lower(Table[0].brands[1]));
    } else if k == 2 {
      FindsPamol(Lower(Table[0].brands[2]));
    }
  }

  lemma IbuprofenBrandsLowered()
    ensures Lower(Table[1].brands[0]) == "ipren"
    ensures Lower(Table[1].brands[1]) == "ibumetin"
    ensures Lower(Table[1].brands[2]) == "brufen"
  {
  }

  lemma IbuprofenBrandsFound(k: nat)
    requires k < |Table[1].brands|
    ensures IsTrimmed(Lower(Table[1].brands[k]))
    ensures FirstHit(Lower(Table[1].brands[k]), Table) == Some(1)
  {
    IbuprofenBrandsLowered();
    if k == 0 {
      FindsIpren(Lower(Table[1].brands[0]));
    } else if k == 1 {
      FindsIbumetin(Lower(Table[1].brands[1]));
    } else if k == 2 {
      FindsBrufen(Lower(Table[1].brands[2]));
    }
  }

  lemma OmeprazolBrandsLowered()
    ensures Lower(Table[2].brands[0]) == "losec"
    ensures Lower(Table[2].brands[1]) == "omeprazol"
  {
  }

  lemma OmeprazolBrandsFound(k: nat)
    requires k < |Table[2].brands|
    ensures IsTrimmed(Lower(Table[2].brands[k]))
    ensures FirstHit(Lower(Table[2].brands[k]), Table) == Some(2)
  {
    OmeprazolBrandsLowered();
    if k == 0 {
      FindsLosec(Lower(Table[2].brands[0]));
    } else if k == 1 {
      FindsOmeprazol(Lower(Table[2].brands[1]));
    }
  }

  lemma SertralinBrandsLowered()
    ensures Lower(Table[3].brands[0]) == "zoloft"
    ensures Lower(Table[3].brands[1]) == "sertralin"
  {
  }

  lemma SertralinBrandsFound(k: nat)
    requires k < |Table[3].brands|
    ensures IsTrimmed(Lower(Table[3].brands[k]))
    ensures FirstHit(Lower(Table[3].brands[k]), Table) == Some(3)
  {
    SertralinBrandsLowered();
    if k == 0 {
      FindsZoloft(Lower(Table[3].brands[0]));
    } else if k == 1 {
      FindsSertralin(Lower(Table[3].brands[1]));
    }
  }

  lemma MetforminBrandsLowered()
    ensures Lower(Table[4].brands[0]) == "metformin"
    ensures Lower(Table[4].brands[1]) == "glucophage"
  {
  }

  lemma MetforminBrandsFound(k: nat)
    requires k < |Table[4].brands|
    ensures IsTrimmed(Lower(Table[4].brands[k]))
    ensures FirstHit(Lower(Table[4].brands[k]), Table) == Some(4)
  {
    MetforminBrandsLowered();
    if k == 0 {
      FindsMetformin(Lower(Table[4].brands[0]));
    } else if k == 1 {
      FindsGlucophage(Lower(Table[4].brands[1]));
    }
  }

  lemma AtorvastatinBrandsLowered()
    ensures Lower(Table[5].brands[0]) == "lipitor"
    ensures Lower(Table[5].brands[1]) == "atorvastatin"
  {
  }

  lemma AtorvastatinBrandsFound(k: nat)
    requires k < |Table[5].brands|
    ensures IsTrimmed(Lower(Table[5].brands[k]))
    ensures FirstHit(Lower(Table[5].brands[k]), Table) == Some(5)
  {
    AtorvastatinBrandsLowered();
    if k == 0 {
      FindsLipitor(Lower(Table[5].brands[0]));
    } else if k == 1 {
      FindsAtorvastatin(Lower(Table[5].brands[1]));
    }
  }

  lemma LoratadinBrandsLowered()
    ensures Lower(Table[6].brands[0]) == "clarityn"
    ensures Lower(Table[6].brands[1]) == "loratadin"
  {
  }

  lemma LoratadinBrandsFound(k: nat)
    requires k < |Table[6].brands|
    ensures IsTrimmed(Lower(Table[6].brands[k]))
    ensures FirstHit(Lower(Table[6].brands[k]), Table) == Some(6)
  {
    LoratadinBrandsLowered();
    if k == 0 {
      FindsClarityn(Lower(Table[6].brands[0]));
    } else if k == 1 {
      FindsLoratadin(Lower(Table[6].brands[1]));
    }
  }

  lemma CetirizinBrandsLowered()
    ensures Lower(Table[7].brands[0]) == "zyrtec"
    ensures Lower(Table[7].brands[1]) == "cetirizin"
  {
  }

  lemma CetirizinBrandsFound(k: nat)
    requires k < |Table[7].brands|
    ensures IsTrimmed(Lower(Table[7].brands[k]))
    ensures FirstHit(Lower(Table[7].brands[k]), Table) == Some(7)
  {
    CetirizinBrandsLowered();
    if k == 0 {
      FindsZyrtec(Lower(Table[7].brands[0]));
    } else if k == 1 {
      FindsCetirizin(Lower(Table[7].brands[1]));
    }
  }

  /** The canonical name of entry `i` stops the scan at entry `i`. */
  lemma OwnNameFound(i: nat)
    requires i < |Table|
    ensures IsTrimmed(Table[i].name)
    ensures FirstHit(Table[i].name, Table) == Some(i)
  {
    if i == 0 {
      FindsParacetamol(Table[0].name);
    } else if i == 1 {
      FindsIbuprofen(Table[1].name);
    } else if i == 2 {
      FindsOmeprazol(Table[2].name);
    } else if i == 3 {
      FindsSertralin(Table[3].name);
    } else if i == 4 {
      FindsMetformin(Table[4].name);
    } else if i == 5 {
      FindsAtorvastatin(Table[5].name);
    } else if i == 6 {
      FindsLoratadin(Table[6].name);
    } else if i == 7 {
      FindsCetirizin(Table[7].name);
    }
  }

  /** Every lower-cased brand of entry `i` stops the scan at entry `i`. */
  lemma OwnBrandFound(i: nat, k: nat)
    requires i < |Table| && k < |Table[i].brands|
    ensures IsTrimmed(Lower(Table[i].brands[k]))
    ensures FirstHit(Lower(Table[i].brands[k]), Table) == Some(i)
  {
    if i == 0 {
      ParacetamolBrandsFound(k);
    } else if i == 1 {
      IbuprofenBrandsFound(k);
    } else if i == 2 {
      OmeprazolBrandsFound(k);
    } else if i == 3 {
      SertralinBrandsFound(k);
    } else if i == 4 {
      MetforminBrandsFound(k);
    } else if i == 5 {
      AtorvastatinBrandsFound(k);
    } else if i == 6 {
      LoratadinBrandsFound(k);
    } else if i == 7 {
      CetirizinBrandsFound(k);
    }
  }

  /** A canonical name in any casing, with any whitespace around it, finds
      its own entry. */
  lemma CanonicalLookup(i: nat, pre: string, x: string, post: string)
    requires i < |Table|
    requires AllSpace(pre) && AllSpace(post)
    requires Lower(x) == Table[i].name
    ensures Lookup(pre + x + post, Table) == Some(Table[i])
  {
    OwnNameFound(i);
    NormalizePadded(pre, x, post);
  }

  /** A brand name in any casing, with any whitespace around it, finds the
      entry that lists it. */
  lemma BrandLookup(i: nat, k: nat, pre: string, x: string, post: string)
    requires i < |Table| && k < |Table[i].brands|
    requires AllSpace(pre) && AllSpace(post)
    requires Lower(x) == Lower(Table[i].brands[k])
    ensures Lookup(pre + x + post, Table) == Some(Table[i])
  {
    OwnBrandFound(i, k);
    NormalizePadded(pre, x, post);
  }

  /** A query already in normal form is compared as it stands. */
  lemma NormalizeOfKey(q: string)
    requires NoUpper(q) && IsTrimmed(q)
    ensures Normalize(q) == q
  {
    LowerOfNoUpper(q);
    NormalizePadded("", q, "");
    assert "" + q + "" == q;
  }

  /** Brand queries in their display casing find the owning entry:
      "Panodil" is a paracetamol brand ... */
  lemma PanodilExample()
    ensures Lookup("Panodil", Table) == Some(Paracetamol)
  {
    assert "" + "Panodil" + "" == "Panodil";
    BrandLookup(0, 1, "", "Panodil", "");
  }

  /** ... and "Zoloft" a sertralin brand. */
  lemma ZoloftExample()
    ensures Lookup("Zoloft", Table) == Some(Sertralin)
  {
    assert "" + "Zoloft" + "" == "Zoloft";
    BrandLookup(3, 0, "", "Zoloft", "");
  }

  /** A substring of a canonical name finds that entry: "para" finds
      paracetamol. */
  lemma NameSubstringExample()
    ensures Lookup("para", Table) == Some(Paracetamol)
  {
    NormalizeOfKey("para");
    FindsPara("para");
  }

  /** Substrings are never matched against brands: "alved", a fragment of
      the brand Alvedon, finds nothing. */
  lemma BrandFragmentAlvedExample()
    ensures Contains(Lower(Paracetamol.brands[0]), "alved")
    ensures Lookup("alved", Table) == None
  {
    ParacetamolBrandsLowered();
    assert Contains("alvedon", "alved");
    NormalizeOfKey("alved");
    MissesAlved("alved");
  }

  /** "pam", a fragment of the brand Pamol, finds nothing either. */
  lemma BrandFragmentPamExample()
    ensures Contains(Lower(Paracetamol.brands[2]), "pam")
    ensures Lookup("pam", Table) == None
  {
    ParacetamolBrandsLowered();
    assert Contains("pamol", "pam");
    NormalizeOfKey("pam");
    MissesPam("pam");
  }

  /** A medication outside the table finds nothing. */
  lemma UnknownMedicationExample()
    ensures Lookup("aspirin", Table) == None
  {
    NormalizeOfKey("aspirin");
    MissesAspirin("aspirin");
  }

  lemma InHitsSertralinToAtorvastatin()
    ensures Hits("in", Table[3]) && Hits("in", Table[4]) && Hits("in", Table[5])
  {
  }

  lemma InHitsLoratadinAndCetirizin()
    ensures Hits("in", Table[6]) && Hits("in", Table[7])
  {
  }

  /** "in" occurs in the names of each of the last five entries. */
  lemma InHitsLastFive()
    ensures forall j :: 3 <= j < |Table| ==> Hits("in", Table[j])
  {
    InHitsSertralinToAtorvastatin();
    InHitsLoratadinAndCetirizin();
  }

  /** The first hit wins: of the five entries "in" hits, the scan stops at
      the earliest, sertralin. */
  lemma FirstMatchWinsExample()
    ensures Lookup("in", Table) == Some(Sertralin)
  {
    NormalizeOfKey("in");
    FindsIn("in");
  }

  /** An empty or blank query matches paracetamol, the first entry. */
  lemma BlankExamples()
    ensures Lookup("", Table) == Some(Paracetamol)
    ensures Lookup("   ", Table) == Some(Paracetamol)
  {
    BlankQueryMatchesFirst("", Table);
    BlankQueryMatchesFirst("   ", Table);
  }
}
