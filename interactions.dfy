/**
 * The fixed interaction table and the symmetric, case-insensitive lookup
 * `getInteraction` that the checker runs over it.
 */
module Interactions {
  import opened Text

  /** `'severe' | 'moderate' | 'mild' | 'none'`; `Negligible` stands for `'none'`. */
  datatype Severity = Severe | Moderate | Mild | Negligible

  /** One stored record; description and recommendation are opaque text. */
  datatype Interaction = Interaction(severity: Severity, description: string, recommendation: string)

  /** What `getInteraction` returns: a record, or `null` when none is known. */
  datatype Option<+T> = None | Some(value: T)

  /** Outer key, inner key, record: `Record<string, Record<string, InteractionResult>>`. */
  type Table = map<string, map<string, Interaction>>

  /** The pair `(x, y)` is stored with `x` as the outer key. */
  predicate Stored(t: Table, x: string, y: string)
  {
    x in t && y in t[x]
  }

  /** The table invariant: no drug is paired with itself and no pair is stored in both orders. */
  ghost predicate WellFormed(t: Table)
  {
    forall x, y :: Stored(t, x, y) ==> x != y && !Stored(t, y, x)
  }

  /** `r` is stored for the unordered pair `{x, y}`, in one order or the other. */
  predicate StoredEitherWay(t: Table, x: string, y: string, r: Interaction)
  {
    || (Stored(t, x, y) && t[x][y] == r)
    || (Stored(t, y, x) && t[y][x] == r)
  }

  /** The `INTERACTIONS` constant. */
  const INTERACTIONS: Table := map[
    "Citalopram" := map[
      "Tramadol" := Interaction(Severe,
        "Increased risk of serotonin syndrome and seizures. Both drugs increase serotonin levels.",
        "Avoid combination. If necessary, monitor closely for symptoms of serotonin syndrome."),
      "Naproxen" := Interaction(Moderate,
        "Increased risk of gastrointestinal bleeding. SSRIs may potentiate antiplatelet effects of NSAIDs.",
        "Use with caution. Consider gastroprotective agents."),
      "Warfarin" := Interaction(Severe,
        "Increased risk of bleeding. Citalopram inhibits platelet aggregation and may increase warfarin levels.",
        "Monitor INR closely. Consider alternative antidepressant."),
      "Lithium" := Interaction(Moderate,
        "May increase lithium levels and risk of serotonin syndrome.",
        "Monitor lithium levels and watch for signs of toxicity."),
      "Omeprazole" := Interaction(Moderate,
        "Omeprazole may increase citalopram plasma concentrations.",
        "Consider dose adjustment. Monitor for increased side effects.")
    ],
    "Naproxen" := map[
      "Warfarin" := Interaction(Severe,
        "Significantly increased risk of gastrointestinal and other bleeding.",
        "Avoid combination if possible. Monitor INR closely."),
      "Lisinopril" := Interaction(Moderate,
        "NSAIDs may reduce antihypertensive effect and increase risk of kidney injury.",
        "Monitor blood pressure and kidney function."),
      "Aspirin" := Interaction(Moderate,
        "Increased risk of gastrointestinal bleeding. Naproxen may interfere with aspirin's cardioprotective effects.",
        "If using aspirin for cardioprotection, take aspirin first."),
      "Methotrexate" := Interaction(Severe,
        "NSAIDs can increase methotrexate toxicity by reducing its elimination.",
        "Avoid combination or use extreme caution with monitoring."),
      "Lithium" := Interaction(Moderate,
        "NSAIDs may increase lithium levels by reducing renal clearance.",
        "Monitor lithium levels closely.")
    ],
    "Warfarin" := map[
      "Aspirin" := Interaction(Severe,
        "Major increase in bleeding risk from additive anticoagulant effects.",
        "Avoid unless specifically indicated. Monitor for bleeding."),
      "Ibuprofen" := Interaction(Severe,
        "Increased risk of bleeding. NSAIDs also inhibit platelet function.",
        "Use acetaminophen for pain if possible."),
      "Fluconazole" := Interaction(Severe,
        "Fluconazole inhibits warfarin metabolism, significantly increasing INR.",
        "Reduce warfarin dose and monitor INR frequently."),
      "Metronidazole" := Interaction(Severe,
        "Metronidazole inhibits warfarin metabolism, increasing anticoagulant effect.",
        "Monitor INR closely. May need warfarin dose reduction.")
    ],
    "Metformin" := map[
      "Alcohol" := Interaction(Severe,
        "Increased risk of lactic acidosis, especially with heavy alcohol use.",
        "Limit alcohol consumption."),
      "Contrast Dye" := Interaction(Moderate,
        "Risk of lactic acidosis when used with iodinated contrast media.",
        "Hold metformin before and 48 hours after contrast procedures.")
    ],
    "Sertraline" := map[
      "Tramadol" := Interaction(Severe,
        "Risk of serotonin syndrome. Both drugs increase serotonergic activity.",
        "Avoid combination. Use alternative pain management."),
      "MAO Inhibitors" := Interaction(Severe,
        "Life-threatening serotonin syndrome risk.",
        "Contraindicated. Allow 14-day washout period."),
      "Warfarin" := Interaction(Moderate,
        "Increased bleeding risk due to platelet effects.",
        "Monitor for signs of bleeding.")
    ],
    "Lisinopril" := map[
      "Potassium" := Interaction(Moderate,
        "Risk of hyperkalemia. ACE inhibitors reduce potassium excretion.",
        "Monitor potassium levels regularly."),
      "Spironolactone" := Interaction(Moderate,
        "Additive hyperkalemia risk.",
        "Monitor potassium levels closely.")
    ],
    "Simvastatin" := map[
      "Amiodarone" := Interaction(Severe,
        "Increased risk of myopathy and rhabdomyolysis.",
        "Limit simvastatin dose to 20mg daily."),
      "Clarithromycin" := Interaction(Severe,
        "Increased statin levels and risk of muscle damage.",
        "Suspend simvastatin during clarithromycin therapy."),
      "Grapefruit" := Interaction(Moderate,
        "Grapefruit inhibits statin metabolism, increasing levels.",
        "Avoid grapefruit or grapefruit juice.")
    ],
    "Alprazolam" := map[
      "Oxycodone" := Interaction(Severe,
        "Profound sedation, respiratory depression, coma, and death.",
        "Avoid concurrent use. If necessary, use lowest effective doses."),
      "Alcohol" := Interaction(Severe,
        "Enhanced CNS depression. Risk of respiratory depression.",
        "Avoid alcohol while taking benzodiazepines."),
      "Ketoconazole" := Interaction(Moderate,
        "Increased alprazolam levels due to CYP3A4 inhibition.",
        "Consider dose reduction.")
    ]
  ]

  /**
   * `getInteraction` over an arbitrary table: canonicalise both names, try
   * `(d1, d2)`, then `(d2, d1)`, otherwise `null`.
   */
  function Resolve(t: Table, drug1: string, drug2: string): Option<Interaction>
  {
    var d1 := Canonical(drug1);
    var d2 := Canonical(drug2);
    if Stored(t, d1, d2) then Some(t[d1][d2])
    else if Stored(t, d2, d1) then Some(t[d2][d1])
    else None
  }

  /** `getInteraction` itself, over `INTERACTIONS`. */
  function GetInteraction(drug1: string, drug2: string): Option<Interaction>
  {
    Resolve(INTERACTIONS, drug1, drug2)
  }

  /**
   * The order in which `getInteraction` resolves a pair: the entry under
   * `(d1, d2)` wins, then the one under `(d2, d1)`, and otherwise the answer
   * is `null`, never an error.
   */
  lemma ResolutionOrder(t: Table, drug1: string, drug2: string)
    ensures var d1, d2 := Canonical(drug1), Canonical(drug2);
      && (Stored(t, d1, d2) ==> Resolve(t, drug1, drug2) == Some(t[d1][d2]))
      && (!Stored(t, d1, d2) && Stored(t, d2, d1) ==> Resolve(t, drug1, drug2) == Some(t[d2][d1]))
      && (!Stored(t, d1, d2) && !Stored(t, d2, d1) ==> Resolve(t, drug1, drug2) == None)
  {
  }

  /**
   * Against the unordered-pair view of the table: on a well-formed table the
   * lookup returns `r` exactly when `r` is stored for the two canonical names
   * in either order, and `null` exactly when nothing is.
   */
  lemma ResolveMatchesUnorderedPairs(t: Table, drug1: string, drug2: string, r: Interaction)
    requires WellFormed(t)
    ensures var d1, d2 := Canonical(drug1), Canonical(drug2);
      && (Resolve(t, drug1, drug2) == Some(r) <==> StoredEitherWay(t, d1, d2, r))
      && (Resolve(t, drug1, drug2) == None <==> !Stored(t, d1, d2) && !Stored(t, d2, d1))
  {
  }

  /** On a well-formed table the lookup does not depend on the order of the two names. */
  lemma ResolveSymmetric(t: Table, drug1: string, drug2: string)
    requires WellFormed(t)
    ensures Resolve(t, drug1, drug2) == Resolve(t, drug2, drug1)
  {
  }

  /** Inputs that differ only in letter case resolve to the same result. */
  lemma ResolveCaseInsensitive(t: Table, a1: string, a2: string, b1: string, b2: string)
    requires SameIgnoringCase(a1, a2) && SameIgnoringCase(b1, b2)
    ensures Resolve(t, a1, b1) == Resolve(t, a2, b2)
  {
    CanonicalCaseInsensitive(a1, a2);
    CanonicalCaseInsensitive(b1, b2);
  }

  /** The table with every entry whose outer or inner key is not canonical removed. */
  function CanonicalPart(t: Table): (p: Table)
    ensures forall x, y :: Stored(p, x, y) <==> Stored(t, x, y) && IsCanonical(x) && IsCanonical(y)
    ensures forall x, y :: Stored(p, x, y) ==> Stored(t, x, y) && p[x][y] == t[x][y]
  {
    map x | x in t && IsCanonical(x) :: map y | y in t[x] && IsCanonical(y) :: t[x][y]
  }

  /**
   * Entries under a key that is not in canonical form can never be reached:
   * dropping all of them changes no lookup.
   */
  lemma NonCanonicalEntriesUnreachable(t: Table, drug1: string, drug2: string)
    ensures Resolve(CanonicalPart(t), drug1, drug2) == Resolve(t, drug1, drug2)
  {
  }

  /** An input equal to a canonical key up to case canonicalises to that key. */
  lemma CanonicalOfKey(s: string, key: string)
    requires IsCanonical(key) && SameIgnoringCase(s, key)
    ensures Canonical(s) == key
  {
    CanonicalCaseInsensitive(s, key);
    CanonicalFixesCanonical(key);
  }

  /** Every outer and inner key of the table starts with a capital letter. */
  ghost predicate KeysCapitalised(t: Table)
  {
    forall x, y :: Stored(t, x, y) ==> x != [] && y != [] && IsAsciiUpper(x[0]) && IsAsciiUpper(y[0])
  }

  /** One row of `INTERACTIONS` has capitalised keys. */
  lemma RowCapitalised(x: string)
    requires x in INTERACTIONS
    ensures x != [] && IsAsciiUpper(x[0])
    ensures forall y :: y in INTERACTIONS[x] ==> y != [] && IsAsciiUpper(y[0])
  {
  }

  /** `INTERACTIONS` has capitalised keys. */
  lemma InteractionsCapitalised()
    ensures KeysCapitalised(INTERACTIONS)
  {
    forall x | x in INTERACTIONS
      ensures x != [] && IsAsciiUpper(x[0])
      ensures forall y :: y in INTERACTIONS[x] ==> y != [] && IsAsciiUpper(y[0])
    {
      RowCapitalised(x);
    }
  }

  /** No outer or inner key of the table ends with whitespace. */
  ghost predicate KeysUnpadded(t: Table)
  {
    forall x, y :: Stored(t, x, y) ==>
      x != [] && y != [] && !IsJsWhitespace(x[|x| - 1]) && !IsJsWhitespace(y[|y| - 1])
  }

  /** A string that ends with an ASCII letter. */
  predicate EndsWithLetter(s: string)
  {
    s != [] && (IsAsciiLower(s[|s| - 1]) || IsAsciiUpper(s[|s| - 1]))
  }

  /** Every key of one row of `INTERACTIONS` ends with a letter. */
  lemma RowEndsWithLetter(x: string)
    requires x in INTERACTIONS
    ensures EndsWithLetter(x)
    ensures forall y :: y in INTERACTIONS[x] ==> EndsWithLetter(y)
  {
  }

  /** Every outer and inner key of the table ends with a letter. */
  ghost predicate KeysEndWithLetter(t: Table)
  {
    forall x, y :: Stored(t, x, y) ==> EndsWithLetter(x) && EndsWithLetter(y)
  }

  /** Every key of `INTERACTIONS` ends with a letter. */
  lemma InteractionsEndWithLetter()
    ensures KeysEndWithLetter(INTERACTIONS)
  {
    forall x | x in INTERACTIONS
      ensures EndsWithLetter(x)
      ensures forall y :: y in INTERACTIONS[x] ==> EndsWithLetter(y)
    {
      RowEndsWithLetter(x);
    }
  }

  /** Keys that end with a letter do not end with whitespace. */
  lemma LetterKeysUnpadded(t: Table)
    requires KeysEndWithLetter(t)
    ensures KeysUnpadded(t)
  {
  }

  /** No key of `INTERACTIONS` ends with whitespace. */
  lemma InteractionsUnpadded()
    ensures KeysUnpadded(INTERACTIONS)
  {
    InteractionsEndWithLetter();
    LetterKeysUnpadded(INTERACTIONS);
  }

  /** One row of `INTERACTIONS` keeps the table invariant. */
  lemma RowWellFormed(x: string)
    requires x in INTERACTIONS
    ensures forall y :: y in INTERACTIONS[x] ==> y != x && !Stored(INTERACTIONS, y, x)
  {
  }

  /** `INTERACTIONS` keeps the table invariant. */
  lemma InteractionsWellFormed()
    ensures WellFormed(INTERACTIONS)
  {
    forall x | x in INTERACTIONS
      ensures forall y :: y in INTERACTIONS[x] ==> y != x && !Stored(INTERACTIONS, y, x)
    {
      RowWellFormed(x);
    }
  }

  /** `getInteraction(a, b) == getInteraction(b, a)` for every pair of inputs. */
  lemma GetInteractionSymmetric(drug1: string, drug2: string)
    ensures GetInteraction(drug1, drug2) == GetInteraction(drug2, drug1)
  {
    InteractionsWellFormed();
    ResolveSymmetric(INTERACTIONS, drug1, drug2);
  }

  /**
   * Inputs spelling two canonical keys up to case find the record stored
   * under those keys, and on a well-formed table in either order.
   */
  lemma ResolveStoredPair(t: Table, drug1: string, drug2: string, x: string, y: string)
    requires IsCanonical(x) && IsCanonical(y)
    requires SameIgnoringCase(drug1, x) && SameIgnoringCase(drug2, y)
    requires Stored(t, x, y)
    ensures Resolve(t, drug1, drug2) == Some(t[x][y])
    ensures WellFormed(t) ==> Resolve(t, drug2, drug1) == Some(t[x][y])
  {
    CanonicalOfKey(drug1, x);
    CanonicalOfKey(drug2, y);
  }

  /** Inputs spelling two canonical keys that are stored in neither order resolve to `null`. */
  lemma ResolveUnstoredPair(t: Table, drug1: string, drug2: string, x: string, y: string)
    requires IsCanonical(x) && IsCanonical(y)
    requires SameIgnoringCase(drug1, x) && SameIgnoringCase(drug2, y)
    requires !Stored(t, x, y) && !Stored(t, y, x)
    ensures Resolve(t, drug1, drug2) == None
  {
    CanonicalOfKey(drug1, x);
    CanonicalOfKey(drug2, y);
  }

  /** Unfolds `GetInteraction` without evaluating it on literal arguments. */
  lemma GetInteractionIsResolve(drug1: string, drug2: string)
    ensures GetInteraction(drug1, drug2) == Resolve(INTERACTIONS, drug1, drug2)
  {
  }

  /** Facts read directly off the table literal, kept apart from the lookups that use them. */
  lemma TableFacts()
    ensures INTERACTIONS["Citalopram"]["Tramadol"].severity == Severe
    ensures INTERACTIONS["Warfarin"]["Aspirin"].severity == Severe
    ensures Stored(INTERACTIONS, "Metformin", "Contrast Dye")
    ensures Stored(INTERACTIONS, "Sertraline", "MAO Inhibitors")
  {
  }

  /** The mixed-case spellings of Warfarin and Aspirin used below. */
  lemma WarfarinAspirinSpelling()
    ensures IsCanonical("Warfarin") && SameIgnoringCase("warfarin", "Warfarin")
    ensures IsCanonical("Aspirin") && SameIgnoringCase("ASPIRIN", "Aspirin")
  {
  }

  /** "Contrast Dye" is not canonical; its canonical spelling is "Contrast dye". */
  lemma ContrastDyeSpelling()
    ensures IsCanonical("Metformin") && IsCanonical("Contrast dye")
    ensures SameIgnoringCase("Contrast Dye", "Contrast dye")
  {
  }

  /** Neither order of Metformin and "Contrast dye" is stored. */
  lemma ContrastDyeAbsent()
    ensures !Stored(INTERACTIONS, "Metformin", "Contrast dye") && !Stored(INTERACTIONS, "Contrast dye", "Metformin")
  {
    assert "Contrast dye"[9] != "Contrast Dye"[9];
  }

  /** "MAO Inhibitors" is not canonical; its canonical spelling is "Mao inhibitors". */
  lemma MaoInhibitorsSpelling()
    ensures IsCanonical("Sertraline") && IsCanonical("Mao inhibitors")
    ensures SameIgnoringCase("MAO Inhibitors", "Mao inhibitors")
  {
  }

  /** Neither order of Sertraline and "Mao inhibitors" is stored. */
  lemma MaoInhibitorsAbsent()
    ensures !Stored(INTERACTIONS, "Sertraline", "Mao inhibitors") && !Stored(INTERACTIONS, "Mao inhibitors", "Sertraline")
  {
    assert "Mao inhibitors"[1] != "MAO Inhibitors"[1];
  }

  /** `getInteraction("Citalopram", "Tramadol")` is the severe serotonin-syndrome record, in either order. */
  lemma CitalopramTramadolIsSevere()
    ensures var r := INTERACTIONS["Citalopram"]["Tramadol"];
      && GetInteraction("Citalopram", "Tramadol") == Some(r)
      && GetInteraction("Tramadol", "Citalopram") == Some(r)
      && r.severity == Severe
  {
    TableFacts();
    InteractionsWellFormed();
    ResolveStoredPair(INTERACTIONS, "Citalopram", "Tramadol", "Citalopram", "Tramadol");
    GetInteractionIsResolve("Citalopram", "Tramadol");
    GetInteractionIsResolve("Tramadol", "Citalopram");
  }

  /** Aspirin and ibuprofen are stored in neither order, so the answer is `null`. */
  lemma AspirinIbuprofenUnknown()
    ensures GetInteraction("Aspirin", "Ibuprofen") == None
  {
    ResolveUnstoredPair(INTERACTIONS, "Aspirin", "Ibuprofen", "Aspirin", "Ibuprofen");
    GetInteractionIsResolve("Aspirin", "Ibuprofen");
  }

  /** `getInteraction("warfarin", "ASPIRIN")` finds the severe record stored under Warfarin, then Aspirin. */
  lemma MixedCaseWarfarinAspirin()
    ensures GetInteraction("warfarin", "ASPIRIN") == Some(INTERACTIONS["Warfarin"]["Aspirin"])
    ensures INTERACTIONS["Warfarin"]["Aspirin"].severity == Severe
  {
    TableFacts();
    WarfarinAspirinSpelling();
    ResolveStoredPair(INTERACTIONS, "warfarin", "ASPIRIN", "Warfarin", "Aspirin");
    GetInteractionIsResolve("warfarin", "ASPIRIN");
  }

  /**
   * The Metformin entry under the non-canonical inner key "Contrast Dye"
   * exists, yet looking it up by that very name gives `null`.
   */
  lemma ContrastDyeUnreachable()
    ensures Stored(INTERACTIONS, "Metformin", "Contrast Dye")
    ensures GetInteraction("Metformin", "Contrast Dye") == None
  {
    TableFacts();
    ContrastDyeSpelling();
    ContrastDyeAbsent();
    ResolveUnstoredPair(INTERACTIONS, "Metformin", "Contrast Dye", "Metformin", "Contrast dye");
    GetInteractionIsResolve("Metformin", "Contrast Dye");
  }

  /**
   * The Sertraline entry under the non-canonical inner key "MAO Inhibitors"
   * exists, yet looking it up by that very name gives `null`.
   */
  lemma MaoInhibitorsUnreachable()
    ensures Stored(INTERACTIONS, "Sertraline", "MAO Inhibitors")
    ensures GetInteraction("Sertraline", "MAO Inhibitors") == None
  {
    TableFacts();
    MaoInhibitorsSpelling();
    MaoInhibitorsAbsent();
    ResolveUnstoredPair(INTERACTIONS, "Sertraline", "MAO Inhibitors", "Sertraline", "Mao inhibitors");
    GetInteractionIsResolve("Sertraline", "MAO Inhibitors");
  }
}
