/**
 * The `App` component's state and its transitions: the two medication
 * fields, the search button guard, `handleSearch`, the delayed completion
 * that fills in the result, and the example shortcuts.
 */
module SearchFlow {
  import opened Text
  import opened Interactions
  import opened Suggestions

  /** The tri-state `result`: `undefined` (not searched), `null` (no interaction) or a record. */
  datatype SearchResult = NotSearched | NoInteraction | Found(record: Interaction)

  /** The search flow's phases. */
  datatype Phase = Idle | Searching | Resolved

  /** Which of the two `DrugInput` fields. */
  datatype Field = First | Second

  /** `getInteraction`'s answer as stored in `result`. */
  function FromLookup(lookup: Option<Interaction>): SearchResult
  {
    match lookup
    case None => NoInteraction
    case Some(r) => Found(r)
  }

  /** `canSearch`: both fields hold at least two characters once trimmed. */
  predicate CanSearch(drug1: string, drug2: string)
  {
    |Trim(drug1)| >= 2 && |Trim(drug2)| >= 2
  }

  /** Surrounding whitespace never decides `canSearch`. */
  lemma CanSearchIgnoresPadding(drug1: string, drug2: string)
    ensures CanSearch(drug1, drug2) == CanSearch(Trim(drug1), Trim(drug2))
  {
    TrimIdempotent(drug1);
    TrimIdempotent(drug2);
  }

  /**
   * `canSearch` trims but `getInteraction` does not: putting a whitespace
   * character in front of a name leaves `canSearch` as it was, yet on a
   * table whose keys all start with a capital letter the padded name is
   * never found, in either position.
   */
  lemma PaddedNameIsNotFound(t: Table, c: char, name: string, other: string)
    requires IsJsWhitespace(c)
    requires KeysCapitalised(t)
    ensures CanSearch([c] + name, other) == CanSearch(name, other)
    ensures CanSearch(other, [c] + name) == CanSearch(other, name)
    ensures Resolve(t, [c] + name, other) == None
    ensures Resolve(t, other, [c] + name) == None
  {
    TrimSkipsLeadingWhitespace(c, name);
    var padded := Canonical([c] + name);
    assert padded[0] == c;
  }

  /**
   * The trim quirk on the program's own table: a name with a leading
   * whitespace character is accepted by `canSearch` exactly when the bare
   * name is, yet `getInteraction` never finds it.
   */
  lemma PaddedNameIsNotFoundInInteractions(c: char, name: string, other: string)
    requires IsJsWhitespace(c)
    ensures CanSearch([c] + name, other) == CanSearch(name, other)
    ensures GetInteraction([c] + name, other) == None
    ensures GetInteraction(other, [c] + name) == None
  {
    InteractionsCapitalised();
    PaddedNameIsNotFound(INTERACTIONS, c, name, other);
    GetInteractionIsResolve([c] + name, other);
    GetInteractionIsResolve(other, [c] + name);
  }

  /**
   * The same quirk at the other end: a whitespace character after a name
   * leaves `canSearch` as it was, yet on a table whose keys never end with
   * whitespace the padded name is never found, in either position.
   */
  lemma TrailingPaddedNameIsNotFound(t: Table, name: string, c: char, other: string)
    requires IsJsWhitespace(c)
    requires KeysUnpadded(t)
    ensures CanSearch(name + [c], other) == CanSearch(name, other)
    ensures CanSearch(other, name + [c]) == CanSearch(other, name)
    ensures Resolve(t, name + [c], other) == None
    ensures Resolve(t, other, name + [c]) == None
  {
    TrimSkipsTrailingWhitespace(name, c);
    CanonicalAppendNonLetter(name, c);
    var padded := Canonical(name + [c]);
    assert padded[|padded| - 1] == c;
  }

  /** The trailing-whitespace quirk on `INTERACTIONS` itself. */
  lemma TrailingPaddedNameIsNotFoundInInteractions(name: string, c: char, other: string)
    requires IsJsWhitespace(c)
    ensures CanSearch(name + [c], other) == CanSearch(name, other)
    ensures GetInteraction(name + [c], other) == None
    ensures GetInteraction(other, name + [c]) == None
  {
    InteractionsUnpadded();
    TrailingPaddedNameIsNotFound(INTERACTIONS, name, c, other);
    GetInteractionIsResolve(name + [c], other);
    GetInteractionIsResolve(other, name + [c]);
  }

  /** The "Try these examples" pairs. */
  const EXAMPLES: seq<(string, string)> := [
    ("Citalopram", "Tramadol"),
    ("Warfarin", "Aspirin"),
    ("Naproxen", "Lisinopril"),
    ("Alprazolam", "Oxycodone")
  ]

  /** The state of `App`, with the state of its two `DrugInput` children. */
  class Checker {
    var drug1: string
    var drug2: string
    var result: SearchResult
    var isSearching: bool
    /** The names captured by the scheduled completion, if one is pending. */
    var pending: Option<(string, string)>
    const input1: DrugInput
    const input2: DrugInput

    /**
     * The search flow's invariant: the two fields are separate components,
     * and the flow is searching exactly while a completion is pending, with
     * no result yet.
     */
    ghost predicate Valid()
      reads this
    {
      && input1 != input2
      && (isSearching <==> pending.Some?)
      && (isSearching ==> result == NotSearched)
    }

    /** The component of a field. */
    function Input(field: Field): DrugInput
    {
      match field
      case First => input1
      case Second => input2
    }

    /** The text of a field. */
    function Value(field: Field): string
      reads this
    {
      match field
      case First => drug1
      case Second => drug2
    }

    /** Idle before any search, Searching while the completion is pending, Resolved afterwards. */
    function CurrentPhase(): (p: Phase)
      reads this
      ensures p == Searching <==> isSearching
      ensures p == Idle <==> !isSearching && result == NotSearched
    {
      if isSearching then Searching
      else if result == NotSearched then Idle
      else Resolved
    }

    /** The search button is enabled: `!(!canSearch || isSearching)`. */
    predicate ButtonEnabled()
      reads this
    {
      CanSearch(drug1, drug2) && !isSearching
    }

    constructor ()
      ensures Valid() && fresh(input1) && fresh(input2)
      ensures input1.Valid() && input2.Valid()
      ensures !input1.focused && input1.suggestions == []
      ensures !input2.focused && input2.suggestions == []
      ensures drug1 == "" && drug2 == ""
      ensures result == NotSearched && !isSearching && pending == None
      ensures CurrentPhase() == Idle && !ButtonEnabled()
    {
      drug1, drug2 := "", "";
      result := NotSearched;
      isSearching := false;
      pending := None;
      input1 := new DrugInput();
      input2 := new DrugInput();
    }

    /** Sets a field's text, as `onChange` does. */
    method SetValue(field: Field, text: string)
      modifies this
      ensures Value(field) == text
      ensures field == First ==> drug2 == old(drug2)
      ensures field == Second ==> drug1 == old(drug1)
      ensures result == old(result) && isSearching == old(isSearching) && pending == old(pending)
    {
      if field == First {
        drug1 := text;
      } else {
        drug2 := text;
      }
    }

    /**
     * Typing into a field: `onChange(e.target.value)`. The field's effect
     * runs only when the text actually changes.
     */
    method Edit(field: Field, text: string)
      requires Valid() && Input(field).Valid()
      modifies this, Input(field)
      ensures Valid()
      ensures Value(field) == text
      ensures field == First ==> drug2 == old(drug2)
      ensures field == Second ==> drug1 == old(drug1)
      ensures result == old(result) && isSearching == old(isSearching) && pending == old(pending)
      ensures Input(field).Valid()
      ensures Input(field).focused == old(Input(field).focused)
      ensures old(Value(field)) != text ==>
        Input(field).suggestions == Suggest(text, Input(field).focused)
      ensures old(Value(field)) == text ==>
        Input(field).suggestions == old(Input(field).suggestions)
    {
      var changed := Value(field) != text;
      SetValue(field, text);
      if changed {
        Input(field).Refresh(text);
      }
    }

    /**
     * Focusing a field. A field that was not focused shows suggestions for
     * its current text; one still focused keeps its list.
     */
    method Focus(field: Field)
      requires Valid() && Input(field).Valid()
      modifies Input(field)
      ensures Valid()
      ensures Input(field).Valid() && Input(field).focused
      ensures old(Input(field).focused) ==>
        Input(field).suggestions == old(Input(field).suggestions)
      ensures !old(Input(field).focused) ==>
        Input(field).suggestions == Suggest(Value(field), true)
    {
      Input(field).Focus(Value(field));
    }

    /** Leaving a field once the blur delay has passed, which hides its suggestions. */
    method Blur(field: Field)
      requires Valid() && Input(field).Valid()
      modifies Input(field)
      ensures Valid()
      ensures Input(field).Valid() && !Input(field).focused && Input(field).suggestions == []
    {
      Input(field).Blur(Value(field));
    }

    /**
     * Clicking suggestion `index` of a field: the name becomes the field's
     * text and the list is cleared, focus untouched. When the name differs
     * from the old text the effect then runs again, so the list reappears
     * while the field is still focused; when it is the same text the effect
     * does not run and the list stays empty.
     */
    method PickSuggestion(field: Field, index: nat)
      requires Valid() && Input(field).Valid()
      requires index < |Input(field).suggestions|
      modifies this, Input(field)
      ensures Valid()
      ensures Value(field) == old(Input(field).suggestions[index])
      ensures InDatabase(Value(field))
      ensures field == First ==> drug2 == old(drug2)
      ensures field == Second ==> drug1 == old(drug1)
      ensures result == old(result) && isSearching == old(isSearching) && pending == old(pending)
      ensures Input(field).Valid()
      ensures Input(field).focused == old(Input(field).focused)
      ensures old(Value(field)) != Value(field) ==>
        Input(field).suggestions == Suggest(Value(field), Input(field).focused)
      ensures old(Value(field)) == Value(field) ==> Input(field).suggestions == []
    {
      var name := Input(field).Pick(index);
      Edit(field, name);
    }

    /**
     * `handleSearch`: nothing changes unless `canSearch`; otherwise the flow
     * enters Searching with `result` reset to `undefined` and a completion
     * scheduled for the names as they are now.
     */
    method HandleSearch()
      requires Valid()
      modifies this
      ensures Valid()
      ensures drug1 == old(drug1) && drug2 == old(drug2)
      ensures !CanSearch(drug1, drug2) ==>
        result == old(result) && isSearching == old(isSearching) && pending == old(pending)
      ensures CanSearch(drug1, drug2) ==>
        isSearching && result == NotSearched && pending == Some((drug1, drug2))
    {
      if !CanSearch(drug1, drug2) {
        return;
      }
      isSearching := true;
      result := NotSearched;
      pending := Some((drug1, drug2));
    }

    /** Clicking the search button, which is disabled unless `canSearch` and not already searching. */
    method ClickSearch()
      requires Valid()
      modifies this
      ensures Valid()
      ensures drug1 == old(drug1) && drug2 == old(drug2)
      ensures !old(ButtonEnabled()) ==>
        result == old(result) && isSearching == old(isSearching) && pending == old(pending)
      ensures old(ButtonEnabled()) ==>
        CurrentPhase() == Searching && result == NotSearched && pending == Some((drug1, drug2))
    {
      if ButtonEnabled() {
        HandleSearch();
      }
    }

    /**
     * The `setTimeout` callback: the result becomes `getInteraction` of the
     * names captured at click time, and searching ends. With nothing
     * scheduled there is no callback and nothing changes.
     */
    method Complete()
      requires Valid()
      modifies this
      ensures Valid()
      ensures drug1 == old(drug1) && drug2 == old(drug2)
      ensures old(pending).None? ==>
        result == old(result) && isSearching == old(isSearching) && pending == old(pending)
      ensures old(pending).Some? ==>
        && result == FromLookup(GetInteraction(old(pending).value.0, old(pending).value.1))
        && CurrentPhase() == Resolved
        && pending == None
    {
      if pending.Some? {
        var (d1, d2) := pending.value;
        result := FromLookup(GetInteraction(d1, d2));
        isSearching := false;
        pending := None;
      }
    }

    /**
     * Clicking example `index`, shown only before any search: both fields
     * take its names, and each field whose text changed re-runs its effect.
     */
    method LoadExample(index: nat)
      requires Valid() && input1.Valid() && input2.Valid()
      requires index < |EXAMPLES|
      requires result == NotSearched && !isSearching
      modifies this, input1, input2
      ensures Valid() && input1.Valid() && input2.Valid()
      ensures (drug1, drug2) == EXAMPLES[index]
      ensures result == old(result) && isSearching == old(isSearching) && pending == old(pending)
      ensures ButtonEnabled()
      ensures input1.focused == old(input1.focused) && input2.focused == old(input2.focused)
      ensures old(drug1) != drug1 ==> input1.suggestions == Suggest(drug1, input1.focused)
      ensures old(drug1) == drug1 ==> input1.suggestions == old(input1.suggestions)
      ensures old(drug2) != drug2 ==> input2.suggestions == Suggest(drug2, input2.focused)
      ensures old(drug2) == drug2 ==> input2.suggestions == old(input2.suggestions)
    {
      var (a, b) := EXAMPLES[index];
      ExamplesSearchable(index);
      SetNames(a, b);
    }

    /**
     * `setDrug1(a)` and `setDrug2(b)` in one event: each field whose text
     * changes re-runs its effect, the other keeps its list.
     */
    method SetNames(a: string, b: string)
      requires Valid() && input1.Valid() && input2.Valid()
      modifies this, input1, input2
      ensures Valid() && input1.Valid() && input2.Valid()
      ensures drug1 == a && drug2 == b
      ensures result == old(result) && isSearching == old(isSearching) && pending == old(pending)
      ensures input1.focused == old(input1.focused) && input2.focused == old(input2.focused)
      ensures old(drug1) != a ==> input1.suggestions == Suggest(a, input1.focused)
      ensures old(drug1) == a ==> input1.suggestions == old(input1.suggestions)
      ensures old(drug2) != b ==> input2.suggestions == Suggest(b, input2.focused)
      ensures old(drug2) == b ==> input2.suggestions == old(input2.suggestions)
    {
      if drug1 != a {
        input1.Refresh(a);
      }
      if drug2 != b {
        input2.Refresh(b);
      }
      drug1, drug2 := a, b;
    }
  }

  /** Every example pair passes `canSearch`. */
  lemma ExamplesSearchable(index: nat)
    requires index < |EXAMPLES|
    ensures CanSearch(EXAMPLES[index].0, EXAMPLES[index].1)
  {
    var (a, b) := EXAMPLES[index];
    assert a != [] && !IsJsWhitespace(a[0]) && !IsJsWhitespace(a[|a| - 1]);
    assert b != [] && !IsJsWhitespace(b[0]) && !IsJsWhitespace(b[|b| - 1]);
    TrimKeepsInner(a);
    TrimKeepsInner(b);
  }

  /** Both names of every example pair are canonical and stored together. */
  lemma ExamplesStored(index: nat)
    requires index < |EXAMPLES|
    ensures IsCanonical(EXAMPLES[index].0) && IsCanonical(EXAMPLES[index].1)
    ensures Stored(INTERACTIONS, EXAMPLES[index].0, EXAMPLES[index].1)
  {
  }

  /** Every example pair has a known interaction, whichever order it is searched in. */
  lemma ExamplesFound(index: nat)
    requires index < |EXAMPLES|
    ensures var (a, b) := EXAMPLES[index];
      && GetInteraction(a, b) == Some(INTERACTIONS[a][b])
      && GetInteraction(b, a) == Some(INTERACTIONS[a][b])
  {
    var (a, b) := EXAMPLES[index];
    ExamplesStored(index);
    InteractionsWellFormed();
    ResolveStoredPair(INTERACTIONS, a, b, a, b);
    GetInteractionIsResolve(a, b);
    GetInteractionIsResolve(b, a);
  }

  /** A fresh checker that has loaded example `index` and clicked search. */
  method StartExampleSearch(index: nat) returns (app: Checker)
    requires index < |EXAMPLES|
    ensures fresh(app) && fresh(app.input1)
    ensures app.Valid() && app.input1.Valid()
    ensures app.pending == Some(EXAMPLES[index])
  {
    app := new Checker();
    app.LoadExample(index);
    app.ClickSearch();
  }

  /**
   * Loading example `index`, clicking search, then typing `later` into the
   * first field before the delay ends: the completion still reports the
   * example pair's record, because it uses the names captured at the click.
   */
  method SearchUsesClickTimeNames(index: nat, later: string) returns (shown: SearchResult)
    requires index < |EXAMPLES|
    ensures var (a, b) := EXAMPLES[index]; a in INTERACTIONS && b in INTERACTIONS[a]
    ensures var (a, b) := EXAMPLES[index]; shown == Found(INTERACTIONS[a][b])
  {
    var app := StartExampleSearch(index);
    app.Edit(First, later);
    app.Complete();
    ExamplesStored(index);
    ExamplesFound(index);
    shown := app.result;
  }
}
