/**
 * The drug-name autocomplete: the `DRUG_DATABASE` list, the
 * case-insensitive substring filter that keeps at most five hits, and the
 * `DrugInput` component's own state (focus and current suggestions).
 */
module Suggestions {
  import opened Text

  /** The `DRUG_DATABASE` constant, in its original order. */
  const DRUG_DATABASE: seq<string> := [
    "Acetaminophen", "Adderall", "Albuterol", "Alprazolam", "Amitriptyline",
    "Amlodipine", "Amoxicillin", "Aspirin", "Atenolol", "Atorvastatin",
    "Azithromycin", "Benzonatate", "Bupropion", "Buspirone", "Carvedilol",
    "Cephalexin", "Cetirizine", "Ciprofloxacin", "Citalopram", "Clindamycin",
    "Clonazepam", "Clopidogrel", "Cyclobenzaprine", "Diazepam", "Diclofenac",
    "Diltiazem", "Diphenhydramine", "Doxycycline", "Duloxetine", "Escitalopram",
    "Esomeprazole", "Fluoxetine", "Fluticasone", "Gabapentin", "Glipizide",
    "Hydrochlorothiazide", "Hydrocodone", "Hydroxyzine", "Ibuprofen", "Insulin",
    "Lamotrigine", "Lansoprazole", "Levothyroxine", "Lisinopril", "Lithium",
    "Loratadine", "Lorazepam", "Losartan", "Meloxicam", "Metformin",
    "Methadone", "Methocarbamol", "Metoprolol", "Metronidazole", "Montelukast",
    "Morphine", "Naproxen", "Omeprazole", "Ondansetron", "Oxycodone",
    "Pantoprazole", "Paroxetine", "Penicillin", "Pravastatin", "Prednisone",
    "Pregabalin", "Promethazine", "Propranolol", "Quetiapine", "Ranitidine",
    "Rosuvastatin", "Sertraline", "Simvastatin", "Spironolactone", "Sulfamethoxazole",
    "Tamsulosin", "Tizanidine", "Topiramate", "Tramadol", "Trazodone",
    "Valacyclovir", "Venlafaxine", "Warfarin", "Zolpidem"
  ]

  /** `name` is one of the database's names. */
  predicate InDatabase(name: string)
  {
    name in DRUG_DATABASE
  }

  /** `.slice(0, 5)`: the most suggestions shown at once. */
  const MAX_SUGGESTIONS: nat := 5

  /** The filter's test: `drug.toLowerCase().includes(value.toLowerCase())`. */
  predicate Matches(drug: string, value: string)
  {
    Contains(Lower(drug), Lower(value))
  }

  /** `a` is `b` with some elements dropped, the rest kept in order. */
  predicate IsSubsequence<T(==)>(a: seq<T>, b: seq<T>)
    decreases |b|
  {
    if a == [] then true
    else if b == [] then false
    else if a[0] == b[0] then IsSubsequence(a[1..], b[1..])
    else IsSubsequence(a, b[1..])
  }

  /** A subsequence only holds elements of the sequence it was drawn from. */
  lemma {:induction false} SubsequenceMembers<T>(a: seq<T>, b: seq<T>)
    requires IsSubsequence(a, b)
    ensures forall x :: x in a ==> x in b
    decreases |b|
  {
    if a != [] && b != [] {
      if a[0] == b[0] {
        SubsequenceMembers(a[1..], b[1..]);
        assert a == [a[0]] + a[1..];
      } else {
        SubsequenceMembers(a, b[1..]);
      }
    }
  }

  /** Keeping a prefix of a subsequence gives a subsequence. */
  lemma {:induction false} SubsequencePrefix<T>(a: seq<T>, b: seq<T>, k: nat)
    requires IsSubsequence(a, b) && k <= |a|
    ensures IsSubsequence(a[..k], b)
    decreases |b|
  {
    if k > 0 && b != [] {
      if a[0] == b[0] {
        SubsequencePrefix(a[1..], b[1..], k - 1);
        assert a[..k][1..] == a[1..][..k - 1];
      } else {
        SubsequencePrefix(a, b[1..], k);
      }
    }
  }

  /**
   * `names.filter(drug => drug.toLowerCase().includes(value.toLowerCase()))`:
   * the matching names, in their original order, and every matching name.
   */
  function FilterMatches(names: seq<string>, value: string): (r: seq<string>)
    ensures |r| <= |names|
    ensures IsSubsequence(r, names)
    ensures forall x :: x in r <==> x in names && Matches(x, value)
  {
    if names == [] then []
    else if Matches(names[0], value) then [names[0]] + FilterMatches(names[1..], value)
    else FilterMatches(names[1..], value)
  }

  /** The filter keeps each matching name as often as it occurs, and drops every other name. */
  lemma {:induction false} FilterMatchesCounts(names: seq<string>, value: string, x: string)
    ensures multiset(FilterMatches(names, value))[x] ==
              if Matches(x, value) then multiset(names)[x] else 0
  {
    if names != [] {
      FilterMatchesCounts(names[1..], value, x);
      assert names == [names[0]] + names[1..];
    }
  }

  /**
   * The `DrugInput` effect: no suggestions unless the field is focused and
   * holds at least two characters; otherwise the first five database names
   * that contain the typed text, ignoring case, in database order.
   */
  function Suggest(value: string, focused: bool): (r: seq<string>)
    ensures !(focused && |value| >= 2) ==> r == []
    ensures |r| <= MAX_SUGGESTIONS
    ensures IsSubsequence(r, DRUG_DATABASE)
    ensures forall x :: x in r ==> x in DRUG_DATABASE && Matches(x, value)
    ensures focused && |value| >= 2 && |r| < MAX_SUGGESTIONS ==>
              forall x :: x in DRUG_DATABASE && Matches(x, value) ==> x in r
    ensures focused && |value| >= 2 ==> r <= FilterMatches(DRUG_DATABASE, value)
    ensures focused && |value| >= 2 ==>
              |r| == if |FilterMatches(DRUG_DATABASE, value)| <= MAX_SUGGESTIONS
                     then |FilterMatches(DRUG_DATABASE, value)| else MAX_SUGGESTIONS
  {
    if |value| >= 2 && focused then
      var all := FilterMatches(DRUG_DATABASE, value);
      var r := if |all| <= MAX_SUGGESTIONS then all else all[..MAX_SUGGESTIONS];
      SubsequencePrefix(all, DRUG_DATABASE, |r|);
      assert r == all[..|r|];
      SubsequenceMembers(r, DRUG_DATABASE);
      r
    else
      []
  }

  /** The per-field state of the `DrugInput` component. */
  class DrugInput {
    var focused: bool
    var suggestions: seq<string>

    /**
     * What every rendered suggestion list satisfies: at most five database
     * names, and none while the field is not focused.
     */
    ghost predicate Valid()
      reads this
    {
      && |suggestions| <= MAX_SUGGESTIONS
      && (forall i :: 0 <= i < |suggestions| ==> InDatabase(suggestions[i]))
      && (!focused ==> suggestions == [])
    }

    /** `useState(false)` and `useState([])`. */
    constructor ()
      ensures Valid()
      ensures !focused && suggestions == []
    {
      focused := false;
      suggestions := [];
    }

    /** The effect body, run after `value` or `isFocused` has changed. */
    method Refresh(value: string)
      modifies this
      ensures Valid()
      ensures focused == old(focused)
      ensures suggestions == Suggest(value, focused)
    {
      suggestions := Suggest(value, focused);
    }

    /**
     * `onFocus`. The effect runs only when `isFocused` actually changes: a
     * field that is still focused (refocused within the blur delay) keeps
     * its list.
     */
    method Focus(value: string)
      requires Valid()
      modifies this
      ensures Valid()
      ensures focused
      ensures old(focused) ==> suggestions == old(suggestions)
      ensures !old(focused) ==> suggestions == Suggest(value, true)
    {
      if !focused {
        focused := true;
        Refresh(value);
      }
    }

    /**
     * The delayed `onBlur` update. The effect runs only when `isFocused`
     * actually changes; an unfocused field has no list either way.
     */
    method Blur(value: string)
      requires Valid()
      modifies this
      ensures Valid()
      ensures !focused
      ensures suggestions == []
    {
      if focused {
        focused := false;
        Refresh(value);
      }
    }

    /**
     * Clicking the suggestion at `index`: its name goes to `onChange` and
     * the list is emptied.
     */
    method Pick(index: nat) returns (name: string)
      requires Valid()
      requires index < |suggestions|
      modifies this
      ensures Valid()
      ensures name == old(suggestions[index])
      ensures InDatabase(name)
      ensures focused == old(focused)
      ensures suggestions == []
    {
      name := suggestions[index];
      suggestions := [];
    }
  }
}
