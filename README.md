# Drug interaction checker — a verified model of its lookup logic

The checker is a single-page React widget. The user types two medication
names, picks them from an autocomplete list if they like, and presses
"Check Interactions". After a simulated delay a card shows the stored
interaction record for the pair: its severity, a description and a
recommendation. If no record is stored, the card says there is no known
interaction. Everything lives in `src/App.tsx`. This project models the
logic in that file and proves its properties in Dafny:

- `text.dfy` (module `Text`): ASCII `toUpperCase`/`toLowerCase`, the
  drug-name canonicaliser (first character upper-cased, the rest
  lower-cased), `String.prototype.includes` and `String.prototype.trim`.
- `interactions.dfy` (module `Interactions`): the `INTERACTIONS` table as a
  map from drug name to a map from drug name to a record, the severity enum,
  and `getInteraction`. The lookup tries `(d1, d2)`, then `(d2, d1)`, and
  otherwise returns `null`. Proved: the table stores no pair in both orders
  and no self-pair, so the lookup is symmetric; it ignores letter case; and
  the entries under the non-canonical keys "Contrast Dye" and
  "MAO Inhibitors" can never be reached.
- `suggestions.dfy` (module `Suggestions`): `DRUG_DATABASE`, the
  autocomplete filter (case-insensitive substring match, at most five hits,
  database order) and the `DrugInput` component's focus and suggestion
  state, as a class.
- `results_panel.dfy` (module `ResultsPanel`): how many of the three
  severity bars are lit.
- `search_flow.dfy` (module `SearchFlow`): the `App` component's state as
  a class `Checker`. Its fields are the two names, the tri-state `result`
  (`undefined` / `null` / record), `isSearching`, and the names captured
  when the search was clicked. `handleSearch` and the button guard are
  methods. The delayed `setTimeout` callback is a separate `Complete` step.

`getInteraction`'s `null` is `Option.None`. The `result` field's
`undefined` is `SearchResult.NotSearched` and its `null` is
`SearchResult.NoInteraction`. The severity `'none'` is the constructor
`Negligible`, so that it does not clash with `Option.None`.

## Model

| member | source | states |
|---|---|---|
| `Text.UpperChar` | src/App.tsx:72 | the result is never a lower-case ASCII letter; only a lower-case letter changes, into the same letter in upper case; it has the same lower-case form as the input |
| `Text.LowerChar` | src/App.tsx:72-73 | the result is never an upper-case ASCII letter; only an upper-case letter changes, into the same letter in lower case |
| `Text.Lower` | src/App.tsx:97 | same length as the input, each character lower-cased |
| `Text.LowerIdempotent` | src/App.tsx:97 | lower-casing twice equals lower-casing once |
| `Text.Canonical` | src/App.tsx:72-73 | same length as the input; in canonical form (no lower-case first letter, no upper-case letter after it); equal to the input ignoring case; `""` maps to `""` |
| `Text.CanonicalUnique` | src/App.tsx:72-73 | two canonical strings that are equal ignoring case are equal, so the canonical form of a name is unique |
| `Text.CanonicalFixesCanonical` | src/App.tsx:72-73 | a string already in canonical form is left unchanged |
| `Text.CanonicalIdempotent` | src/App.tsx:72-73 | canonicalising twice equals canonicalising once |
| `Text.CanonicalCaseInsensitive` | src/App.tsx:72-73 | two inputs get the same canonical form if and only if they differ only in letter case |
| `Text.CanonicalAppendNonLetter` | src/App.tsx:72-73 | a trailing character that is not a letter survives canonicalisation unchanged, at the end |
| `Text.NonCanonicalNeverProduced` | src/App.tsx:72-73 | a string not in canonical form is never produced by the canonicaliser |
| `Text.ContainsAt` | src/App.tsx:97 | `includes` holds exactly when the needle equals some window of the haystack |
| `Text.TrimStart` | src/App.tsx:329 | the result is a suffix of the input; everything dropped is whitespace; the result does not start with whitespace |
| `Text.TrimEnd` | src/App.tsx:329 | the result is a prefix of the input; everything dropped is whitespace; the result does not end with whitespace |
| `Text.Trim` | src/App.tsx:329 | the result is a window of the input, with only whitespace on either side; it neither starts nor ends with whitespace |
| `Text.TrimKeepsInner` | src/App.tsx:329 | a string that neither starts nor ends with whitespace is left unchanged |
| `Text.TrimSkipsLeadingWhitespace` | src/App.tsx:329 | a leading whitespace character does not change the trimmed result |
| `Text.TrimStartAppend` | src/App.tsx:329 | on a string that is not all whitespace, dropping leading whitespace commutes with appending a character |
| `Text.TrimSkipsTrailingWhitespace` | src/App.tsx:329 | a trailing whitespace character does not change the trimmed result |
| `Text.TrimAllWhitespace` | src/App.tsx:329 | an all-whitespace string trims to `""` |
| `Text.TrimIdempotent` | src/App.tsx:329 | trimming twice equals trimming once |
| `Interactions.ResolutionOrder` | src/App.tsx:71-79 | the entry under `(d1, d2)` wins; failing that, the entry under `(d2, d1)`; failing both, `null`, never an error |
| `Interactions.ResolveMatchesUnorderedPairs` | src/App.tsx:71-79 | on a well-formed table the lookup returns `r` if and only if `r` is stored for the two canonical names in one order or the other; it returns `null` if and only if neither order is stored |
| `Interactions.ResolveSymmetric` | src/App.tsx:71-79 | on a well-formed table, swapping the two names does not change the result |
| `Interactions.ResolveCaseInsensitive` | src/App.tsx:72-76 | inputs that differ only in letter case give the same result |
| `Interactions.CanonicalPart` | src/App.tsx:25-69 | the pruned table holds exactly the entries whose outer and inner keys are both canonical, each with the record it has in the original table |
| `Interactions.NonCanonicalEntriesUnreachable` | src/App.tsx:72-76 | removing every entry with a non-canonical key changes no lookup |
| `Interactions.ResolveStoredPair` | src/App.tsx:75-76 | names that spell two canonical keys (ignoring case) find the record stored under those keys, and on a well-formed table find it in either order |
| `Interactions.ResolveUnstoredPair` | src/App.tsx:75-78 | names that spell two canonical keys not stored in either order give `null` |
| `Interactions.InteractionsWellFormed` | src/App.tsx:25-69 | `INTERACTIONS` pairs no drug with itself and stores no pair in both orders |
| `Interactions.InteractionsCapitalised` | src/App.tsx:25-69 | every outer and inner key of `INTERACTIONS` starts with a capital letter |
| `Interactions.InteractionsEndWithLetter` | src/App.tsx:25-69 | every outer and inner key of `INTERACTIONS` ends with a letter |
| `Interactions.InteractionsUnpadded` | src/App.tsx:25-69 | no outer or inner key of `INTERACTIONS` ends with whitespace |
| `Interactions.GetInteractionSymmetric` | src/App.tsx:71-79 | `getInteraction(a, b) == getInteraction(b, a)` for all inputs |
| `Interactions.CitalopramTramadolIsSevere` | src/App.tsx:26-27 | Citalopram with Tramadol, in either order, gives the severe record stored for that pair |
| `Interactions.AspirinIbuprofenUnknown` | src/App.tsx:71-79 | Aspirin with Ibuprofen gives `null` |
| `Interactions.MixedCaseWarfarinAspirin` | src/App.tsx:41 | `("warfarin", "ASPIRIN")` gives the severe record stored under Warfarin, then Aspirin |
| `Interactions.ContrastDyeUnreachable` | src/App.tsx:48 | the Metformin / "Contrast Dye" entry exists, yet `getInteraction("Metformin", "Contrast Dye")` is `null` |
| `Interactions.MaoInhibitorsUnreachable` | src/App.tsx:52 | the Sertraline / "MAO Inhibitors" entry exists, yet `getInteraction("Sertraline", "MAO Inhibitors")` is `null` |
| `Suggestions.FilterMatches` | src/App.tsx:96-97 | the matching names in their original order (a subsequence); a name is kept if and only if it is in the list and contains the query ignoring case |
| `Suggestions.FilterMatchesCounts` | src/App.tsx:96-97 | every matching name is kept as often as it occurs in the list, and every other name is dropped |
| `Suggestions.Suggest` | src/App.tsx:94-103 | empty unless focused and the value has at least 2 characters; at most 5 names; a subsequence of the database; every name contains the value ignoring case; a prefix of all the matches, of length exactly the smaller of 5 and the number of matches, so with fewer than 5 it holds every match |
| `Suggestions.DrugInput.constructor` | src/App.tsx:90-91 | starts unfocused with no suggestions |
| `Suggestions.DrugInput.Refresh` | src/App.tsx:94-103 | the suggestions become the filter's result for the value and current focus; focus is unchanged; the list stays at most 5 database names |
| `Suggestions.DrugInput.Focus` | src/App.tsx:123 | focused; a field that was not focused gets the suggestions for its value, one already focused keeps its list because the effect does not re-run |
| `Suggestions.DrugInput.Blur` | src/App.tsx:124 | unfocused with no suggestions, whether or not the effect re-runs |
| `Suggestions.DrugInput.Pick` | src/App.tsx:153-156 | returns the clicked suggestion, a database name, keeps the focus and empties the list |
| `ResultsPanel.LitBars` | src/App.tsx:272-281 | between 1 and 3 bars are lit, and bar `k` is lit if and only if `k` is at most that count |
| `ResultsPanel.LitBarsBySeverity` | src/App.tsx:277-279 | severe lights 3, moderate 2, mild or `none` 1, a `null` result 1 |
| `ResultsPanel.LitBarsMonotone` | src/App.tsx:279 | a more severe record never lights fewer bars |
| `SearchFlow.CanSearchIgnoresPadding` | src/App.tsx:329 | `canSearch` of the names equals `canSearch` of the trimmed names |
| `SearchFlow.PaddedNameIsNotFound` | src/App.tsx:329 | on a table whose keys start with a capital, a whitespace-prefixed name passes `canSearch` exactly when the bare name does, yet is never found in either position |
| `SearchFlow.PaddedNameIsNotFoundInInteractions` | src/App.tsx:329 | on `INTERACTIONS` itself, a whitespace-prefixed name passes `canSearch` exactly when the bare name does, yet `getInteraction` returns `null` for it in either position |
| `SearchFlow.TrailingPaddedNameIsNotFound` | src/App.tsx:329 | on a table whose keys never end with whitespace, a name followed by a whitespace character passes `canSearch` exactly when the bare name does, yet is never found in either position |
| `SearchFlow.TrailingPaddedNameIsNotFoundInInteractions` | src/App.tsx:329 | on `INTERACTIONS` itself, a name with trailing whitespace such as `"Warfarin "` passes `canSearch` exactly when the bare name does, yet `getInteraction` returns `null` for it in either position |
| `SearchFlow.ExamplesSearchable` | src/App.tsx:434-439 | every example pair passes `canSearch` |
| `SearchFlow.ExamplesFound` | src/App.tsx:434-439 | every example pair has a stored record, found in either order |
| `SearchFlow.Checker.constructor` | src/App.tsx:324-327 | both names empty, `result` undefined, not searching, nothing pending; Idle, button disabled; both inputs unfocused with no suggestions |
| `SearchFlow.Checker.CurrentPhase` | src/App.tsx:220-235 | Searching exactly while `isSearching`; Idle exactly when not searching and nothing has been searched yet |
| `SearchFlow.Checker.Edit` | src/App.tsx:122 | the field takes the typed text; if the text changed its suggestions are recomputed, otherwise the effect does not run and the list is kept; focus, the other name, the result and the search state are unchanged |
| `SearchFlow.Checker.Focus` | src/App.tsx:123 | the field is focused; if it was not, it shows suggestions for its current text, otherwise its list is kept |
| `SearchFlow.Checker.Blur` | src/App.tsx:124 | the field is unfocused with no suggestions |
| `SearchFlow.Checker.PickSuggestion` | src/App.tsx:153-156 | the field takes the clicked database name and keeps its focus; the other name, the result and the search state are unchanged; if the name differs from the old text the suggestions are recomputed for it, otherwise the effect does not run and the list stays empty |
| `SearchFlow.Checker.HandleSearch` | src/App.tsx:331-343 | nothing changes unless `canSearch`; otherwise searching, `result` undefined, and a completion captured for the current names |
| `SearchFlow.Checker.ClickSearch` | src/App.tsx:405-407 | a disabled button (cannot search, or already searching) changes nothing; otherwise the flow enters Searching with the current names captured |
| `SearchFlow.Checker.Complete` | src/App.tsx:338-342 | with nothing pending nothing changes; otherwise `result` becomes `getInteraction` of the captured names, searching ends and the phase is Resolved |
| `SearchFlow.Checker.LoadExample` | src/App.tsx:428-445 | offered only before any search and while not searching; both names take the example pair and the search button becomes enabled; each input whose text changed recomputes its suggestions, the others keep theirs; focus, result and search state unchanged |
| `SearchFlow.Checker.SetNames` | src/App.tsx:442-445 | both names take the given texts in one event; each input whose text changed recomputes its suggestions, the other keeps its list; focus, result and search state unchanged |
| `SearchFlow.SearchUsesClickTimeNames` | src/App.tsx:338-342 | after loading any example pair, clicking search and then retyping the first name, completion still shows that pair's stored record |

## Left out

- Layout, CSS classes, inline styles, SVG decoration, animations, the footer, and the labels, icons and colours of the result card: presentation only.
- React's scheduling of hooks and effects, and `useRef`. An event method runs the suggestion effect in the same step as the state change, and only when `value` or `isFocused` actually changed, as the effect's dependency list says.
- Timers: the 200 ms `onBlur` delay is the single `Blur` step. The 1500 ms `setTimeout` is the separate `Complete` step.
- Overlapping searches: `handleSearch` can schedule only one completion at a time here. The button is disabled while searching, so the UI never schedules two. Two racing timers are not modelled.
- Full Unicode case mapping: only ASCII letters change case. Characters whose mapping changes length, such as 'ß', are not modelled. Because of this, the canonicaliser is idempotent on every input in the model, not only on ASCII input.
- JavaScript strings are UTF-16 code units; here they are sequences of Unicode scalar values. This is the same for the ASCII names in the data. It changes the two `length >= 2` guards (the suggestion effect and `canSearch`): a single character outside the Basic Multilingual Plane, such as an emoji, has length 2 in JavaScript and passes them, but has length 1 here and fails them.
- Plain-object quirks of `INTERACTIONS`, such as prototype keys like `__proto__` and the truthiness test in `?.[ ]`: the table is a pure finite map, and every stored record is treated as present.
- The medical content of descriptions and recommendations: opaque strings.
