# Typeahead option filter

A model of the option filter of the `react-typeahead-ts` typeahead component:
the `useSearch` hook that decides, from the component's props, how the options
are searched for the text the user has typed, and assembles the list the
dropdown shows.

- **Strategy selection.** A `searchOptions` function, when given, decides the
  result alone. Otherwise a `filterOption` predicate keeps matching options in
  their original order. Otherwise the `fuzzy` library matches the entry text
  against a search key per option: a named field when `filterOption` is a
  string, else `${option2primitive(option)}`. Setting `searchOptions` together
  with any `filterOption` produces the "filterOption prop will be ignored"
  warning, modelled as a boolean.
- **List assembly.** When `shouldSkipSearch` holds for the entry text no
  strategy runs and the base list is empty. With custom values allowed, the
  raw entry text is meant to be put in front of that list unless it is
  already in it. The code as written also puts an empty entry text in front
  when `""` is already listed, giving a duplicate (see "## Findings").
  `FilteredOptions` models the intended rule; `FilteredOptionsAsWritten`
  models the code as written.

Modules:

- `Wrappers` (wrappers.dfy): `Option`, for the optional props.
- `Primitives` (primitives.dfy): `string | number` primitives and the
  template-literal conversion to a search key.
- `UseSearch` (use_search.dfy): props, strategies, `searchFunction`,
  `filteredOptions`, and the lemmas about them. The predicate strategy is
  checked against an independent definition: the result is the unique
  increasing selection of list positions whose elements the predicate accepts.
- `UseSearchFindings` (findings.dfy): the custom-value test exactly as written,
  and how it differs from the corrected one.
- `TestPlans` (test_plans.dfy): the Beatles fixtures of the component's tests, stated as lemmas
  about the model.

Foreign code is passed in as values. `Env` holds `Accessor.generateAccessor`,
the `fuzzy` library and the view of the entry text as an option. `Props` holds
the caller's callbacks. The fuzzy library is the subset type `Matcher`: a
function from the pattern and the list of keys to the reported indices, each
of which points into the list. Its scoring and ranking are not modelled.

`opt || options` becomes `ListOf`. An explicitly passed array replaces
`options` even when it is empty, because every JavaScript array is truthy.

## Model

| member | source | states |
|---|---|---|
| UseSearch.Resolve | src/Typeahead/helpers/useSearch.ts:27-53 | a search function is chosen exactly when one is configured; the predicate exactly when there is no search function and filterOption is a function; fuzzy matching otherwise; the warning is raised exactly when a search function is configured and filterOption is not undefined |
| UseSearch.ResolvedStrategy | src/Typeahead/helpers/useSearch.ts:36-53 | the chosen strategy applies the configured search function or predicate; the fuzzy key is the field accessor for a string filterOption and the stringified primitive when filterOption is undefined |
| UseSearch.KeepMatching | src/Typeahead/helpers/useSearch.ts:42 | the filtered list is no longer than the input and every kept element is in the input and satisfies the predicate |
| UseSearch.FuzzyFilter | src/Typeahead/helpers/useSearch.ts:55-60 | the fuzzy result has one element per reported match and every element is a member of the searched list |
| UseSearch.BaseByStrategy | src/Typeahead/helpers/useSearch.ts:63-67 | when search is skipped the base list is empty; otherwise it is the search function's output on the entry text and `options`, or the order-preserving selection of exactly the options the predicate accepts, or the option at each index the matcher reports on the options' keys |
| UseSearch.FilteredOptions | src/Typeahead/helpers/useSearch.ts:63-74 | the corrected rule (the code as written differs for an empty entry, see the findings): without custom values the list is the base list; with them the entry text is always in it, occurs as often as in the base list (or once if absent there), and nothing but base elements and the entry text appears |
| UseSearch.SearchFunctionWins | src/Typeahead/helpers/useSearch.ts:28-38 | with a search function configured, the result is its output on the entry text and the explicit list, or `options` when there is none, and changing filterOption changes nothing |
| UseSearch.PredicateStrategy | src/Typeahead/helpers/useSearch.ts:40-43 | with a predicate and no search function, the result is the order-preserving subsequence of the searched list of exactly the options the predicate accepts |
| UseSearch.FuzzyStrategy | src/Typeahead/helpers/useSearch.ts:45-60 | with neither a search function nor a predicate, the result is the list element at each index the matcher reports on the derived keys, in the matcher's order, so its length is the number of matches and every result is in the list |
| UseSearch.ExplicitListReplacesOptions | src/Typeahead/helpers/useSearch.ts:36-59 | an explicit `opt` is searched instead of `options` in every strategy, and `options` then has no influence; without one, `options` is searched |
| UseSearch.KeptPositions | src/Typeahead/helpers/useSearch.ts:42 | the positions the predicate filter keeps: increasing, spelling out the filtered list, and containing a position exactly when the predicate accepts its element |
| UseSearch.KeepMatchingIsFiltering | src/Typeahead/helpers/useSearch.ts:42 | the predicate filter picks list positions in increasing order, and a position is picked exactly when the predicate accepts its element |
| UseSearch.FilteringIsUnique | src/Typeahead/helpers/useSearch.ts:42 | at most one list is such an order-preserving selection, so that relation fully specifies the filter |
| UseSearch.IncreasingByMembers | src/Typeahead/helpers/useSearch.ts:42 | two increasing index lists with the same members are equal |
| UseSearch.AcceptAllKeepsAll | src/Typeahead/helpers/useSearch.ts:42 | a predicate that is always true keeps the whole list |
| UseSearch.RejectAllKeepsNone | src/Typeahead/helpers/useSearch.ts:42 | a predicate that is always false keeps nothing |
| UseSearch.KeepMatchingCounts | src/Typeahead/helpers/useSearch.ts:42 | an accepted option is kept as often as it occurs and a rejected one never |
| UseSearch.SkipSearchIgnoresStrategy | src/Typeahead/helpers/useSearch.ts:64-72 | when search is skipped the list is empty, or exactly the entry text with custom values on, whatever the search function and filterOption are |
| UseSearch.CustomValueInsertion | src/Typeahead/helpers/useSearch.ts:69-72 | with custom values on, an absent entry text is put first and the list grows by exactly one; a present one leaves the list unchanged (corrected rule; as written a present empty entry is put in front again, see the findings) |
| Primitives.NatToDecimal | src/Typeahead/helpers/useSearch.ts:52 | a number renders as a non-empty run of decimal digits without a leading zero |
| Primitives.NatToDecimalRoundTrip | src/Typeahead/helpers/useSearch.ts:52 | reading back the decimal rendering of a natural number gives the number |
| Primitives.IntToDecimalRoundTrip | src/Typeahead/helpers/useSearch.ts:52 | reading back the rendering of an integer, sign included, gives the integer |
| Primitives.InterpolateKeys | src/Typeahead/helpers/useSearch.ts:52 | a string primitive is its own search key and different numbers get different search keys |
| UseSearchFindings.Find | src/Typeahead/helpers/useSearch.ts:69 | `find` returns a value exactly when the entry is in the list, and the value it returns is the entry |
| UseSearchFindings.FilteredOptionsAsWritten | src/Typeahead/helpers/useSearch.ts:63-74 | the list as the code builds it: the base list without custom values, and one that contains the entry text with them |
| UseSearchFindings.AsWrittenAgreesOnNonEmptyEntry | src/Typeahead/helpers/useSearch.ts:69 | for every non-empty entry text the code as written and the corrected list agree |
| UseSearchFindings.AsWrittenRepeatsPresentEmptyEntry | src/Typeahead/helpers/useSearch.ts:69-72 | for every input with an empty entry already in the base list and custom values on, the code as written puts the entry in front again while the corrected list is the base list |
| UseSearchFindings.AsWrittenDuplicatesEmptyEntry | src/Typeahead/helpers/useSearch.ts:69 | with options `[""]`, an empty entry and custom values on, the code as written shows `["", ""]` and the corrected list `[""]` |
| TestPlans.StringOptionsAreTheirKeys | src/Typeahead/helpers/useSearch.ts:52 | string options used as their own primitive are matched on themselves |
| TestPlans.AcceptingFilterShowsAll | test/typeahead.test-todo.tsx:359-384 | an accepting filterOption on the four Beatles with entry "xxx" shows all four |
| TestPlans.RejectingFilterShowsNone | test/typeahead.test-todo.tsx:359-384 | a rejecting filterOption with entry "o" shows nothing |
| TestPlans.SearchOptionsShownVerbatim | test/typeahead.test-todo.tsx:52-87 | what searchOptions returns for "john" is shown as it is, whatever filterOption says |
| TestPlans.CustomValueForUnmatchedEntry | test/typeahead.test-todo.tsx:130-155 | an unmatched "ZZZ" with custom values on shows only "ZZZ"; "zz" with custom values off shows nothing |

## Findings

| source | as written | input that shows it | evidently intended | confidence | as-written member | corrected member |
|---|---|---|---|---|---|---|
| src/Typeahead/helpers/useSearch.ts:69 | `!values.find(v => v === entryValue)` negates the element found; the element found is the entry text, and the empty string is falsy | entry `""`, search not skipped, custom values on, base list `[""]`: the list becomes `["", ""]` | put the entry text in front only when it is not already in the list | low, not executed; it needs an empty entry that is not skipped while custom values are on | UseSearchFindings.AsWrittenDuplicatesEmptyEntry | UseSearch.FilteredOptions |

## Left out

- React `useMemo` caching and its dependency lists: both values are plain functions of the props.
- `console.warn`: the warning is the `warned` field of `Resolve`'s result.
- The `fuzzy` library's scoring and ranking: it is foreign code, kept abstract as `Matcher`. So the fuzzy-match counts of test/typeahead.test-todo.tsx:386-406 are not derived.
- `Accessor.generateAccessor`, `option2primitive` and `shouldSkipSearch` are defined outside the hook and are uninterpreted functions.
- Numbers returned by `option2primitive` are modelled as integers printed in plain decimal. JavaScript prints integers of magnitude 10^21 or more with an exponent (`${1e21}` is `"1e+21"`) and holds integers above 2^53 only approximately; those, fractions, `NaN` and `Infinity` are not modelled.
- The numeric custom-value length threshold is turned into the `allowCustomValues` boolean before the hook runs.
- Keyboard navigation, selection, display and form values: their code is not part of this model.
- src/Typeahead/option.tsx (list-item class names and click handling), examples/src/FormikExample.tsx and dist/typeahead/index.d.ts hold no filtering logic.
- The search-options tests map options to objects of another type; the model keeps one option type, so `SearchOptionsFunction` maps `Opt[]` to `Opt[]`, as the hook's own type says.
