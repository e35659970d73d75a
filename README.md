# Volunteer opportunities app — verified model of its core

A Dafny model of the logic behind a React Native app that lists volunteer
opportunities in Brazil. The model covers:

- **Opportunity store** (`OpportunitiesApi`): eight fixed listings, three of
  them featured, with the lookups `fetchFeaturedOpportunities`,
  `fetchAllOpportunities` and `fetchOpportunityById`.
- **Opportunities screen** (`Opportunities`): the three-step filter
  (category, state code taken from the location, case-insensitive search)
  and the screen state that drives it. The state is a class whose setters
  re-run the filter.
- **Home screen** (`Home`): the featured list narrowed to the selected
  category.
- **Volunteer form** (`VolunteerForm`):
  - the field update;
  - a validation that builds the error map rule by rule;
  - the `submitting` flag.
- **Theme** (`ThemeContext`): light/dark, the palette each selects, the
  provider class with its toggle, and the default context value.

Supporting modules:
- `JsString` models the JavaScript string primitives the core calls: `trim`,
  `toLowerCase`, `includes`, `split` and indexing with `[1]?`.
- `Sieve` models `Array.prototype.filter` as a specification function
  (`Select`) and as the loop that computes it (`Filter`).
- `Listings` holds list facts shared by the store and the screens: ids,
  `find` by id, and the "City, ST" location format.
- `Types` holds the record shapes.

Whitespace is the ECMAScript WhiteSpace and LineTerminator set. `trim` strips
this set and the regex class `\S` excludes it, so both use one predicate.

The state filter follows the code, `location.split(",")[1]?.trim()`. It
compares the trimmed text between the first and second comma, not everything
after the first comma. `Opportunities.StateOfSecondPiece` states this. For
the stored locations, which have exactly one comma, the two readings agree.

## Model

| member | source | states |
|---|---|---|
| `JsString.IsWs` | screens/VolunteerForm.tsx:69-71 | defines whitespace: the ECMAScript WhiteSpace and LineTerminator characters, which `trim()` strips and `\S` excludes |
| `JsString.TrimStart` | screens/VolunteerForm.tsx:69 | the result is the suffix of the input that starts at its first non-whitespace character; everything dropped is whitespace |
| `JsString.TrimEnd` | screens/VolunteerForm.tsx:69 | the result is the prefix of the input that ends at its last non-whitespace character; everything dropped is whitespace |
| `JsString.Trim` | screens/VolunteerForm.tsx:69 | `trim()` keeps neither leading nor trailing whitespace, and is empty exactly when the input is all whitespace |
| `JsString.TrimSlice` | screens/Opportunities.tsx:91 | what `trim()` keeps is one contiguous slice of the input, and everything outside it is whitespace |
| `JsString.Lower` | screens/Opportunities.tsx:97 | `toLowerCase()` keeps the length and lower-cases character by character |
| `JsString.LowerIdempotent` | screens/Opportunities.tsx:97-102 | lower-casing an already lower-cased text changes nothing |
| `JsString.Includes` | screens/Opportunities.tsx:100-102 | defines `includes`: the needle occurs as a contiguous slice of the text |
| `JsString.Split` | screens/Opportunities.tsx:91 | `split(",")` gives at least one piece; no piece contains the separator; the first piece is the text before the first separator |
| `JsString.JoinSplit` | screens/Opportunities.tsx:91 | joining the pieces of `split(sep)` with `sep` gives back the input (split loses nothing) |
| `JsString.SplitAtFirst` | screens/Opportunities.tsx:91 | a text split at its first separator yields the text before it, followed by the pieces of the rest |
| `JsString.SplitNoSep` | screens/Opportunities.tsx:91 | a text without the separator splits into itself alone |
| `JsString.SplitOnce` | screens/Opportunities.tsx:91 | a text with exactly one separator splits into the text before it and the text after it |
| `JsString.SplitHasSecond` | screens/Opportunities.tsx:91 | `split(",")[1]` exists exactly when the text contains a comma |
| `JsString.At` | screens/Opportunities.tsx:91 | `xs[k]` is defined (and is that element) exactly when `k` is below the length, and `undefined` otherwise |
| `Listings.Find` | api/opportunitiesApi.ts:13 | `find(opp => opp.id === id)` is `undefined` exactly when no listing has the id; otherwise it is a listing of the list with that id |
| `Listings.FindFirst` | api/opportunitiesApi.ts:13 | what `find` returns is the first listing with the id: no earlier listing has it |
| `Listings.FindListed` | api/opportunitiesApi.ts:13 | in a list without repeated ids, finding any listing's id yields that listing |
| `Listings.DistinctIdsFromIds` | api/opportunitiesApi.ts:12-13 | a list whose ids are pairwise distinct strings has no repeated id |
| `Listings.CityState` | api/opportunitiesApi.ts:45 | a location "City, ST" (no comma in the city, two capitals) splits into the city and " ST", and its trimmed second piece is a state code |
| `OpportunitiesApi.FeaturedOpportunities` | api/opportunitiesApi.ts:39-85 | defines the stored featured listings: the three records with ids "1" to "3", field for field, in declaration order |
| `OpportunitiesApi.OtherOpportunities` | api/opportunitiesApi.ts:87-163 | defines the other stored listings: the five records with ids "4" to "8", field for field, in declaration order |
| `OpportunitiesApi.FetchFeaturedOpportunities` | api/opportunitiesApi.ts:3-5 | the featured listings have ids "1", "2", "3" in declaration order, and all are flagged featured |
| `OpportunitiesApi.FetchAllOpportunities` | api/opportunitiesApi.ts:7-9 | eight listings: the featured ones first, then the five others, each list in declaration order |
| `OpportunitiesApi.AllIds` | api/opportunitiesApi.ts:39-163 | the ids of all listings are "1" to "8", in order |
| `OpportunitiesApi.AllIdsDistinct` | api/opportunitiesApi.ts:39-163 | no two stored listings share an id |
| `OpportunitiesApi.OneToEightDistinct` | api/opportunitiesApi.ts:39-163 | the eight id strings are pairwise different |
| `OpportunitiesApi.FetchOpportunityById` | api/opportunitiesApi.ts:11-15 | absent (not an error) exactly when the id is not one of "1".."8"; when present, it has the id and is one of all listings |
| `OpportunitiesApi.FetchByIdIsFirst` | api/opportunitiesApi.ts:12-14 | the lookup returns the first listing, in featured-then-others order, with the id |
| `OpportunitiesApi.FetchByListedId` | api/opportunitiesApi.ts:12-14 | looking up the id of any stored listing returns that very listing |
| `OpportunitiesApi.FeaturedFlags` | api/opportunitiesApi.ts:39-163 | every featured listing is flagged featured and every other listing is not |
| `OpportunitiesApi.LocationsWellFormed` | api/opportunitiesApi.ts:39-163 | every stored location has exactly one comma, and its trimmed second piece is a two-letter state code |
| `Sieve.Select` | screens/Opportunities.tsx:86 | defines `filter`: the elements that pass the test, in their order |
| `Sieve.SelectCount` | screens/Opportunities.tsx:86 | `filter` keeps every passing element as many times as it occurs, and no failing one (exact multiset) |
| `Sieve.SelectMember` | screens/Opportunities.tsx:86 | an element is kept exactly when it is in the list and passes |
| `Sieve.SelectPasses` | screens/Home.tsx:70 | every kept element passes the test |
| `Sieve.SelectIndices` | screens/Opportunities.tsx:86 | the kept elements are the list at strictly increasing positions, and those positions are exactly the passing ones |
| `Sieve.SelectSame` | screens/Opportunities.tsx:86 | two tests that agree on the list's elements keep the same elements |
| `Sieve.SelectSelect` | screens/Opportunities.tsx:83-104 | filtering by one test and then another is filtering once by their conjunction |
| `Sieve.SelectCommute` | screens/Opportunities.tsx:83-104 | two filter steps give the same list in either order |
| `Sieve.SelectIdempotent` | screens/Opportunities.tsx:83-104 | filtering again by the same test changes nothing |
| `Sieve.SelectAll` | screens/Opportunities.tsx:83 | when every element passes, the list is kept whole |
| `Sieve.Filter` | screens/Opportunities.tsx:86 | the loop that appends each passing element computes exactly the specified selection |
| `Opportunities.StateOf` | screens/Opportunities.tsx:91 | `location.split(",")[1]?.trim()` is defined exactly when the location contains a comma |
| `Opportunities.StateOfOneComma` | screens/Opportunities.tsx:91 | a location with exactly one comma is in the state written after it, trimmed |
| `Opportunities.StateOfSecondPiece` | screens/Opportunities.tsx:91 | the state compared is the trimmed text between the first and second comma; text after a second comma is ignored |
| `Opportunities.StateOfCityState` | screens/Opportunities.tsx:89-94 | a location "City, ST" is in state `ST` |
| `Opportunities.InCategory` | screens/Opportunities.tsx:86 | defines the category callback: exact, case-sensitive equality with the selected title |
| `Opportunities.InState` | screens/Opportunities.tsx:90-93 | defines the state callback: the location's trimmed second comma piece equals the selected code |
| `Opportunities.MatchesQuery` | screens/Opportunities.tsx:97-103 | defines the search callback: the query, lower-cased once, occurs in the lower-cased title, organization or location |
| `Opportunities.Passes` | screens/Opportunities.tsx:85-104 | defines passing every switched-on step: category unless "Todos", state when one is selected, search when the query is not empty |
| `Opportunities.Filtered` | screens/Opportunities.tsx:82-107 | defines the shown list: the loaded listings that pass every switched-on step, in loaded order |
| `Opportunities.FilteredCount` | screens/Opportunities.tsx:82-107 | the filtered list holds each listing that passes every active step as often as the loaded list does, and nothing else |
| `Opportunities.FilteredMember` | screens/Opportunities.tsx:82-107 | a listing is shown iff it is loaded and passes each active step: exact category unless "Todos", state piece equal to the selected state when one is selected, and the lower-cased query in the lower-cased title, organization or location when the query is not empty |
| `Opportunities.FilteredNeedsComma` | screens/Opportunities.tsx:89-94 | with a state selected, a listing whose location has no comma is never shown |
| `Opportunities.FilteredSubsequence` | screens/Opportunities.tsx:82-107 | the shown list is the loaded list at increasing positions, exactly those of the passing listings (order preserved) |
| `Opportunities.FilteredIdempotent` | screens/Opportunities.tsx:82-107 | filtering the shown list again with the same selections returns it unchanged |
| `Opportunities.FilteredDefaults` | screens/Opportunities.tsx:83-106 | with "Todos", no state and no query, the shown list is the loaded list |
| `Opportunities.Step` | screens/Opportunities.tsx:85-104 | defines one conditional step: filter by its test when switched on, otherwise pass the list through |
| `Opportunities.FilteredAnyOrder` | screens/Opportunities.tsx:82-107 | for every selection, running the search, state and category steps in reverse order (each only when switched on) gives the same list |
| `Opportunities.QueryCaseInsensitive` | screens/Opportunities.tsx:97-102 | the search ignores the case of the query: a query and its lower-cased form show the same listings |
| `Opportunities.IsSelected` | screens/Opportunities.tsx:210 | defines when a category button is drawn selected: its title equals the selected category (the same test as screens/Home.tsx line 105) |
| `Opportunities.AtMostOneCategorySelected` | screens/Opportunities.tsx:67-76 | the eight category titles are distinct, so at most one button is drawn selected |
| `Opportunities.OpportunitiesScreen.Valid` | screens/Opportunities.tsx:78-80 | defines what the filter effect maintains: the shown list is the filter of the loaded listings under the current selections |
| `Opportunities.OpportunitiesScreen.constructor` | screens/Opportunities.tsx:29-37 | initially nothing is loaded or shown, the category is "Todos", the state and the query are empty, and the screen is loading |
| `Opportunities.OpportunitiesScreen.FilterOpportunities` | screens/Opportunities.tsx:82-107 | the three conditional filter passes, applied in turn, store exactly the specified filtered list; nothing else changes |
| `Opportunities.OpportunitiesScreen.Load` | screens/Opportunities.tsx:39-57 | after loading, the listings and states are stored, loading is off and the shown list is current; with the initial selections the shown list equals the loaded list |
| `Opportunities.OpportunitiesScreen.SelectState` | screens/Opportunities.tsx:123-125 | selecting a state stores its `sigla` and re-filters; the other selections are unchanged |
| `Opportunities.OpportunitiesScreen.ClearState` | screens/Opportunities.tsx:166 | the "Todos" state button empties the state selection, which switches the state step off |
| `Opportunities.OpportunitiesScreen.SetSearchQuery` | screens/Opportunities.tsx:140-144 | typing (or clearing with "") stores the query and re-filters |
| `Opportunities.OpportunitiesScreen.SelectCategory` | screens/Opportunities.tsx:210-211 | pressing a category button stores its title and re-filters |
| `Home.Initial` | screens/Home.tsx:34-37 | the home screen starts with "Todos" selected, nothing loaded, loading |
| `Home.Loaded` | screens/Home.tsx:39-57 | loading stores the featured listings and the states, stops loading, and keeps the selected category |
| `Home.PressCategory` | screens/Home.tsx:106 | pressing a category button selects its title and changes nothing else |
| `Home.FilteredOpportunities` | screens/Home.tsx:68-70 | under "Todos" the featured list itself is shown; otherwise every shown listing has the selected category |
| `Home.HomeIsCategoryFilter` | screens/Home.tsx:68-70 | the home list is the opportunities-screen filter with the same category, no state and no query |
| `Home.HomeMember` | screens/Home.tsx:68-70 | a featured listing is shown iff "Todos" is selected or its category is the selected one |
| `Home.HomeOrder` | screens/Home.tsx:68-70 | the shown listings keep the featured order and are exactly those of the selected category |
| `Home.AtMostOneCategorySelected` | screens/Home.tsx:59-66 | the six titles are distinct, so at most one button is drawn selected |
| `VolunteerForm.InitialForm` | screens/VolunteerForm.tsx:30-37 | the form starts with all six fields empty |
| `VolunteerForm.WithField` | screens/VolunteerForm.tsx:59-64 | `handleChange` sets the named field to the value and leaves every other field unchanged |
| `VolunteerForm.EmailShape` | screens/VolunteerForm.tsx:71 | defines `/\S+@\S+\.\S+/.test`: somewhere in the text a non-whitespace character, `@`, one or more non-whitespace characters, `.`, and a non-whitespace character |
| `VolunteerForm.EmailShapeNotBlank` | screens/VolunteerForm.tsx:70-71 | an address that passes the `\S+@\S+\.\S+` test is not blank, so "required" and "invalid" never apply together |
| `VolunteerForm.NoAtNoEmail` | screens/VolunteerForm.tsx:71 | a text without `@` fails the test |
| `VolunteerForm.EmailShapeOf` | screens/VolunteerForm.tsx:71 | local part, `@`, a whitespace-free domain, `.` and a suffix (with non-blank characters next to the separators) pass the test |
| `VolunteerForm.EmailShapeExtend` | screens/VolunteerForm.tsx:71 | the test is an unanchored search: surrounding a passing text with anything still passes |
| `VolunteerForm.Reports` | screens/VolunteerForm.tsx:66-75 | defines the report for a form: each required-field key exactly when that field is blank once trimmed, with its message; the email key with "required" when blank, "invalid" when the test fails; no other key |
| `VolunteerForm.Complete` | screens/VolunteerForm.tsx:69-74 | defines a complete form: name, phone and availability not blank, and the address passes the test |
| `VolunteerForm.ReportsUnique` | screens/VolunteerForm.tsx:66-78 | the report is determined by the form alone, so no earlier error survives a validation |
| `VolunteerForm.ReportsEmpty` | screens/VolunteerForm.tsx:66-78 | the report is empty exactly when name, phone and availability are filled in and the address passes the test |
| `VolunteerForm.RequireFilled` | screens/VolunteerForm.tsx:69 | one required-field rule records its message under its field exactly when the value is blank once trimmed |
| `VolunteerForm.CheckEmail` | screens/VolunteerForm.tsx:70-71 | the email rule records "required" for a blank address, otherwise "invalid" when the test fails, otherwise nothing |
| `VolunteerForm.NewErrors` | screens/VolunteerForm.tsx:67-75 | the map built rule by rule has a key for each failing rule, with its message, and no other key; it is empty iff the form is complete |
| `VolunteerForm.BadFormReport` | screens/VolunteerForm.tsx:66-78 | an empty form with address "bad" reports name, phone, availability and an invalid (not missing) address |
| `VolunteerForm.GoodAddress` | screens/VolunteerForm.tsx:71 | "a@b.co" passes the test |
| `VolunteerForm.GoodFormComplete` | screens/VolunteerForm.tsx:66-78 | the form ("A", "a@b.co", "1", "", "weekends", "") is complete |
| `VolunteerForm.GoodFormReport` | screens/VolunteerForm.tsx:66-78 | that form reports no error |
| `VolunteerForm.VolunteerFormScreen.constructor` | screens/VolunteerForm.tsx:28-39 | the screen starts with an empty form, no errors, not submitting |
| `VolunteerForm.VolunteerFormScreen.HandleChange` | screens/VolunteerForm.tsx:59-64 | a field update changes only the form |
| `VolunteerForm.VolunteerFormScreen.Validate` | screens/VolunteerForm.tsx:66-78 | the errors are replaced by the report for the current form; the answer is true iff the report has no key iff the form is complete |
| `VolunteerForm.VolunteerFormScreen.HandleSubmit` | screens/VolunteerForm.tsx:80-83 | submitting turns on exactly when the form is complete, and is otherwise untouched |
| `VolunteerForm.VolunteerFormScreen.FinishSubmit` | screens/VolunteerForm.tsx:84-86 | the delayed callback turns submitting off |
| `ThemeContext.PaletteOf` | styles/ThemeContext.tsx:21 | the light theme selects the light palette and the dark theme the dark one |
| `ThemeContext.Flip` | styles/ThemeContext.tsx:20 | the toggle always changes the theme (light to dark, dark to light) |
| `ThemeContext.FlipTwice` | styles/ThemeContext.tsx:20 | toggling twice restores the theme |
| `ThemeContext.DefaultContext` | styles/ThemeContext.tsx:10-14 | outside a provider the theme is light, the colours are the light palette and the toggle changes nothing |
| `ThemeContext.ThemeProvider.constructor` | styles/ThemeContext.tsx:19 | the provider starts light |
| `ThemeContext.ThemeProvider.Colors` | styles/ThemeContext.tsx:21 | the colours are the light palette exactly when the theme is light |
| `ThemeContext.ThemeProvider.ToggleTheme` | styles/ThemeContext.tsx:20 | the theme becomes the other one |
| `ThemeContext.ThemeProvider.Value` | styles/ThemeContext.tsx:24 | the provided value carries the current theme, its palette, and a toggle that always changes the theme |
| `ThemeContext.ToggleTwice` | styles/ThemeContext.tsx:20 | two toggles restore the provider's theme and colours |

## Left out

- `fetchIBGEStates` and `fetchIBGECities` are left out. They are network requests with JSON parsing, and on failure they return an empty list. The city type they parse into is not modelled either.
- `Opportunities.OpportunitiesScreen.Load` and `Home.Loaded` take both the loaded listings and the fetched states as parameters. They accept any sequences, not only what the store returns.
- The `catch` branches of the load effects (console log, `Alert.alert`) are left out. Neither awaited call throws: the store resolves at once and the states fetch absorbs its own errors.
- `useEffect` scheduling is not modelled. Each setter of the opportunities screen re-runs the filter at once, which is the effect's result once it has run. The race in which a late fetch result reaches an unmounted screen is not modelled either.
- The volunteer form's loading of its opportunity (`fetchOpportunityById` in an effect) is left out. So are the detail and about screens, navigation, all rendering, styles and the category icons.
- `VolunteerForm.VolunteerFormScreen.FinishSubmit` models only the timer callback's reset of `submitting`. The 1500 ms delay, the alert and the navigation back to the home screen are not modelled.
- `ThemeContext.PaletteOf`: the two palettes are treated as whole values. Their hex colour entries are not modelled.
- `JsString.Lower` maps only ASCII and Latin-1 capitals (U+00C0 to U+00DE, except U+00D7). Other characters are kept unchanged, because JavaScript's full Unicode case mapping is not modelled.
- `Types.FormErrors` is keyed by the form's field names (`Field`). The source type also allows other string keys, but `validate` only writes the four field keys.
- The filter is proved for all inputs. Its results on particular stored listings are not worked out, such as which listings "Meio Ambiente" keeps.
