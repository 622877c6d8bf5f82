# Myimob front-end: filtering, autocomplete and visibility state, modelled in Dafny

This project models the behavioural core of the Myimob real-estate site, a Next.js/React
front end. It covers four components.

- **Properties page** (`src/app/propriedades/page.tsx`). A read-only catalog of listings is
  narrowed by six optional criteria: minimum and maximum price, minimum bedrooms and
  bathrooms, garage yes/no, and a location substring. Each present criterion is one guarded
  `filter` pass over the running result. `ApplyFilters` is an imperative method that
  reassigns `currentFiltered` stage by stage. It is proved equal to a single reference
  filter, `Filtered`, by the conjunction of all criteria. Lemmas about `Filtered` establish:
  - identity when no criterion is set;
  - that the result is an order-preserving subsequence with exact multiplicities;
  - that price and room bounds are inclusive;
  - the garage rule;
  - that an empty location is ignored, and location matching ignores case;
  - that adding a criterion only narrows the result.
- **Filter panel** (`src/components/properties-filter.tsx`). A class holding the form's
  string fields and the location autocomplete. Its handlers are methods that keep an
  invariant: the suggestion list holds only known locations, and while shown it is exactly
  the case-insensitive matches for the typed query. `ApplyFilters` turns the form into
  criteria; its contract states how each field maps, in both directions. `ClearFilters`
  resets the form and emits the all-absent criteria, which the page maps back to the whole
  catalog.
- **Floating search widget** (`src/components/floating-search.tsx`). Two `CustomSelect`
  dropdowns, each an object with an open flag and a selected value. A location input offers
  suggestions over the widget's fixed list of 15 cities. The widget's visibility follows
  scrolling and the pointer's distance from the bottom edge. The preserved invariant says:
  - while the pointer pins the widget, it is shown;
  - the widget's recorded choices are what each select has selected;
  - the suggestion list is as in the filter panel.
- **Site header** (`src/components/header.tsx`). The same scroll rule, overridden by a
  pointer near the top, and a navigation bar in which exactly the active section's item is
  highlighted (at most one, since ids are distinct).

Shared rules are defined once. `Seqs.Filter` is `Array.prototype.filter`. `Text.Lower` and
`Text.Contains` are `toLowerCase` and `includes`. `Autocomplete.Suggest` is the
location-suggestion rule both inputs use. `ScrollRule.NextVisibility` and
`ScrollRule.AfterPointerLeaves` are the visibility rules that the header and the floating
widget share.

Event handlers are modelled as atomic methods that take plain inputs. A scroll event takes
the new `scrollY`. A mouse move takes `clientY`, plus `innerHeight` and `scrollY` where the
handler reads them. A mousedown takes a boolean saying whether it landed outside the
component. The number parsers `Number.parseFloat` and `Number.parseInt` are passed in as
functions from strings to integers. The catalog imported from the mock-data module, and the
filter panel's location list, are constructor parameters.

## Model

| member | source | states |
|---|---|---|
| PropertyListing.ApplyFilters | src/app/propriedades/page.tsx:22-46 | the six guarded passes, taken in order on `currentFiltered`, give exactly the reference result `Filtered(catalog, filters)` |
| PropertyListing.StageStep | src/app/propriedades/page.tsx:25-44 | one guarded stage applied after the earlier ones equals filtering by those criteria plus this one; a skipped stage changes nothing |
| PropertyListing.FilteredIsConjunctiveSubsequence | src/app/propriedades/page.tsx:23-44 | the result is no longer than the catalog and an order-preserving subsequence of it; a record is in it iff it is in the catalog and meets every present criterion; each record keeps its multiplicity or has none |
| PropertyListing.PropertiesPage.constructor | src/app/propriedades/page.tsx:11-19 | initially no criterion is set and the whole catalog is displayed |
| PropertyListing.PropertiesPage.HandleFilterChange | src/app/propriedades/page.tsx:21-54 | the new criteria are stored and the display becomes the catalog filtered by them; the display invariant is kept |
| PropertyListing.NoCriteriaKeepsCatalog | src/app/propriedades/page.tsx:23-46 | with every criterion absent the result is the catalog itself (same records, order and count) |
| PropertyListing.EmptyCatalogEmptyResult | src/app/propriedades/page.tsx:23-46 | an empty catalog yields an empty result under any criteria |
| PropertyListing.KeptIffAllCriteriaHold | src/app/propriedades/page.tsx:25-44 | a catalog record is kept iff it passes all six stage predicates |
| PropertyListing.BoundariesInclusive | src/app/propriedades/page.tsx:25-36 | a record whose price equals both bounds and whose room counts equal the thresholds survives |
| PropertyListing.PresentBoundsEnforced | src/app/propriedades/page.tsx:25-36 | every kept record meets each present numeric criterion, a zero bound included |
| PropertyListing.InvertedPriceRangeIsEmpty | src/app/propriedades/page.tsx:25-30 | a minimum price above the maximum leaves nothing |
| PropertyListing.GarageSemantics | src/app/propriedades/page.tsx:37-39 | garage `true` keeps only records with `garage > 0`, `false` only records with `garage == 0` |
| PropertyListing.BlankLocationIgnored | src/app/propriedades/page.tsx:40-44 | an empty location string filters exactly as an absent one (the guard tests truthiness) |
| PropertyListing.LocationCaseInsensitive | src/app/propriedades/page.tsx:40-44 | lower-casing the location query first does not change the result |
| PropertyListing.MoreCriteriaNarrow | src/app/propriedades/page.tsx:23-44 | with further criteria the result is a subsequence of, and no longer than, the result with fewer |
| Seqs.Filter | src/app/propriedades/page.tsx:26 | `Array.prototype.filter`: the result is no longer than the input and every element of it passes the callback |
| Seqs.FilterFuse | src/app/propriedades/page.tsx:25-44 | two successive `filter` passes equal one pass by the conjunction of their callbacks |
| Seqs.FilterNarrows | src/app/propriedades/page.tsx:25-44 | filtering by a stronger callback gives a subsequence of filtering by a weaker one |
| PropertyListing.PriceAtLeast | src/app/propriedades/page.tsx:26 | the minimum-price callback keeps a record iff the criteria holding only that minimum accept it |
| PropertyListing.PriceAtMost | src/app/propriedades/page.tsx:29 | the maximum-price callback keeps a record iff the criteria holding only that maximum accept it |
| PropertyListing.BedroomsAtLeast | src/app/propriedades/page.tsx:32 | the bedrooms callback keeps a record iff the criteria holding only that threshold accept it |
| PropertyListing.BathroomsAtLeast | src/app/propriedades/page.tsx:35 | the bathrooms callback keeps a record iff the criteria holding only that threshold accept it |
| PropertyListing.GarageMatches | src/app/propriedades/page.tsx:38 | the garage callback keeps a record iff the criteria holding only that garage flag accept it |
| PropertyListing.LocationIncludes | src/app/propriedades/page.tsx:41-43 | the location callback keeps a record iff the criteria holding only that location accept it, the empty location included |
| Text.Lower | src/app/propriedades/page.tsx:42 | `toLowerCase` keeps the length and lower-cases each character in place |
| Text.Contains | src/app/propriedades/page.tsx:42 | `includes`: the empty string is contained in every string, and nothing longer than the text is |
| Text.ContainsGivesOccurrence | src/app/propriedades/page.tsx:42 | where `includes` holds, it returns a position at which the query occurs |
| Text.OccurrenceGivesContains | src/app/propriedades/page.tsx:42 | an occurrence of the query at any position makes `includes` hold |
| Text.ContainsIffOccurs | src/app/propriedades/page.tsx:42 | `includes` holds iff the query occurs at some position of the text |
| Text.MatchesIgnoringCase | src/app/propriedades/page.tsx:42 | the case-insensitive test: the empty query matches every text, and no query longer than the text matches it |
| Text.QueryCaseIrrelevant | src/app/propriedades/page.tsx:42 | lower-casing the query before the case-insensitive test changes nothing |
| Text.CopacabanaExample | src/app/propriedades/page.tsx:41-43 | "rio" and "RIO" match "Copacabana, Rio de Janeiro" and "xyz" does not |
| Autocomplete.Suggest | src/components/properties-filter.tsx:49 | the suggestions are an order-preserving subsequence of the locations; a location is suggested iff it is known and contains the query ignoring case; multiplicities are kept |
| Autocomplete.EmptyQuerySuggestsAll | src/components/properties-filter.tsx:48-55 | the rule on its own would suggest every location for the empty query, which is why the handlers treat that case apart |
| Autocomplete.QueryCaseIrrelevantForSuggestions | src/components/properties-filter.tsx:49 | lower-casing the typed query first gives the same suggestions |
| ScrollRule.NextVisibility | src/components/header.tsx:26-30 | the element hides iff the position is past 50 and below the last one (or level with it while hidden); positions at or above 50, or scrolling up, show it |
| ScrollRule.AfterPointerLeaves | src/components/header.tsx:39-44 | leaving the pinning edge never shows the element; it hides iff it was hidden or the page is past 50 and below the last position |
| ScrollRule.RepeatedScrollIsIdempotent | src/components/header.tsx:26-31 | a second scroll event at the position just recorded leaves visibility as it is |
| ScrollRule.DownThenUpShows | src/components/header.tsx:26-31 | scrolling down past 50 hides the element, and scrolling back up after that shows it |
| FilterPanel.PropertiesFilter.constructor | src/components/properties-filter.tsx:24-31 | empty prices, "any" selects, empty query, no suggestions, list hidden; invariant established |
| FilterPanel.PropertiesFilter.SetMinPrice | src/components/properties-filter.tsx:105 | the minimum-price field takes the typed text; every other field is unchanged |
| FilterPanel.PropertiesFilter.SetMaxPrice | src/components/properties-filter.tsx:115 | the maximum-price field takes the typed text; every other field is unchanged |
| FilterPanel.PropertiesFilter.SetBedrooms | src/components/properties-filter.tsx:122 | the bedrooms select takes the chosen value; every other field is unchanged |
| FilterPanel.PropertiesFilter.SetBathrooms | src/components/properties-filter.tsx:138 | the bathrooms select takes the chosen value; every other field is unchanged |
| FilterPanel.PropertiesFilter.SetGarage | src/components/properties-filter.tsx:153 | the garage select takes the chosen value; every other field is unchanged |
| FilterPanel.PropertiesFilter.HandleLocationInputChange | src/components/properties-filter.tsx:44-56 | the query always becomes the typed text; a non-empty one shows its suggestions, an empty one clears and hides them; price and select fields are unchanged |
| FilterPanel.PropertiesFilter.HandleSelectSuggestion | src/components/properties-filter.tsx:58-61 | the query becomes the chosen suggestion and the list hides; the suggestions themselves are unchanged |
| FilterPanel.PropertiesFilter.HandleClickOutsideInput | src/components/properties-filter.tsx:34-42 | a press outside the location field hides the list, one inside changes nothing; nothing else changes |
| FilterPanel.PropertiesFilter.ApplyFilters | src/components/properties-filter.tsx:63-72 | each price is absent iff its field is empty, else the parsed text; each room count is absent iff "any", else the parsed text; garage is `true` iff "yes" and `false` iff "no"; location is absent iff the query is empty, else the query itself |
| FilterPanel.PropertiesFilter.ClearFilters | src/components/properties-filter.tsx:74-91 | every field is back to its initial value, the emitted criteria are all absent, and they equal what the cleared form now yields |
| FilterPanel.PropertiesFilter.ListShown | src/components/properties-filter.tsx:177 | whether the list is rendered; in a valid state a rendered list is exactly the suggestions for the typed, non-empty query |
| FilterPanel.ShownSuggestionsMatchQuery | src/components/properties-filter.tsx:48-51 | while the list is rendered, every entry is a known location containing the query ignoring case |
| FilterPanel.NoBlankLocationSent | src/components/properties-filter.tsx:70 | the panel never sends an empty location string |
| FilterPanel.RoomChoiceIsThreshold | src/components/properties-filter.tsx:128-148 | with a parser that reads single digits, choosing the `k`-th bedrooms or bathrooms entry sends the threshold `k` |
| FilterPanel.GarageChoiceMeaning | src/components/properties-filter.tsx:159-161 | the garage entries "any", "yes" and "no" send no constraint, `true` and `false` |
| FloatingSearchWidget.FirstIndexOf | src/components/floating-search.tsx:50 | the index found carries the value and no earlier option does; nothing is found iff no option carries it |
| FloatingSearchWidget.DisplayLabel | src/components/floating-search.tsx:50 | the placeholder when nothing (or the empty value) is selected; otherwise nothing iff no option has the value, and otherwise the label of the first option with that value |
| FloatingSearchWidget.SelectedLabelShown | src/components/floating-search.tsx:50 | with distinct non-empty values, selecting an option's value shows exactly that option's label |
| FloatingSearchWidget.OptionListsWellFormed | src/components/floating-search.tsx:218-236 | both option lists have distinct, non-empty values |
| FloatingSearchWidget.CustomSelect.constructor | src/components/floating-search.tsx:27-28 | the list starts closed with nothing selected |
| FloatingSearchWidget.CustomSelect.HandleToggle | src/components/floating-search.tsx:31 | the open flag flips; the selection is unchanged |
| FloatingSearchWidget.CustomSelect.HandleSelect | src/components/floating-search.tsx:33-37 | the value becomes the selection, the list closes, and the same value is reported |
| FloatingSearchWidget.CustomSelect.HandleClickOutside | src/components/floating-search.tsx:40-48 | a press outside closes the list, one inside changes nothing; the selection is unchanged |
| FloatingSearchWidget.CustomSelect.Shown | src/components/floating-search.tsx:50-65 | with nothing selected the trigger shows the placeholder |
| FloatingSearchWidget.FloatingSearch.constructor | src/components/floating-search.tsx:123-131 | visible, last position 0, not pinned, empty query, no suggestions, list hidden, nothing chosen, both selects closed, over the 15-entry location list |
| FloatingSearchWidget.FloatingSearch.HandleScroll | src/components/floating-search.tsx:134-148 | while pinned near the bottom nothing changes; otherwise visibility follows the scroll rule and the position is recorded; other state is unchanged |
| FloatingSearchWidget.FloatingSearch.HandleMouseMove | src/components/floating-search.tsx:150-161 | the pin is set iff the pointer is within 100 px of the bottom, and then the widget shows; otherwise it hides iff it was hidden or the page is past 50 and below the last position; the last position is untouched |
| FloatingSearchWidget.FloatingSearch.HandleClickOutsideInput | src/components/floating-search.tsx:163-167 | a press outside the input hides the suggestions; nothing else changes |
| FloatingSearchWidget.FloatingSearch.HandleLocationInputChange | src/components/floating-search.tsx:180-194 | the query becomes the typed text; a non-empty one shows its suggestions over the fixed list, an empty one clears and hides them |
| FloatingSearchWidget.FloatingSearch.HandleSelectSuggestion | src/components/floating-search.tsx:196-199 | the query becomes the chosen suggestion and the list hides; the suggestions are unchanged |
| FloatingSearchWidget.FloatingSearch.ChooseAction | src/components/floating-search.tsx:215-225 | the action select records and closes, and the widget's chosen action becomes the reported value; the other choice is unchanged |
| FloatingSearchWidget.FloatingSearch.ChoosePropertyType | src/components/floating-search.tsx:226-237 | the type select records and closes, and the widget's chosen type becomes the reported value; the other choice is unchanged |
| FloatingSearchWidget.ChosenActionLabelShown | src/components/floating-search.tsx:215-225 | after choosing the `i`-th action its trigger shows that action's label |
| FloatingSearchWidget.ChosenTypeLabelShown | src/components/floating-search.tsx:226-237 | after choosing the `i`-th property type its trigger shows that type's label |
| FloatingSearchWidget.LocationSuggestsItself | src/components/floating-search.tsx:185-187 | every known location is suggested for its own full name |
| SiteHeader.IsHighlighted | src/components/header.tsx:82 | by definition: an item is highlighted iff its id equals the active section (no contract of its own; `OnlyChosenItemHighlighted` and `HighlightCount` state its consequences) |
| SiteHeader.HighlightCount | src/components/header.tsx:77-83 | at most as many highlighted items as items; none iff no id equals the active section; at most one when ids are distinct |
| SiteHeader.OnlyChosenItemHighlighted | src/components/header.tsx:82 | with distinct ids, an item's id as active section highlights that item and no other |
| SiteHeader.AtMostOneHighlighted | src/components/header.tsx:56-62 | the bar's ids are distinct, so at most one link is highlighted |
| SiteHeader.Header.constructor | src/components/header.tsx:12-15 | the active section defaults to "home" when not given; initially visible, last position 0, not pinned |
| SiteHeader.Header.HandleScroll | src/components/header.tsx:18-32 | while pinned near the top nothing changes; otherwise visibility follows the scroll rule and the position is recorded; the pinned-means-visible invariant is kept |
| SiteHeader.Header.HandleMouseMove | src/components/header.tsx:34-45 | the pin is set iff `clientY < 50`, and then the header shows; otherwise it hides iff it was hidden or the page is past 50 and below the last position; the last position is untouched |
| SiteHeader.Header.Highlighted | src/components/header.tsx:77-94 | the header highlights at most one link, and exactly one iff some link's id is the active section |
| SiteHeader.DefaultHighlightsHome | src/components/header.tsx:12 | with the default active section, "Início" is highlighted and no other link is |

## Left out

- Number parsing: `Number.parseFloat` and `Number.parseInt` are function parameters
  returning integers. Prices are integers. `NaN` (a non-numeric price text) and fractional
  prices are not modelled; in the source a `NaN` bound is "present" and empties the result.
- Scroll and pointer positions (`window.scrollY`, `clientY`, `innerHeight`) are integers,
  not JavaScript doubles. The rules only compare positions with each other, with 50 and with
  `innerHeight - 100`, so no behaviour depends on the fraction.
- FilterPanel.PropertiesFilter.ApplyFilters: treats the parser's result as a plain
  integer, which is weaker than JavaScript's float semantics for the same text.
- Case conversion: `toLowerCase` is modelled on ASCII letters only. Accented capitals such
  as "É" are left as they are, whereas JavaScript lower-cases them.
- DOM containment (`ref.current.contains(event.target)`) becomes a boolean `outside`
  parameter. A missing ref, which only happens before mounting, is folded into it.
- Listener registration and cleanup, React's asynchronous state batching and re-rendering:
  each handler is one atomic state transition. The page's `useEffect` on `filters` runs
  inside `HandleFilterChange`.
- Rendering, class names, transitions, icons and ARIA attributes.
- The mock-data module is not part of this model. The catalog and the filter panel's
  location list are parameters; only the fields the filter reads are modelled.
- The floating widget's search button has no handler in the source, so there is nothing to
  model.
- The other components (cards, property detail and grid, panorama viewer, testimonials,
  services, hero, about, footer, layout): presentation, DOM or float arithmetic, or foreign
  libraries.
- FloatingSearchWidget.CustomSelect.Shown: states only the placeholder case itself. The
  selected cases are stated by `DisplayLabel`, which it returns.
