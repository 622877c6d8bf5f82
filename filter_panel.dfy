/** The filter panel of the properties page: raw form fields, the location autocomplete, and
    the translation of the form into the page's optional criteria. */
module FilterPanel {
  import opened Options
  import opened Seqs
  import opened Autocomplete
  import PropertyListing

  type Criteria = PropertyListing.Criteria

  /** The choices of the three selects; "any" means no constraint. */
  const BedroomChoices: seq<string> := ["any", "1", "2", "3", "4", "5"]
  const BathroomChoices: seq<string> := ["any", "1", "2", "3", "4"]
  const GarageChoices: seq<string> := ["any", "yes", "no"]

  /** The `PropertiesFilter` component's state. `locations` is the known location list the
      component imports; `parseFloat` and `parseInt` stand for the number parsers of the
      JavaScript runtime, passed where a value is read. */
  class PropertiesFilter {
    const locations: seq<string>
    var minPrice: string
    var maxPrice: string
    var bedrooms: string
    var bathrooms: string
    var garage: string
    var locationQuery: string
    var suggestions: seq<string>
    var showSuggestions: bool

    /** The suggestion list only ever holds known locations, in their order, and while it is
        shown it is exactly the suggestions for the non-empty query in the input. */
    ghost predicate Valid()
      reads this
    {
      && Subsequence(suggestions, locations)
      && (showSuggestions ==> locationQuery != "" && suggestions == Suggest(locations, locationQuery))
    }

    /** Whether the dropdown is rendered (`showSuggestions && suggestions.length > 0`). In a
        valid state the rendered list is exactly the suggestions for the typed, non-empty
        query. */
    predicate ListShown()
      reads this
      ensures Valid() && ListShown() ==> locationQuery != "" && suggestions == Suggest(locations, locationQuery)
    {
      showSuggestions && |suggestions| > 0
    }

    constructor (locations: seq<string>)
      ensures this.locations == locations
      ensures minPrice == "" && maxPrice == ""
      ensures bedrooms == "any" && bathrooms == "any" && garage == "any"
      ensures locationQuery == "" && suggestions == [] && !showSuggestions
      ensures Valid()
    {
      this.locations := locations;
      minPrice, maxPrice := "", "";
      bedrooms, bathrooms, garage := "any", "any", "any";
      locationQuery, suggestions, showSuggestions := "", [], false;
    }

    // The inputs and selects write their field and nothing else.

    method SetMinPrice(value: string)
      requires Valid()
      modifies this
      ensures Valid()
      ensures minPrice == value
      ensures maxPrice == old(maxPrice) && bedrooms == old(bedrooms) && bathrooms == old(bathrooms)
      ensures garage == old(garage) && locationQuery == old(locationQuery)
      ensures suggestions == old(suggestions) && showSuggestions == old(showSuggestions)
    {
      minPrice := value;
    }

    method SetMaxPrice(value: string)
      requires Valid()
      modifies this
      ensures Valid()
      ensures maxPrice == value
      ensures minPrice == old(minPrice) && bedrooms == old(bedrooms) && bathrooms == old(bathrooms)
      ensures garage == old(garage) && locationQuery == old(locationQuery)
      ensures suggestions == old(suggestions) && showSuggestions == old(showSuggestions)
    {
      maxPrice := value;
    }

    method SetBedrooms(value: string)
      requires Valid()
      modifies this
      ensures Valid()
      ensures bedrooms == value
      ensures minPrice == old(minPrice) && maxPrice == old(maxPrice) && bathrooms == old(bathrooms)
      ensures garage == old(garage) && locationQuery == old(locationQuery)
      ensures suggestions == old(suggestions) && showSuggestions == old(showSuggestions)
    {
      bedrooms := value;
    }

    method SetBathrooms(value: string)
      requires Valid()
      modifies this
      ensures Valid()
      ensures bathrooms == value
      ensures minPrice == old(minPrice) && maxPrice == old(maxPrice) && bedrooms == old(bedrooms)
      ensures garage == old(garage) && locationQuery == old(locationQuery)
      ensures suggestions == old(suggestions) && showSuggestions == old(showSuggestions)
    {
      bathrooms := value;
    }

    method SetGarage(value: string)
      requires Valid()
      modifies this
      ensures Valid()
      ensures garage == value
      ensures minPrice == old(minPrice) && maxPrice == old(maxPrice) && bedrooms == old(bedrooms)
      ensures bathrooms == old(bathrooms) && locationQuery == old(locationQuery)
      ensures suggestions == old(suggestions) && showSuggestions == old(showSuggestions)
    {
      garage := value;
    }

    /** `handleLocationInputChange`: the input always shows what was typed; a non-empty query
        recomputes and shows the suggestions, an empty one clears and hides them. */
    method HandleLocationInputChange(query: string)
      requires Valid()
      modifies this
      ensures Valid()
      ensures locationQuery == query
      ensures query != "" ==> suggestions == Suggest(locations, query) && showSuggestions
      ensures query == "" ==> suggestions == [] && !showSuggestions
      ensures minPrice == old(minPrice) && maxPrice == old(maxPrice) && bedrooms == old(bedrooms)
      ensures bathrooms == old(bathrooms) && garage == old(garage)
    {
      locationQuery := query;
      if |query| > 0 {
        suggestions := Suggest(locations, query);
        showSuggestions := true;
      } else {
        suggestions := [];
        showSuggestions := false;
      }
    }

    /** `handleSelectSuggestion`: the chosen suggestion fills the input and the list hides;
        the list's contents stay as they were. */
    method HandleSelectSuggestion(suggestion: string)
      requires Valid()
      modifies this
      ensures Valid()
      ensures locationQuery == suggestion && !showSuggestions
      ensures suggestions == old(suggestions)
      ensures minPrice == old(minPrice) && maxPrice == old(maxPrice) && bedrooms == old(bedrooms)
      ensures bathrooms == old(bathrooms) && garage == old(garage)
    {
      locationQuery := suggestion;
      showSuggestions := false;
    }

    /** `handleClickOutsideInput`: a mousedown outside the location field hides the list;
        one inside it changes nothing. */
    method HandleClickOutsideInput(outside: bool)
      requires Valid()
      modifies this
      ensures Valid()
      ensures showSuggestions == (old(showSuggestions) && !outside)
      ensures locationQuery == old(locationQuery) && suggestions == old(suggestions)
      ensures minPrice == old(minPrice) && maxPrice == old(maxPrice) && bedrooms == old(bedrooms)
      ensures bathrooms == old(bathrooms) && garage == old(garage)
    {
      if outside {
        showSuggestions := false;
      }
    }

    /** `applyFilters`: the criteria sent to the page. An empty price field and an "any"
        select mean absent; garage "yes" and "no" are present; an empty location is absent
        and any other is passed on unchanged. */
    function ApplyFilters(parseFloat: string -> int, parseInt: string -> int): (c: Criteria)
      reads this
      ensures c.minPrice.None? <==> minPrice == ""
      ensures c.minPrice.Some? ==> c.minPrice.value == parseFloat(minPrice)
      ensures c.maxPrice.None? <==> maxPrice == ""
      ensures c.maxPrice.Some? ==> c.maxPrice.value == parseFloat(maxPrice)
      ensures c.bedrooms.None? <==> bedrooms == "any"
      ensures c.bedrooms.Some? ==> c.bedrooms.value == parseInt(bedrooms)
      ensures c.bathrooms.None? <==> bathrooms == "any"
      ensures c.bathrooms.Some? ==> c.bathrooms.value == parseInt(bathrooms)
      ensures c.garage == Some(true) <==> garage == "yes"
      ensures c.garage == Some(false) <==> garage == "no"
      ensures c.location.None? <==> locationQuery == ""
      ensures c.location.Some? ==> c.location.value == locationQuery && c.location.value != ""
    {
      PropertyListing.Criteria(
        if minPrice != "" then Some(parseFloat(minPrice)) else None,
        if maxPrice != "" then Some(parseFloat(maxPrice)) else None,
        if bedrooms == "any" then None else Some(parseInt(bedrooms)),
        if bathrooms == "any" then None else Some(parseInt(bathrooms)),
        if garage == "yes" then Some(true) else if garage == "no" then Some(false) else None,
        if locationQuery != "" then Some(locationQuery) else None)
    }

    /** `clearFilters`: every field back to its initial value, and the all-absent criteria
        sent to the page, which are also what `applyFilters` now reads from the form. */
    method ClearFilters() returns (c: Criteria)
      requires Valid()
      modifies this
      ensures Valid()
      ensures minPrice == "" && maxPrice == ""
      ensures bedrooms == "any" && bathrooms == "any" && garage == "any"
      ensures locationQuery == "" && suggestions == [] && !showSuggestions
      ensures c == PropertyListing.NoCriteria
      ensures forall parseFloat, parseInt :: ApplyFilters(parseFloat, parseInt) == c
    {
      minPrice, maxPrice := "", "";
      bedrooms, bathrooms, garage := "any", "any", "any";
      locationQuery := "";
      suggestions := [];
      showSuggestions := false;
      c := PropertyListing.NoCriteria;
    }
  }

  /** While the dropdown is rendered, each entry is a known location that contains the typed
      query, ignoring case. */
  lemma ShownSuggestionsMatchQuery(panel: PropertiesFilter)
    requires panel.Valid() && panel.ListShown()
    ensures forall s :: s in panel.suggestions ==>
      s in panel.locations && Text.MatchesIgnoringCase(s, panel.locationQuery)
  {
  }

  /** The criteria read from a form never hold an empty location, so the page's truthiness
      test on `location` and a test for presence agree on them. */
  lemma NoBlankLocationSent(panel: PropertiesFilter, parseFloat: string -> int, parseInt: string -> int)
    ensures panel.ApplyFilters(parseFloat, parseInt).location != Some("")
  {
  }

  /** The garage select's three entries send no constraint, "has a garage" and "has no
      garage", in that order. */
  lemma GarageChoiceMeaning(panel: PropertiesFilter, parseFloat: string -> int, parseInt: string -> int)
    ensures panel.garage == GarageChoices[0] ==> panel.ApplyFilters(parseFloat, parseInt).garage == None
    ensures panel.garage == GarageChoices[1] ==> panel.ApplyFilters(parseFloat, parseInt).garage == Some(true)
    ensures panel.garage == GarageChoices[2] ==> panel.ApplyFilters(parseFloat, parseInt).garage == Some(false)
  {
  }

  /** The one-character string of decimal digit `d`. */
  function DigitString(d: int): (r: string)
    requires 0 <= d <= 9
    ensures |r| == 1 && '0' <= r[0] <= '9'
  {
    [('0' as int + d) as char]
  }

  /** A parser that reads a single decimal digit as its value. */
  ghost predicate ReadsDigits(parseInt: string -> int)
  {
    forall d :: 0 <= d <= 9 ==> parseInt(DigitString(d)) == d
  }

  /** With such a parser, picking "k+" in the bedrooms or bathrooms select asks for at
      least `k` rooms. */
  lemma RoomChoiceIsThreshold(panel: PropertiesFilter, parseFloat: string -> int, parseInt: string -> int, k: int)
    requires ReadsDigits(parseInt)
    requires 1 <= k
    ensures k < |BedroomChoices| && panel.bedrooms == BedroomChoices[k] ==>
      panel.ApplyFilters(parseFloat, parseInt).bedrooms == Some(k)
    ensures k < |BathroomChoices| && panel.bathrooms == BathroomChoices[k] ==>
      panel.ApplyFilters(parseFloat, parseInt).bathrooms == Some(k)
  {
    if k < |BedroomChoices| {
      assert BedroomChoices[k] == DigitString(k);
    }
    if k < |BathroomChoices| {
      assert BathroomChoices[k] == DigitString(k);
    }
  }
}
