/** The location-suggestion rule shared by the filter panel and the floating search widget:
    the known locations whose lower-cased text contains the lower-cased query. */
module Autocomplete {
  import opened Seqs
  import opened Text

  /** The test applied to each location, as the callback passed to `filter`. */
  function Matcher(query: string): string -> bool
  {
    loc => MatchesIgnoringCase(loc, query)
  }

  /** `mockLocations.filter(loc => loc.toLowerCase().includes(query.toLowerCase()))`. */
  function Suggest(locations: seq<string>, query: string): (r: seq<string>)
    ensures Subsequence(r, locations)
    ensures forall loc :: loc in r <==> loc in locations && MatchesIgnoringCase(loc, query)
    ensures forall loc :: multiset(r)[loc] == if MatchesIgnoringCase(loc, query) then multiset(locations)[loc] else 0
  {
    var keep := Matcher(query);
    FilterIsSubsequence(locations, keep);
    FilterMembership(locations, keep);
    assert forall loc :: multiset(Filter(locations, keep))[loc] == if keep(loc) then multiset(locations)[loc] else 0 by {
      forall loc
        ensures multiset(Filter(locations, keep))[loc] == if keep(loc) then multiset(locations)[loc] else 0
      {
        FilterCount(locations, keep, loc);
      }
    }
    Filter(locations, keep)
  }

  /** The empty query is contained in every location, so on its own the rule would suggest
      the whole list; the input handlers therefore treat an empty query separately. */
  lemma {:induction false} EmptyQuerySuggestsAll(locations: seq<string>)
    ensures Suggest(locations, "") == locations
  {
    assert forall i :: 0 <= i < |locations| ==> Matcher("")(locations[i]);
    FilterKeepsAll(locations, Matcher(""));
  }

  /** Typing the query in upper or lower case gives the same suggestions. */
  lemma QueryCaseIrrelevantForSuggestions(locations: seq<string>, query: string)
    ensures Suggest(locations, Lower(query)) == Suggest(locations, query)
  {
    forall i | 0 <= i < |locations|
      ensures Matcher(Lower(query))(locations[i]) == Matcher(query)(locations[i])
    {
      QueryCaseIrrelevant(locations[i], query);
    }
    FilterExtensional(locations, Matcher(Lower(query)), Matcher(query));
  }
}
