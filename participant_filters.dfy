/** The participant filter bar (src/components/participants/ParticipantFilters.tsx):
    the search box and the program, location and time-range selects write
    the page's query parameters, which the participant list reads back. */
module ParticipantFilters {
  import opened Seqs
  import opened ParticipantTypes
  import opened ParticipantList

  const Programs: seq<string> := ["Energy Savings", "Green Home", "Solar Initiative"]
  const Locations: seq<string> := ["North District", "South District", "East District", "West District"]
  const TimeRanges: seq<string> := ["All", "Last 7 days", "Last 30 days", "Last 90 days"]

  /** The parameters after typing `value` into the search box: a non-empty text is
      stored under `search`, an empty one removes the key. */
  function SearchChanged(params: Params, value: string): Params {
    if value != "" then params["search" := value] else params - {"search"}
  }

  /** The parameters after choosing `value` in the select for `key`: 'All' removes the key,
      anything else is stored. */
  function FilterChanged(params: Params, key: string, value: string): Params {
    if value != "All" then params[key := value] else params - {key}
  }

  /** What the search box shows: `searchParams.get('search') || ''`. */
  function ShownSearch(params: Params): string {
    var v := Get(params, "search");
    if v.Some? && v.value != "" then v.value else ""
  }

  /** What a select shows: `searchParams.get(key) || 'All'`. */
  function ShownFilter(params: Params, key: string): string {
    var v := Get(params, key);
    if v.Some? && v.value != "" then v.value else "All"
  }

  /** The bar's state: the page's query parameters. */
  class FilterBar {
    var searchParams: Params

    constructor(initial: Params)
      ensures searchParams == initial
    {
      searchParams := initial;
    }

    method HandleSearchChange(value: string)
      modifies this
      ensures searchParams == SearchChanged(old(searchParams), value)
    {
      var params := searchParams;
      if value != "" {
        params := params["search" := value];
      } else {
        params := params - {"search"};
      }
      searchParams := params;
    }

    method HandleFilterChange(key: string, value: string)
      modifies this
      ensures searchParams == FilterChanged(old(searchParams), key, value)
    {
      var params := searchParams;
      if value != "All" {
        params := params[key := value];
      } else {
        params := params - {key};
      }
      searchParams := params;
    }
  }

  // ---------------------------------------------------------------------

  /** Typing into the search box touches only the `search` key, and the box then shows what was typed. */
  lemma SearchChangeRoundTrip(params: Params, value: string)
    ensures forall k :: k != "search" ==> Get(SearchChanged(params, value), k) == Get(params, k)
    ensures "search" in SearchChanged(params, value) <==> value != ""
    ensures ShownSearch(SearchChanged(params, value)) == value
  {
  }

  /** Choosing in a select touches only its key, and the select then shows the choice. */
  lemma FilterChangeRoundTrip(params: Params, key: string, value: string)
    requires value != ""
    ensures forall k :: k != key ==> Get(FilterChanged(params, key, value), k) == Get(params, k)
    ensures key in FilterChanged(params, key, value) <==> value != "All"
    ensures ShownFilter(FilterChanged(params, key, value), key) == value
  {
  }

  /** After a search change the list keeps a participant exactly when the text is empty or
      the lowercased text occurs in one of the searched fields. */
  lemma SearchChangeNarrowsList(params: Params, value: string, p: Participant)
    ensures SearchOk(p, SearchChanged(params, value)) <==> value == "" || MatchesSearch(p, Lower(value))
  {
  }

  /** Choosing 'All' for program or location lets every participant through that step;
      choosing one of the offered values keeps exactly the participants equal to it. */
  lemma FilterChangeNarrowsList(params: Params, value: string, p: Participant)
    requires value == "All" || value in Programs
    ensures ProgramOk(p, FilterChanged(params, "program", value)) <==> value == "All" || p.program == value
  {
  }

  lemma LocationChangeNarrowsList(params: Params, value: string, p: Participant)
    requires value == "All" || value in Locations
    ensures LocationOk(p, FilterChanged(params, "location", value)) <==> value == "All" || p.city == value
  {
  }

  /** Each time range the bar offers reaches the list as its number of days: 'All' as no cutoff,
      the others as 7, 30 and 90 days before `now`. */
  lemma TimeRangeChoices(params: Params, i: int, p: Participant, now: Instant)
    requires 0 <= i < |TimeRanges|
    ensures var r := FilterChanged(params, "timeRange", TimeRanges[i]);
      TimeOk(p, r, now) <==>
        (i == 0 || p.createdAt >= now - [0, 7, 30, 90][i] * DayMs)
  {
  }

  /** Selecting and then going back to 'All' leaves the key absent, as if never chosen. */
  lemma SelectThenAllClears(params: Params, key: string, value: string)
    ensures FilterChanged(FilterChanged(params, key, value), key, "All") == params - {key}
  {
  }
}
