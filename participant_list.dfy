/** The participant list's filter chain (src/components/participants/ParticipantList.tsx,
    lines 17-52): the list is narrowed step by step by the search text, the
    program, the location and the time range read from the page's query
    parameters.  A step whose parameter is missing, empty or 'All' is skipped. */
module ParticipantList {
  import opened Seqs
  import opened ParticipantTypes

  /** The page's query parameters, one value per key. */
  type Params = map<string, string>

  /** `searchParams.get(key)`: `null` when the key is absent. */
  function Get(params: Params, key: string): Option<string> {
    if key in params then Some(params[key]) else None
  }

  /** `toLowerCase` on one character, for the ASCII letters. */
  function LowerChar(c: char): (r: char)
    ensures ('A' <= c <= 'Z') ==> r as int == c as int + 32
    ensures !('A' <= c <= 'Z') ==> r == c
  {
    if 'A' <= c <= 'Z' then (c as int + 32) as char else c
  }

  function Lower(s: string): (r: string)
    ensures |r| == |s|
    ensures forall i :: 0 <= i < |s| ==> r[i] == LowerChar(s[i])
  {
    seq(|s|, i requires 0 <= i < |s| => LowerChar(s[i]))
  }

  predicate IsPrefix(p: string, s: string) {
    |p| <= |s| && s[..|p|] == p
  }

  /** `s.includes(sub)`: `sub` starts somewhere in `s`. */
  predicate Includes(s: string, sub: string)
    decreases |s|
  {
    IsPrefix(sub, s) || (|s| > 0 && Includes(s[1..], sub))
  }

  const DayMs: int := 86400000

  /** 'Last 7 days' is 7 days, 'Last 30 days' 30, anything else 90. */
  function RangeDays(timeRange: string): nat {
    if timeRange == "Last 7 days" then 7 else if timeRange == "Last 30 days" then 30 else 90
  }

  /** `value && value !== 'All'`: present, non-empty and not 'All'. */
  predicate Active(v: Option<string>) {
    v.Some? && v.value != "" && v.value != "All"
  }

  /** The lowercased search text, when it is non-empty. */
  function SearchTerm(params: Params): (r: Option<string>)
    ensures r.Some? <==> Get(params, "search").Some? && Get(params, "search").value != ""
  {
    var s := Get(params, "search");
    if s.Some? && Lower(s.value) != [] then Some(Lower(s.value)) else None
  }

  predicate MatchesSearch(p: Participant, q: string) {
    Includes(Lower(p.firstName), q) || Includes(Lower(p.lastName), q)
    || Includes(Lower(p.email), q) || Includes(Lower(p.address), q)
  }

  predicate SearchOk(p: Participant, params: Params) {
    SearchTerm(params).Some? ==> MatchesSearch(p, SearchTerm(params).value)
  }

  predicate ProgramOk(p: Participant, params: Params) {
    Active(Get(params, "program")) ==> p.program == Get(params, "program").value
  }

  predicate LocationOk(p: Participant, params: Params) {
    Active(Get(params, "location")) ==> p.city == Get(params, "location").value
  }

  /** The cutoff is `now` moved back by the range's number of days. */
  predicate TimeOk(p: Participant, params: Params, now: Instant) {
    Active(Get(params, "timeRange")) ==> p.createdAt >= now - RangeDays(Get(params, "timeRange").value) * DayMs
  }

  /** The single predicate the chain amounts to: the conjunction of the active steps. */
  predicate Matches(p: Participant, params: Params, now: Instant) {
    SearchOk(p, params) && ProgramOk(p, params) && LocationOk(p, params) && TimeOk(p, params, now)
  }

  /** `filteredParticipants` at instant `now`, one guarded step after another. */
  method FilteredParticipants(participants: seq<Participant>, params: Params, now: Instant)
    returns (filtered: seq<Participant>)
    ensures filtered == Filter(participants, (p: Participant) => Matches(p, params, now))
    ensures IsSubsequence(filtered, participants)
    ensures forall p :: p in filtered <==> p in participants && Matches(p, params, now)
  {
    var f1 := (p: Participant) => SearchOk(p, params);
    var f2 := (p: Participant) => SearchOk(p, params) && ProgramOk(p, params);
    var f3 := (p: Participant) => SearchOk(p, params) && ProgramOk(p, params) && LocationOk(p, params);
    var f4 := (p: Participant) => Matches(p, params, now);

    filtered := participants;

    var search := SearchTerm(params);
    var program := Get(params, "program");
    var location := Get(params, "location");
    var timeRange := Get(params, "timeRange");

    if search.Some? {
      var g := (p: Participant) => MatchesSearch(p, search.value);
      filtered := Filter(filtered, g);
      assert filtered == Filter(participants, f1) by { FilterSame(participants, g, f1); }
    } else {
      assert filtered == Filter(participants, f1) by { FilterKeepsAll(participants, f1); }
    }

    if program.Some? && program.value != "" && program.value != "All" {
      var g := (p: Participant) => p.program == program.value;
      filtered := Filter(filtered, g);
      assert filtered == Filter(participants, f2) by { FilterFilter(participants, f1, g, f2); }
    } else {
      assert filtered == Filter(participants, f2) by { FilterSame(participants, f1, f2); }
    }

    if location.Some? && location.value != "" && location.value != "All" {
      var g := (p: Participant) => p.city == location.value;
      filtered := Filter(filtered, g);
      assert filtered == Filter(participants, f3) by { FilterFilter(participants, f2, g, f3); }
    } else {
      assert filtered == Filter(participants, f3) by { FilterSame(participants, f2, f3); }
    }

    if timeRange.Some? && timeRange.value != "" && timeRange.value != "All" {
      var days := RangeDays(timeRange.value);
      var cutoff := now - days * DayMs;
      var g := (p: Participant) => p.createdAt >= cutoff;
      filtered := Filter(filtered, g);
      assert filtered == Filter(participants, f4) by { FilterFilter(participants, f3, g, f4); }
    } else {
      assert filtered == Filter(participants, f4) by { FilterSame(participants, f3, f4); }
    }

    FilterIsSubsequence(participants, f4);
    forall p ensures p in filtered <==> p in participants && Matches(p, params, now) {
      FilterMembership(participants, f4, p);
    }
  }

  // ---------------------------------------------------------------------

  /** `sub` occurs in `s` starting at position `i`. */
  predicate OccursAt(s: string, sub: string, i: int) {
    0 <= i <= |s| - |sub| && s[i..i + |sub|] == sub
  }

  /** Reference definition of `includes`: `sub` occurs at some position of `s`. */
  lemma {:induction false} IncludesIffOccurs(s: string, sub: string)
    ensures Includes(s, sub) <==> exists i :: OccursAt(s, sub, i)
    decreases |s|
  {
    if IsPrefix(sub, s) {
      assert OccursAt(s, sub, 0);
    }
    if |s| > 0 {
      IncludesIffOccurs(s[1..], sub);
      if exists i :: OccursAt(s[1..], sub, i) {
        var i :| OccursAt(s[1..], sub, i);
        assert s[1..][i..i + |sub|] == s[i + 1..i + 1 + |sub|];
        assert OccursAt(s, sub, i + 1);
      }
      if exists i :: OccursAt(s, sub, i) {
        var i :| OccursAt(s, sub, i);
        if i == 0 {
          assert IsPrefix(sub, s);
        } else {
          assert s[1..][i - 1..i - 1 + |sub|] == s[i..i + |sub|];
          assert OccursAt(s[1..], sub, i - 1);
        }
      }
    } else if exists i :: OccursAt(s, sub, i) {
      var i :| OccursAt(s, sub, i);
      assert IsPrefix(sub, s);
    }
  }

  /** With no query parameters the chain keeps every participant. */
  lemma NoParamsKeepsAll(participants: seq<Participant>, now: Instant)
    ensures Filter(participants, (p: Participant) => Matches(p, map[], now)) == participants
  {
    FilterKeepsAll(participants, (p: Participant) => Matches(p, map[], now));
  }

  /** A program or location of 'All', or none at all, does not narrow the list;
      any other non-empty value keeps exactly the equal entries. */
  lemma ProgramAndLocationRule(p: Participant, params: Params)
    ensures Get(params, "program") == Some("All") || Get(params, "program").None? ==> ProgramOk(p, params)
    ensures Get(params, "location") == Some("All") || Get(params, "location").None? ==> LocationOk(p, params)
    ensures Active(Get(params, "program")) ==> (ProgramOk(p, params) <==> p.program == params["program"])
    ensures Active(Get(params, "location")) ==> (LocationOk(p, params) <==> p.city == params["location"])
  {
  }

  /** The three ranges the filter bar offers map to 7, 30 and 90 days; any other value also reads as 90. */
  lemma RangeDaysValues(t: string)
    ensures RangeDays("Last 7 days") == 7 && RangeDays("Last 30 days") == 30 && RangeDays("Last 90 days") == 90
    ensures t != "Last 7 days" && t != "Last 30 days" ==> RangeDays(t) == 90
  {
  }

  /** A wider time range keeps everything a narrower one keeps. */
  lemma WiderRangeKeepsMore(p: Participant, now: Instant, narrow: string, wide: string)
    requires RangeDays(narrow) <= RangeDays(wide)
    ensures p.createdAt >= now - RangeDays(narrow) * DayMs ==> p.createdAt >= now - RangeDays(wide) * DayMs
  {
  }

  /** Search ignores the case of ASCII letters in the stored names and in the query. */
  lemma SearchIgnoresCase(p: Participant, params: Params, q: string)
    requires params == map["search" := q]
    ensures SearchOk(p, params) == SearchOk(p, map["search" := Lower(q)])
  {
    assert Lower(Lower(q)) == Lower(q);
  }
}
