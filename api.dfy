/** The mock API client (src/lib/api.ts): the participant and advisor calls
    answer at once from fixtures, and the availability query filters the
    advisor fixture by service area, trained program and remaining units. */
module Api {
  import opened Seqs
  import opened TeamTypes

  /** `ApiResponse<T>`: optional data, optional error. */
  datatype ApiResponse<T> = ApiResponse(data: Option<T>, error: Option<string>)

  /** `{ success: true }`. */
  datatype Ack = Ack(success: bool)

  const Acknowledged: ApiResponse<Ack> := ApiResponse(Some(Ack(true)), None)

  /** `participants.updateStatus`: always acknowledges, whatever the id and status. */
  function UpdateStatus<S>(id: string, status: S): (r: ApiResponse<Ack>)
    ensures r.data == Some(Ack(true)) && r.error.None?
  {
    Acknowledged
  }

  /** `participants.toggleHold`: always acknowledges. */
  function ToggleHold(id: string): (r: ApiResponse<Ack>)
    ensures r.data == Some(Ack(true)) && r.error.None?
  {
    Acknowledged
  }

  /** `advisors.updateUnits`: always acknowledges; the units are not checked. */
  function UpdateUnits(advisorId: string, units: real): (r: ApiResponse<Ack>)
    ensures r.data == Some(Ack(true)) && r.error.None?
  {
    Acknowledged
  }

  /** An advisor who serves `location`, is trained in `program` and has contract units left. */
  predicate Available(a: EnergyAdvisor, location: string, program: string) {
    location in a.serviceAreas && program in a.programsTrainedIn && a.totalContractUnits > 0.0
  }

  /** `advisors.getAvailable({ location, program })` over the advisor fixture `advisors`. */
  function GetAvailable(advisors: seq<EnergyAdvisor>, location: string, program: string): (r: ApiResponse<seq<EnergyAdvisor>>)
    ensures r.data.Some? && r.error.None?
  {
    ApiResponse(Some(Filter(advisors, (a: EnergyAdvisor) => Available(a, location, program))), None)
  }

  // ---------------------------------------------------------------------

  /** The advisors returned are exactly the available ones of the fixture, in fixture order. */
  lemma GetAvailableExact(advisors: seq<EnergyAdvisor>, location: string, program: string)
    ensures var r := GetAvailable(advisors, location, program).data.value;
      IsSubsequence(r, advisors)
      && (forall a :: a in r <==> a in advisors && Available(a, location, program))
  {
    var f := (a: EnergyAdvisor) => Available(a, location, program);
    FilterIsSubsequence(advisors, f);
    forall a ensures a in Filter(advisors, f) <==> a in advisors && Available(a, location, program) {
      FilterMembership(advisors, f, a);
    }
  }

  /** An advisor with no contract units left is never offered, whatever the area and program. */
  lemma ExhaustedAdvisorNeverAvailable(advisors: seq<EnergyAdvisor>, a: EnergyAdvisor, location: string, program: string)
    requires a.totalContractUnits <= 0.0
    ensures a !in GetAvailable(advisors, location, program).data.value
  {
    FilterMembership(advisors, (b: EnergyAdvisor) => Available(b, location, program), a);
  }
}
