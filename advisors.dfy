/** The advisor store (src/store/advisors.ts): the list of energy advisors,
    the availability query delegated to the API, and the update of an
    advisor's contract units. */
module AdvisorStore {
  import opened Seqs
  import opened TeamTypes
  import Api

  /** `advisors.map(a => a.id === advisorId ? { ...a, totalContractUnits: units } : a)`. */
  function SetUnits(advisors: seq<EnergyAdvisor>, advisorId: string, units: real): seq<EnergyAdvisor> {
    MapWhere(advisors, (a: EnergyAdvisor) => a.id == advisorId, (a: EnergyAdvisor) => a.(totalContractUnits := units))
  }

  /** `response.data || []`. */
  function DataOrEmpty(r: Api.ApiResponse<seq<EnergyAdvisor>>): (d: seq<EnergyAdvisor>)
    ensures r.data.Some? ==> d == r.data.value
    ensures r.data.None? ==> d == []
  {
    if r.data.Some? then r.data.value else []
  }

  /** The store's state; the initial list is the advisor fixture, a parameter here. */
  class Store {
    var advisors: seq<EnergyAdvisor>

    constructor(initial: seq<EnergyAdvisor>)
      ensures advisors == initial
    {
      advisors := initial;
    }

    /** The available advisors, as the API answers from its own fixture `apiAdvisors`
        (not from this store's list). */
    method GetAvailableAdvisors(apiAdvisors: seq<EnergyAdvisor>, location: string, program: string)
      returns (available: seq<EnergyAdvisor>)
      ensures forall a :: a in available <==> a in apiAdvisors && Api.Available(a, location, program)
      ensures IsSubsequence(available, apiAdvisors)
    {
      var response := Api.GetAvailable(apiAdvisors, location, program);
      available := DataOrEmpty(response);
      Api.GetAvailableExact(apiAdvisors, location, program);
    }

    method UpdateAdvisorUnits(advisorId: string, units: real)
      modifies this
      ensures advisors == SetUnits(old(advisors), advisorId, units)
    {
      var _ := Api.UpdateUnits(advisorId, units);
      advisors := SetUnits(advisors, advisorId, units);
    }
  }

  // ---------------------------------------------------------------------

  /** Only the units of matching advisors change, to exactly the value given (no range check),
      and the list keeps its length. */
  lemma SetUnitsChangesOnlyTarget(advisors: seq<EnergyAdvisor>, advisorId: string, units: real)
    ensures |SetUnits(advisors, advisorId, units)| == |advisors|
    ensures forall i :: 0 <= i < |advisors| ==>
      SetUnits(advisors, advisorId, units)[i] ==
        if advisors[i].id == advisorId then advisors[i].(totalContractUnits := units) else advisors[i]
  {
  }

  /** Setting the units twice keeps the later value. */
  lemma SetUnitsLastWins(advisors: seq<EnergyAdvisor>, advisorId: string, u1: real, u2: real)
    ensures SetUnits(SetUnits(advisors, advisorId, u1), advisorId, u2) == SetUnits(advisors, advisorId, u2)
  {
    var once := SetUnits(advisors, advisorId, u1);
    var l := SetUnits(once, advisorId, u2);
    var r := SetUnits(advisors, advisorId, u2);
    forall i | 0 <= i < |advisors| ensures l[i] == r[i] {
      assert once[i].id == advisors[i].id;
    }
  }

  /** Were availability computed over the store's own list, setting an advisor's units to zero or
      below would keep them out of it.  The store never does this: see `ZeroedAdvisorStillOffered`. */
  lemma ZeroUnitsNotAvailable(advisors: seq<EnergyAdvisor>, advisorId: string, units: real, location: string, program: string)
    requires units <= 0.0
    ensures forall a ::
      a in Api.GetAvailable(SetUnits(advisors, advisorId, units), location, program).data.value ==> a.id != advisorId
  {
    var s := SetUnits(advisors, advisorId, units);
    Api.GetAvailableExact(s, location, program);
    forall a | a in Api.GetAvailable(s, location, program).data.value ensures a.id != advisorId {
      assert a in s;
      var i :| 0 <= i < |s| && s[i] == a;
    }
  }

  /** What the store does: the query answers from the API's fixture, so an advisor whose units
      `updateAdvisorUnits` has set to zero is still offered when the fixture's copy qualifies. */
  lemma ZeroedAdvisorStillOffered(apiAdvisors: seq<EnergyAdvisor>, advisors: seq<EnergyAdvisor>, a: EnergyAdvisor,
                                  location: string, program: string)
    requires a in apiAdvisors && Api.Available(a, location, program)
    ensures forall b :: b in SetUnits(advisors, a.id, 0.0) && b.id == a.id ==> b.totalContractUnits == 0.0
    ensures a in DataOrEmpty(Api.GetAvailable(apiAdvisors, location, program))
  {
    Api.GetAvailableExact(apiAdvisors, location, program);
    var s := SetUnits(advisors, a.id, 0.0);
    forall b | b in s && b.id == a.id ensures b.totalContractUnits == 0.0 {
      var i :| 0 <= i < |s| && s[i] == b;
    }
  }
}
