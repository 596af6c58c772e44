/** The program store (src/store/programs.ts): the configured programs,
    seeded with four mock programs, and the actions that add, merge into,
    remove and activate or deactivate them. */
module ProgramStore {
  import opened Seqs
  import opened ParticipantTypes
  import opened ProgramTypes
  import StatusControls

  function MockProgram(id: string, name: string, abbreviation: string, isActive: bool,
                       m: DataCollectionMethod, tableName: string, steps: StepFlags): Program {
    Program(id, name, abbreviation, "2024-01-01", "2024-12-31", isActive,
            DataCollection(m, Some(DataCollectionConfig(tableName, None))), steps)
  }

  /** `MOCK_PROGRAMS`, the store's initial contents. */
  const MockPrograms: seq<Program> := [
    MockProgram("1", "Residential Energy Savings", "RES", true, Form, "residential_savings",
                StepFlags(true, true, true, true, true, true)),
    MockProgram("2", "Low Income Support", "LIS", true, Form, "low_income_support",
                StepFlags(true, true, false, true, true, true)),
    MockProgram("3", "Commercial Retrofit", "CR", true, Excel, "commercial_retrofit",
                StepFlags(true, true, true, true, true, true)),
    MockProgram("4", "Green Business Initiative", "GBI", false, Csv, "green_business",
                StepFlags(true, true, true, false, false, true))]

  /** `Partial<Program>`: the fields an update carries; an absent field is kept. */
  datatype ProgramPatch = ProgramPatch(
    id: Option<string>,
    name: Option<string>,
    abbreviation: Option<string>,
    startDate: Option<string>,
    endDate: Option<string>,
    isActive: Option<bool>,
    dataCollection: Option<DataCollection>,
    steps: Option<StepFlags>)

  const EmptyPatch := ProgramPatch(None, None, None, None, None, None, None, None)

  /** `{ ...program, ...updates }`: a shallow merge; `steps` and `dataCollection` are replaced whole. */
  function Merge(p: Program, u: ProgramPatch): (q: Program)
    ensures u.id.Some? ==> q.id == u.id.value
    ensures u.id.None? ==> q.id == p.id
    ensures u.name.Some? ==> q.name == u.name.value
    ensures u.name.None? ==> q.name == p.name
    ensures u.abbreviation.Some? ==> q.abbreviation == u.abbreviation.value
    ensures u.abbreviation.None? ==> q.abbreviation == p.abbreviation
    ensures u.startDate.Some? ==> q.startDate == u.startDate.value
    ensures u.startDate.None? ==> q.startDate == p.startDate
    ensures u.endDate.Some? ==> q.endDate == u.endDate.value
    ensures u.endDate.None? ==> q.endDate == p.endDate
    ensures u.isActive.Some? ==> q.isActive == u.isActive.value
    ensures u.isActive.None? ==> q.isActive == p.isActive
    ensures u.dataCollection.Some? ==> q.dataCollection == u.dataCollection.value
    ensures u.dataCollection.None? ==> q.dataCollection == p.dataCollection
    ensures u.steps.Some? ==> q.steps == u.steps.value
    ensures u.steps.None? ==> q.steps == p.steps
    ensures u == EmptyPatch ==> q == p
  {
    Program(Pick(u.id, p.id), Pick(u.name, p.name), Pick(u.abbreviation, p.abbreviation),
            Pick(u.startDate, p.startDate), Pick(u.endDate, p.endDate), Pick(u.isActive, p.isActive),
            Pick(u.dataCollection, p.dataCollection), Pick(u.steps, p.steps))
  }

  /** Applying `u` and then `v` is applying their union, `v` winning where both carry a field. */
  function Then(u: ProgramPatch, v: ProgramPatch): ProgramPatch {
    ProgramPatch(
      if v.id.Some? then v.id else u.id,
      if v.name.Some? then v.name else u.name,
      if v.abbreviation.Some? then v.abbreviation else u.abbreviation,
      if v.startDate.Some? then v.startDate else u.startDate,
      if v.endDate.Some? then v.endDate else u.endDate,
      if v.isActive.Some? then v.isActive else u.isActive,
      if v.dataCollection.Some? then v.dataCollection else u.dataCollection,
      if v.steps.Some? then v.steps else u.steps)
  }

  /** The program `addProgram` builds: the submitted data under the clock's decimal id. */
  function NewProgram(data: Program, now: nat): (p: Program)
    ensures p.id == NatToString(now)
    ensures p.(id := data.id) == data
  {
    data.(id := NatToString(now))
  }

  function UpdatePrograms(ps: seq<Program>, id: string, u: ProgramPatch): seq<Program> {
    MapWhere(ps, (p: Program) => p.id == id, (p: Program) => Merge(p, u))
  }

  function WithoutProgram(ps: seq<Program>, id: string): seq<Program> {
    Filter(ps, (p: Program) => p.id != id)
  }

  function ToggleActive(ps: seq<Program>, id: string): seq<Program> {
    MapWhere(ps, (p: Program) => p.id == id, (p: Program) => p.(isActive := !p.isActive))
  }

  /** The store: the program list as its one piece of state. */
  class Store {
    var programs: seq<Program>

    /** The store starts with the mock programs. */
    constructor()
      ensures programs == MockPrograms
    {
      programs := MockPrograms;
    }

    method AddProgram(data: Program, now: nat)
      modifies this
      ensures programs == old(programs) + [NewProgram(data, now)]
    {
      programs := programs + [NewProgram(data, now)];
    }

    method UpdateProgram(id: string, updates: ProgramPatch)
      modifies this
      ensures programs == UpdatePrograms(old(programs), id, updates)
    {
      programs := UpdatePrograms(programs, id, updates);
    }

    method DeleteProgram(id: string)
      modifies this
      ensures programs == WithoutProgram(old(programs), id)
    {
      programs := WithoutProgram(programs, id);
    }

    method ToggleProgramStatus(id: string)
      modifies this
      ensures programs == ToggleActive(old(programs), id)
    {
      programs := ToggleActive(programs, id);
    }
  }

  // ---------------------------------------------------------------------
  // Properties

  /** Merging is idempotent, and merging twice is merging the combined patch. */
  lemma MergeComposes(p: Program, u: ProgramPatch, v: ProgramPatch)
    ensures Merge(Merge(p, u), v) == Merge(p, Then(u, v))
    ensures Merge(Merge(p, u), u) == Merge(p, u)
  {
  }

  /** An update changes only programs with the matching id, keeps order and length,
      and merges the patch into each matching program. */
  lemma UpdateChangesOnlyMatching(ps: seq<Program>, id: string, u: ProgramPatch)
    ensures |UpdatePrograms(ps, id, u)| == |ps|
    ensures forall i :: 0 <= i < |ps| ==>
      UpdatePrograms(ps, id, u)[i] == if ps[i].id == id then Merge(ps[i], u) else ps[i]
  {
  }

  /** Delete removes exactly the programs with that id and keeps the rest in order. */
  lemma DeleteRemovesExactly(ps: seq<Program>, id: string, x: Program)
    ensures x in WithoutProgram(ps, id) <==> x in ps && x.id != id
    ensures IsSubsequence(WithoutProgram(ps, id), ps)
    ensures (forall i :: 0 <= i < |ps| ==> ps[i].id != id) ==> WithoutProgram(ps, id) == ps
  {
    FilterMembership(ps, (p: Program) => p.id != id, x);
    FilterIsSubsequence(ps, (p: Program) => p.id != id);
    if forall i :: 0 <= i < |ps| ==> ps[i].id != id {
      FilterKeepsAll(ps, (p: Program) => p.id != id);
    }
  }

  /** Adding a program under a fresh id and deleting that id restores the list. */
  lemma AddThenDeleteRestores(ps: seq<Program>, data: Program, now: nat)
    requires forall i :: 0 <= i < |ps| ==> ps[i].id != NatToString(now)
    ensures WithoutProgram(ps + [NewProgram(data, now)], NatToString(now)) == ps
  {
    var f := (p: Program) => p.id != NatToString(now);
    FilterAppend(ps, [NewProgram(data, now)], f);
    FilterKeepsAll(ps, f);
    assert Filter([NewProgram(data, now)], f) == [];
  }

  /** The toggle flips `isActive` of matching programs only, and twice is the identity. */
  lemma ToggleTwiceRestores(ps: seq<Program>, id: string)
    ensures forall i :: 0 <= i < |ps| ==>
      ToggleActive(ps, id)[i] == if ps[i].id == id then ps[i].(isActive := !ps[i].isActive) else ps[i]
    ensures ToggleActive(ToggleActive(ps, id), id) == ps
  {
    var once := ToggleActive(ps, id);
    var twice := ToggleActive(once, id);
    assert |twice| == |ps|;
    forall i | 0 <= i < |ps| ensures twice[i] == ps[i] {
      assert once[i].id == ps[i].id;
    }
  }

  /** The mock step configurations: all four enable booking, initial audit and
      final audit; Low Income Support turns off technical review; Green Business
      Initiative turns off quotes and work orders. */
  lemma MockProgramSteps()
    ensures |MockPrograms| == 4
    ensures forall i :: 0 <= i < 4 ==>
      MockPrograms[i].steps.booking && MockPrograms[i].steps.initialAudit && MockPrograms[i].steps.finalAudit
    ensures !MockPrograms[1].steps.techReview && MockPrograms[1].name == "Low Income Support"
    ensures !MockPrograms[3].steps.quoteGeneration && !MockPrograms[3].steps.workOrders
      && MockPrograms[3].name == "Green Business Initiative"
    ensures forall i :: 0 <= i < 4 && i != 1 ==> MockPrograms[i].steps.techReview
  {
  }

  /** Green Business Initiative goes from READY_FOR_TECH_REVIEW straight to READY_FOR_FINAL_AUDIT. */
  lemma GreenBusinessSequence()
    ensures StatusControls.AvailableStatuses(MockPrograms[3].steps) ==
      [ReadyForBooking, ReadyForBooking, AuditScheduled, InitialAuditCompleted, ReadyForTechReview,
       ReadyForFinalAudit, FinalAuditScheduled, Completed]
  {
    GreenBusinessFlags(MockPrograms[3].steps);
  }

  lemma GreenBusinessFlags(f: StepFlags)
    requires f == StepFlags(true, true, true, false, false, true)
    ensures StatusControls.AvailableStatuses(f) ==
      [ReadyForBooking, ReadyForBooking, AuditScheduled, InitialAuditCompleted, ReadyForTechReview,
       ReadyForFinalAudit, FinalAuditScheduled, Completed]
  {
    // The middle part built from the last key backwards, one small concatenation at a time.
    var t := [ReadyForFinalAudit, FinalAuditScheduled];
    assert [] + ([] + t) == t;
    assert [ReadyForTechReview] + t == [ReadyForTechReview, ReadyForFinalAudit, FinalAuditScheduled];
    t := [ReadyForTechReview] + t;
    assert [InitialAuditCompleted] + t == [InitialAuditCompleted, ReadyForTechReview, ReadyForFinalAudit, FinalAuditScheduled];
    t := [InitialAuditCompleted] + t;
    assert [ReadyForBooking, AuditScheduled] + t ==
      [ReadyForBooking, AuditScheduled, InitialAuditCompleted, ReadyForTechReview, ReadyForFinalAudit, FinalAuditScheduled];
    t := [ReadyForBooking, AuditScheduled] + t;
    assert StatusControls.ByKey(f) == t;
    assert [ReadyForBooking] + t + [Completed] ==
      [ReadyForBooking, ReadyForBooking, AuditScheduled, InitialAuditCompleted, ReadyForTechReview,
       ReadyForFinalAudit, FinalAuditScheduled, Completed];
    StatusControls.AvailableStatusesByKey(f);
  }

  /** Low Income Support goes from INITIAL_AUDIT_COMPLETED straight to READY_FOR_CONTRACTOR_QUOTE. */
  lemma LowIncomeSequence()
    ensures StatusControls.AvailableStatuses(MockPrograms[1].steps) ==
      [ReadyForBooking, ReadyForBooking, AuditScheduled, InitialAuditCompleted,
       ReadyForContractorQuote, WorkordersSent, ReadyForFinalAudit, FinalAuditScheduled, Completed]
  {
    LowIncomeFlags(MockPrograms[1].steps);
  }

  lemma LowIncomeFlags(f: StepFlags)
    requires f == StepFlags(true, true, false, true, true, true)
    ensures StatusControls.AvailableStatuses(f) ==
      [ReadyForBooking, ReadyForBooking, AuditScheduled, InitialAuditCompleted,
       ReadyForContractorQuote, WorkordersSent, ReadyForFinalAudit, FinalAuditScheduled, Completed]
  {
    // The middle part built from the last key backwards, one small concatenation at a time.
    var t := [ReadyForFinalAudit, FinalAuditScheduled];
    assert [WorkordersSent] + t == [WorkordersSent, ReadyForFinalAudit, FinalAuditScheduled];
    t := [WorkordersSent] + t;
    assert [ReadyForContractorQuote] + t == [ReadyForContractorQuote, WorkordersSent, ReadyForFinalAudit, FinalAuditScheduled];
    t := [ReadyForContractorQuote] + t;
    assert [] + t == t;
    assert [InitialAuditCompleted] + t ==
      [InitialAuditCompleted, ReadyForContractorQuote, WorkordersSent, ReadyForFinalAudit, FinalAuditScheduled];
    t := [InitialAuditCompleted] + t;
    assert [ReadyForBooking, AuditScheduled] + t ==
      [ReadyForBooking, AuditScheduled, InitialAuditCompleted, ReadyForContractorQuote, WorkordersSent,
       ReadyForFinalAudit, FinalAuditScheduled];
    t := [ReadyForBooking, AuditScheduled] + t;
    assert StatusControls.ByKey(f) == t;
    assert [ReadyForBooking] + t + [Completed] ==
      [ReadyForBooking, ReadyForBooking, AuditScheduled, InitialAuditCompleted,
       ReadyForContractorQuote, WorkordersSent, ReadyForFinalAudit, FinalAuditScheduled, Completed];
    StatusControls.AvailableStatusesByKey(f);
  }

  /** Every mock program turns booking on, so every mock sequence repeats READY_FOR_BOOKING. */
  lemma MockSequencesRepeatBooking(i: int)
    requires 0 <= i < |MockPrograms|
    ensures !NoDuplicates(StatusControls.AvailableStatuses(MockPrograms[i].steps))
  {
    assert MockPrograms[i].steps.booking;
    StatusControls.DistinctIffNoBooking(MockPrograms[i].steps);
  }
}
