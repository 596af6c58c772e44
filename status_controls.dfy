/** The status controls of a project page
    (src/components/projects/ProjectStatusControls.tsx): the list of statuses
    a program's step flags make available, the "previous"/"next" pointers
    computed with `indexOf`, and the controls' visibility.

    The list is modelled as the code builds it: READY_FOR_BOOKING, then the
    step-map lists of the enabled steps, then COMPLETED, with no removal of
    duplicates.  `DistinctStatuses` further down is a separate, corrected
    definition; nothing in the component uses it. */
module StatusControls {
  import opened Seqs
  import opened ParticipantTypes
  import opened ProgramTypes

  /** The enabled steps in key order: `Object.entries(program.steps).filter(([_, enabled]) => enabled)`. */
  function EnabledSteps(flags: StepFlags): (r: seq<Step>)
    ensures forall i :: 0 <= i < |r| ==> Enabled(flags, r[i])
  {
    Filter(StepOrder, (s: Step) => Enabled(flags, s))
  }

  /** `availableStatuses`, exactly as built by the component. */
  function AvailableStatuses(flags: StepFlags): (r: seq<Status>)
    ensures |r| >= 2 && r[0] == ReadyForBooking && r[|r| - 1] == Completed
    ensures OnHold !in r
  {
    var middle := Flatten(StepLists(EnabledSteps(flags)));
    StepListsExcludeBookends(EnabledSteps(flags));
    [ReadyForBooking] + middle + [Completed]
  }

  /** The step a status belongs to in the step map, if any. */
  function StepOf(s: Status): (r: Option<Step>)
    ensures r.Some? ==> s in StepStatuses(r.value)
    ensures r.None? <==> s == Completed || s == OnHold
  {
    match s
    case ReadyForBooking => Some(Booking)
    case AuditScheduled => Some(Booking)
    case InitialAuditCompleted => Some(InitialAudit)
    case ReadyForTechReview => Some(TechReview)
    case ReadyForContractorQuote => Some(QuoteGeneration)
    case WorkordersSent => Some(WorkOrders)
    case ReadyForFinalAudit => Some(FinalAudit)
    case FinalAuditScheduled => Some(FinalAudit)
    case Completed => None
    case OnHold => None
  }

  /** A status is contributed by the flags when its step is enabled. */
  predicate Contributed(flags: StepFlags, s: Status) {
    StepOf(s).Some? && Enabled(flags, StepOf(s).value)
  }

  /** The statuses the step map can contribute, in the enumeration's order. */
  const PipelineOrder: seq<Status> := AllStatuses[..8]

  /** `list[list.indexOf(current) + 1]`, `undefined` past the end. */
  function NextStatus(list: seq<Status>, current: Status): Option<Status> {
    At(list, IndexOf(list, current) + 1)
  }

  /** `list[list.indexOf(current) - 1]`, `undefined` before the start. */
  function PrevStatus(list: seq<Status>, current: Status): Option<Status> {
    At(list, IndexOf(list, current) - 1)
  }

  /** What the component renders: the two buttons (when their targets are defined) and the dropdown. */
  datatype ControlsView = ControlsView(prev: Option<Status>, next: Option<Status>, options: seq<Status>)

  /** `programs.find(p => p.id === programId)`; an absent `programId` matches no program. */
  function FindProgram(programs: seq<Program>, programId: Option<string>): Option<Program> {
    Find(programs, (p: Program) => programId == Some(p.id))
  }

  /** The component: nothing without a matching program, nothing for a COMPLETED project,
      otherwise the pointers and the dropdown built from the program's flags. */
  function Controls(programs: seq<Program>, programId: Option<string>, current: Status): (r: Option<ControlsView>)
    ensures r.Some? <==> FindProgram(programs, programId).Some? && current != Completed
    ensures r.Some? ==> r.value.options == AvailableStatuses(FindProgram(programs, programId).value.steps)
  {
    match FindProgram(programs, programId)
    case None => None
    case Some(program) =>
      var list := AvailableStatuses(program.steps);
      if current == Completed then None
      else Some(ControlsView(PrevStatus(list, current), NextStatus(list, current), list))
  }

  /** Every status a click on the controls can request: either button or any dropdown entry. */
  function OfferedTargets(v: ControlsView): set<Status> {
    (if v.prev.Some? then {v.prev.value} else {})
    + (if v.next.Some? then {v.next.value} else {})
    + (set i | 0 <= i < |v.options| :: v.options[i])
  }

  /** The project page renders the controls without a `programId` (src/pages/ProjectPage.tsx). */
  function ProjectPageControls(programs: seq<Program>, current: Status): Option<ControlsView> {
    Controls(programs, None, current)
  }

  // ---------------------------------------------------------------------
  // Helper facts

  lemma {:induction false} StepListsExcludeBookends(steps: seq<Step>)
    ensures forall i :: 0 <= i < |Flatten(StepLists(steps))| ==>
      Flatten(StepLists(steps))[i] != OnHold && Flatten(StepLists(steps))[i] != Completed
  {
    if steps != [] {
      StepListsExcludeBookends(steps[1..]);
      assert StepLists(steps)[1..] == StepLists(steps[1..]);
    }
  }

  function Opt(b: bool, s: seq<Status>): seq<Status> {
    if b then s else []
  }

  /** The middle part spelled out key by key. */
  function ByKey(f: StepFlags): seq<Status> {
    Opt(f.booking, [ReadyForBooking, AuditScheduled])
    + (Opt(f.initialAudit, [InitialAuditCompleted])
    + (Opt(f.techReview, [ReadyForTechReview])
    + (Opt(f.quoteGeneration, [ReadyForContractorQuote])
    + (Opt(f.workOrders, [WorkordersSent])
    + Opt(f.finalAudit, [ReadyForFinalAudit, FinalAuditScheduled])))))
  }

  /** What a sequence of steps contributes, step by step. */
  function Contribution(f: StepFlags, steps: seq<Step>): seq<Status> {
    if steps == [] then [] else Opt(Enabled(f, steps[0]), StepStatuses(steps[0])) + Contribution(f, steps[1..])
  }

  lemma {:induction false} FlattenFilteredSteps(f: StepFlags, steps: seq<Step>)
    ensures Flatten(StepLists(Filter(steps, (s: Step) => Enabled(f, s)))) == Contribution(f, steps)
  {
    if steps != [] {
      var en := (s: Step) => Enabled(f, s);
      var x, rest := steps[0], steps[1..];
      assert steps == [x] + rest;
      FilterCons(x, rest, en);
      var head: seq<Step> := if en(x) then [x] else [];
      FlattenStepListsAppend(head, Filter(rest, en));
      assert Flatten(StepLists(head)) == Opt(Enabled(f, x), StepStatuses(x)) by {
        if en(x) {
          assert StepLists(head) == [StepStatuses(x)];
        }
      }
      FlattenFilteredSteps(f, rest);
    }
  }

  lemma ContributionCons(f: StepFlags, x: Step, rest: seq<Step>)
    ensures Contribution(f, [x] + rest) == Opt(Enabled(f, x), StepStatuses(x)) + Contribution(f, rest)
  {
    assert ([x] + rest)[1..] == rest;
  }

  lemma MiddleByKey(f: StepFlags)
    ensures Flatten(StepLists(EnabledSteps(f))) == ByKey(f)
  {
    FlattenFilteredSteps(f, StepOrder);
    ContributionByKey(f);
  }

  lemma ContributionByKey(f: StepFlags)
    ensures Contribution(f, StepOrder) == ByKey(f)
  {
    var a0 := Opt(f.booking, [ReadyForBooking, AuditScheduled]);
    var a1 := Opt(f.initialAudit, [InitialAuditCompleted]);
    var a2 := Opt(f.techReview, [ReadyForTechReview]);
    var a3 := Opt(f.quoteGeneration, [ReadyForContractorQuote]);
    var a4 := Opt(f.workOrders, [WorkordersSent]);
    var a5 := Opt(f.finalAudit, [ReadyForFinalAudit, FinalAuditScheduled]);
    var t5: seq<Step> := [FinalAudit];
    var t4 := [WorkOrders] + t5;
    var t3 := [QuoteGeneration] + t4;
    var t2 := [TechReview] + t3;
    var t1 := [InitialAudit] + t2;
    ContributionCons(f, FinalAudit, []);
    assert [FinalAudit] + [] == t5;
    assert Contribution(f, t5) == a5;
    ContributionCons(f, WorkOrders, t5);
    assert Contribution(f, t4) == a4 + a5;
    ContributionCons(f, QuoteGeneration, t4);
    assert Contribution(f, t3) == a3 + (a4 + a5);
    ContributionCons(f, TechReview, t3);
    assert Contribution(f, t2) == a2 + (a3 + (a4 + a5));
    ContributionCons(f, InitialAudit, t2);
    assert Contribution(f, t1) == a1 + (a2 + (a3 + (a4 + a5)));
    ContributionCons(f, Booking, t1);
    assert StepOrder == [Booking] + t1;
    assert Contribution(f, StepOrder) == a0 + (a1 + (a2 + (a3 + (a4 + a5))));
  }

  lemma FlattenStepListsAppend(a: seq<Step>, b: seq<Step>)
    ensures Flatten(StepLists(a + b)) == Flatten(StepLists(a)) + Flatten(StepLists(b))
  {
    StepListsAppend(a, b);
    FlattenAppend(StepLists(a), StepLists(b));
  }

  lemma StepListsAppend(a: seq<Step>, b: seq<Step>)
    ensures StepLists(a + b) == StepLists(a) + StepLists(b)
  {
  }

  function Contributes(f: StepFlags): Status -> bool {
    (s: Status) => Contributed(f, s)
  }

  /** Every status in a step's list belongs to that step. */
  lemma StepOfStepStatuses(x: Step)
    ensures forall i :: 0 <= i < |StepStatuses(x)| ==> StepOf(StepStatuses(x)[i]) == Some(x)
  {
  }

  /** Filtering one step's list by "contributed" keeps all of it or none of it. */
  lemma FilterStepStatuses(f: StepFlags, x: Step)
    ensures Filter(StepStatuses(x), Contributes(f)) == Opt(Enabled(f, x), StepStatuses(x))
  {
    StepOfStepStatuses(x);
    if Enabled(f, x) {
      FilterKeepsAll(StepStatuses(x), Contributes(f));
    } else {
      FilterAbsent(StepStatuses(x), Contributes(f));
    }
  }

  /** Filtering the concatenated lists by "contributed" is the same as concatenating the enabled steps' lists. */
  lemma {:induction false} FilterFlattenedSteps(f: StepFlags, steps: seq<Step>)
    ensures Filter(Flatten(StepLists(steps)), Contributes(f)) == Contribution(f, steps)
  {
    if steps != [] {
      var x, rest := steps[0], steps[1..];
      assert StepLists(steps)[1..] == StepLists(rest);
      assert Flatten(StepLists(steps)) == StepStatuses(x) + Flatten(StepLists(rest));
      FilterAppend(StepStatuses(x), Flatten(StepLists(rest)), Contributes(f));
      FilterStepStatuses(f, x);
      FilterFlattenedSteps(f, rest);
    }
  }

  lemma FilterByContributed(f: StepFlags)
    ensures Filter(PipelineOrder, Contributes(f)) == ByKey(f)
  {
    StepListsInDeclarationOrder();
    FilterFlattenedSteps(f, StepOrder);
    ContributionByKey(f);
  }

  // ---------------------------------------------------------------------
  // Properties of the derived list

  /** Enabled steps contribute their step-map lists in key order; disabled
      steps contribute nothing; the bookends come first and last. */
  lemma AvailableStatusesByKey(f: StepFlags)
    ensures AvailableStatuses(f) == [ReadyForBooking] + ByKey(f) + [Completed]
    ensures |AvailableStatuses(f)| == 2 + (if f.booking then 2 else 0) + (if f.initialAudit then 1 else 0)
      + (if f.techReview then 1 else 0) + (if f.quoteGeneration then 1 else 0)
      + (if f.workOrders then 1 else 0) + (if f.finalAudit then 2 else 0)
  {
    MiddleByKey(f);
  }

  /** Independent reference: between the bookends, the list is the enumeration's
      pipeline order restricted to the statuses of enabled steps. */
  lemma AvailableStatusesFollowEnumOrder(f: StepFlags)
    ensures AvailableStatuses(f) == [ReadyForBooking] + Filter(PipelineOrder, Contributes(f)) + [Completed]
  {
    MiddleByKey(f);
    FilterByContributed(f);
  }

  /** The pipeline order lists every status but the two terminal ones. */
  lemma PipelineOrderMembers(s: Status)
    ensures s in PipelineOrder <==> s != Completed && s != OnHold
  {
    var p := PipelineOrder;
    assert p == [ReadyForBooking, AuditScheduled, InitialAuditCompleted, ReadyForTechReview,
                 ReadyForContractorQuote, WorkordersSent, ReadyForFinalAudit, FinalAuditScheduled];
  }

  /** Facts about the middle part used below. */
  lemma MiddleFacts(f: StepFlags)
    ensures NoDuplicates(Filter(PipelineOrder, Contributes(f)))
    ensures Completed !in Filter(PipelineOrder, Contributes(f))
    ensures ReadyForBooking in Filter(PipelineOrder, Contributes(f)) <==> f.booking
    ensures f.booking ==> Filter(PipelineOrder, Contributes(f))[0] == ReadyForBooking
  {
    var c := Contributes(f);
    AllStatusesEnumeratesStatus();
    assert NoDuplicates(PipelineOrder);
    FilterKeepsDistinct(PipelineOrder, c);
    FilterMembership(PipelineOrder, c, ReadyForBooking);
    FilterMembership(PipelineOrder, c, Completed);
    PipelineOrderMembers(Completed);
    PipelineOrderMembers(ReadyForBooking);
    FilterByContributed(f);
  }

  /** A status is in the list iff it is a bookend or belongs to an enabled step. */
  lemma AvailableStatusesMembers(f: StepFlags, s: Status)
    ensures s in AvailableStatuses(f) <==> s == ReadyForBooking || s == Completed || Contributed(f, s)
  {
    AvailableStatusesFollowEnumOrder(f);
    FilterMembership(PipelineOrder, Contributes(f), s);
    PipelineOrderMembers(s);
  }

  /** All flags off: just the two bookends. */
  lemma AllStepsDisabled()
    ensures AvailableStatuses(StepFlags(false, false, false, false, false, false)) == [ReadyForBooking, Completed]
  {
    AvailableStatusesByKey(StepFlags(false, false, false, false, false, false));
  }

  /** All flags on: ten entries, READY_FOR_BOOKING twice. */
  lemma AllStepsEnabled(f: StepFlags)
    requires f == StepFlags(true, true, true, true, true, true)
    ensures AvailableStatuses(f) ==
      [ReadyForBooking, ReadyForBooking, AuditScheduled, InitialAuditCompleted, ReadyForTechReview,
       ReadyForContractorQuote, WorkordersSent, ReadyForFinalAudit, FinalAuditScheduled, Completed]
  {
    // The middle part built from the last key backwards, one small concatenation at a time.
    var t := [ReadyForFinalAudit, FinalAuditScheduled];
    assert [WorkordersSent] + t == [WorkordersSent, ReadyForFinalAudit, FinalAuditScheduled];
    t := [WorkordersSent] + t;
    assert [ReadyForContractorQuote] + t == [ReadyForContractorQuote, WorkordersSent, ReadyForFinalAudit, FinalAuditScheduled];
    t := [ReadyForContractorQuote] + t;
    assert [ReadyForTechReview] + t ==
      [ReadyForTechReview, ReadyForContractorQuote, WorkordersSent, ReadyForFinalAudit, FinalAuditScheduled];
    t := [ReadyForTechReview] + t;
    assert [InitialAuditCompleted] + t ==
      [InitialAuditCompleted, ReadyForTechReview, ReadyForContractorQuote, WorkordersSent, ReadyForFinalAudit, FinalAuditScheduled];
    t := [InitialAuditCompleted] + t;
    assert [ReadyForBooking, AuditScheduled] + t ==
      [ReadyForBooking, AuditScheduled, InitialAuditCompleted, ReadyForTechReview, ReadyForContractorQuote,
       WorkordersSent, ReadyForFinalAudit, FinalAuditScheduled];
    t := [ReadyForBooking, AuditScheduled] + t;
    assert ByKey(f) == t;
    assert [ReadyForBooking] + t + [Completed] ==
      [ReadyForBooking, ReadyForBooking, AuditScheduled, InitialAuditCompleted, ReadyForTechReview,
       ReadyForContractorQuote, WorkordersSent, ReadyForFinalAudit, FinalAuditScheduled, Completed];
    AvailableStatusesByKey(f);
  }

  /** The list is duplicate-free exactly when the booking step is off. */
  lemma DistinctIffNoBooking(f: StepFlags)
    ensures NoDuplicates(AvailableStatuses(f)) <==> !f.booking
  {
    AvailableStatusesFollowEnumOrder(f);
    MiddleFacts(f);
    var mid := Filter(PipelineOrder, Contributes(f));
    var r := AvailableStatuses(f);
    if f.booking {
      assert r[0] == r[1];
    } else {
      BookendsDistinct(ReadyForBooking, mid, Completed);
    }
  }

  // ---------------------------------------------------------------------
  // The pointers

  /** With booking on, READY_FOR_BOOKING sits at indices 0 and 1, so its "next"
      is itself and it has no "previous". */
  lemma BookingNextIsItself(f: StepFlags)
    requires f.booking
    ensures AvailableStatuses(f)[0] == AvailableStatuses(f)[1] == ReadyForBooking
    ensures NextStatus(AvailableStatuses(f), ReadyForBooking) == Some(ReadyForBooking)
    ensures PrevStatus(AvailableStatuses(f), ReadyForBooking) == None
  {
    AvailableStatusesByKey(f);
  }

  /** A status missing from the list has index -1: "next" is the first entry and there is no "previous". */
  lemma AbsentStatusPointers(list: seq<Status>, current: Status)
    requires current !in list
    ensures NextStatus(list, current) == At(list, 0)
    ensures PrevStatus(list, current) == None
  {
  }

  /** ON_HOLD is never in the list, so from ON_HOLD "next" is READY_FOR_BOOKING. */
  lemma OnHoldPointers(f: StepFlags)
    ensures NextStatus(AvailableStatuses(f), OnHold) == Some(ReadyForBooking)
    ensures PrevStatus(AvailableStatuses(f), OnHold) == None
  {
    AbsentStatusPointers(AvailableStatuses(f), OnHold);
  }

  /** In a duplicate-free list the pointers are the neighbours of the current entry. */
  lemma DistinctPointersAreNeighbours(list: seq<Status>, i: int)
    requires NoDuplicates(list)
    requires 0 <= i < |list|
    ensures NextStatus(list, list[i]) == At(list, i + 1)
    ensures PrevStatus(list, list[i]) == At(list, i - 1)
  {
  }

  // ---------------------------------------------------------------------
  // The component

  /** Without a matching program the component renders nothing. */
  lemma NoProgramNoControls(programs: seq<Program>, programId: Option<string>, current: Status)
    requires forall i :: 0 <= i < |programs| ==> programId != Some(programs[i].id)
    ensures Controls(programs, programId, current) == None
  {
  }

  /** A COMPLETED project shows no controls. */
  lemma CompletedHasNoControls(programs: seq<Program>, programId: Option<string>)
    ensures Controls(programs, programId, Completed) == None
  {
  }

  /** The project page never passes a `programId`, so its controls never render. */
  lemma ProjectPageNeverShowsControls(programs: seq<Program>, current: Status)
    ensures ProjectPageControls(programs, current) == None
  {
  }

  /** The buttons only ever point into the list, and the dropdown offers every
      list entry regardless of adjacency: the offered targets are exactly the list's members. */
  lemma OfferedTargetsAreTheList(programs: seq<Program>, programId: Option<string>, current: Status)
    requires Controls(programs, programId, current).Some?
    ensures var v := Controls(programs, programId, current).value;
      OfferedTargets(v) == set i | 0 <= i < |v.options| :: v.options[i]
  {
    var v := Controls(programs, programId, current).value;
    var list := v.options;
    var idx := IndexOf(list, current);
    assert v.next.Some? ==> v.next.value == list[idx + 1];
    assert v.prev.Some? ==> v.prev.value == list[idx - 1];
  }

  // ---------------------------------------------------------------------
  // Corrected variant: duplicates removed (not used by the component)

  /** The available statuses with the repeated READY_FOR_BOOKING removed, keeping first occurrences. */
  function DistinctStatuses(flags: StepFlags): (r: seq<Status>)
    ensures NoDuplicates(r)
    ensures forall s :: s in r <==> s in AvailableStatuses(flags)
  {
    Dedup(AvailableStatuses(flags))
  }

  /** The corrected list keeps the bookends, equals the original without booking,
      and with booking drops exactly the second READY_FOR_BOOKING. */
  lemma DistinctStatusesShape(f: StepFlags)
    ensures DistinctStatuses(f) == if f.booking then AvailableStatuses(f)[1..] else AvailableStatuses(f)
    ensures DistinctStatuses(f)[0] == ReadyForBooking
    ensures DistinctStatuses(f)[|DistinctStatuses(f)| - 1] == Completed
  {
    var r := AvailableStatuses(f);
    AvailableStatusesFollowEnumOrder(f);
    MiddleFacts(f);
    var mid := Filter(PipelineOrder, Contributes(f));
    if f.booking {
      assert r[1..] == [ReadyForBooking] + mid[1..] + [Completed];
      assert NoDuplicates(mid[1..]);
      assert ReadyForBooking !in mid[1..];
      BookendsDistinct(ReadyForBooking, mid[1..], Completed);
      DedupOfDistinct(r[1..]);
      DedupDropRepeatedHead(r);
    } else {
      BookendsDistinct(ReadyForBooking, mid, Completed);
      DedupOfDistinct(r);
    }
  }

  /** In the corrected list "next" always advances to the following entry. */
  lemma DistinctNextAdvances(f: StepFlags, i: int)
    requires 0 <= i < |DistinctStatuses(f)| - 1
    ensures NextStatus(DistinctStatuses(f), DistinctStatuses(f)[i]) == Some(DistinctStatuses(f)[i + 1])
  {
    DistinctPointersAreNeighbours(DistinctStatuses(f), i);
  }
}
