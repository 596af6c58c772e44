/** The participant record, its status enumeration and the fixed map from
    program steps to the statuses each step contributes
    (src/types/participant.ts). */
module ParticipantTypes {
  import opened Seqs

  /** A point in time in milliseconds; the application carries these as ISO-8601 strings. */
  type Instant = int

  /** `ParticipantStatus`, in declaration order. */
  datatype Status =
    | ReadyForBooking
    | AuditScheduled
    | InitialAuditCompleted
    | ReadyForTechReview
    | ReadyForContractorQuote
    | WorkordersSent
    | ReadyForFinalAudit
    | FinalAuditScheduled
    | Completed
    | OnHold

  /** Every member of the enumeration, in declaration order. */
  const AllStatuses: seq<Status> := [
    ReadyForBooking, AuditScheduled, InitialAuditCompleted, ReadyForTechReview,
    ReadyForContractorQuote, WorkordersSent, ReadyForFinalAudit, FinalAuditScheduled,
    Completed, OnHold]

  /** The string value each member carries (its wire form). */
  function StatusValue(s: Status): string {
    match s
    case ReadyForBooking => "READY_FOR_BOOKING"
    case AuditScheduled => "AUDIT_SCHEDULED"
    case InitialAuditCompleted => "INITIAL_AUDIT_COMPLETED"
    case ReadyForTechReview => "READY_FOR_TECH_REVIEW"
    case ReadyForContractorQuote => "READY_FOR_CONTRACTOR_QUOTE"
    case WorkordersSent => "WORKORDERS_SENT"
    case ReadyForFinalAudit => "READY_FOR_FINAL_AUDIT"
    case FinalAuditScheduled => "FINAL_AUDIT_SCHEDULED"
    case Completed => "COMPLETED"
    case OnHold => "ON_HOLD"
  }

  /** Reads a string value back into the enumeration (the `as ParticipantStatus` cast of a select value). */
  function ParseStatus(v: string): (r: Option<Status>)
    ensures r.Some? ==> StatusValue(r.value) == v
  {
    if v == "READY_FOR_BOOKING" then Some(ReadyForBooking)
    else if v == "AUDIT_SCHEDULED" then Some(AuditScheduled)
    else if v == "INITIAL_AUDIT_COMPLETED" then Some(InitialAuditCompleted)
    else if v == "READY_FOR_TECH_REVIEW" then Some(ReadyForTechReview)
    else if v == "READY_FOR_CONTRACTOR_QUOTE" then Some(ReadyForContractorQuote)
    else if v == "WORKORDERS_SENT" then Some(WorkordersSent)
    else if v == "READY_FOR_FINAL_AUDIT" then Some(ReadyForFinalAudit)
    else if v == "FINAL_AUDIT_SCHEDULED" then Some(FinalAuditScheduled)
    else if v == "COMPLETED" then Some(Completed)
    else if v == "ON_HOLD" then Some(OnHold)
    else None
  }

  /** The keys of `STEP_STATUS_MAP`, which are also the keys of `Program.steps`. */
  datatype Step = Booking | InitialAudit | TechReview | QuoteGeneration | WorkOrders | FinalAudit

  /** The keys in declaration order. */
  const StepOrder: seq<Step> := [Booking, InitialAudit, TechReview, QuoteGeneration, WorkOrders, FinalAudit]

  /** `STEP_STATUS_MAP`: the statuses a step contributes when a program enables it. */
  function StepStatuses(step: Step): seq<Status> {
    match step
    case Booking => [ReadyForBooking, AuditScheduled]
    case InitialAudit => [InitialAuditCompleted]
    case TechReview => [ReadyForTechReview]
    case QuoteGeneration => [ReadyForContractorQuote]
    case WorkOrders => [WorkordersSent]
    case FinalAudit => [ReadyForFinalAudit, FinalAuditScheduled]
  }

  /** The step lists of the given steps, in order. */
  function StepLists(steps: seq<Step>): (r: seq<seq<Status>>)
    ensures |r| == |steps|
    ensures forall i :: 0 <= i < |steps| ==> r[i] == StepStatuses(steps[i])
  {
    if steps == [] then [] else [StepStatuses(steps[0])] + StepLists(steps[1..])
  }

  /** `ParticipantStatusUpdate`: one entry of the status history. */
  datatype StatusUpdate = StatusUpdate(
    status: Status,
    assignedTo: Option<string>,
    notes: Option<string>,
    updatedAt: Instant,
    updatedBy: string)

  datatype Priority = High | Medium | Low

  /** `Participant`.  `onHold` is required; `statusHistory` and `completedAt` may be absent. */
  datatype Participant = Participant(
    id: string,
    firstName: string,
    lastName: string,
    email: string,
    phone: string,
    address: string,
    city: string,
    postalCode: string,
    program: string,
    status: Status,
    createdAt: Instant,
    propertyType: string,
    notes: string,
    assignedAdvisor: Option<string>,
    onHold: bool,
    statusHistory: Option<seq<StatusUpdate>>,
    initialAuditDate: Option<string>,
    finalAuditDate: Option<string>,
    reportUploaded: Option<bool>,
    completedAt: Option<Instant>,
    priority: Option<Priority>)

  /** `p.statusHistory || []`: a missing history reads as empty. */
  function History(p: Participant): (h: seq<StatusUpdate>)
    ensures p.statusHistory.Some? ==> h == p.statusHistory.value
    ensures p.statusHistory.None? ==> h == []
  {
    match p.statusHistory
    case Some(h) => h
    case None => []
  }

  // ---------------------------------------------------------------------
  // Facts about the enumeration and the step map

  /** The enumeration has exactly ten members, pairwise distinct, all listed. */
  lemma AllStatusesEnumeratesStatus()
    ensures |AllStatuses| == 10
    ensures NoDuplicates(AllStatuses)
    ensures forall s: Status :: s in AllStatuses
  {
    forall s: Status ensures s in AllStatuses {
      match s
      case ReadyForBooking => assert AllStatuses[0] == s;
      case AuditScheduled => assert AllStatuses[1] == s;
      case InitialAuditCompleted => assert AllStatuses[2] == s;
      case ReadyForTechReview => assert AllStatuses[3] == s;
      case ReadyForContractorQuote => assert AllStatuses[4] == s;
      case WorkordersSent => assert AllStatuses[5] == s;
      case ReadyForFinalAudit => assert AllStatuses[6] == s;
      case FinalAuditScheduled => assert AllStatuses[7] == s;
      case Completed => assert AllStatuses[8] == s;
      case OnHold => assert AllStatuses[9] == s;
    }
  }

  /** The string values are pairwise distinct: reading a value back gives the member. */
  lemma {:induction false} StatusValueRoundTrip(s: Status)
    ensures ParseStatus(StatusValue(s)) == Some(s)
  {
    match s
    case ReadyForBooking =>
    case AuditScheduled =>
    case InitialAuditCompleted =>
    case ReadyForTechReview =>
    case ReadyForContractorQuote =>
    case WorkordersSent =>
    case ReadyForFinalAudit =>
    case FinalAuditScheduled =>
    case Completed =>
    case OnHold =>
  }

  lemma StatusValueInjective(a: Status, b: Status)
    ensures StatusValue(a) == StatusValue(b) ==> a == b
  {
    StatusValueRoundTrip(a);
    StatusValueRoundTrip(b);
  }

  /** `booking` and `finalAudit` map to two statuses each, every other step to one. */
  lemma StepStatusCounts(step: Step)
    ensures |StepStatuses(step)| == if step == Booking || step == FinalAudit then 2 else 1
    ensures NoDuplicates(StepStatuses(step))
  {
  }

  /** The step lists are pairwise disjoint. */
  lemma StepListsDisjoint(a: Step, b: Step, s: Status)
    requires a != b
    ensures !(s in StepStatuses(a) && s in StepStatuses(b))
  {
  }

  /** Together the step lists cover every status except COMPLETED and ON_HOLD. */
  lemma StepListsCover(s: Status)
    ensures (exists step: Step :: s in StepStatuses(step)) <==> s != Completed && s != OnHold
  {
    match s
    case ReadyForBooking => assert s in StepStatuses(Booking);
    case AuditScheduled => assert s in StepStatuses(Booking);
    case InitialAuditCompleted => assert s in StepStatuses(InitialAudit);
    case ReadyForTechReview => assert s in StepStatuses(TechReview);
    case ReadyForContractorQuote => assert s in StepStatuses(QuoteGeneration);
    case WorkordersSent => assert s in StepStatuses(WorkOrders);
    case ReadyForFinalAudit => assert s in StepStatuses(FinalAudit);
    case FinalAuditScheduled => assert s in StepStatuses(FinalAudit);
    case Completed =>
    case OnHold =>
  }

  /** Concatenating the step lists in key order gives the enumeration's
      declaration order with COMPLETED and ON_HOLD left out. */
  lemma StepListsInDeclarationOrder()
    ensures Flatten(StepLists(StepOrder)) == AllStatuses[..8]
    ensures AllStatuses[8..] == [Completed, OnHold]
  {
    var lists := StepLists(StepOrder);
    var t: seq<Status> := [ReadyForFinalAudit, FinalAuditScheduled];
    assert Flatten(lists[5..]) == t by { assert lists[5..][1..] == []; }
    t := [WorkordersSent] + t;
    assert Flatten(lists[4..]) == t by { assert lists[4..][1..] == lists[5..]; }
    t := [ReadyForContractorQuote] + t;
    assert Flatten(lists[3..]) == t by { assert lists[3..][1..] == lists[4..]; }
    t := [ReadyForTechReview] + t;
    assert Flatten(lists[2..]) == t by { assert lists[2..][1..] == lists[3..]; }
    t := [InitialAuditCompleted] + t;
    assert Flatten(lists[1..]) == t by { assert lists[1..][1..] == lists[2..]; }
    t := [ReadyForBooking, AuditScheduled] + t;
    assert Flatten(lists) == t;
    assert t == AllStatuses[..8];
  }
}
