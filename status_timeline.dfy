/** The project status timeline (src/components/projects/ProjectStatusTimeline.tsx):
    a fixed order of nine statuses, each shown as past, current or upcoming
    against the participant's status, with the first history entry recorded
    for it. */
module StatusTimeline {
  import opened Seqs
  import opened ParticipantTypes
  import ParticipantStore

  /** `STATUS_ORDER`. */
  const StatusOrder: seq<Status> := [
    ReadyForBooking, AuditScheduled, InitialAuditCompleted, ReadyForTechReview,
    ReadyForContractorQuote, WorkordersSent, ReadyForFinalAudit, FinalAuditScheduled,
    Completed]

  /** `STATUS_LABELS`: a label for every member of the enumeration. */
  function StatusLabel(s: Status): string {
    match s
    case ReadyForBooking => "Ready for Booking"
    case AuditScheduled => "Audit Scheduled"
    case InitialAuditCompleted => "Initial Audit Completed"
    case ReadyForTechReview => "Ready for Technical Review"
    case ReadyForContractorQuote => "Ready for Contractor Quote"
    case WorkordersSent => "Work Orders Sent"
    case ReadyForFinalAudit => "Ready for Final Audit"
    case FinalAuditScheduled => "Final Audit Scheduled"
    case Completed => "Project Completed"
    case OnHold => "On Hold"
  }

  /** One rendered row: its status, the two classifications and the history entry it shows. */
  datatype TimelineRow = TimelineRow(status: Status, isPast: bool, isCurrent: bool, historyEntry: Option<StatusUpdate>)

  /** `statusHistory.find(h => h.status === status)`. */
  function EntryFor(history: seq<StatusUpdate>, s: Status): Option<StatusUpdate> {
    Find(history, (h: StatusUpdate) => h.status == s)
  }

  /** The rows rendered along any order whose entries are pairwise distinct. */
  function Rows(order: seq<Status>, currentStatus: Status, history: seq<StatusUpdate>): (rows: seq<TimelineRow>)
    requires forall i :: 0 <= i < |order| ==> IndexOf(order, order[i]) == i
    ensures |rows| == |order|
    ensures forall i :: 0 <= i < |rows| ==> rows[i].status == order[i]
    ensures forall i :: 0 <= i < |rows| ==> (rows[i].isPast <==> i < IndexOf(order, currentStatus))
    ensures forall i :: 0 <= i < |rows| ==> (rows[i].isCurrent <==> order[i] == currentStatus)
    ensures forall i :: 0 <= i < |rows| ==> rows[i].historyEntry == EntryFor(history, order[i])
  {
    var currentIndex := IndexOf(order, currentStatus);
    seq(|order|, i requires 0 <= i < |order| =>
      TimelineRow(order[i],
                  IndexOf(order, order[i]) < currentIndex,
                  order[i] == currentStatus,
                  EntryFor(history, order[i])))
  }

  /** The rows for the current status and the history (an absent history reads as empty). */
  function Timeline(currentStatus: Status, statusHistory: Option<seq<StatusUpdate>>): (rows: seq<TimelineRow>)
    ensures |rows| == |StatusOrder|
    ensures forall i :: 0 <= i < |rows| ==> rows[i].status == StatusOrder[i]
    ensures forall i :: 0 <= i < |rows| ==> (rows[i].isPast <==> i < IndexOf(StatusOrder, currentStatus))
    ensures forall i :: 0 <= i < |rows| ==> (rows[i].isCurrent <==> StatusOrder[i] == currentStatus)
    ensures forall i :: 0 <= i < |rows| ==>
      rows[i].historyEntry == EntryFor(if statusHistory.Some? then statusHistory.value else [], StatusOrder[i])
  {
    StatusOrderDistinct();
    Rows(StatusOrder, currentStatus, if statusHistory.Some? then statusHistory.value else [])
  }

  // ---------------------------------------------------------------------

  /** The nine entries are the enumeration in declaration order without ON_HOLD. */
  lemma StatusOrderIsEnumWithoutOnHold()
    ensures StatusOrder == AllStatuses[..9]
    ensures |StatusOrder| == 9
    ensures forall s :: s in StatusOrder <==> s != OnHold
  {
    AllStatusesEnumeratesStatus();
  }

  /** Each entry of the order sits at its own index. */
  lemma StatusOrderDistinct()
    ensures NoDuplicates(StatusOrder)
    ensures forall i :: 0 <= i < |StatusOrder| ==> IndexOf(StatusOrder, StatusOrder[i]) == i
  {
    AllStatusesEnumeratesStatus();
    assert StatusOrder == AllStatuses[..9];
    forall i | 0 <= i < |StatusOrder| ensures IndexOf(StatusOrder, StatusOrder[i]) == i {
      var k := IndexOf(StatusOrder, StatusOrder[i]);
      assert StatusOrder[k] == StatusOrder[i];
    }
  }

  /** The labels are pairwise distinct. */
  lemma StatusLabelsDistinct(a: Status, b: Status)
    ensures StatusLabel(a) == StatusLabel(b) ==> a == b
  {
  }

  /** For ON_HOLD the index is -1: no row is past and no row is current. */
  lemma OnHoldShowsNothing(statusHistory: Option<seq<StatusUpdate>>)
    ensures forall i :: 0 <= i < |Timeline(OnHold, statusHistory)| ==>
      !Timeline(OnHold, statusHistory)[i].isPast && !Timeline(OnHold, statusHistory)[i].isCurrent
  {
    assert forall i :: 0 <= i < |StatusOrder| ==> IndexOf(StatusOrder, StatusOrder[i]) == i by {
      StatusOrderDistinct();
    }
    assert OnHold !in StatusOrder by {
      StatusOrderIsEnumWithoutOnHold();
    }
    RowsAbsent(StatusOrder, OnHold, if statusHistory.Some? then statusHistory.value else []);
  }

  /** Along any order, a status that is not listed marks no row past and no row current. */
  lemma RowsAbsent(order: seq<Status>, currentStatus: Status, history: seq<StatusUpdate>)
    requires forall i :: 0 <= i < |order| ==> IndexOf(order, order[i]) == i
    requires currentStatus !in order
    ensures forall i :: 0 <= i < |order| ==>
      !Rows(order, currentStatus, history)[i].isPast && !Rows(order, currentStatus, history)[i].isCurrent
  {
  }

  /** Along an order without repeats, the row of a listed status is the only current one. */
  lemma RowsOneCurrent(order: seq<Status>, currentStatus: Status, history: seq<StatusUpdate>)
    requires forall i :: 0 <= i < |order| ==> IndexOf(order, order[i]) == i
    requires currentStatus in order
    ensures var rows := Rows(order, currentStatus, history);
      var k := IndexOf(order, currentStatus);
      0 <= k < |rows| && rows[k].isCurrent
        && (forall j :: 0 <= j < |rows| && j != k ==> !rows[j].isCurrent)
  {
    var rows := Rows(order, currentStatus, history);
    var k := IndexOf(order, currentStatus);
    forall j | 0 <= j < |rows| && j != k ensures !rows[j].isCurrent {
      assert IndexOf(order, order[j]) == j;
    }
  }

  /** For any other status exactly one row is current, every row before it is
      past and no row from it on is past. */
  lemma ExactlyOneCurrent(currentStatus: Status, statusHistory: Option<seq<StatusUpdate>>)
    requires currentStatus != OnHold
    ensures var rows := Timeline(currentStatus, statusHistory);
      var k := IndexOf(StatusOrder, currentStatus);
      0 <= k < |rows| && rows[k].isCurrent
        && (forall j :: 0 <= j < |rows| && j != k ==> !rows[j].isCurrent)
        && (forall j :: 0 <= j < |rows| ==> (rows[j].isPast <==> j < k))
  {
    var h := if statusHistory.Some? then statusHistory.value else [];
    StatusOrderHas(currentStatus);
    StatusOrderDistinct();
    RowsOneCurrent(StatusOrder, currentStatus, h);
  }

  lemma StatusOrderHas(s: Status)
    requires s != OnHold
    ensures s in StatusOrder
  {
    match s
    case ReadyForBooking => assert StatusOrder[0] == s;
    case AuditScheduled => assert StatusOrder[1] == s;
    case InitialAuditCompleted => assert StatusOrder[2] == s;
    case ReadyForTechReview => assert StatusOrder[3] == s;
    case ReadyForContractorQuote => assert StatusOrder[4] == s;
    case WorkordersSent => assert StatusOrder[5] == s;
    case ReadyForFinalAudit => assert StatusOrder[6] == s;
    case FinalAuditScheduled => assert StatusOrder[7] == s;
    case Completed => assert StatusOrder[8] == s;
  }

  /** The entry shown for a status is the earliest history element with that status, and none when there is none. */
  lemma EntryIsFirstMatch(history: seq<StatusUpdate>, s: Status)
    ensures EntryFor(history, s).None? <==> forall i :: 0 <= i < |history| ==> history[i].status != s
    ensures EntryFor(history, s).Some? ==>
      exists i :: 0 <= i < |history| && history[i] == EntryFor(history, s).value && history[i].status == s
        && forall j :: 0 <= j < i ==> history[j].status != s
  {
  }

  /** Because the first match is shown, re-entering a status keeps the earlier
      entry on the timeline: the entry just appended by the store is not displayed. */
  lemma ReenteredStatusShowsEarlierEntry(p: Participant, s: Status, notes: Option<string>, now: Instant)
    requires exists i :: 0 <= i < |History(p)| && History(p)[i].status == s
    ensures EntryFor(History(ParticipantStore.WithStatus(p, s, notes, now)), s) == EntryFor(History(p), s)
  {
    var h := History(p);
    var e := ParticipantStore.StatusEntry(s, notes, now);
    var f := (u: StatusUpdate) => u.status == s;
    FindAppend(h, [e], f);
  }

  /** A status entered for the first time is shown with the entry the store just appended. */
  lemma FirstEntryIsShown(p: Participant, s: Status, notes: Option<string>, now: Instant)
    requires forall i :: 0 <= i < |History(p)| ==> History(p)[i].status != s
    ensures EntryFor(History(ParticipantStore.WithStatus(p, s, notes, now)), s) == Some(ParticipantStore.StatusEntry(s, notes, now))
  {
    var h := History(p);
    var e := ParticipantStore.StatusEntry(s, notes, now);
    var f := (u: StatusUpdate) => u.status == s;
    FindAppend(h, [e], f);
    assert FindIndex([e], f) == 0;
  }
}
