/** The work-order table (src/components/tech/WorkordersTable.tsx): a list
    of work orders held by the table, appended to on creation and rewritten on
    each status change, and the action buttons that offer the changes. */
module Workorders {
  import opened Seqs
  import ParticipantTypes

  type Instant = ParticipantTypes.Instant

  datatype WorkorderStatus = Draft | Sent | Accepted | InProgress | Completed | Rejected

  datatype Workorder = Workorder(
    id: string,
    projectId: string,
    contractorId: string,
    quoteId: string,
    description: string,
    status: WorkorderStatus,
    createdAt: Instant,
    startDate: Option<Instant>,
    completionDate: Option<Instant>,
    totalAmount: real,
    notes: Option<string>)

  /** `Omit<Workorder, 'id' | 'status' | 'createdAt'>`: what the creation dialog submits. */
  datatype WorkorderData = WorkorderData(
    projectId: string,
    contractorId: string,
    quoteId: string,
    description: string,
    startDate: Option<Instant>,
    completionDate: Option<Instant>,
    totalAmount: real,
    notes: Option<string>)

  /** The order `handleCreateWorkorder` builds at instant `now`. */
  function NewWorkorder(data: WorkorderData, now: nat): (o: Workorder)
    ensures o.id == NatToString(now) && o.status == Draft && o.createdAt == now
    ensures o.projectId == data.projectId && o.contractorId == data.contractorId && o.quoteId == data.quoteId
    ensures o.description == data.description && o.totalAmount == data.totalAmount && o.notes == data.notes
    ensures o.startDate == data.startDate && o.completionDate == data.completionDate
  {
    Workorder(NatToString(now), data.projectId, data.contractorId, data.quoteId, data.description,
              Draft, now, data.startDate, data.completionDate, data.totalAmount, data.notes)
  }

  /** The order after a change to `status` at instant `now`: starting work stamps
      `startDate`, completing stamps `completionDate`, nothing else is touched. */
  function WithStatus(o: Workorder, status: WorkorderStatus, now: Instant): (r: Workorder)
    ensures r.status == status
    ensures r.startDate == if status == InProgress then Some(now) else o.startDate
    ensures r.completionDate == if status == Completed then Some(now) else o.completionDate
    ensures r.(status := o.status, startDate := o.startDate, completionDate := o.completionDate) == o
  {
    o.(status := status,
       startDate := if status == InProgress then Some(now) else o.startDate,
       completionDate := if status == Completed then Some(now) else o.completionDate)
  }

  function SetStatus(orders: seq<Workorder>, id: string, status: WorkorderStatus, now: Instant): seq<Workorder> {
    MapWhere(orders, (o: Workorder) => o.id == id, (o: Workorder) => WithStatus(o, status, now))
  }

  /** The one action button a row shows for its status, if any. */
  function OfferedTransition(s: WorkorderStatus): Option<WorkorderStatus> {
    match s
    case Draft => Some(Sent)
    case Accepted => Some(InProgress)
    case InProgress => Some(Completed)
    case _ => None
  }

  /** The table's state: its list of work orders, empty when it opens. */
  class Table {
    var workorders: seq<Workorder>

    constructor()
      ensures workorders == []
    {
      workorders := [];
    }

    method HandleCreateWorkorder(data: WorkorderData, now: nat)
      modifies this
      ensures workorders == old(workorders) + [NewWorkorder(data, now)]
    {
      workorders := workorders + [NewWorkorder(data, now)];
    }

    method HandleStatusChange(workorderId: string, newStatus: WorkorderStatus, now: Instant)
      modifies this
      ensures workorders == SetStatus(old(workorders), workorderId, newStatus, now)
    {
      workorders := SetStatus(workorders, workorderId, newStatus, now);
    }

    /** A click on the action button of row `i`. */
    method ClickAction(i: int, now: Instant)
      requires 0 <= i < |workorders| && OfferedTransition(workorders[i].status).Some?
      modifies this
      ensures workorders == SetStatus(old(workorders), old(workorders)[i].id, OfferedTransition(old(workorders)[i].status).value, now)
    {
      HandleStatusChange(workorders[i].id, OfferedTransition(workorders[i].status).value, now);
    }
  }

  // ---------------------------------------------------------------------

  /** A status change keeps the length and touches only orders with that id. */
  lemma SetStatusChangesOnlyTarget(orders: seq<Workorder>, id: string, status: WorkorderStatus, now: Instant)
    ensures |SetStatus(orders, id, status, now)| == |orders|
    ensures forall i :: 0 <= i < |orders| ==>
      SetStatus(orders, id, status, now)[i] == if orders[i].id == id then WithStatus(orders[i], status, now) else orders[i]
  {
  }

  /** The buttons offer exactly DRAFT to SENT, ACCEPTED to IN_PROGRESS and IN_PROGRESS to COMPLETED. */
  lemma OfferedTransitionsAreTheThree(a: WorkorderStatus, b: WorkorderStatus)
    ensures OfferedTransition(a) == Some(b) <==>
      (a == Draft && b == Sent) || (a == Accepted && b == InProgress) || (a == InProgress && b == Completed)
  {
  }

  /** No button ever produces ACCEPTED or REJECTED. */
  lemma NoButtonAcceptsOrRejects(a: WorkorderStatus)
    ensures OfferedTransition(a) != Some(Accepted) && OfferedTransition(a) != Some(Rejected)
  {
  }

  /** A run of button clicks: each state is the offered transition of the one before. */
  predicate ButtonRun(states: seq<WorkorderStatus>) {
    forall i :: 0 <= i < |states| - 1 ==> OfferedTransition(states[i]) == Some(states[i + 1])
  }

  /** The two disconnected families of statuses the buttons move within:
      DRAFT and SENT; ACCEPTED, IN_PROGRESS and COMPLETED; REJECTED alone. */
  function Phase(s: WorkorderStatus): nat {
    match s
    case Draft => 0
    case Sent => 0
    case Accepted => 1
    case InProgress => 1
    case Completed => 1
    case Rejected => 2
  }

  /** How many clicks a status is from the start of its family. */
  function Rank(s: WorkorderStatus): nat {
    match s
    case Draft => 0
    case Sent => 1
    case Accepted => 0
    case InProgress => 1
    case Completed => 2
    case Rejected => 0
  }

  /** Clicking never leaves a status's family, and every click advances one rank,
      so a run of clicks is at most three states long. */
  lemma {:induction false} ButtonRunStaysInPhase(states: seq<WorkorderStatus>)
    requires |states| > 0 && ButtonRun(states)
    ensures forall i :: 0 <= i < |states| ==> Phase(states[i]) == Phase(states[0])
    ensures forall i :: 0 <= i < |states| ==> Rank(states[i]) == Rank(states[0]) + i
    ensures |states| <= 3
  {
    if |states| > 1 {
      var tail := states[1..];
      assert ButtonRun(tail) by {
        forall i | 0 <= i < |tail| - 1 ensures OfferedTransition(tail[i]) == Some(tail[i + 1]) {
          assert tail[i] == states[i + 1] && tail[i + 1] == states[i + 2];
        }
      }
      ButtonRunStaysInPhase(tail);
      assert OfferedTransition(states[0]) == Some(states[1]);
      forall i | 1 <= i < |states|
        ensures Phase(states[i]) == Phase(states[0]) && Rank(states[i]) == Rank(states[0]) + i
      {
        assert states[i] == tail[i - 1];
      }
      assert Rank(states[|states| - 1]) <= 2;
    }
  }

  /** A new order (DRAFT) can only ever reach SENT through the table's buttons. */
  lemma DraftReachesOnlySent(states: seq<WorkorderStatus>)
    requires |states| > 0 && states[0] == Draft && ButtonRun(states)
    ensures forall i :: 0 <= i < |states| ==> states[i] == Draft || states[i] == Sent
  {
    ButtonRunStaysInPhase(states);
    forall i | 0 <= i < |states| ensures states[i] == Draft || states[i] == Sent {
      assert Phase(states[i]) == 0;
    }
  }

  /** An order creation appends one DRAFT order and changes none of the others. */
  lemma CreateAppendsDraft(orders: seq<Workorder>, data: WorkorderData, now: nat)
    ensures var r := orders + [NewWorkorder(data, now)];
      |r| == |orders| + 1 && r[..|orders|] == orders && r[|orders|].status == Draft
  {
    assert (orders + [NewWorkorder(data, now)])[..|orders|] == orders;
  }
}
