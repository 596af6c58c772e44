/** A project's action items (src/components/projects/ProjectActionItems.tsx):
    a list appended to by the add dialog and rewritten by id on each status
    change, with the Mark Complete and Start buttons that offer changes. */
module ActionItems {
  import opened Seqs

  datatype ActionPriority = Low | Medium | High
  datatype ActionStatus = Pending | InProgress | Completed

  datatype ActionItem = ActionItem(
    id: string,
    title: string,
    description: string,
    dueDate: string,
    assignedTo: string,
    priority: ActionPriority,
    status: ActionStatus)

  /** `Omit<ActionItem, 'id' | 'status'>`: what the add dialog submits. */
  datatype ActionData = ActionData(
    title: string,
    description: string,
    dueDate: string,
    assignedTo: string,
    priority: ActionPriority)

  /** The item `handleAddAction` builds at instant `now`. */
  function NewAction(data: ActionData, now: nat): (a: ActionItem)
    ensures a.id == NatToString(now) && a.status == Pending
    ensures a.title == data.title && a.description == data.description && a.dueDate == data.dueDate
    ensures a.assignedTo == data.assignedTo && a.priority == data.priority
  {
    ActionItem(NatToString(now), data.title, data.description, data.dueDate, data.assignedTo, data.priority, Pending)
  }

  function SetActionStatus(items: seq<ActionItem>, id: string, status: ActionStatus): seq<ActionItem> {
    MapWhere(items, (item: ActionItem) => item.id == id, (item: ActionItem) => item.(status := status))
  }

  /** The targets of the buttons a row shows, in display order: Mark Complete
      for every item not yet completed, then Start for a pending one. */
  function OfferedTargets(s: ActionStatus): seq<ActionStatus> {
    (if s != Completed then [Completed] else []) + (if s == Pending then [InProgress] else [])
  }

  /** The list's state, empty when the section opens. */
  class Section {
    var actionItems: seq<ActionItem>

    constructor()
      ensures actionItems == []
    {
      actionItems := [];
    }

    method HandleAddAction(data: ActionData, now: nat)
      modifies this
      ensures actionItems == old(actionItems) + [NewAction(data, now)]
    {
      actionItems := actionItems + [NewAction(data, now)];
    }

    method HandleStatusChange(id: string, status: ActionStatus)
      modifies this
      ensures actionItems == SetActionStatus(old(actionItems), id, status)
    {
      actionItems := SetActionStatus(actionItems, id, status);
    }
  }

  // ---------------------------------------------------------------------

  /** Adding appends exactly one PENDING item and keeps the earlier ones. */
  lemma AddAppendsPending(items: seq<ActionItem>, data: ActionData, now: nat)
    ensures var r := items + [NewAction(data, now)];
      |r| == |items| + 1 && r[..|items|] == items && r[|items|].status == Pending
  {
    assert (items + [NewAction(data, now)])[..|items|] == items;
  }

  /** A status change touches only matching items and keeps the length. */
  lemma StatusChangeOnlyTarget(items: seq<ActionItem>, id: string, status: ActionStatus)
    ensures |SetActionStatus(items, id, status)| == |items|
    ensures forall i :: 0 <= i < |items| ==>
      SetActionStatus(items, id, status)[i] == if items[i].id == id then items[i].(status := status) else items[i]
  {
  }

  /** Mark Complete is offered for every item not completed, Start only for pending ones. */
  lemma ButtonGating(s: ActionStatus)
    ensures Completed in OfferedTargets(s) <==> s != Completed
    ensures InProgress in OfferedTargets(s) <==> s == Pending
    ensures OfferedTargets(s) == [] <==> s == Completed
  {
  }

  /** No offered action leaves COMPLETED or returns an item to PENDING. */
  lemma NoActionLeavesCompletedOrReturnsToPending(s: ActionStatus, t: ActionStatus)
    requires t in OfferedTargets(s)
    ensures s != Completed && t != Pending && t != s
  {
  }

  function Rank(s: ActionStatus): nat {
    match s
    case Pending => 0
    case InProgress => 1
    case Completed => 2
  }

  /** A run of clicks: each status is offered from the one before. */
  predicate ClickRun(states: seq<ActionStatus>) {
    forall i :: 0 <= i < |states| - 1 ==> states[i + 1] in OfferedTargets(states[i])
  }

  /** Every click strictly advances an item, so any run of clicks has at most
      three states and ends at COMPLETED when it has three. */
  lemma {:induction false} ClickRunAdvances(states: seq<ActionStatus>)
    requires ClickRun(states)
    ensures forall i, j :: 0 <= i < j < |states| ==> Rank(states[i]) < Rank(states[j])
    ensures |states| <= 3
    ensures |states| == 3 ==> states[2] == Completed
    decreases |states|
  {
    if |states| > 1 {
      var tail := states[1..];
      assert ClickRun(tail) by {
        forall i | 0 <= i < |tail| - 1 ensures tail[i + 1] in OfferedTargets(tail[i]) {
          assert tail[i] == states[i + 1] && tail[i + 1] == states[i + 2];
        }
      }
      ClickRunAdvances(tail);
      assert Rank(states[0]) < Rank(states[1]);
      forall i, j | 0 <= i < j < |states| ensures Rank(states[i]) < Rank(states[j]) {
        assert states[j] == tail[j - 1];
        if i > 0 {
          assert states[i] == tail[i - 1];
        }
      }
      if |states| == 3 {
        assert Rank(states[2]) == 2;
      }
    }
  }
}
