/** The participant store (src/store/participants.ts): the list of
    participants and the actions that rewrite it.  Each action replaces the
    whole list with a mapped or extended copy; the store checks nothing about
    the ids or statuses it is given. */
module ParticipantStore {
  import opened Seqs
  import opened ParticipantTypes

  /** The fixed author written into every history entry. */
  const CurrentUserId: string := "current-user-id"

  /** The history entry a status change appends (it never carries `assignedTo`). */
  function StatusEntry(status: Status, notes: Option<string>, now: Instant): StatusUpdate {
    StatusUpdate(status, None, notes, now, CurrentUserId)
  }

  /** The participant after a status change at instant `now`: any status is
      accepted, the history grows by one entry, and `completedAt` moves only
      on COMPLETED. */
  function WithStatus(p: Participant, status: Status, notes: Option<string>, now: Instant): (q: Participant)
    ensures q.status == status
    ensures History(q) == History(p) + [StatusEntry(status, notes, now)]
    ensures q.completedAt == if status == Completed then Some(now) else p.completedAt
    ensures q.(status := p.status, statusHistory := p.statusHistory, completedAt := p.completedAt) == p
  {
    p.(status := status,
       statusHistory := Some(History(p) + [StatusEntry(status, notes, now)]),
       completedAt := if status == Completed then Some(now) else p.completedAt)
  }

  /** `{ ...p, onHold: !p.onHold }`. */
  function WithHoldToggled(p: Participant): (q: Participant)
    ensures q.onHold == !p.onHold
    ensures q.(onHold := p.onHold) == p
  {
    p.(onHold := !p.onHold)
  }

  /** The list after `updateParticipantStatus(id, status, notes)` at instant `now`. */
  function SetStatus(ps: seq<Participant>, id: string, status: Status, notes: Option<string>, now: Instant): seq<Participant> {
    MapWhere(ps, (p: Participant) => p.id == id, (p: Participant) => WithStatus(p, status, notes, now))
  }

  /** The list after `toggleParticipantHold(id)`. */
  function ToggleHold(ps: seq<Participant>, id: string): seq<Participant> {
    MapWhere(ps, (p: Participant) => p.id == id, WithHoldToggled)
  }

  /** The list after `assignToAdvisor(participantId, advisorId)`. */
  function AssignAdvisor(ps: seq<Participant>, participantId: string, advisorId: string): seq<Participant> {
    MapWhere(ps, (p: Participant) => p.id == participantId, (p: Participant) => p.(assignedAdvisor := Some(advisorId)))
  }

  /** The list after `updatePriority(participantId, priority)`. */
  function SetPriority(ps: seq<Participant>, participantId: string, priority: Priority): seq<Participant> {
    MapWhere(ps, (p: Participant) => p.id == participantId, (p: Participant) => p.(priority := Some(priority)))
  }

  /** The id `addParticipant` draws from the clock: `p` followed by the milliseconds. */
  function ClockId(now: nat): string {
    "p" + NatToString(now)
  }

  /** The participant `addParticipant` builds from the submitted data at instant `now`.
      Whatever id, status, creation time, hold flag or report flag the data
      carries is overwritten; every other field is kept. */
  function NewParticipant(data: Participant, now: nat): (p: Participant)
    ensures p.id == ClockId(now) && p.status == ReadyForBooking && p.createdAt == now
    ensures !p.onHold && p.reportUploaded == Some(false)
    ensures p.(id := data.id, status := data.status, createdAt := data.createdAt,
               onHold := data.onHold, reportUploaded := data.reportUploaded) == data
  {
    data.(id := ClockId(now), status := ReadyForBooking, createdAt := now, onHold := false, reportUploaded := Some(false))
  }

  /** The store: the list of participants as its one piece of state. */
  class Store {
    var participants: seq<Participant>

    constructor(initial: seq<Participant>)
      ensures participants == initial
    {
      participants := initial;
    }

    /** `updateParticipantStatus`; the API call it awaits always succeeds. */
    method UpdateParticipantStatus(id: string, status: Status, notes: Option<string>, now: Instant)
      modifies this
      ensures participants == SetStatus(old(participants), id, status, notes, now)
    {
      participants := SetStatus(participants, id, status, notes, now);
    }

    /** `toggleParticipantHold`. */
    method ToggleParticipantHold(id: string)
      modifies this
      ensures participants == ToggleHold(old(participants), id)
    {
      participants := ToggleHold(participants, id);
    }

    /** `addParticipant`: the new participant goes at the end. */
    method AddParticipant(data: Participant, now: nat)
      modifies this
      ensures participants == old(participants) + [NewParticipant(data, now)]
    {
      participants := participants + [NewParticipant(data, now)];
    }

    /** `assignToAdvisor`. */
    method AssignToAdvisor(participantId: string, advisorId: string)
      modifies this
      ensures participants == AssignAdvisor(old(participants), participantId, advisorId)
    {
      participants := AssignAdvisor(participants, participantId, advisorId);
    }

    /** `updatePriority`. */
    method UpdatePriority(participantId: string, priority: Priority)
      modifies this
      ensures participants == SetPriority(old(participants), participantId, priority)
    {
      participants := SetPriority(participants, participantId, priority);
    }
  }

  // ---------------------------------------------------------------------
  // Properties of the list operations

  /** A status change keeps the length, leaves every other participant alone,
      and gives each matching participant the new status and one more history
      entry, whatever its current status (COMPLETED included). */
  lemma SetStatusChangesOnlyTarget(ps: seq<Participant>, id: string, status: Status, notes: Option<string>, now: Instant)
    ensures |SetStatus(ps, id, status, notes, now)| == |ps|
    ensures forall i :: 0 <= i < |ps| && ps[i].id != id ==> SetStatus(ps, id, status, notes, now)[i] == ps[i]
    ensures forall i :: 0 <= i < |ps| && ps[i].id == id ==>
      var q := SetStatus(ps, id, status, notes, now)[i];
      q.status == status && q.id == id
      && |History(q)| == |History(ps[i])| + 1
      && History(q)[..|History(ps[i])|] == History(ps[i])
      && History(q)[|History(ps[i])|] == StatusEntry(status, notes, now)
  {
    var r := SetStatus(ps, id, status, notes, now);
    forall i | 0 <= i < |ps| && ps[i].id == id
      ensures History(r[i])[..|History(ps[i])|] == History(ps[i])
    {
      assert History(r[i]) == History(ps[i]) + [StatusEntry(status, notes, now)];
    }
  }

  /** `completedAt` is stamped exactly when the new status is COMPLETED;
      otherwise it keeps its earlier value, present or not. */
  lemma CompletedAtOnlyOnCompleted(p: Participant, status: Status, notes: Option<string>, now: Instant)
    ensures WithStatus(p, status, notes, now).completedAt == Some(now) <==> status == Completed || p.completedAt == Some(now)
    ensures status != Completed ==> WithStatus(p, status, notes, now).completedAt == p.completedAt
  {
  }

  /** A participant without a history is treated as having an empty one:
      after one change its history is exactly that change. */
  lemma MissingHistoryStartsEmpty(p: Participant, status: Status, notes: Option<string>, now: Instant)
    requires p.statusHistory.None?
    ensures WithStatus(p, status, notes, now).statusHistory == Some([StatusEntry(status, notes, now)])
  {
    assert [] + [StatusEntry(status, notes, now)] == [StatusEntry(status, notes, now)];
  }

  /** Status changes to two different ids commute. */
  lemma SetStatusCommutes(ps: seq<Participant>, a: string, sa: Status, na: Option<string>,
                          b: string, sb: Status, nb: Option<string>, now: Instant)
    requires a != b
    ensures SetStatus(SetStatus(ps, a, sa, na, now), b, sb, nb, now) == SetStatus(SetStatus(ps, b, sb, nb, now), a, sa, na, now)
  {
    var pa := SetStatus(ps, a, sa, na, now);
    var pb := SetStatus(ps, b, sb, nb, now);
    var l := SetStatus(pa, b, sb, nb, now);
    var r := SetStatus(pb, a, sa, na, now);
    forall i | 0 <= i < |ps| ensures l[i] == r[i] {
      var x := ps[i];
      if x.id == a {
        assert pa[i] == WithStatus(x, sa, na, now) && pb[i] == x;
        assert l[i] == pa[i] && r[i] == WithStatus(x, sa, na, now);
      } else if x.id == b {
        assert pb[i] == WithStatus(x, sb, nb, now) && pa[i] == x;
        assert r[i] == pb[i] && l[i] == WithStatus(x, sb, nb, now);
      } else {
        assert pa[i] == x && pb[i] == x;
      }
    }
  }

  /** An id that is in no entry leaves the list as it was. */
  lemma AbsentIdChangesNothing(ps: seq<Participant>, id: string, status: Status, notes: Option<string>, now: Instant)
    requires forall i :: 0 <= i < |ps| ==> ps[i].id != id
    ensures SetStatus(ps, id, status, notes, now) == ps
    ensures ToggleHold(ps, id) == ps
  {
  }

  /** Toggling the hold flips only `onHold` of matching participants and keeps
      their status and history; toggling twice restores the list. */
  lemma ToggleHoldTwiceRestores(ps: seq<Participant>, id: string)
    ensures |ToggleHold(ps, id)| == |ps|
    ensures forall i :: 0 <= i < |ps| ==>
      var q := ToggleHold(ps, id)[i];
      q.status == ps[i].status && q.statusHistory == ps[i].statusHistory
      && q.onHold == (if ps[i].id == id then !ps[i].onHold else ps[i].onHold)
    ensures ToggleHold(ToggleHold(ps, id), id) == ps
  {
    var once := ToggleHold(ps, id);
    var twice := ToggleHold(once, id);
    assert |twice| == |ps|;
    forall i | 0 <= i < |ps| ensures twice[i] == ps[i] {
      assert once[i].id == ps[i].id;
    }
  }

  /** Assigning an advisor and setting a priority change only that field of matching participants. */
  lemma AssignAndPriorityChangeOneField(ps: seq<Participant>, id: string, advisorId: string, priority: Priority)
    ensures |AssignAdvisor(ps, id, advisorId)| == |ps| && |SetPriority(ps, id, priority)| == |ps|
    ensures forall i :: 0 <= i < |ps| ==>
      AssignAdvisor(ps, id, advisorId)[i] == if ps[i].id == id then ps[i].(assignedAdvisor := Some(advisorId)) else ps[i]
    ensures forall i :: 0 <= i < |ps| ==>
      SetPriority(ps, id, priority)[i] == if ps[i].id == id then ps[i].(priority := Some(priority)) else ps[i]
  {
  }

  /** Participants added at distinct milliseconds get distinct ids. */
  lemma ClockIdsDistinct(t1: nat, t2: nat)
    ensures ClockId(t1) == ClockId(t2) <==> t1 == t2
  {
    if ClockId(t1) == ClockId(t2) {
      assert NatToString(t1) == ClockId(t1)[1..];
      assert NatToString(t2) == ClockId(t2)[1..];
      NatToStringInjective(t1, t2);
    }
  }

  /** Two participants added within the same millisecond share an id, and a
      later status change for that id then rewrites both of them. */
  lemma SameMillisecondAddsCollide(ps: seq<Participant>, d1: Participant, d2: Participant, now: nat,
                                   status: Status, notes: Option<string>, later: Instant)
    ensures var r := SetStatus(ps + [NewParticipant(d1, now), NewParticipant(d2, now)], ClockId(now), status, notes, later);
      r[|ps|].status == status && r[|ps| + 1].status == status
  {
  }
}
