/** The technical team's review of proposed upgrades
    (src/components/projects/TechTeamSection.tsx): approve and reject rewrite
    the matching upgrade's status, and each row offers actions by status. */
module TechReview {
  import opened Seqs
  import opened EASection

  /** The buttons a row shows. */
  datatype ReviewAction = Approve | Reject | RequestQuote

  /** The actions offered for an upgrade in `status`: approve and reject while
      pending review, a quote request once approved, none once rejected. */
  function OfferedActions(status: UpgradeStatus): seq<ReviewAction> {
    match status
    case PendingReview => [Approve, Reject]
    case Approved => [RequestQuote]
    case Rejected => []
  }

  function SetUpgradeStatus(upgrades: seq<Upgrade>, upgradeId: string, status: UpgradeStatus): seq<Upgrade> {
    MapWhere(upgrades, (u: Upgrade) => u.id == upgradeId, (u: Upgrade) => u.(status := status))
  }

  /** The status a review button moves an upgrade to; a quote request changes no status. */
  function Target(a: ReviewAction): Option<UpgradeStatus> {
    match a
    case Approve => Some(Approved)
    case Reject => Some(Rejected)
    case RequestQuote => None
  }

  /** The section's state: the list of proposed upgrades, empty when it opens. */
  class Section {
    var proposedUpgrades: seq<Upgrade>

    constructor()
      ensures proposedUpgrades == []
    {
      proposedUpgrades := [];
    }

    method HandleApproveUpgrade(upgradeId: string)
      modifies this
      ensures proposedUpgrades == SetUpgradeStatus(old(proposedUpgrades), upgradeId, Approved)
    {
      proposedUpgrades := SetUpgradeStatus(proposedUpgrades, upgradeId, Approved);
    }

    method HandleRejectUpgrade(upgradeId: string)
      modifies this
      ensures proposedUpgrades == SetUpgradeStatus(old(proposedUpgrades), upgradeId, Rejected)
    {
      proposedUpgrades := SetUpgradeStatus(proposedUpgrades, upgradeId, Rejected);
    }
  }

  // ---------------------------------------------------------------------

  /** Approve and reject change only the status of matching upgrades and keep the length. */
  lemma ReviewChangesOnlyTarget(upgrades: seq<Upgrade>, upgradeId: string, status: UpgradeStatus)
    ensures |SetUpgradeStatus(upgrades, upgradeId, status)| == |upgrades|
    ensures forall i :: 0 <= i < |upgrades| ==>
      SetUpgradeStatus(upgrades, upgradeId, status)[i] ==
        if upgrades[i].id == upgradeId then upgrades[i].(status := status) else upgrades[i]
  {
  }

  /** Approving (or rejecting) twice is approving (or rejecting) once; the later of two decisions wins. */
  lemma ReviewIdempotent(upgrades: seq<Upgrade>, upgradeId: string, s1: UpgradeStatus, s2: UpgradeStatus)
    ensures SetUpgradeStatus(SetUpgradeStatus(upgrades, upgradeId, s1), upgradeId, s2) == SetUpgradeStatus(upgrades, upgradeId, s2)
  {
    var once := SetUpgradeStatus(upgrades, upgradeId, s1);
    var l := SetUpgradeStatus(once, upgradeId, s2);
    var r := SetUpgradeStatus(upgrades, upgradeId, s2);
    forall i | 0 <= i < |upgrades| ensures l[i] == r[i] {
      assert once[i].id == upgrades[i].id;
    }
  }

  /** Approve and reject are offered only while pending review, and a quote request only once approved. */
  lemma GatingByStatus(status: UpgradeStatus)
    ensures Approve in OfferedActions(status) <==> status == PendingReview
    ensures Reject in OfferedActions(status) <==> status == PendingReview
    ensures RequestQuote in OfferedActions(status) <==> status == Approved
  {
  }

  /** A reviewed upgrade offers no further review: after an offered approve or
      reject, the upgrade's row shows no approve or reject button. */
  lemma ReviewIsFinal(upgrades: seq<Upgrade>, i: int, a: ReviewAction)
    requires 0 <= i < |upgrades| && a in OfferedActions(upgrades[i].status) && Target(a).Some?
    ensures var r := SetUpgradeStatus(upgrades, upgrades[i].id, Target(a).value);
      Approve !in OfferedActions(r[i].status) && Reject !in OfferedActions(r[i].status)
      && upgrades[i].status == PendingReview
  {
  }

  /** A freshly proposed upgrade can be approved, and once approved it offers the quote request. */
  lemma ProposalThenApprove(upgrades: seq<Upgrade>, form: UpgradeForm, now: nat)
    ensures var all := upgrades + [Proposal(form, now)];
      OfferedActions(all[|upgrades|].status) == [Approve, Reject]
      && SetUpgradeStatus(all, NatToString(now), Approved)[|upgrades|].status == Approved
  {
  }
}
