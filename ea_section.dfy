/** The energy advisor's upgrade proposals (src/components/projects/ProjectEASection.tsx):
    a list of proposed upgrades, the form for a new one and whether that form
    is shown.  A proposal is added only when it has a description and a
    category, and then the form is cleared and hidden. */
module EASection {
  import opened Seqs

  /** The three review states of a proposed upgrade. */
  datatype UpgradeStatus = PendingReview | Approved | Rejected

  /** A proposed upgrade (the same record type, written inline, is used by the technical review). */
  datatype Upgrade = Upgrade(
    id: string,
    description: string,
    category: string,
    specifications: string,
    status: UpgradeStatus,
    notes: Option<string>)

  /** The new-upgrade form: four text fields. */
  datatype UpgradeForm = UpgradeForm(description: string, category: string, specifications: string, notes: string)

  const EmptyForm := UpgradeForm("", "", "", "")

  /** `newUpgrade.description && newUpgrade.category`: both non-empty strings. */
  predicate CanAdd(form: UpgradeForm) {
    form.description != "" && form.category != ""
  }

  /** The proposal made from the form at instant `now`, awaiting review. */
  function Proposal(form: UpgradeForm, now: nat): (u: Upgrade)
    ensures u.id == NatToString(now) && u.status == PendingReview
    ensures u.description == form.description && u.category == form.category
    ensures u.specifications == form.specifications && u.notes == Some(form.notes)
  {
    Upgrade(NatToString(now), form.description, form.category, form.specifications, PendingReview, Some(form.notes))
  }

  /** The section's state. */
  class Section {
    var proposedUpgrades: seq<Upgrade>
    var newUpgrade: UpgradeForm
    var showAddUpgrade: bool

    /** The section opens with no proposals, an empty form and the form hidden. */
    constructor()
      ensures proposedUpgrades == [] && newUpgrade == EmptyForm && !showAddUpgrade
    {
      proposedUpgrades := [];
      newUpgrade := EmptyForm;
      showAddUpgrade := false;
    }

    /** The "Add Upgrade" button shows the form; nothing else changes. */
    method ShowAddUpgrade()
      modifies this
      ensures showAddUpgrade
      ensures proposedUpgrades == old(proposedUpgrades) && newUpgrade == old(newUpgrade)
    {
      showAddUpgrade := true;
    }

    /** The form's Cancel button hides it and keeps what was typed. */
    method Cancel()
      modifies this
      ensures !showAddUpgrade
      ensures proposedUpgrades == old(proposedUpgrades) && newUpgrade == old(newUpgrade)
    {
      showAddUpgrade := false;
    }

    /** A change typed into the form (the inputs write the whole form back). */
    method EditForm(form: UpgradeForm)
      modifies this
      ensures newUpgrade == form
      ensures proposedUpgrades == old(proposedUpgrades) && showAddUpgrade == old(showAddUpgrade)
    {
      newUpgrade := form;
    }

    /** `handleAddUpgrade` at instant `now`. */
    method HandleAddUpgrade(now: nat)
      modifies this
      ensures CanAdd(old(newUpgrade)) ==>
        proposedUpgrades == old(proposedUpgrades) + [Proposal(old(newUpgrade), now)]
        && newUpgrade == EmptyForm && !showAddUpgrade
      ensures !CanAdd(old(newUpgrade)) ==>
        proposedUpgrades == old(proposedUpgrades) && newUpgrade == old(newUpgrade)
        && showAddUpgrade == old(showAddUpgrade)
    {
      if newUpgrade.description != "" && newUpgrade.category != "" {
        proposedUpgrades := proposedUpgrades + [Proposal(newUpgrade, now)];
        newUpgrade := EmptyForm;
        showAddUpgrade := false;
      }
    }
  }

  // ---------------------------------------------------------------------

  /** Right after a successful add the form cannot be submitted again until it is filled in. */
  lemma ClearedFormCannotBeAdded()
    ensures !CanAdd(EmptyForm)
  {
  }

  /** The guard fails exactly when the description or the category is empty;
      the specifications and notes may be empty. */
  lemma GuardIgnoresOptionalFields(form: UpgradeForm)
    ensures CanAdd(form) <==> CanAdd(form.(specifications := "", notes := ""))
    ensures CanAdd(form) <==> form.description != "" && form.category != ""
  {
  }

  /** Proposals made at distinct instants carry distinct ids. */
  lemma ProposalIdsDistinct(form1: UpgradeForm, form2: UpgradeForm, t1: nat, t2: nat)
    ensures Proposal(form1, t1).id == Proposal(form2, t2).id <==> t1 == t2
  {
    if Proposal(form1, t1).id == Proposal(form2, t2).id {
      NatToStringInjective(t1, t2);
    }
  }
}
