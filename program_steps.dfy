/** The program-steps dialog (src/components/settings/ProgramStepsModal.tsx):
    a selection of step ids toggled one id at a time, and a save that puts
    the catalogue's required ids first and removes repeats.

    The catalogue is a parameter; the dialog uses `AvailableSteps`, in which
    no step is required. */
module ProgramSteps {
  import opened Seqs
  import opened ProgramTypes

  /** `AVAILABLE_STEPS.find(step => step.id === stepId)?.required`: false for an unknown id. */
  predicate IsRequiredId(catalog: seq<StepInfo>, stepId: string) {
    var found := Find(catalog, (s: StepInfo) => s.id == stepId);
    found.Some? && IsRequired(found.value)
  }

  function Ids(infos: seq<StepInfo>): (r: seq<string>)
    ensures |r| == |infos|
    ensures forall i :: 0 <= i < |infos| ==> r[i] == infos[i].id
  {
    seq(|infos|, i requires 0 <= i < |infos| => infos[i].id)
  }

  /** `AVAILABLE_STEPS.filter(step => step.required).map(step => step.id)`. */
  function RequiredIds(catalog: seq<StepInfo>): seq<string> {
    Ids(Filter(catalog, IsRequired))
  }

  /** The selection after `handleStepToggle(stepId)`. */
  function Toggled(catalog: seq<StepInfo>, current: seq<string>, stepId: string): seq<string> {
    if IsRequiredId(catalog, stepId) then current
    else if stepId in current then Filter(current, (id: string) => id != stepId)
    else current + [stepId]
  }

  /** `[...new Set([...requiredStepIds, ...selectedSteps])]`. */
  function SavedSteps(catalog: seq<StepInfo>, selected: seq<string>): seq<string> {
    Dedup(RequiredIds(catalog) + selected)
  }

  /** The dialog's state: the current selection.  The initial selection is a
      parameter (the dialog derives it from `program.steps`). */
  class Selection {
    var selectedSteps: seq<string>

    constructor(initial: seq<string>)
      ensures selectedSteps == initial
    {
      selectedSteps := initial;
    }

    method HandleStepToggle(stepId: string)
      modifies this
      ensures selectedSteps == Toggled(AvailableSteps, old(selectedSteps), stepId)
    {
      if IsRequiredId(AvailableSteps, stepId) {
        return;
      }
      if stepId in selectedSteps {
        selectedSteps := Filter(selectedSteps, (id: string) => id != stepId);
      } else {
        selectedSteps := selectedSteps + [stepId];
      }
    }

    /** The list `handleSave` hands to the store for the program. */
    method HandleSave() returns (allSteps: seq<string>)
      ensures allSteps == SavedSteps(AvailableSteps, selectedSteps)
      ensures NoDuplicates(allSteps)
      ensures forall x :: x in allSteps <==> x in selectedSteps
    {
      allSteps := SavedSteps(AvailableSteps, selectedSteps);
      SavedContainsRequiredAndSelected(AvailableSteps, selectedSteps);
      NothingRequiredInAvailableSteps();
    }
  }

  // ---------------------------------------------------------------------

  /** Toggling a required id changes nothing. */
  lemma ToggleRequiredIsNoop(catalog: seq<StepInfo>, current: seq<string>, stepId: string)
    requires IsRequiredId(catalog, stepId)
    ensures Toggled(catalog, current, stepId) == current
  {
  }

  /** Toggling any other id removes every copy of it when present and appends it when absent. */
  lemma ToggleRemovesOrAppends(catalog: seq<StepInfo>, current: seq<string>, stepId: string, x: string)
    requires !IsRequiredId(catalog, stepId)
    ensures stepId in current ==>
      stepId !in Toggled(catalog, current, stepId)
      && (x in Toggled(catalog, current, stepId) <==> x in current && x != stepId)
    ensures stepId !in current ==> Toggled(catalog, current, stepId) == current + [stepId]
  {
    FilterMembership(current, (id: string) => id != stepId, x);
    FilterMembership(current, (id: string) => id != stepId, stepId);
  }

  /** Toggling the same id twice gives back the same set of ids (and the very
      same list when the id was absent). */
  lemma ToggleTwiceSameIds(catalog: seq<StepInfo>, current: seq<string>, stepId: string, x: string)
    ensures x in Toggled(catalog, Toggled(catalog, current, stepId), stepId) <==> x in current
    ensures stepId !in current ==> Toggled(catalog, Toggled(catalog, current, stepId), stepId) == current
  {
    var f := (id: string) => id != stepId;
    if !IsRequiredId(catalog, stepId) {
      if stepId in current {
        var once := Filter(current, f);
        FilterMembership(current, f, stepId);
        FilterMembership(current, f, x);
        assert Toggled(catalog, once, stepId) == once + [stepId];
      } else {
        FilterAppend(current, [stepId], f);
        FilterKeepsAll(current, f);
        assert Filter([stepId], f) == [];
      }
    }
  }

  /** The saved list holds every required id and every selected id, nothing else, without repeats. */
  lemma SavedContainsRequiredAndSelected(catalog: seq<StepInfo>, selected: seq<string>)
    ensures NoDuplicates(SavedSteps(catalog, selected))
    ensures forall x :: x in SavedSteps(catalog, selected) <==> x in RequiredIds(catalog) || x in selected
  {
    var all := RequiredIds(catalog) + selected;
    forall x ensures x in Dedup(all) <==> x in all {
      if x in all {
        var i :| 0 <= i < |all| && all[i] == x;
        assert all[i] in Dedup(all);
      }
    }
  }

  /** The required ids come first, and the whole list follows first occurrences. */
  lemma SavedRequiredFirst(catalog: seq<StepInfo>, selected: seq<string>)
    ensures |Dedup(RequiredIds(catalog))| <= |SavedSteps(catalog, selected)|
    ensures SavedSteps(catalog, selected)[..|Dedup(RequiredIds(catalog))|] == Dedup(RequiredIds(catalog))
    ensures var all := RequiredIds(catalog) + selected; var r := SavedSteps(catalog, selected);
      forall i, j :: 0 <= i < j < |r| ==> IndexOf(all, r[i]) < IndexOf(all, r[j])
  {
    DedupPrefix(RequiredIds(catalog), selected);
    DedupFirstOccurrenceOrder(RequiredIds(catalog) + selected);
  }

  /** With the dialog's own catalogue nothing is required, so saving only removes repeats from the selection. */
  lemma NothingRequiredInAvailableSteps()
    ensures RequiredIds(AvailableSteps) == []
    ensures forall selected: seq<string> :: SavedSteps(AvailableSteps, selected) == Dedup(selected)
  {
    NoStepRequired();
    FilterAbsent(AvailableSteps, IsRequired);
    forall selected: seq<string> ensures SavedSteps(AvailableSteps, selected) == Dedup(selected) {
      assert [] + selected == selected;
    }
  }
}
