# Energy-retrofit dashboard: a verified model of its workflow core

This project models, in Dafny, the core of a TypeScript dashboard for
running energy-retrofit programmes. Participants move through a status
workflow. For each programme, its step flags decide which statuses it uses.
Around that core sit smaller state machines: work orders, contractor quotes,
upgrade proposals and their technical review, and action items. There are
also the form builder and the stores that keep programmes, contractors, team
members, users and advisors. Finally there are the rules that filter
participants and advisors.

Every core source file has one Dafny module:

- **Pure code** (type definitions, the step-to-status map, the derived status
  list, the timeline, the API's availability filter) is written as datatypes
  and functions.
- **State that the source updates** (the zustand stores and the React
  component state) is a `class` whose fields are the stored lists. Its
  methods are specified against the functions in its module.
- **Loops in the source** keep their loop: the grouping `reduce` in the quote
  dialog, and the participant list's step-by-step filter chain.

`Seqs` holds the shared helpers: `Option`, `Filter`, `MapWhere` (the
`map(x => cond ? f(x) : x)` pattern), `IndexOf`, `Find`, `Dedup`, and the
decimal rendering of the clock.

Conventions:

- Clock readings (`Date.now()`, `new Date()`) are parameters. An instant is an
  integer number of milliseconds. A fresh id is the decimal string of that
  instant.
- A `Partial<T>` update is a patch datatype whose fields are `Option`s. Where
  the source writes a key as `undefined` to clear it (a form field's
  `options`), that field is an `Option<Option<…>>`. Elsewhere an optional
  field's patch is an `Option`, so a patch cannot clear it. No caller in the
  source clears one.
- The API calls the stores await always succeed, as the mock API does.

## Model

| member | source | states |
|---|---|---|
| ParticipantTypes.AllStatusesEnumeratesStatus | src/types/participant.ts:1-12 | the status enumeration has exactly ten members, all listed and pairwise distinct |
| ParticipantTypes.ParseStatus | src/types/participant.ts:1-12 | a parsed value is the wire string of the member it yields |
| ParticipantTypes.StatusValueRoundTrip | src/types/participant.ts:2-11 | parsing a member's wire string gives the member back |
| ParticipantTypes.StatusValueInjective | src/types/participant.ts:2-11 | distinct members carry distinct wire strings |
| ParticipantTypes.StepLists | src/types/participant.ts:15-22 | the list for a sequence of steps holds each step's step-map entry in order |
| ParticipantTypes.StepStatusCounts | src/types/participant.ts:15-22 | booking and finalAudit map to two statuses, every other step to one, with no repeats |
| ParticipantTypes.StepListsDisjoint | src/types/participant.ts:15-22 | no status belongs to two different steps' lists |
| ParticipantTypes.StepListsCover | src/types/participant.ts:15-22 | a status is in some step's list iff it is neither COMPLETED nor ON_HOLD |
| ParticipantTypes.StepListsInDeclarationOrder | src/types/participant.ts:1-22 | the step lists concatenated in key order are the enumeration in declaration order without COMPLETED and ON_HOLD |
| ParticipantTypes.History | src/types/participant.ts:47-52 | a missing status history reads as empty; a present one as itself |
| ProgramTypes.ParseMethod | src/types/program.ts:9 | a parsed method value is the string of the method it yields |
| ProgramTypes.MethodValueRoundTrip | src/types/program.ts:9 | method strings round-trip, and only 'csv', 'excel' and 'form' parse |
| ProgramTypes.DataCollectionMethodsComplete | src/types/program.ts:31-35 | the method catalogue lists each of the three methods exactly once |
| ProgramTypes.AvailableStepsMatchStepKeys | src/types/program.ts:21-44 | the step catalogue has six distinct ids, equal to the `steps` keys in the same order |
| ProgramTypes.NoStepRequired | src/types/program.ts:37-44 | no catalogue entry is required |
| StatusControls.EnabledSteps | src/components/projects/ProjectStatusControls.tsx:24-25 | every step kept is enabled in the flags |
| StatusControls.AvailableStatuses | src/components/projects/ProjectStatusControls.tsx:22-28 | the derived list starts with READY_FOR_BOOKING, ends with COMPLETED, and never holds ON_HOLD |
| StatusControls.StepOf | src/types/participant.ts:15-22 | the owning step of a status holds that status in its list; only COMPLETED and ON_HOLD have no step |
| StatusControls.AvailableStatusesByKey | src/components/projects/ProjectStatusControls.tsx:22-28 | enabled steps contribute their lists in key order, disabled ones contribute nothing, and the length is 2 plus the enabled lists' lengths |
| StatusControls.AvailableStatusesFollowEnumOrder | src/components/projects/ProjectStatusControls.tsx:22-28 | between the bookends, the list is the enumeration's order restricted to the statuses of enabled steps |
| StatusControls.AvailableStatusesMembers | src/components/projects/ProjectStatusControls.tsx:22-28 | a status is listed iff it is a bookend or belongs to an enabled step |
| StatusControls.AllStepsDisabled | src/components/projects/ProjectStatusControls.tsx:22-28 | with every flag off, the list is [READY_FOR_BOOKING, COMPLETED] |
| StatusControls.AllStepsEnabled | src/components/projects/ProjectStatusControls.tsx:22-28 | with every flag on, the list has ten entries, starting with READY_FOR_BOOKING twice |
| StatusControls.DistinctIffNoBooking | src/components/projects/ProjectStatusControls.tsx:23-26 | the list has no duplicates iff booking is disabled |
| StatusControls.BookingNextIsItself | src/components/projects/ProjectStatusControls.tsx:23-31 | with booking on, READY_FOR_BOOKING is at indices 0 and 1, its next is itself and it has no previous |
| StatusControls.AbsentStatusPointers | src/components/projects/ProjectStatusControls.tsx:30-32 | a status missing from the list gets next = first entry and no previous |
| StatusControls.OnHoldPointers | src/components/projects/ProjectStatusControls.tsx:30-32 | from ON_HOLD, next is READY_FOR_BOOKING and there is no previous |
| StatusControls.DistinctPointersAreNeighbours | src/components/projects/ProjectStatusControls.tsx:30-32 | in a duplicate-free list, previous and next are the neighbouring entries |
| StatusControls.Controls | src/components/projects/ProjectStatusControls.tsx:18-44 | controls render iff a program matches the id and the status is not COMPLETED; the dropdown offers the program's derived list |
| StatusControls.NoProgramNoControls | src/components/projects/ProjectStatusControls.tsx:18-19 | with no program of that id, nothing renders |
| StatusControls.CompletedHasNoControls | src/components/projects/ProjectStatusControls.tsx:42-44 | a COMPLETED project shows no controls |
| StatusControls.ProjectPageNeverShowsControls | src/pages/ProjectPage.tsx:90-93 | the project page passes no programId, so its controls never render |
| StatusControls.OfferedTargetsAreTheList | src/components/projects/ProjectStatusControls.tsx:34-40 | the buttons and the dropdown together offer exactly the list's entries, with no adjacency check |
| StatusControls.DistinctStatuses | src/components/projects/ProjectStatusControls.tsx:22-28 | corrected list: duplicate-free, with the same members as the derived list |
| StatusControls.DistinctStatusesShape | src/components/projects/ProjectStatusControls.tsx:22-28 | the corrected list equals the original without booking; with booking it drops the repeated READY_FOR_BOOKING |
| StatusControls.DistinctNextAdvances | src/components/projects/ProjectStatusControls.tsx:30-31 | in the corrected list, next always moves to the following entry |
| ParticipantStore.WithStatus | src/store/participants.ts:45-57 | new status; history is the old or empty one plus one entry; completedAt moves only on COMPLETED; nothing else changes |
| ParticipantStore.WithHoldToggled | src/store/participants.ts:83 | only onHold flips |
| ParticipantStore.NewParticipant | src/store/participants.ts:93-100 | id `p`+clock, status READY_FOR_BOOKING, createdAt now, onHold and reportUploaded false; every other submitted field is kept |
| ParticipantStore.Store.constructor | src/store/participants.ts:20 | the store starts with the given participants |
| ParticipantStore.Store.UpdateParticipantStatus | src/store/participants.ts:38-72 | the list becomes the status-changed list |
| ParticipantStore.Store.ToggleParticipantHold | src/store/participants.ts:78-85 | the list becomes the hold-toggled list |
| ParticipantStore.Store.AddParticipant | src/store/participants.ts:91-104 | exactly one new participant is appended at the end |
| ParticipantStore.Store.AssignToAdvisor | src/store/participants.ts:117-123 | the list becomes the advisor-assigned list |
| ParticipantStore.Store.UpdatePriority | src/store/participants.ts:140-146 | the list becomes the priority-set list |
| ParticipantStore.SetStatusChangesOnlyTarget | src/store/participants.ts:42-69 | length kept; other ids untouched; a match gets the new status and history grows by exactly the new entry, even from COMPLETED |
| ParticipantStore.CompletedAtOnlyOnCompleted | src/store/participants.ts:56 | completedAt is stamped with now only on COMPLETED, else it keeps its old value |
| ParticipantStore.MissingHistoryStartsEmpty | src/store/participants.ts:55 | a participant with no history ends with exactly the one new entry |
| ParticipantStore.SetStatusCommutes | src/store/participants.ts:42-69 | status changes to two different ids commute |
| ParticipantStore.AbsentIdChangesNothing | src/store/participants.ts:42-85 | an id no participant has leaves the list unchanged |
| ParticipantStore.ToggleHoldTwiceRestores | src/store/participants.ts:80-85 | a hold toggle flips only onHold of matches (status and history kept); twice is the identity |
| ParticipantStore.AssignAndPriorityChangeOneField | src/store/participants.ts:119-123 | assigning an advisor or setting a priority changes only that field of matching participants |
| ParticipantStore.ClockIdsDistinct | src/store/participants.ts:95 | clock ids are equal iff the milliseconds are equal |
| ParticipantStore.SameMillisecondAddsCollide | src/store/participants.ts:95 | two adds in one millisecond share an id, so one later status change rewrites both |
| StatusTimeline.Timeline | src/components/projects/ProjectStatusTimeline.tsx:40-50 | one row per order entry; a row is past iff its index is below the current index, current iff its status is the current one; each row shows the history's first entry for its status (an absent history reads as empty) |
| StatusTimeline.StatusOrderIsEnumWithoutOnHold | src/components/projects/ProjectStatusTimeline.tsx:15-25 | the order is the nine statuses other than ON_HOLD, in enumeration order |
| StatusTimeline.StatusOrderDistinct | src/components/projects/ProjectStatusTimeline.tsx:15-25 | each order entry sits at its own index |
| StatusTimeline.StatusLabelsDistinct | src/components/projects/ProjectStatusTimeline.tsx:27-38 | the labels cover all ten statuses and are pairwise distinct |
| StatusTimeline.OnHoldShowsNothing | src/components/projects/ProjectStatusTimeline.tsx:41-49 | for ON_HOLD, no row is past or current |
| StatusTimeline.ExactlyOneCurrent | src/components/projects/ProjectStatusTimeline.tsx:41-49 | for any other status exactly one row is current, and the rows before it are past |
| StatusTimeline.EntryIsFirstMatch | src/components/projects/ProjectStatusTimeline.tsx:50 | the entry shown is the earliest history element with that status, or none if there is none |
| StatusTimeline.ReenteredStatusShowsEarlierEntry | src/components/projects/ProjectStatusTimeline.tsx:50 | a re-entered status still shows its earlier entry, not the one the store just appended |
| StatusTimeline.FirstEntryIsShown | src/components/projects/ProjectStatusTimeline.tsx:50 | a status entered for the first time shows the entry the store just appended |
| ProgramStore.Merge | src/store/programs.ts:129 | a shallow merge: for each of the eight fields a patched value replaces and an absent one keeps; an empty patch changes nothing |
| ProgramStore.NewProgram | src/store/programs.ts:113-116 | the submitted program gets the clock's decimal id and is otherwise unchanged |
| ProgramStore.Store.constructor | src/store/programs.ts:107 | the store starts with the four mock programs |
| ProgramStore.Store.AddProgram | src/store/programs.ts:111-123 | exactly one program is appended |
| ProgramStore.Store.UpdateProgram | src/store/programs.ts:125-131 | the list becomes the merged list |
| ProgramStore.Store.DeleteProgram | src/store/programs.ts:137-141 | the list becomes the filtered list |
| ProgramStore.Store.ToggleProgramStatus | src/store/programs.ts:147-153 | the list becomes the toggled list |
| ProgramStore.MergeComposes | src/store/programs.ts:129 | merging u then v is merging their union with v winning; merging twice is merging once |
| ProgramStore.UpdateChangesOnlyMatching | src/store/programs.ts:125-131 | only matching programs change (by merge); order and length are kept |
| ProgramStore.DeleteRemovesExactly | src/store/programs.ts:137-141 | exactly the programs of that id go, the rest keep their order, and an absent id changes nothing |
| ProgramStore.AddThenDeleteRestores | src/store/programs.ts:111-141 | deleting the fresh id of a just-added program restores the list |
| ProgramStore.ToggleTwiceRestores | src/store/programs.ts:147-153 | only isActive of matches flips; twice is the identity |
| ProgramStore.MockProgramSteps | src/store/programs.ts:5-94 | all mocks enable booking, initial and final audit; Low Income Support disables tech review; Green Business Initiative disables quotes and work orders |
| ProgramStore.GreenBusinessSequence | src/store/programs.ts:68-93 | Green Business Initiative's status list goes from tech review straight to final audit |
| ProgramStore.LowIncomeSequence | src/store/programs.ts:28-49 | Low Income Support's status list skips tech review |
| ProgramStore.MockSequencesRepeatBooking | src/store/programs.ts:5-94 | every mock program's status list repeats READY_FOR_BOOKING |
| ProgramSteps.Ids | src/components/settings/ProgramStepsModal.tsx:32 | the ids of the given catalogue entries, in order |
| ProgramSteps.Selection.constructor | src/components/settings/ProgramStepsModal.tsx:14-16 | the selection starts as the given ids |
| ProgramSteps.Selection.HandleStepToggle | src/components/settings/ProgramStepsModal.tsx:18-28 | the selection becomes the toggled selection |
| ProgramSteps.Selection.HandleSave | src/components/settings/ProgramStepsModal.tsx:30-35 | the saved list is the required-first union without repeats, with exactly the selection's members |
| ProgramSteps.ToggleRequiredIsNoop | src/components/settings/ProgramStepsModal.tsx:19-21 | toggling a required id changes nothing |
| ProgramSteps.ToggleRemovesOrAppends | src/components/settings/ProgramStepsModal.tsx:23-27 | toggling another id removes all its copies if present, or appends it if absent |
| ProgramSteps.ToggleTwiceSameIds | src/components/settings/ProgramStepsModal.tsx:23-27 | toggling twice gives back the same set of ids (the same list when the id was absent) |
| ProgramSteps.SavedContainsRequiredAndSelected | src/components/settings/ProgramStepsModal.tsx:32-33 | the saved list holds exactly the required and the selected ids, with no repeats |
| ProgramSteps.SavedRequiredFirst | src/components/settings/ProgramStepsModal.tsx:33 | required ids come first, then first occurrences in order |
| ProgramSteps.NothingRequiredInAvailableSteps | src/components/settings/ProgramStepsModal.tsx:32-33 | with the real catalogue, saving only removes repeats from the selection |
| Workorders.NewWorkorder | src/components/tech/WorkordersTable.tsx:27-33 | the submitted data under the clock's id, status DRAFT, created now |
| Workorders.WithStatus | src/components/tech/WorkordersTable.tsx:41-46 | new status; IN_PROGRESS stamps startDate, COMPLETED stamps completionDate; nothing else changes |
| Workorders.Table.constructor | src/components/tech/WorkordersTable.tsx:24 | the table starts empty |
| Workorders.Table.HandleCreateWorkorder | src/components/tech/WorkordersTable.tsx:27-35 | one new order is appended |
| Workorders.Table.HandleStatusChange | src/components/tech/WorkordersTable.tsx:37-50 | the list becomes the status-changed list |
| Workorders.Table.ClickAction | src/components/tech/WorkordersTable.tsx:182-205 | a row's button applies that row's offered transition |
| Workorders.SetStatusChangesOnlyTarget | src/components/tech/WorkordersTable.tsx:37-49 | length kept; only orders of that id change |
| Workorders.OfferedTransitionsAreTheThree | src/components/tech/WorkordersTable.tsx:182-205 | the buttons offer exactly DRAFT→SENT, ACCEPTED→IN_PROGRESS and IN_PROGRESS→COMPLETED |
| Workorders.NoButtonAcceptsOrRejects | src/components/tech/WorkordersTable.tsx:182-205 | no button produces ACCEPTED or REJECTED |
| Workorders.ButtonRunStaysInPhase | src/components/tech/WorkordersTable.tsx:182-205 | clicks stay within one family of statuses, advance one rank each, and a run is at most three states |
| Workorders.DraftReachesOnlySent | src/components/tech/WorkordersTable.tsx:182-205 | from DRAFT the buttons reach only SENT |
| Workorders.CreateAppendsDraft | src/components/tech/WorkordersTable.tsx:27-35 | creating appends one DRAFT order and keeps the others |
| Quotes.NewQuote | src/store/quotes.ts:24-35 | a DRAFT quote under the clock's id with the given project, contractor and items, and no stamps |
| Quotes.WithQuoteStatus | src/store/quotes.ts:45-51 | new status; SENT stamps sentAt, RECEIVED stamps receivedAt; nothing else changes |
| Quotes.NewLineItem | src/store/quotes.ts:62-66 | the submitted item under the clock's id |
| Quotes.MergeItem | src/store/quotes.ts:88 | for each of the nine line-item fields a patched value replaces and an absent one keeps; an empty patch changes nothing |
| Quotes.Template | src/store/quotes.ts:105-128 | copies contractor, project and items; blank client info; DRAFT, valid 30 days, three terms |
| Quotes.Store.constructor | src/store/quotes.ts:17-20 | no quotes, no templates, no error |
| Quotes.Store.CreateQuoteRequest | src/store/quotes.ts:22-39 | one new quote appended; templates and error unchanged |
| Quotes.Store.UpdateQuoteStatus | src/store/quotes.ts:41-58 | quotes become the status-changed list; the rest unchanged |
| Quotes.Store.AddLineItem | src/store/quotes.ts:60-78 | quotes become the item-added list; the rest unchanged |
| Quotes.Store.UpdateLineItem | src/store/quotes.ts:80-97 | quotes become the item-merged list; the rest unchanged |
| Quotes.Store.GenerateQuoteTemplate | src/store/quotes.ts:99-132 | an unknown id records the error and adds nothing; a known one appends the template of its first quote |
| Quotes.CreateAppendsDraft | src/store/quotes.ts:24-35 | creating appends one DRAFT quote with the given items and keeps the rest |
| Quotes.SetQuoteStatusChangesOnlyTarget | src/store/quotes.ts:43-53 | the count is kept; only quotes of that id change |
| Quotes.StampsAccumulate | src/store/quotes.ts:49-50 | a SENT stamp survives later non-SENT changes; RECEIVED after SENT carries both stamps |
| Quotes.AddItemAppendsToTarget | src/store/quotes.ts:62-73 | each matching quote gains exactly one item, the fresh one, at the end; other quotes are untouched |
| Quotes.UpdateItemChangesOnlyTarget | src/store/quotes.ts:82-92 | item counts kept; only matching items of matching quotes change (by merge) |
| Quotes.TemplateAfterCreate | src/store/quotes.ts:99-128 | generating right after creating under a fresh id finds that quote and copies its items |
| Quotes.ContractorIdFindsNoQuote | src/components/quotes/QuoteRequestModal.tsx:26 | generating from a contractor id finds no quote unless a quote id happens to equal it |
| QuoteGrouping.ContractorOf | src/components/quotes/QuoteRequestModal.tsx:7 | an upgrade counts as assigned iff its contractor id is present and non-empty |
| QuoteGrouping.GroupByContractor | src/components/quotes/QuoteRequestModal.tsx:6-17 | the loop builds the reduce's record; a key exists iff some upgrade is assigned to it; each key holds the reference item list |
| QuoteGrouping.ItemsForAppend | src/components/quotes/QuoteRequestModal.tsx:6-17 | the reference lists of two upgrade runs concatenate |
| QuoteGrouping.GroupedKeys | src/components/quotes/QuoteRequestModal.tsx:8-10 | a contractor is a key iff some upgrade is assigned to it, even when its list is empty |
| QuoteGrouping.GroupedMatchesItemsFor | src/components/quotes/QuoteRequestModal.tsx:11-14 | each key's list is the first matching item of each of its upgrades, in upgrade order |
| QuoteGrouping.UnassignedContributeNothing | src/components/quotes/QuoteRequestModal.tsx:7 | an unassigned upgrade leaves the record unchanged |
| QuoteGrouping.AtMostOneItemPerUpgrade | src/components/quotes/QuoteRequestModal.tsx:11-14 | a contractor's list is no longer than the number of upgrades assigned to it |
| QuoteGrouping.ItemsComeFromAssignedUpgrades | src/components/quotes/QuoteRequestModal.tsx:11-14 | every listed item is the first line item of some upgrade assigned to that contractor |
| EASection.Proposal | src/components/projects/ProjectEASection.tsx:48-55 | the form's fields under the clock's id, with status PENDING_REVIEW |
| EASection.Section.constructor | src/components/projects/ProjectEASection.tsx:31-37 | no proposals, an empty form, and the form hidden |
| EASection.Section.ShowAddUpgrade | src/components/projects/ProjectEASection.tsx:104 | the form is shown; the proposals and the typed form are kept |
| EASection.Section.Cancel | src/components/projects/ProjectEASection.tsx:234 | the form is hidden; the proposals and the typed form are kept |
| EASection.Section.EditForm | src/components/projects/ProjectEASection.tsx:31-37 | only the form changes |
| EASection.Section.HandleAddUpgrade | src/components/projects/ProjectEASection.tsx:46-64 | with description and category: append the proposal, clear and hide the form; otherwise nothing changes |
| EASection.ClearedFormCannotBeAdded | src/components/projects/ProjectEASection.tsx:47 | the cleared form fails the guard |
| EASection.GuardIgnoresOptionalFields | src/components/projects/ProjectEASection.tsx:47 | the guard is exactly "description and category non-empty" |
| EASection.ProposalIdsDistinct | src/components/projects/ProjectEASection.tsx:49 | proposals made at different instants get different ids |
| TechReview.Section.constructor | src/components/projects/TechTeamSection.tsx:11-18 | the section starts with no upgrades |
| TechReview.Section.HandleApproveUpgrade | src/components/projects/TechTeamSection.tsx:20-28 | matching upgrades become APPROVED |
| TechReview.Section.HandleRejectUpgrade | src/components/projects/TechTeamSection.tsx:30-38 | matching upgrades become REJECTED |
| TechReview.ReviewChangesOnlyTarget | src/components/projects/TechTeamSection.tsx:20-38 | length kept; only the status of matching upgrades changes |
| TechReview.ReviewIdempotent | src/components/projects/TechTeamSection.tsx:20-38 | a repeated decision is one decision, and the later of two decisions wins |
| TechReview.GatingByStatus | src/components/projects/TechTeamSection.tsx:82-106 | approve and reject are offered iff PENDING_REVIEW; a quote request iff APPROVED |
| TechReview.ReviewIsFinal | src/components/projects/TechTeamSection.tsx:82-106 | after an offered decision, that row offers no approve or reject |
| TechReview.ProposalThenApprove | src/components/projects/ProjectEASection.tsx:48-55 | a fresh proposal offers approve and reject, and approving its id makes it APPROVED |
| ActionItems.NewAction | src/components/projects/ProjectActionItems.tsx:20-27 | the submitted item under the clock's id, status PENDING |
| ActionItems.Section.constructor | src/components/projects/ProjectActionItems.tsx:17 | the section starts with no items |
| ActionItems.Section.HandleAddAction | src/components/projects/ProjectActionItems.tsx:20-27 | one new item is appended |
| ActionItems.Section.HandleStatusChange | src/components/projects/ProjectActionItems.tsx:29-35 | the list becomes the status-changed list |
| ActionItems.AddAppendsPending | src/components/projects/ProjectActionItems.tsx:20-27 | adding appends one PENDING item and keeps the rest |
| ActionItems.StatusChangeOnlyTarget | src/components/projects/ProjectActionItems.tsx:29-35 | length kept; only items of that id change status |
| ActionItems.ButtonGating | src/components/projects/ProjectActionItems.tsx:104-119 | Mark Complete iff not COMPLETED; Start iff PENDING |
| ActionItems.NoActionLeavesCompletedOrReturnsToPending | src/components/projects/ProjectActionItems.tsx:104-119 | no offered action leaves COMPLETED, targets PENDING, or keeps the status |
| ActionItems.ClickRunAdvances | src/components/projects/ProjectActionItems.tsx:104-119 | each click strictly advances; a run is at most three states and a three-state run ends COMPLETED |
| FormBuilder.MergeField | src/components/settings/FormBuilder.tsx:45 | for each of the five field keys a patched value replaces and an absent key keeps; an options key written as undefined clears; an empty patch changes nothing |
| FormBuilder.BlankField | src/components/settings/FormBuilder.tsx:31-41 | clock id, empty label, type text, not required, no options |
| FormBuilder.TypeChange | src/components/settings/FormBuilder.tsx:128-131 | a select gets [''], any other type clears options; no other field changes |
| FormBuilder.RemoveAt | src/components/settings/FormBuilder.tsx:49-51 | a valid index drops exactly that element and keeps the others' order; an invalid one changes nothing |
| FormBuilder.Insert | src/components/settings/FormBuilder.tsx:63 | the element lands at the index and the others shift by one |
| FormBuilder.UpdateAt | src/components/settings/FormBuilder.tsx:43-47 | length kept; only the element at the index is merged |
| FormBuilder.Builder.constructor | src/components/settings/FormBuilder.tsx:28-29 | no fields, nothing dragged |
| FormBuilder.Builder.AddField | src/components/settings/FormBuilder.tsx:31-41 | one blank field is appended |
| FormBuilder.Builder.UpdateField | src/components/settings/FormBuilder.tsx:43-47 | the fields become the updated fields |
| FormBuilder.Builder.RemoveField | src/components/settings/FormBuilder.tsx:49-51 | the fields lose the element at the index |
| FormBuilder.Builder.HandleDragStart | src/components/settings/FormBuilder.tsx:53-55 | the dragged index is recorded |
| FormBuilder.Builder.HandleDragOver | src/components/settings/FormBuilder.tsx:57-66 | no dragged field: nothing changes; otherwise the dragged field moves to the target and the dragged index follows it |
| FormBuilder.Builder.HandleDragEnd | src/components/settings/FormBuilder.tsx:68-70 | the dragged index is cleared |
| FormBuilder.Builder.Save | src/components/settings/FormBuilder.tsx:216-217 | saving yields the fields iff there is at least one |
| FormBuilder.RemoveInsert | src/components/settings/FormBuilder.tsx:61-63 | removing at an index after inserting there gives back the list |
| FormBuilder.InsertRemove | src/components/settings/FormBuilder.tsx:61-63 | putting an element back where it was removed gives back the list |
| FormBuilder.MoveFacts | src/components/settings/FormBuilder.tsx:61-63 | a move keeps the length, puts the dragged field at the target, and keeps the others in order |
| FormBuilder.MovePermutes | src/components/settings/FormBuilder.tsx:61-63 | a move is a permutation of the fields |
| FormBuilder.MoveInverse | src/components/settings/FormBuilder.tsx:61-63 | dragging back to the original row undoes a move |
| FormBuilder.MovesCompose | src/components/settings/FormBuilder.tsx:57-66 | two successive drag-overs amount to one move from the first row to the last |
| FormBuilder.UpdateOutsideIsNoop | src/components/settings/FormBuilder.tsx:43-47 | an out-of-range index changes nothing |
| FormBuilder.TypeChangeOptions | src/components/settings/FormBuilder.tsx:128-131 | after a type change: the new type; options [''] for select, none otherwise; everything else as before |
| FormBuilder.OptionEditsTouchOne | src/components/settings/FormBuilder.tsx:172-194 | option edit, remove and add replace, drop or append exactly one option |
| ParticipantList.LowerChar | src/components/participants/ParticipantList.tsx:27 | ASCII capitals map to their lower-case letters; other characters are kept |
| ParticipantList.Lower | src/components/participants/ParticipantList.tsx:27 | lower-casing is character-wise and keeps the length |
| ParticipantList.SearchTerm | src/components/participants/ParticipantList.tsx:25-26 | a search term exists iff the search parameter is present and non-empty |
| ParticipantList.FilteredParticipants | src/components/participants/ParticipantList.tsx:17-52 | the step-by-step chain equals one filter by the conjunction of the active rules; the result is a subsequence of the input, and membership is iff |
| ParticipantList.IncludesIffOccurs | src/components/participants/ParticipantList.tsx:28-31 | the substring test holds iff the query occurs at some position |
| ParticipantList.NoParamsKeepsAll | src/components/participants/ParticipantList.tsx:18-51 | with no parameters, everyone is kept |
| ParticipantList.ProgramAndLocationRule | src/components/participants/ParticipantList.tsx:35-41 | 'All' or a missing value does not narrow; any other value keeps exactly the equal entries |
| ParticipantList.RangeDaysValues | src/components/participants/ParticipantList.tsx:45 | 7 and 30 days for their labels; anything else is 90 |
| ParticipantList.WiderRangeKeepsMore | src/components/participants/ParticipantList.tsx:46-48 | a wider range keeps everything a narrower one keeps |
| ParticipantList.SearchIgnoresCase | src/components/participants/ParticipantList.tsx:25-32 | lower-casing the query does not change the result |
| ParticipantFilters.FilterBar.constructor | src/components/participants/ParticipantFilters.tsx:10 | the bar starts with the page's parameters |
| ParticipantFilters.FilterBar.HandleSearchChange | src/components/participants/ParticipantFilters.tsx:12-20 | the parameters become the search-changed parameters |
| ParticipantFilters.FilterBar.HandleFilterChange | src/components/participants/ParticipantFilters.tsx:22-30 | the parameters become the filter-changed parameters |
| ParticipantFilters.SearchChangeRoundTrip | src/components/participants/ParticipantFilters.tsx:13-19 | other keys unchanged; 'search' is present iff the text is non-empty; the box then shows the text |
| ParticipantFilters.FilterChangeRoundTrip | src/components/participants/ParticipantFilters.tsx:23-29 | other keys unchanged; the key is present iff the value is not 'All'; the select then shows the value |
| ParticipantFilters.SearchChangeNarrowsList | src/components/participants/ParticipantFilters.tsx:13-19 | after typing, the list keeps a participant iff the text is empty or matches in lower case |
| ParticipantFilters.FilterChangeNarrowsList | src/components/participants/ParticipantFilters.tsx:50-57 | after a program choice, 'All' keeps everyone and an offered program keeps exactly that program |
| ParticipantFilters.LocationChangeNarrowsList | src/components/participants/ParticipantFilters.tsx:63-72 | after a location choice, 'All' keeps everyone and an offered location keeps exactly that city |
| ParticipantFilters.TimeRangeChoices | src/components/participants/ParticipantFilters.tsx:7 | the four offered ranges reach the list as no cutoff, 7, 30 and 90 days |
| ParticipantFilters.SelectThenAllClears | src/components/participants/ParticipantFilters.tsx:22-30 | setting a key and then choosing 'All' leaves it absent |
| Api.UpdateStatus | src/lib/api.ts:16-18 | always acknowledges success |
| Api.ToggleHold | src/lib/api.ts:19-21 | always acknowledges success |
| Api.UpdateUnits | src/lib/api.ts:37-39 | always acknowledges success, for any units |
| Api.GetAvailable | src/lib/api.ts:28-36 | always answers with data and no error |
| Api.GetAvailableExact | src/lib/api.ts:29-34 | returns exactly the fixture advisors serving the area, trained in the program and with units left, in fixture order |
| Api.ExhaustedAdvisorNeverAvailable | src/lib/api.ts:33 | an advisor with no units left is never returned |
| AdvisorStore.DataOrEmpty | src/store/advisors.ts:35 | the response data, or the empty list when there is none |
| AdvisorStore.Store.constructor | src/store/advisors.ts:16 | the store starts with the given advisors |
| AdvisorStore.Store.GetAvailableAdvisors | src/store/advisors.ts:32-40 | returns exactly the API's available advisors, as a subsequence of its fixture |
| AdvisorStore.Store.UpdateAdvisorUnits | src/store/advisors.ts:41-52 | the list becomes the units-set list |
| AdvisorStore.SetUnitsChangesOnlyTarget | src/store/advisors.ts:44-48 | only matching advisors change, to exactly the given units (no range check); length kept |
| AdvisorStore.SetUnitsLastWins | src/store/advisors.ts:44-48 | setting units twice keeps the later value |
| AdvisorStore.ZeroUnitsNotAvailable | src/store/advisors.ts:45-47 | hypothetical: if availability were computed over the store's updated list, an advisor set to zero or fewer units would drop out of it; the store never does this |
| AdvisorStore.ZeroedAdvisorStillOffered | src/store/advisors.ts:32-52 | what the store does: after units are set to zero, the query still offers that advisor when the API fixture's copy qualifies, because the query reads the fixture, not the store |
| ContractorStore.NewContractor | src/store/contractors.ts:44-56 | the submitted contractor under the clock's id |
| ContractorStore.MergeContractor | src/store/contractors.ts:61 | for each of the nine contractor fields a patched value replaces and an absent one keeps; an empty patch changes nothing |
| ContractorStore.Store.constructor | src/store/contractors.ts:15-38 | the store starts with the two mock contractors |
| ContractorStore.Store.AddContractor | src/store/contractors.ts:44-56 | one contractor is appended |
| ContractorStore.Store.UpdateContractor | src/store/contractors.ts:57-67 | the list becomes the merged list |
| ContractorStore.Store.DeleteContractor | src/store/contractors.ts:68-76 | the list becomes the filtered list |
| ContractorStore.Store.TogglePreferred | src/store/contractors.ts:77-87 | the list becomes the toggled list |
| ContractorStore.AddAppendsFresh | src/store/contractors.ts:44-56 | one contractor is appended, found only by its fresh id |
| ContractorStore.UpdateChangesOnlyMatching | src/store/contractors.ts:57-67 | only matching contractors change (by merge); length kept |
| ContractorStore.DeleteRemovesExactly | src/store/contractors.ts:68-76 | exactly the contractors of that id go; the rest keep their order |
| ContractorStore.ToggleTwiceRestores | src/store/contractors.ts:77-87 | only isPreferred of matches flips; twice is the identity |
| TeamStore.NewAdvisor | src/store/team.ts:27-30 | the clock's id, and each of the twelve submitted fields unchanged |
| TeamStore.NewAgent | src/store/team.ts:39-52 | the clock's id, and each of the six submitted fields unchanged |
| TeamStore.NewTech | src/store/team.ts:53-66 | the clock's id, and each of the six submitted fields unchanged |
| TeamStore.MergeAdvisor | src/store/team.ts:74 | for each of the thirteen advisor fields a patched value replaces and an absent one keeps |
| TeamStore.MergeAgent | src/store/team.ts:80 | for each of the seven agent fields a patched value replaces and an absent one keeps |
| TeamStore.MergeTech | src/store/team.ts:86 | for each of the seven technical-team fields a patched value replaces and an absent one keeps |
| TeamStore.Store.constructor | src/store/team.ts:19-21 | the three lists start as given |
| TeamStore.Store.AddEnergyAdvisor | src/store/team.ts:25-38 | one advisor is appended; the other lists are untouched |
| TeamStore.Store.AddBookingAgent | src/store/team.ts:39-52 | one agent is appended; the other lists are untouched |
| TeamStore.Store.AddTechMember | src/store/team.ts:53-66 | one member is appended; the other lists are untouched |
| TeamStore.Store.UpdateTeamMember | src/store/team.ts:67-96 | the state becomes the updated state |
| TeamStore.Store.DeleteTeamMember | src/store/team.ts:98-121 | the state becomes the state after deletion |
| TeamStore.UnknownTypeIsNoop | src/store/team.ts:89-90 | a type other than EA, BA or TECH leaves the state unchanged for update and delete |
| TeamStore.UpdateTouchesOnlyTaggedList | src/store/team.ts:67-96 | every length is kept; only the tagged list changes, and for each of EA, BA and TECH only its members with the matching id, each by that kind's merge |
| TeamStore.DeleteTouchesOnlyTaggedList | src/store/team.ts:98-121 | only the tagged list loses exactly its matching ids, keeping its order |
| TeamStore.EmptyPatchIsNoop | src/store/team.ts:67-96 | an update carrying no fields changes nothing |
| UserStore.NewUser | src/store/users.ts:39-52 | the submitted user under the clock's id |
| UserStore.MergeUser | src/store/users.ts:57 | for each of the four user fields a patched value replaces and an absent one keeps; an empty patch changes nothing |
| UserStore.Store.constructor | src/store/users.ts:14-33 | the store starts with the three test users |
| UserStore.Store.AddUser | src/store/users.ts:39-52 | one user is appended |
| UserStore.Store.UpdateUser | src/store/users.ts:53-63 | the list becomes the merged list |
| UserStore.Store.DeleteUser | src/store/users.ts:64-72 | the list becomes the filtered list |
| UserStore.AddThenDeleteRestores | src/store/users.ts:39-72 | deleting the fresh id of a just-added user restores the list |
| UserStore.UpdateChangesOnlyMatching | src/store/users.ts:53-63 | only matching users change (by merge); length kept |
| UserStore.DeleteRemovesExactly | src/store/users.ts:64-72 | exactly the users of that id go, the rest keep their order, and an absent id changes nothing |
| UserStore.TestUserIdsDistinct | src/store/users.ts:14-33 | the test users' ids are distinct, and a clock id at 10 ms or later matches none of them |

## Left out

- Email notifications: `src/services/email.ts` is not part of this model. Sending is fire-and-forget I/O and decides nothing in the state.
- Async plumbing: `try`/`catch`, the `loading` flags and the `error` messages of stores whose mocked calls cannot fail are left out. Every awaited mock call succeeds at once, as the mock API does. The quote store's missing-quote error is modelled.
- Fetch actions: `fetchParticipants`, `fetchAdvisors` and the `getAll` fixtures only reload fixtures. They are left out, and every store's initial list is a constructor parameter or the fixture shown in the table.
- Login: `api.login` and the authentication stubs are left out.
- Timestamps: ISO-8601 strings are integer milliseconds, so calendar arithmetic, time zones and `toISOString` formatting are not modelled. The time-range cutoff is `now − days × 86 400 000`, which ignores daylight-saving changes.
- Clock readings: where one update reads the clock twice (`updatedAt` and `completedAt` in `updateParticipantStatus`, the id and `createdAt` of a new participant, quote request, quote template or work order), one `now` parameter stands for both readings. The model therefore has `completedAt` equal to the new history entry's time and `createdAt` equal to the id's millisecond, which the source does not guarantee when the clock ticks between the two reads.
- MergeItem: a line-item patch cannot write `undefined` to clear `approvedAmount` or `notes`, because those patch fields are single `Option`s. No caller in the source clears them.
- Step flag order: `Object.entries(program.steps)` is taken to yield the flags in declaration order.
- Query parameters: `URLSearchParams` becomes a map from key to one value. Repeated keys and parameter order are not modelled.
- Lower-casing: `toLowerCase` is modelled for ASCII letters only.
- Numbers: amounts, quantities and contract units are `real`. Floating-point rounding is not modelled.
- ProgramSteps.Selection.constructor: the dialog builds its initial selection with `program.steps.map`, but `steps` is an object, not an array. The initial id list is therefore a parameter.
- ProgramSteps.Selection.HandleSave: the store has no `updateProgramSteps`, so the saved list is returned instead of stored.
- FormBuilder.Builder.HandleDragOver: both the dragged and the hovered index must be rows on screen. A stale or out-of-range dragged index is not modelled.
- `handleRequestQuote` in the technical review only logs to the console and changes no state, so it is left out. Its button is modelled in `TechReview.OfferedActions`.
- The quote dialog beyond its grouping `reduce` is not part of this model, because that fragment relies on identifiers it never declares. The one fact kept is in `Quotes.ContractorIdFindsNoQuote`: it passes a contractor id where a quote id is expected.
- Team updates: `updateTeamMember` accepts `updates: any`. The model's patch carries exactly the fields of the three member records, so keys outside them are not modelled.
- Status history entries: the timeline's own prop type reads a `date` field, but status changes write `updatedAt`. The timeline is modelled over the history entries the store writes, and the date shown is left out.
- Rendering: labels, CSS, icons, modals, routing, dashboards and the Zod form schemas are presentation and are left out.

## Findings

| source | as written | input that shows it | evidently intended | confidence | as-written member | corrected member |
|---|---|---|---|---|---|---|
| src/components/projects/ProjectStatusControls.tsx:22-31 | READY_FOR_BOOKING is always put first, and the booking step's list adds it again, with no removal of duplicates | any program with `booking: true`, such as every mock program: with current status READY_FOR_BOOKING, "next" is READY_FOR_BOOKING itself | each status listed once, so "next" always advances | not executed | StatusControls.BookingNextIsItself | StatusControls.DistinctNextAdvances |
