/** A program's record: its six step flags, its data-collection method and
    the catalogue of configurable steps (src/types/program.ts). */
module ProgramTypes {
  import opened Seqs
  import opened ParticipantTypes

  /** `Program.steps`: exactly six flags, one per key of the step map. */
  datatype StepFlags = StepFlags(
    booking: bool,
    initialAudit: bool,
    techReview: bool,
    quoteGeneration: bool,
    workOrders: bool,
    finalAudit: bool)

  /** `program.steps[step]`. */
  function Enabled(flags: StepFlags, step: Step): bool {
    match step
    case Booking => flags.booking
    case InitialAudit => flags.initialAudit
    case TechReview => flags.techReview
    case QuoteGeneration => flags.quoteGeneration
    case WorkOrders => flags.workOrders
    case FinalAudit => flags.finalAudit
  }

  /** The property name of each flag. */
  function StepKey(step: Step): string {
    match step
    case Booking => "booking"
    case InitialAudit => "initialAudit"
    case TechReview => "techReview"
    case QuoteGeneration => "quoteGeneration"
    case WorkOrders => "workOrders"
    case FinalAudit => "finalAudit"
  }

  /** `dataCollection.method`: one of 'csv', 'excel' or 'form'. */
  datatype DataCollectionMethod = Csv | Excel | Form

  function MethodValue(m: DataCollectionMethod): string {
    match m
    case Csv => "csv"
    case Excel => "excel"
    case Form => "form"
  }

  /** Reads a method value; any other string is not a method. */
  function ParseMethod(v: string): (r: Option<DataCollectionMethod>)
    ensures r.Some? ==> MethodValue(r.value) == v
  {
    if v == "csv" then Some(Csv)
    else if v == "excel" then Some(Excel)
    else if v == "form" then Some(Form)
    else None
  }

  /** One entry of `DATA_COLLECTION_METHODS` (`caption` is its `label`, a reserved word here). */
  datatype MethodOption = MethodOption(value: DataCollectionMethod, caption: string)

  const DataCollectionMethods: seq<MethodOption> := [
    MethodOption(Csv, "CSV Upload"),
    MethodOption(Excel, "Excel Upload"),
    MethodOption(Form, "Custom Form")]

  datatype ConfigField = ConfigField(
    id: string,
    caption: string,
    fieldType: string,
    required: bool,
    options: Option<seq<string>>)

  datatype DataCollectionConfig = DataCollectionConfig(tableName: string, fields: Option<seq<ConfigField>>)

  datatype DataCollection = DataCollection(collectionMethod: DataCollectionMethod, config: Option<DataCollectionConfig>)

  /** `Program` (`collectionMethod` is `dataCollection.method`, a reserved word here). */
  datatype Program = Program(
    id: string,
    name: string,
    abbreviation: string,
    startDate: string,
    endDate: string,
    isActive: bool,
    dataCollection: DataCollection,
    steps: StepFlags)

  /** One entry of `AVAILABLE_STEPS`.  No entry declares `required`, so the
      property reads as `undefined` (here `None`). */
  datatype StepInfo = StepInfo(id: string, caption: string, description: string, required: Option<bool>)

  const AvailableSteps: seq<StepInfo> := [
    StepInfo("booking", "Booking", "Allow scheduling appointments", None),
    StepInfo("initialAudit", "Initial Audit", "First on-site assessment", None),
    StepInfo("techReview", "Technical Review", "Review by technical team", None),
    StepInfo("quoteGeneration", "Quote Generation", "Generate contractor quotes", None),
    StepInfo("workOrders", "Work Orders", "Create and manage work orders", None),
    StepInfo("finalAudit", "Final Audit", "Final verification assessment", None)]

  /** `step.required` read for truthiness. */
  predicate IsRequired(info: StepInfo) {
    info.required == Some(true)
  }

  // ---------------------------------------------------------------------

  /** The method values round-trip, and nothing else parses as a method. */
  lemma {:induction false} MethodValueRoundTrip(m: DataCollectionMethod, v: string)
    ensures ParseMethod(MethodValue(m)) == Some(m)
    ensures ParseMethod(v).Some? <==> v == "csv" || v == "excel" || v == "form"
  {
    match m
    case Csv =>
    case Excel =>
    case Form =>
  }

  /** `DATA_COLLECTION_METHODS` lists each method exactly once. */
  lemma DataCollectionMethodsComplete(m: DataCollectionMethod)
    ensures |DataCollectionMethods| == 3
    ensures exists i :: 0 <= i < 3 && DataCollectionMethods[i].value == m
    ensures forall i, j :: 0 <= i < j < 3 ==> DataCollectionMethods[i].value != DataCollectionMethods[j].value
  {
    match m
    case Csv => assert DataCollectionMethods[0].value == m;
    case Excel => assert DataCollectionMethods[1].value == m;
    case Form => assert DataCollectionMethods[2].value == m;
  }

  /** `AVAILABLE_STEPS` lists six unique ids, the keys of `steps` in the same order. */
  lemma AvailableStepsMatchStepKeys()
    ensures |AvailableSteps| == |StepOrder| == 6
    ensures forall i :: 0 <= i < 6 ==> AvailableSteps[i].id == StepKey(StepOrder[i])
    ensures forall i, j :: 0 <= i < j < 6 ==> AvailableSteps[i].id != AvailableSteps[j].id
  {
  }

  /** No catalogue entry is required. */
  lemma NoStepRequired()
    ensures forall i :: 0 <= i < |AvailableSteps| ==> !IsRequired(AvailableSteps[i])
  {
  }
}
