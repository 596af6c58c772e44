/** The quote store (src/store/quotes.ts, types in src/types/quote.ts): quote
    requests sent to contractors, each with its own list of line items, and
    the contractor quote templates generated from them. */
module Quotes {
  import opened Seqs
  import ParticipantTypes

  type Instant = ParticipantTypes.Instant

  /** The five statuses a quote request or template can carry. */
  datatype QuoteStatus = Draft | Sent | Received | Approved | Rejected

  datatype QuoteLineItem = QuoteLineItem(
    id: string,
    upgradeId: string,
    description: string,
    category: string,
    specifications: string,
    quantity: real,
    unit: string,
    approvedAmount: Option<real>,
    notes: Option<string>)

  /** `Omit<QuoteLineItem, 'id'>`: what `addLineItem` is given. */
  datatype LineItemData = LineItemData(
    upgradeId: string,
    description: string,
    category: string,
    specifications: string,
    quantity: real,
    unit: string,
    approvedAmount: Option<real>,
    notes: Option<string>)

  /** `Partial<QuoteLineItem>`: the fields an update carries; an absent field is kept. */
  datatype LineItemPatch = LineItemPatch(
    id: Option<string>,
    upgradeId: Option<string>,
    description: Option<string>,
    category: Option<string>,
    specifications: Option<string>,
    quantity: Option<real>,
    unit: Option<string>,
    approvedAmount: Option<real>,
    notes: Option<string>)

  datatype QuoteRequest = QuoteRequest(
    id: string,
    projectId: string,
    contractorId: string,
    status: QuoteStatus,
    lineItems: seq<QuoteLineItem>,
    totalAmount: Option<real>,
    createdAt: Instant,
    sentAt: Option<Instant>,
    receivedAt: Option<Instant>,
    notes: Option<string>,
    validUntil: Option<Instant>)

  datatype ClientInfo = ClientInfo(name: string, address: string, phone: string, email: string)

  datatype ContractorQuoteTemplate = ContractorQuoteTemplate(
    id: string,
    contractorId: string,
    projectId: string,
    clientInfo: ClientInfo,
    lineItems: seq<QuoteLineItem>,
    terms: seq<string>,
    validityPeriod: int,
    notes: Option<string>,
    createdAt: Instant,
    status: QuoteStatus)

  /** The three fixed terms every generated template carries. */
  const TemplateTerms: seq<string> := [
    "Quote valid for 30 days",
    "Payment terms: Net 30",
    "Work to be completed within 60 days of acceptance"]

  /** The message the store records when no quote request has the given id. */
  const TemplateError: string := "Failed to generate quote template"

  /** The request `createQuoteRequest` builds at instant `now` (the same clock gives its id). */
  function NewQuote(projectId: string, contractorId: string, lineItems: seq<QuoteLineItem>, now: nat): (q: QuoteRequest)
    ensures q.id == NatToString(now) && q.createdAt == now && q.status == Draft
    ensures q.projectId == projectId && q.contractorId == contractorId && q.lineItems == lineItems
    ensures q.sentAt.None? && q.receivedAt.None? && q.totalAmount.None?
  {
    QuoteRequest(NatToString(now), projectId, contractorId, Draft, lineItems, None, now, None, None, None, None)
  }

  /** The request after a change to `status` at `now`: SENT stamps `sentAt`,
      RECEIVED stamps `receivedAt`, every other field is kept. */
  function WithQuoteStatus(q: QuoteRequest, status: QuoteStatus, now: Instant): (r: QuoteRequest)
    ensures r.status == status
    ensures r.sentAt == if status == Sent then Some(now) else q.sentAt
    ensures r.receivedAt == if status == Received then Some(now) else q.receivedAt
    ensures r.(status := q.status, sentAt := q.sentAt, receivedAt := q.receivedAt) == q
  {
    q.(status := status,
       sentAt := if status == Sent then Some(now) else q.sentAt,
       receivedAt := if status == Received then Some(now) else q.receivedAt)
  }

  /** The line item `addLineItem` builds: the data under the clock's decimal id. */
  function NewLineItem(data: LineItemData, now: nat): (item: QuoteLineItem)
    ensures item.id == NatToString(now)
    ensures ItemData(item) == data
  {
    QuoteLineItem(NatToString(now), data.upgradeId, data.description, data.category, data.specifications,
                  data.quantity, data.unit, data.approvedAmount, data.notes)
  }

  /** A line item without its id. */
  function ItemData(item: QuoteLineItem): LineItemData {
    LineItemData(item.upgradeId, item.description, item.category, item.specifications,
                 item.quantity, item.unit, item.approvedAmount, item.notes)
  }

  /** For the two optional fields `{ ...item, ...updates }` keeps the item's value when the patch has none. */
  function PickOption<T>(update: Option<T>, current: Option<T>): Option<T> {
    if update.Some? then update else current
  }

  /** `{ ...item, ...updates }`. */
  function MergeItem(item: QuoteLineItem, u: LineItemPatch): (r: QuoteLineItem)
    ensures u.id.Some? ==> r.id == u.id.value
    ensures u.id.None? ==> r.id == item.id
    ensures u.upgradeId.Some? ==> r.upgradeId == u.upgradeId.value
    ensures u.upgradeId.None? ==> r.upgradeId == item.upgradeId
    ensures u.description.Some? ==> r.description == u.description.value
    ensures u.description.None? ==> r.description == item.description
    ensures u.category.Some? ==> r.category == u.category.value
    ensures u.category.None? ==> r.category == item.category
    ensures u.specifications.Some? ==> r.specifications == u.specifications.value
    ensures u.specifications.None? ==> r.specifications == item.specifications
    ensures u.quantity.Some? ==> r.quantity == u.quantity.value
    ensures u.quantity.None? ==> r.quantity == item.quantity
    ensures u.unit.Some? ==> r.unit == u.unit.value
    ensures u.unit.None? ==> r.unit == item.unit
    ensures u.approvedAmount.Some? ==> r.approvedAmount == u.approvedAmount
    ensures u.approvedAmount.None? ==> r.approvedAmount == item.approvedAmount
    ensures u.notes.Some? ==> r.notes == u.notes
    ensures u.notes.None? ==> r.notes == item.notes
    ensures u == LineItemPatch(None, None, None, None, None, None, None, None, None) ==> r == item
  {
    QuoteLineItem(Pick(u.id, item.id), Pick(u.upgradeId, item.upgradeId), Pick(u.description, item.description),
                  Pick(u.category, item.category), Pick(u.specifications, item.specifications),
                  Pick(u.quantity, item.quantity), Pick(u.unit, item.unit),
                  PickOption(u.approvedAmount, item.approvedAmount), PickOption(u.notes, item.notes))
  }

  function SetQuoteStatus(qs: seq<QuoteRequest>, quoteId: string, status: QuoteStatus, now: Instant): seq<QuoteRequest> {
    MapWhere(qs, (q: QuoteRequest) => q.id == quoteId, (q: QuoteRequest) => WithQuoteStatus(q, status, now))
  }

  function AddItem(qs: seq<QuoteRequest>, quoteId: string, data: LineItemData, now: nat): seq<QuoteRequest> {
    MapWhere(qs, (q: QuoteRequest) => q.id == quoteId,
             (q: QuoteRequest) => q.(lineItems := q.lineItems + [NewLineItem(data, now)]))
  }

  function UpdateItems(items: seq<QuoteLineItem>, lineItemId: string, u: LineItemPatch): seq<QuoteLineItem> {
    MapWhere(items, (item: QuoteLineItem) => item.id == lineItemId, (item: QuoteLineItem) => MergeItem(item, u))
  }

  function UpdateItem(qs: seq<QuoteRequest>, quoteId: string, lineItemId: string, u: LineItemPatch): seq<QuoteRequest> {
    MapWhere(qs, (q: QuoteRequest) => q.id == quoteId,
             (q: QuoteRequest) => q.(lineItems := UpdateItems(q.lineItems, lineItemId, u)))
  }

  /** `quoteRequests.find(q => q.id === quoteId)`. */
  function FindQuote(qs: seq<QuoteRequest>, quoteId: string): Option<QuoteRequest> {
    Find(qs, (q: QuoteRequest) => q.id == quoteId)
  }

  /** The template generated from quote `q` at instant `now`: the quote's
      contractor, project and line items, blank client details, status DRAFT,
      valid for 30 days, with the three fixed terms. */
  function Template(q: QuoteRequest, now: nat): (t: ContractorQuoteTemplate)
    ensures t.id == NatToString(now) && t.createdAt == now
    ensures t.contractorId == q.contractorId && t.projectId == q.projectId && t.lineItems == q.lineItems
    ensures t.status == Draft && t.validityPeriod == 30 && |t.terms| == 3 && t.notes.None?
    ensures t.clientInfo == ClientInfo("", "", "", "")
  {
    ContractorQuoteTemplate(NatToString(now), q.contractorId, q.projectId, ClientInfo("", "", "", ""),
                            q.lineItems, TemplateTerms, 30, None, now, Draft)
  }

  /** The store: the quote requests, the generated templates and the last error message. */
  class Store {
    var quoteRequests: seq<QuoteRequest>
    var quoteTemplates: seq<ContractorQuoteTemplate>
    var error: Option<string>

    constructor()
      ensures quoteRequests == [] && quoteTemplates == [] && error.None?
    {
      quoteRequests := [];
      quoteTemplates := [];
      error := None;
    }

    method CreateQuoteRequest(projectId: string, contractorId: string, lineItems: seq<QuoteLineItem>, now: nat)
      modifies this
      ensures quoteRequests == old(quoteRequests) + [NewQuote(projectId, contractorId, lineItems, now)]
      ensures quoteTemplates == old(quoteTemplates) && error == old(error)
    {
      quoteRequests := quoteRequests + [NewQuote(projectId, contractorId, lineItems, now)];
    }

    method UpdateQuoteStatus(quoteId: string, status: QuoteStatus, now: Instant)
      modifies this
      ensures quoteRequests == SetQuoteStatus(old(quoteRequests), quoteId, status, now)
      ensures quoteTemplates == old(quoteTemplates) && error == old(error)
    {
      quoteRequests := SetQuoteStatus(quoteRequests, quoteId, status, now);
    }

    method AddLineItem(quoteId: string, lineItem: LineItemData, now: nat)
      modifies this
      ensures quoteRequests == AddItem(old(quoteRequests), quoteId, lineItem, now)
      ensures quoteTemplates == old(quoteTemplates) && error == old(error)
    {
      quoteRequests := AddItem(quoteRequests, quoteId, lineItem, now);
    }

    method UpdateLineItem(quoteId: string, lineItemId: string, updates: LineItemPatch)
      modifies this
      ensures quoteRequests == UpdateItem(old(quoteRequests), quoteId, lineItemId, updates)
      ensures quoteTemplates == old(quoteTemplates) && error == old(error)
    {
      quoteRequests := UpdateItem(quoteRequests, quoteId, lineItemId, updates);
    }

    /** An unknown quote id records the error and adds no template; a known one
        appends the template built from the first quote with that id. */
    method GenerateQuoteTemplate(quoteId: string, now: nat)
      modifies this
      ensures quoteRequests == old(quoteRequests)
      ensures FindQuote(old(quoteRequests), quoteId).None? ==>
        quoteTemplates == old(quoteTemplates) && error == Some(TemplateError)
      ensures FindQuote(old(quoteRequests), quoteId).Some? ==>
        quoteTemplates == old(quoteTemplates) + [Template(FindQuote(old(quoteRequests), quoteId).value, now)]
        && error == old(error)
    {
      var quote := FindQuote(quoteRequests, quoteId);
      if quote.None? {
        error := Some(TemplateError);
        return;
      }
      quoteTemplates := quoteTemplates + [Template(quote.value, now)];
    }
  }

  // ---------------------------------------------------------------------

  /** Creating a quote appends one DRAFT request and leaves the earlier ones as they were. */
  lemma CreateAppendsDraft(qs: seq<QuoteRequest>, projectId: string, contractorId: string,
                           lineItems: seq<QuoteLineItem>, now: nat)
    ensures var r := qs + [NewQuote(projectId, contractorId, lineItems, now)];
      |r| == |qs| + 1 && r[..|qs|] == qs && r[|qs|].status == Draft && r[|qs|].lineItems == lineItems
  {
    assert (qs + [NewQuote(projectId, contractorId, lineItems, now)])[..|qs|] == qs;
  }

  /** A status change keeps the count and touches only quotes with that id. */
  lemma SetQuoteStatusChangesOnlyTarget(qs: seq<QuoteRequest>, quoteId: string, status: QuoteStatus, now: Instant)
    ensures |SetQuoteStatus(qs, quoteId, status, now)| == |qs|
    ensures forall i :: 0 <= i < |qs| ==>
      SetQuoteStatus(qs, quoteId, status, now)[i] == if qs[i].id == quoteId then WithQuoteStatus(qs[i], status, now) else qs[i]
  {
  }

  /** A later status change other than SENT keeps the stamp of an earlier SENT,
      and a RECEIVED after a SENT carries both stamps. */
  lemma StampsAccumulate(q: QuoteRequest, t1: Instant, t2: Instant)
    ensures WithQuoteStatus(WithQuoteStatus(q, Sent, t1), Received, t2).sentAt == Some(t1)
    ensures WithQuoteStatus(WithQuoteStatus(q, Sent, t1), Received, t2).receivedAt == Some(t2)
    ensures forall s :: s != Sent ==> WithQuoteStatus(WithQuoteStatus(q, Sent, t1), s, t2).sentAt == Some(t1)
  {
  }

  /** Adding an item appends exactly one item, under the fresh id, to each
      matching quote and leaves the other quotes alone. */
  lemma AddItemAppendsToTarget(qs: seq<QuoteRequest>, quoteId: string, data: LineItemData, now: nat)
    ensures |AddItem(qs, quoteId, data, now)| == |qs|
    ensures forall i :: 0 <= i < |qs| && qs[i].id != quoteId ==> AddItem(qs, quoteId, data, now)[i] == qs[i]
    ensures forall i :: 0 <= i < |qs| && qs[i].id == quoteId ==>
      var q := AddItem(qs, quoteId, data, now)[i];
      q.(lineItems := qs[i].lineItems) == qs[i]
      && |q.lineItems| == |qs[i].lineItems| + 1
      && q.lineItems[..|qs[i].lineItems|] == qs[i].lineItems
      && q.lineItems[|qs[i].lineItems|].id == NatToString(now)
      && ItemData(q.lineItems[|qs[i].lineItems|]) == data
  {
    var r := AddItem(qs, quoteId, data, now);
    forall i | 0 <= i < |qs| && qs[i].id == quoteId
      ensures r[i].lineItems[..|qs[i].lineItems|] == qs[i].lineItems
    {
      assert r[i].lineItems == qs[i].lineItems + [NewLineItem(data, now)];
    }
  }

  /** Updating an item keeps every quote's item count, leaves other quotes and
      other items alone, and merges the patch into each matching item. */
  lemma UpdateItemChangesOnlyTarget(qs: seq<QuoteRequest>, quoteId: string, lineItemId: string, u: LineItemPatch)
    ensures |UpdateItem(qs, quoteId, lineItemId, u)| == |qs|
    ensures forall i :: 0 <= i < |qs| ==>
      |UpdateItem(qs, quoteId, lineItemId, u)[i].lineItems| == |qs[i].lineItems|
    ensures forall i :: 0 <= i < |qs| && qs[i].id != quoteId ==> UpdateItem(qs, quoteId, lineItemId, u)[i] == qs[i]
    ensures forall i, j :: 0 <= i < |qs| && qs[i].id == quoteId && 0 <= j < |qs[i].lineItems| ==>
      UpdateItem(qs, quoteId, lineItemId, u)[i].lineItems[j] ==
        if qs[i].lineItems[j].id == lineItemId then MergeItem(qs[i].lineItems[j], u) else qs[i].lineItems[j]
  {
  }

  /** A template generated right after creating a quote under a fresh id carries that quote's items. */
  lemma TemplateAfterCreate(qs: seq<QuoteRequest>, projectId: string, contractorId: string,
                            lineItems: seq<QuoteLineItem>, t: nat, now: nat)
    requires forall i :: 0 <= i < |qs| ==> qs[i].id != NatToString(t)
    ensures var found := FindQuote(qs + [NewQuote(projectId, contractorId, lineItems, t)], NatToString(t));
      found == Some(NewQuote(projectId, contractorId, lineItems, t))
      && Template(found.value, now).lineItems == lineItems
      && Template(found.value, now).contractorId == contractorId
  {
    var f := (q: QuoteRequest) => q.id == NatToString(t);
    FindAppend(qs, [NewQuote(projectId, contractorId, lineItems, t)], f);
    assert FindIndex([NewQuote(projectId, contractorId, lineItems, t)], f) == 0;
  }

  /** Generating from a contractor id, as the quote dialog does, finds no
      quote unless some quote's own id happens to equal it. */
  lemma ContractorIdFindsNoQuote(qs: seq<QuoteRequest>, contractorId: string)
    requires forall i :: 0 <= i < |qs| ==> qs[i].id != contractorId
    ensures FindQuote(qs, contractorId).None?
  {
  }
}
