/** The contractor store (src/store/contractors.ts): the contractor list,
    seeded with two mock contractors, and the actions that add, merge into,
    remove and mark as preferred. */
module ContractorStore {
  import opened Seqs
  import opened TeamTypes

  /** `MOCK_CONTRACTORS`, the store's initial contents. */
  const MockContractors: seq<Contractor> := [
    Contractor("1", "GreenTech Solutions", "John Miller", "(416) 555-0101", "john@greentech.com",
               ["HVAC Installation", "Insulation", "Air Sealing"], ["Toronto Downtown", "North York", "Etobicoke"],
               true, Active),
    Contractor("2", "EcoHome Improvements", "Sarah Lee", "(416) 555-0102", "sarah@ecohome.com",
               ["Window Replacement", "Door Installation", "Insulation"], ["Scarborough", "Markham", "Richmond Hill"],
               true, Active)]

  /** `Omit<Contractor, 'id'>`: what the add dialog submits. */
  datatype ContractorData = ContractorData(
    name: string,
    contactPerson: string,
    phone: string,
    email: string,
    servicesOffered: seq<string>,
    areasServiced: seq<string>,
    isPreferred: bool,
    status: MemberStatus)

  /** `Partial<Contractor>`. */
  datatype ContractorPatch = ContractorPatch(
    id: Option<string>,
    name: Option<string>,
    contactPerson: Option<string>,
    phone: Option<string>,
    email: Option<string>,
    servicesOffered: Option<seq<string>>,
    areasServiced: Option<seq<string>>,
    isPreferred: Option<bool>,
    status: Option<MemberStatus>)

  /** The contractor `addContractor` builds: the data under the clock's decimal id. */
  function NewContractor(data: ContractorData, now: nat): (c: Contractor)
    ensures c.id == NatToString(now)
    ensures c.name == data.name && c.contactPerson == data.contactPerson && c.phone == data.phone
    ensures c.email == data.email && c.servicesOffered == data.servicesOffered
    ensures c.areasServiced == data.areasServiced && c.isPreferred == data.isPreferred && c.status == data.status
  {
    Contractor(NatToString(now), data.name, data.contactPerson, data.phone, data.email,
               data.servicesOffered, data.areasServiced, data.isPreferred, data.status)
  }

  /** `{ ...c, ...updates }`. */
  function MergeContractor(c: Contractor, u: ContractorPatch): (r: Contractor)
    ensures u.id.Some? ==> r.id == u.id.value
    ensures u.id.None? ==> r.id == c.id
    ensures u.name.Some? ==> r.name == u.name.value
    ensures u.name.None? ==> r.name == c.name
    ensures u.contactPerson.Some? ==> r.contactPerson == u.contactPerson.value
    ensures u.contactPerson.None? ==> r.contactPerson == c.contactPerson
    ensures u.phone.Some? ==> r.phone == u.phone.value
    ensures u.phone.None? ==> r.phone == c.phone
    ensures u.email.Some? ==> r.email == u.email.value
    ensures u.email.None? ==> r.email == c.email
    ensures u.servicesOffered.Some? ==> r.servicesOffered == u.servicesOffered.value
    ensures u.servicesOffered.None? ==> r.servicesOffered == c.servicesOffered
    ensures u.areasServiced.Some? ==> r.areasServiced == u.areasServiced.value
    ensures u.areasServiced.None? ==> r.areasServiced == c.areasServiced
    ensures u.isPreferred.Some? ==> r.isPreferred == u.isPreferred.value
    ensures u.isPreferred.None? ==> r.isPreferred == c.isPreferred
    ensures u.status.Some? ==> r.status == u.status.value
    ensures u.status.None? ==> r.status == c.status
    ensures u == ContractorPatch(None, None, None, None, None, None, None, None, None) ==> r == c
  {
    Contractor(Pick(u.id, c.id), Pick(u.name, c.name), Pick(u.contactPerson, c.contactPerson),
               Pick(u.phone, c.phone), Pick(u.email, c.email), Pick(u.servicesOffered, c.servicesOffered),
               Pick(u.areasServiced, c.areasServiced), Pick(u.isPreferred, c.isPreferred), Pick(u.status, c.status))
  }

  function UpdateContractors(cs: seq<Contractor>, id: string, u: ContractorPatch): seq<Contractor> {
    MapWhere(cs, (c: Contractor) => c.id == id, (c: Contractor) => MergeContractor(c, u))
  }

  function WithoutContractor(cs: seq<Contractor>, id: string): seq<Contractor> {
    Filter(cs, (c: Contractor) => c.id != id)
  }

  function TogglePreferredIn(cs: seq<Contractor>, id: string): seq<Contractor> {
    MapWhere(cs, (c: Contractor) => c.id == id, (c: Contractor) => c.(isPreferred := !c.isPreferred))
  }

  /** The store: the contractor list as its one piece of state. */
  class Store {
    var contractors: seq<Contractor>

    constructor()
      ensures contractors == MockContractors
    {
      contractors := MockContractors;
    }

    method AddContractor(contractor: ContractorData, now: nat)
      modifies this
      ensures contractors == old(contractors) + [NewContractor(contractor, now)]
    {
      contractors := contractors + [NewContractor(contractor, now)];
    }

    method UpdateContractor(id: string, updates: ContractorPatch)
      modifies this
      ensures contractors == UpdateContractors(old(contractors), id, updates)
    {
      contractors := UpdateContractors(contractors, id, updates);
    }

    method DeleteContractor(id: string)
      modifies this
      ensures contractors == WithoutContractor(old(contractors), id)
    {
      contractors := WithoutContractor(contractors, id);
    }

    method TogglePreferred(id: string)
      modifies this
      ensures contractors == TogglePreferredIn(old(contractors), id)
    {
      contractors := TogglePreferredIn(contractors, id);
    }
  }

  // ---------------------------------------------------------------------

  /** Adding under an id no contractor has appends one contractor that only that id finds. */
  lemma AddAppendsFresh(cs: seq<Contractor>, data: ContractorData, now: nat)
    requires forall i :: 0 <= i < |cs| ==> cs[i].id != NatToString(now)
    ensures var r := cs + [NewContractor(data, now)];
      |r| == |cs| + 1 && r[..|cs|] == cs
      && Find(r, (c: Contractor) => c.id == NatToString(now)) == Some(NewContractor(data, now))
  {
    var f := (c: Contractor) => c.id == NatToString(now);
    FindAppend(cs, [NewContractor(data, now)], f);
    assert FindIndex([NewContractor(data, now)], f) == 0;
    assert (cs + [NewContractor(data, now)])[..|cs|] == cs;
  }

  /** An update merges into matching contractors only and keeps the length. */
  lemma UpdateChangesOnlyMatching(cs: seq<Contractor>, id: string, u: ContractorPatch)
    ensures |UpdateContractors(cs, id, u)| == |cs|
    ensures forall i :: 0 <= i < |cs| ==>
      UpdateContractors(cs, id, u)[i] == if cs[i].id == id then MergeContractor(cs[i], u) else cs[i]
  {
  }

  /** Delete removes exactly the contractors with that id and keeps the rest in order. */
  lemma DeleteRemovesExactly(cs: seq<Contractor>, id: string, x: Contractor)
    ensures x in WithoutContractor(cs, id) <==> x in cs && x.id != id
    ensures IsSubsequence(WithoutContractor(cs, id), cs)
  {
    FilterMembership(cs, (c: Contractor) => c.id != id, x);
    FilterIsSubsequence(cs, (c: Contractor) => c.id != id);
  }

  /** The toggle flips `isPreferred` of matching contractors only, and twice is the identity. */
  lemma ToggleTwiceRestores(cs: seq<Contractor>, id: string)
    ensures forall i :: 0 <= i < |cs| ==>
      TogglePreferredIn(cs, id)[i] == if cs[i].id == id then cs[i].(isPreferred := !cs[i].isPreferred) else cs[i]
    ensures TogglePreferredIn(TogglePreferredIn(cs, id), id) == cs
  {
    var once := TogglePreferredIn(cs, id);
    var twice := TogglePreferredIn(once, id);
    assert |twice| == |cs|;
    forall i | 0 <= i < |cs| ensures twice[i] == cs[i] {
      assert once[i].id == cs[i].id;
    }
  }
}
