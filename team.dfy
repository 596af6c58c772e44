/** The team store (src/store/team.ts): three member lists (energy advisors,
    booking agents, technical team), each appended to by its own add action;
    update and delete pick the list by a type tag and leave the state alone
    for any other tag. */
module TeamStore {
  import opened Seqs
  import opened TeamTypes

  /** The three lists, taken together. */
  datatype Team = Team(energyAdvisors: seq<EnergyAdvisor>, bookingAgents: seq<BookingAgent>, techTeam: seq<TechTeamMember>)

  /** `Omit<EnergyAdvisor, 'id'>`. */
  datatype AdvisorData = AdvisorData(
    name: string, title: string, email: string, phone: string,
    serviceAreas: seq<string>, preferredDays: seq<string>, totalContractUnits: real,
    programsTrainedIn: seq<string>, status: MemberStatus, certificationLevel: CertificationLevel,
    maxAuditsPerDay: real, averageAuditDuration: real)

  /** `Omit<BookingAgent, 'id'>`. */
  datatype AgentData = AgentData(name: string, title: string, email: string, phone: string,
                                 programsBooked: seq<string>, status: MemberStatus)

  /** `Omit<TechTeamMember, 'id'>`. */
  datatype TechData = TechData(name: string, title: string, email: string, phone: string,
                               programs: seq<string>, status: MemberStatus)

  /** The update object, typed `any` in the store: any of the fields of any member kind;
      each merge uses the fields its kind has. */
  datatype MemberPatch = MemberPatch(
    id: Option<string>, name: Option<string>, title: Option<string>, email: Option<string>,
    phone: Option<string>, status: Option<MemberStatus>,
    serviceAreas: Option<seq<string>>, preferredDays: Option<seq<string>>,
    totalContractUnits: Option<real>, programsTrainedIn: Option<seq<string>>,
    certificationLevel: Option<CertificationLevel>, maxAuditsPerDay: Option<real>,
    averageAuditDuration: Option<real>, programsBooked: Option<seq<string>>,
    programs: Option<seq<string>>)

  function NewAdvisor(d: AdvisorData, now: nat): (a: EnergyAdvisor)
    ensures a.id == NatToString(now) && a.name == d.name && a.title == d.title
    ensures a.email == d.email && a.phone == d.phone
    ensures a.serviceAreas == d.serviceAreas && a.preferredDays == d.preferredDays
    ensures a.totalContractUnits == d.totalContractUnits && a.programsTrainedIn == d.programsTrainedIn
    ensures a.status == d.status && a.certificationLevel == d.certificationLevel
    ensures a.maxAuditsPerDay == d.maxAuditsPerDay && a.averageAuditDuration == d.averageAuditDuration
  {
    EnergyAdvisor(NatToString(now), d.name, d.title, d.email, d.phone, d.serviceAreas, d.preferredDays,
                  d.totalContractUnits, d.programsTrainedIn, d.status, d.certificationLevel,
                  d.maxAuditsPerDay, d.averageAuditDuration)
  }

  function NewAgent(d: AgentData, now: nat): (a: BookingAgent)
    ensures a.id == NatToString(now) && a.name == d.name && a.title == d.title
    ensures a.email == d.email && a.phone == d.phone
    ensures a.programsBooked == d.programsBooked && a.status == d.status
  {
    BookingAgent(NatToString(now), d.name, d.title, d.email, d.phone, d.programsBooked, d.status)
  }

  function NewTech(d: TechData, now: nat): (m: TechTeamMember)
    ensures m.id == NatToString(now) && m.name == d.name && m.title == d.title
    ensures m.email == d.email && m.phone == d.phone
    ensures m.programs == d.programs && m.status == d.status
  {
    TechTeamMember(NatToString(now), d.name, d.title, d.email, d.phone, d.programs, d.status)
  }

  /** `{ ...ea, ...updates }`: the patch's advisor fields replace, absent ones keep. */
  function MergeAdvisor(a: EnergyAdvisor, u: MemberPatch): (r: EnergyAdvisor)
    ensures u.id.Some? ==> r.id == u.id.value
    ensures u.id.None? ==> r.id == a.id
    ensures u.name.Some? ==> r.name == u.name.value
    ensures u.name.None? ==> r.name == a.name
    ensures u.title.Some? ==> r.title == u.title.value
    ensures u.title.None? ==> r.title == a.title
    ensures u.email.Some? ==> r.email == u.email.value
    ensures u.email.None? ==> r.email == a.email
    ensures u.phone.Some? ==> r.phone == u.phone.value
    ensures u.phone.None? ==> r.phone == a.phone
    ensures u.serviceAreas.Some? ==> r.serviceAreas == u.serviceAreas.value
    ensures u.serviceAreas.None? ==> r.serviceAreas == a.serviceAreas
    ensures u.preferredDays.Some? ==> r.preferredDays == u.preferredDays.value
    ensures u.preferredDays.None? ==> r.preferredDays == a.preferredDays
    ensures u.totalContractUnits.Some? ==> r.totalContractUnits == u.totalContractUnits.value
    ensures u.totalContractUnits.None? ==> r.totalContractUnits == a.totalContractUnits
    ensures u.programsTrainedIn.Some? ==> r.programsTrainedIn == u.programsTrainedIn.value
    ensures u.programsTrainedIn.None? ==> r.programsTrainedIn == a.programsTrainedIn
    ensures u.status.Some? ==> r.status == u.status.value
    ensures u.status.None? ==> r.status == a.status
    ensures u.certificationLevel.Some? ==> r.certificationLevel == u.certificationLevel.value
    ensures u.certificationLevel.None? ==> r.certificationLevel == a.certificationLevel
    ensures u.maxAuditsPerDay.Some? ==> r.maxAuditsPerDay == u.maxAuditsPerDay.value
    ensures u.maxAuditsPerDay.None? ==> r.maxAuditsPerDay == a.maxAuditsPerDay
    ensures u.averageAuditDuration.Some? ==> r.averageAuditDuration == u.averageAuditDuration.value
    ensures u.averageAuditDuration.None? ==> r.averageAuditDuration == a.averageAuditDuration
  {
    EnergyAdvisor(Pick(u.id, a.id), Pick(u.name, a.name), Pick(u.title, a.title), Pick(u.email, a.email),
                  Pick(u.phone, a.phone), Pick(u.serviceAreas, a.serviceAreas), Pick(u.preferredDays, a.preferredDays),
                  Pick(u.totalContractUnits, a.totalContractUnits), Pick(u.programsTrainedIn, a.programsTrainedIn),
                  Pick(u.status, a.status), Pick(u.certificationLevel, a.certificationLevel),
                  Pick(u.maxAuditsPerDay, a.maxAuditsPerDay), Pick(u.averageAuditDuration, a.averageAuditDuration))
  }

  /** `{ ...ba, ...updates }`: the patch's agent fields replace, absent ones keep. */
  function MergeAgent(a: BookingAgent, u: MemberPatch): (r: BookingAgent)
    ensures u.id.Some? ==> r.id == u.id.value
    ensures u.id.None? ==> r.id == a.id
    ensures u.name.Some? ==> r.name == u.name.value
    ensures u.name.None? ==> r.name == a.name
    ensures u.title.Some? ==> r.title == u.title.value
    ensures u.title.None? ==> r.title == a.title
    ensures u.email.Some? ==> r.email == u.email.value
    ensures u.email.None? ==> r.email == a.email
    ensures u.phone.Some? ==> r.phone == u.phone.value
    ensures u.phone.None? ==> r.phone == a.phone
    ensures u.programsBooked.Some? ==> r.programsBooked == u.programsBooked.value
    ensures u.programsBooked.None? ==> r.programsBooked == a.programsBooked
    ensures u.status.Some? ==> r.status == u.status.value
    ensures u.status.None? ==> r.status == a.status
  {
    BookingAgent(Pick(u.id, a.id), Pick(u.name, a.name), Pick(u.title, a.title), Pick(u.email, a.email),
                 Pick(u.phone, a.phone), Pick(u.programsBooked, a.programsBooked), Pick(u.status, a.status))
  }

  /** `{ ...tm, ...updates }`: the patch's technical-team fields replace, absent ones keep. */
  function MergeTech(m: TechTeamMember, u: MemberPatch): (r: TechTeamMember)
    ensures u.id.Some? ==> r.id == u.id.value
    ensures u.id.None? ==> r.id == m.id
    ensures u.name.Some? ==> r.name == u.name.value
    ensures u.name.None? ==> r.name == m.name
    ensures u.title.Some? ==> r.title == u.title.value
    ensures u.title.None? ==> r.title == m.title
    ensures u.email.Some? ==> r.email == u.email.value
    ensures u.email.None? ==> r.email == m.email
    ensures u.phone.Some? ==> r.phone == u.phone.value
    ensures u.phone.None? ==> r.phone == m.phone
    ensures u.programs.Some? ==> r.programs == u.programs.value
    ensures u.programs.None? ==> r.programs == m.programs
    ensures u.status.Some? ==> r.status == u.status.value
    ensures u.status.None? ==> r.status == m.status
  {
    TechTeamMember(Pick(u.id, m.id), Pick(u.name, m.name), Pick(u.title, m.title), Pick(u.email, m.email),
                   Pick(u.phone, m.phone), Pick(u.programs, m.programs), Pick(u.status, m.status))
  }

  /** The state after `updateTeamMember(memberType, id, updates)`. */
  function UpdateMember(t: Team, memberType: string, id: string, u: MemberPatch): Team {
    if memberType == "EA" then
      t.(energyAdvisors := MapWhere(t.energyAdvisors, (a: EnergyAdvisor) => a.id == id, (a: EnergyAdvisor) => MergeAdvisor(a, u)))
    else if memberType == "BA" then
      t.(bookingAgents := MapWhere(t.bookingAgents, (a: BookingAgent) => a.id == id, (a: BookingAgent) => MergeAgent(a, u)))
    else if memberType == "TECH" then
      t.(techTeam := MapWhere(t.techTeam, (m: TechTeamMember) => m.id == id, (m: TechTeamMember) => MergeTech(m, u)))
    else t
  }

  /** The state after `deleteTeamMember(memberType, id)`. */
  function DeleteMember(t: Team, memberType: string, id: string): Team {
    if memberType == "EA" then t.(energyAdvisors := Filter(t.energyAdvisors, (a: EnergyAdvisor) => a.id != id))
    else if memberType == "BA" then t.(bookingAgents := Filter(t.bookingAgents, (a: BookingAgent) => a.id != id))
    else if memberType == "TECH" then t.(techTeam := Filter(t.techTeam, (m: TechTeamMember) => m.id != id))
    else t
  }

  /** The store's state: the three lists, seeded from fixtures that are parameters here. */
  class Store {
    var energyAdvisors: seq<EnergyAdvisor>
    var bookingAgents: seq<BookingAgent>
    var techTeam: seq<TechTeamMember>

    function State(): Team
      reads this
    {
      Team(energyAdvisors, bookingAgents, techTeam)
    }

    constructor(advisors: seq<EnergyAdvisor>, agents: seq<BookingAgent>, tech: seq<TechTeamMember>)
      ensures State() == Team(advisors, agents, tech)
    {
      energyAdvisors := advisors;
      bookingAgents := agents;
      techTeam := tech;
    }

    method AddEnergyAdvisor(advisor: AdvisorData, now: nat)
      modifies this
      ensures State() == old(State()).(energyAdvisors := old(energyAdvisors) + [NewAdvisor(advisor, now)])
    {
      energyAdvisors := energyAdvisors + [NewAdvisor(advisor, now)];
    }

    method AddBookingAgent(agent: AgentData, now: nat)
      modifies this
      ensures State() == old(State()).(bookingAgents := old(bookingAgents) + [NewAgent(agent, now)])
    {
      bookingAgents := bookingAgents + [NewAgent(agent, now)];
    }

    method AddTechMember(member: TechData, now: nat)
      modifies this
      ensures State() == old(State()).(techTeam := old(techTeam) + [NewTech(member, now)])
    {
      techTeam := techTeam + [NewTech(member, now)];
    }

    method UpdateTeamMember(memberType: string, id: string, updates: MemberPatch)
      modifies this
      ensures State() == UpdateMember(old(State()), memberType, id, updates)
    {
      var t := UpdateMember(State(), memberType, id, updates);
      energyAdvisors, bookingAgents, techTeam := t.energyAdvisors, t.bookingAgents, t.techTeam;
    }

    method DeleteTeamMember(memberType: string, id: string)
      modifies this
      ensures State() == DeleteMember(old(State()), memberType, id)
    {
      var t := DeleteMember(State(), memberType, id);
      energyAdvisors, bookingAgents, techTeam := t.energyAdvisors, t.bookingAgents, t.techTeam;
    }
  }

  // ---------------------------------------------------------------------

  /** A tag other than EA, BA or TECH (such as TRAINEE) leaves the state as it was. */
  lemma UnknownTypeIsNoop(t: Team, memberType: string, id: string, u: MemberPatch)
    requires memberType != "EA" && memberType != "BA" && memberType != "TECH"
    ensures UpdateMember(t, memberType, id, u) == t
    ensures DeleteMember(t, memberType, id) == t
  {
  }

  /** An update rewrites only the tagged list, only at matching ids, and keeps every list's length. */
  lemma UpdateTouchesOnlyTaggedList(t: Team, memberType: string, id: string, u: MemberPatch)
    ensures var r := UpdateMember(t, memberType, id, u);
      |r.energyAdvisors| == |t.energyAdvisors| && |r.bookingAgents| == |t.bookingAgents| && |r.techTeam| == |t.techTeam|
    ensures memberType != "EA" ==> UpdateMember(t, memberType, id, u).energyAdvisors == t.energyAdvisors
    ensures memberType != "BA" ==> UpdateMember(t, memberType, id, u).bookingAgents == t.bookingAgents
    ensures memberType != "TECH" ==> UpdateMember(t, memberType, id, u).techTeam == t.techTeam
    ensures memberType == "EA" ==> forall i :: 0 <= i < |t.energyAdvisors| ==>
      UpdateMember(t, memberType, id, u).energyAdvisors[i] ==
        if t.energyAdvisors[i].id == id then MergeAdvisor(t.energyAdvisors[i], u) else t.energyAdvisors[i]
    ensures memberType == "BA" ==> forall i :: 0 <= i < |t.bookingAgents| ==>
      UpdateMember(t, memberType, id, u).bookingAgents[i] ==
        if t.bookingAgents[i].id == id then MergeAgent(t.bookingAgents[i], u) else t.bookingAgents[i]
    ensures memberType == "TECH" ==> forall i :: 0 <= i < |t.techTeam| ==>
      UpdateMember(t, memberType, id, u).techTeam[i] ==
        if t.techTeam[i].id == id then MergeTech(t.techTeam[i], u) else t.techTeam[i]
  {
  }

  /** Delete removes the matching ids from the tagged list only, keeping its order,
      and never changes the lengths of the other two lists. */
  lemma DeleteTouchesOnlyTaggedList(t: Team, memberType: string, id: string)
    ensures var r := DeleteMember(t, memberType, id);
      (memberType != "EA" ==> r.energyAdvisors == t.energyAdvisors)
      && (memberType != "BA" ==> r.bookingAgents == t.bookingAgents)
      && (memberType != "TECH" ==> r.techTeam == t.techTeam)
    ensures memberType == "EA" ==>
      IsSubsequence(DeleteMember(t, memberType, id).energyAdvisors, t.energyAdvisors)
      && forall a :: a in DeleteMember(t, memberType, id).energyAdvisors <==> a in t.energyAdvisors && a.id != id
    ensures memberType == "BA" ==>
      IsSubsequence(DeleteMember(t, memberType, id).bookingAgents, t.bookingAgents)
      && forall a :: a in DeleteMember(t, memberType, id).bookingAgents <==> a in t.bookingAgents && a.id != id
    ensures memberType == "TECH" ==>
      IsSubsequence(DeleteMember(t, memberType, id).techTeam, t.techTeam)
      && forall m :: m in DeleteMember(t, memberType, id).techTeam <==> m in t.techTeam && m.id != id
  {
    var fa := (a: EnergyAdvisor) => a.id != id;
    var fb := (a: BookingAgent) => a.id != id;
    var ft := (m: TechTeamMember) => m.id != id;
    if memberType == "EA" {
      FilterIsSubsequence(t.energyAdvisors, fa);
      forall a ensures a in Filter(t.energyAdvisors, fa) <==> a in t.energyAdvisors && a.id != id {
        FilterMembership(t.energyAdvisors, fa, a);
      }
    } else if memberType == "BA" {
      FilterIsSubsequence(t.bookingAgents, fb);
      forall a ensures a in Filter(t.bookingAgents, fb) <==> a in t.bookingAgents && a.id != id {
        FilterMembership(t.bookingAgents, fb, a);
      }
    } else if memberType == "TECH" {
      FilterIsSubsequence(t.techTeam, ft);
      forall m ensures m in Filter(t.techTeam, ft) <==> m in t.techTeam && m.id != id {
        FilterMembership(t.techTeam, ft, m);
      }
    }
  }

  /** An update that carries no field changes nothing. */
  lemma EmptyPatchIsNoop(t: Team, memberType: string, id: string)
    ensures UpdateMember(t, memberType, id,
      MemberPatch(None, None, None, None, None, None, None, None, None, None, None, None, None, None, None)) == t
  {
    var u := MemberPatch(None, None, None, None, None, None, None, None, None, None, None, None, None, None, None);
    var r := UpdateMember(t, memberType, id, u);
    if memberType == "EA" {
      assert r.energyAdvisors == t.energyAdvisors;
    } else if memberType == "BA" {
      assert r.bookingAgents == t.bookingAgents;
    } else if memberType == "TECH" {
      assert r.techTeam == t.techTeam;
    }
  }
}
