/** The records of the people and firms the programs work with
    (src/types/team.ts): energy advisors, booking agents, technical team
    members and contractors.  Numbers are modelled as reals. */
module TeamTypes {
  datatype MemberStatus = Active | Inactive
  datatype CertificationLevel = Junior | Intermediate | Senior

  datatype EnergyAdvisor = EnergyAdvisor(
    id: string,
    name: string,
    title: string,
    email: string,
    phone: string,
    serviceAreas: seq<string>,
    preferredDays: seq<string>,
    totalContractUnits: real,
    programsTrainedIn: seq<string>,
    status: MemberStatus,
    certificationLevel: CertificationLevel,
    maxAuditsPerDay: real,
    averageAuditDuration: real)

  datatype BookingAgent = BookingAgent(
    id: string,
    name: string,
    title: string,
    email: string,
    phone: string,
    programsBooked: seq<string>,
    status: MemberStatus)

  datatype TechTeamMember = TechTeamMember(
    id: string,
    name: string,
    title: string,
    email: string,
    phone: string,
    programs: seq<string>,
    status: MemberStatus)

  datatype Contractor = Contractor(
    id: string,
    name: string,
    contactPerson: string,
    phone: string,
    email: string,
    servicesOffered: seq<string>,
    areasServiced: seq<string>,
    isPreferred: bool,
    status: MemberStatus)
}
