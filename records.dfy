/** The records the CRM keeps and passes between its parts: partners with their
    projects, contributions, agreements and logged engagements, and the UNIDO
    staff members they are assigned to.

    JavaScript fields that may be missing are written as follows. The region
    is an `Option`: the network's link strength compares a missing region
    (`undefined`) equal to a staff node's and an empty one not, and the
    dashboard counts a missing region under the key "undefined". The other
    texts and numbers are "" or 0 when absent, which is what a truthiness
    test makes of a missing value. An array that may be missing is an
    `Option` of a sequence (an empty array is truthy, a missing one is not). */
module Records {
  import opened Common

  /** Graph node ids. Partner ids are numbers and staff ids are strings; since
      `===` never equates a number with a string, the two kinds never clash. */
  datatype NodeId = PartnerId(n: int) | StaffId(s: string)

  datatype Contribution = Contribution(
    kind: string,             // `type`: "Financial", "In-kind", ...
    amount: int,              // 0 when absent
    estimatedValue: int,      // 0 when absent
    date: string)

  datatype Project = Project(
    status: string,
    startDate: string,        // "" when absent
    endDate: string,
    location: string)         // comma-separated places, "" when absent

  datatype Agreement = Agreement(
    kind: string,
    startDate: string,
    endDate: string,
    signDate: string,         // "" when absent
    expiryDate: string)

  datatype Engagement = Engagement(
    id: int,                  // 0 when absent
    date: string,
    kind: string,
    notes: string)

  datatype Partner = Partner(
    id: int,                  // 0 when absent (an import row without an id)
    name: string,
    partnerType: string,      // `type`
    sector: string,
    region: Option<string>,   // None when absent
    country: string,
    status: string,
    description: string,
    startDate: string,
    contactPerson: string,
    email: string,
    mainContactPerson: string,  // a staff id, "" when absent
    sdgAlignment: Option<seq<int>>,
    focusAreas: Option<seq<string>>,
    projects: Option<seq<Project>>,
    contributions: Option<seq<Contribution>>,
    agreements: Option<seq<Agreement>>,
    engagements: Option<seq<Engagement>>,
    connections: Option<seq<NodeId>>)

  /** A staff member with the directorate and division of its `unit`; "" stands
      for a missing unit, a missing directorate and a `null` division. */
  datatype StaffMember = StaffMember(
    id: string,
    name: string,
    directorate: string,
    division: string)

  /** `xs || []` */
  function OrEmpty<T>(xs: Option<seq<T>>): (r: seq<T>)
    ensures xs.Some? ==> r == xs.value
    ensures xs.None? ==> r == []
  {
    if xs.Some? then xs.value else []
  }
}
