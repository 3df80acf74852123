/** The ticket data model: the closed enumerations and the records that every other
    module works on. Dates are milliseconds since the epoch; numbers that the program
    keeps as one-decimal floats (vendor rating, distance) are kept in tenths. */
module Types {

  datatype Option<+T> = None | Some(value: T)

  /** The category of a maintenance problem. */
  datatype IssueType = Plumbing | Electrical | Hvac | Appliance | Structural | Pest | Other
  {
    /** The string the program uses for this value. */
    function Name(): string {
      match this
      case Plumbing => "plumbing"
      case Electrical => "electrical"
      case Hvac => "hvac"
      case Appliance => "appliance"
      case Structural => "structural"
      case Pest => "pest"
      case Other => "other"
    }
  }

  /** Recognises the wire name of an issue type; any other string is unknown. */
  function ParseIssueType(key: string): (r: Option<IssueType>)
    ensures r.Some? ==> r.value.Name() == key
    ensures forall t: IssueType :: t.Name() == key ==> r == Some(t)
  {
    if key == "plumbing" then Some(Plumbing)
    else if key == "electrical" then Some(Electrical)
    else if key == "hvac" then Some(Hvac)
    else if key == "appliance" then Some(Appliance)
    else if key == "structural" then Some(Structural)
    else if key == "pest" then Some(Pest)
    else if key == "other" then Some(Other)
    else None
  }

  datatype Urgency = Emergency | Medium | Low
  {
    function Name(): string {
      match this
      case Emergency => "emergency"
      case Medium => "medium"
      case Low => "low"
    }
  }

  function ParseUrgency(key: string): (r: Option<Urgency>)
    ensures r.Some? ==> r.value.Name() == key
    ensures forall u: Urgency :: u.Name() == key ==> r == Some(u)
  {
    if key == "emergency" then Some(Emergency)
    else if key == "medium" then Some(Medium)
    else if key == "low" then Some(Low)
    else None
  }

  /** The seven statuses of a ticket's lifecycle. */
  datatype TicketStatus =
    | New | GatheringInfo | Triaged | FindingVendors | AwaitingApproval | Scheduled | Complete
  {
    function Name(): string {
      match this
      case New => "new"
      case GatheringInfo => "gathering_info"
      case Triaged => "triaged"
      case FindingVendors => "finding_vendors"
      case AwaitingApproval => "awaiting_approval"
      case Scheduled => "scheduled"
      case Complete => "complete"
    }
  }

  function ParseStatus(key: string): (r: Option<TicketStatus>)
    ensures r.Some? ==> r.value.Name() == key
    ensures forall s: TicketStatus :: s.Name() == key ==> r == Some(s)
  {
    if key == "new" then Some(New)
    else if key == "gathering_info" then Some(GatheringInfo)
    else if key == "triaged" then Some(Triaged)
    else if key == "finding_vendors" then Some(FindingVendors)
    else if key == "awaiting_approval" then Some(AwaitingApproval)
    else if key == "scheduled" then Some(Scheduled)
    else if key == "complete" then Some(Complete)
    else None
  }

  datatype Property = Property(
    id: string, name: string, address: string, city: string, state: string, zip: string,
    slug: string)

  datatype Tenant = Tenant(id: string, name: string, unit: string, propertyId: string)

  /** Who wrote a conversation message: the tenant, or the assistant. */
  datatype MessageRole = TenantRole | Ai

  datatype Message = Message(role: MessageRole, content: string, timestamp: int)

  datatype Vendor = Vendor(
    id: string,
    name: string,
    ratingTenths: int,
    reviewCount: int,
    distanceTenths: int,
    estimatedCostLow: int,
    estimatedCostHigh: int,
    availableSlots: seq<string>,
    phone: string)

  datatype Ticket = Ticket(
    id: string,
    propertyId: string,
    tenantId: string,
    tenantName: string,
    unit: string,
    issueType: IssueType,
    urgency: Urgency,
    summary: string,
    rawMessage: string,
    status: TicketStatus,
    messages: seq<Message>,
    vendors: seq<Vendor>,
    selectedVendor: Option<Vendor>,
    selectedSlot: Option<string>,
    createdAt: int,
    updatedAt: int)
}
