/** One row of the dashboard: a ticket's icon, summary, place, age, status badge and, for a
    ticket waiting on the landlord, the "Review" marker. The clock is the parameter `now`
    (milliseconds). */
module TicketCard {
  import opened Types
  import opened Text
  import Store
  import Status

  datatype Icon = Droplets | Zap | Wind | Refrigerator | Hammer | Bug | Wrench

  const ISSUE_ICONS: map<string, Icon> := map[
    "plumbing" := Droplets,
    "electrical" := Zap,
    "hvac" := Wind,
    "appliance" := Refrigerator,
    "structural" := Hammer,
    "pest" := Bug,
    "other" := Wrench
  ]

  datatype UrgencyStyle = UrgencyStyle(border: string, badge: string)

  const URGENCY_STYLES: map<string, UrgencyStyle> := map[
    "emergency" := UrgencyStyle("border-l-4 border-l-red-500", "bg-red-100 text-red-800"),
    "medium" := UrgencyStyle("border-l-4 border-l-amber-500", "bg-amber-100 text-amber-800"),
    "low" := UrgencyStyle("border-l-4 border-l-green-500", "bg-green-100 text-green-800")
  ]

  datatype StatusLabel = StatusLabel(labelText: string, variant: string)

  const STATUS_LABELS: map<string, StatusLabel> := map[
    "new" := StatusLabel("New", "bg-gray-100 text-gray-800"),
    "gathering_info" := StatusLabel("Gathering info", "bg-blue-100 text-blue-800"),
    "triaged" := StatusLabel("Triaged", "bg-blue-100 text-blue-800"),
    "finding_vendors" := StatusLabel("Finding vendors", "bg-purple-100 text-purple-800"),
    "awaiting_approval" := StatusLabel("Action needed", "bg-amber-100 text-amber-800"),
    "scheduled" := StatusLabel("Scheduled", "bg-green-100 text-green-800"),
    "complete" := StatusLabel("Complete", "bg-gray-100 text-gray-800")
  ]

  /** The icon for an issue type given by name; an unknown name gets the `other` icon. */
  function IconFor(key: string): (r: Icon)
    ensures key in ISSUE_ICONS ==> r == ISSUE_ICONS[key]
    ensures key !in ISSUE_ICONS ==> r == Wrench
  {
    if key in ISSUE_ICONS then ISSUE_ICONS[key] else ISSUE_ICONS["other"]
  }

  /** The style for an urgency given by name; an unknown name gets the `low` style. */
  function UrgencyStyleFor(key: string): (r: UrgencyStyle)
    ensures r in URGENCY_STYLES.Values
    ensures key in URGENCY_STYLES ==> r == URGENCY_STYLES[key]
    ensures key !in URGENCY_STYLES ==> r == URGENCY_STYLES["low"]
  {
    if key in URGENCY_STYLES then URGENCY_STYLES[key] else URGENCY_STYLES["low"]
  }

  /** The badge for a status given by name; an unknown name gets the `new` badge. */
  function StatusLabelFor(key: string): (r: StatusLabel)
    ensures r in STATUS_LABELS.Values
    ensures key in STATUS_LABELS ==> r == STATUS_LABELS[key]
    ensures key !in STATUS_LABELS ==> r == STATUS_LABELS["new"]
  {
    if key in STATUS_LABELS then STATUS_LABELS[key] else STATUS_LABELS["new"]
  }

  /** Each issue type has its own icon, found under its name. */
  lemma IconsDistinct(a: IssueType, b: IssueType)
    ensures a.Name() in ISSUE_ICONS
    ensures IconFor(a.Name()) == IconFor(b.Name()) <==> a == b
  {
  }

  /** Each urgency has its own style, found under its name, with a distinct border. */
  lemma UrgencyStylesDistinct(a: Urgency, b: Urgency)
    ensures a.Name() in URGENCY_STYLES
    ensures UrgencyStyleFor(a.Name()).border == UrgencyStyleFor(b.Name()).border <==> a == b
  {
  }

  /** The card's badge table says the same as the shared status table: same keys, same
      labels, same colours. */
  lemma StatusLabelsAgreeWithConfig(key: string)
    ensures key in STATUS_LABELS <==> key in Status.STATUS_CONFIG
    ensures StatusLabelFor(key).labelText == Status.GetStatusConfig(key).labelText
    ensures StatusLabelFor(key).variant == Status.GetStatusConfig(key).color
  {
  }

  /** The "Review" marker shows exactly for tickets awaiting approval, which are exactly
      the tickets whose badge reads "Action needed". */
  predicate IsActionNeeded(s: TicketStatus) {
    s == AwaitingApproval
  }

  lemma ReviewMarkerIffActionNeeded(s: TicketStatus)
    ensures IsActionNeeded(s) <==> StatusLabelFor(s.Name()).labelText == "Action needed"
  {
    StatusLabelsAgreeWithConfig(s.Name());
    Status.ActionNeededOnlyForAwaitingApproval(s);
    Status.GetStatusConfigOfStatus(s);
  }

  /** How old a ticket is, as `timeAgo` rounds it. */
  datatype Age = JustNow | Minutes(m: nat) | Hours(h: nat) | Days(d: nat)
  {
    /** The number of seconds the age stands for at least. */
    function Seconds(): nat {
      match this
      case JustNow => 0
      case Minutes(m) => m * 60
      case Hours(h) => h * 3600
      case Days(d) => d * 86400
    }

    /** The label text. */
    function Label(): string {
      match this
      case JustNow => "just now"
      case Minutes(m) => NatToString(m) + " min ago"
      case Hours(h) => NatToString(h) + "h ago"
      case Days(d) => NatToString(d) + "d ago"
    }
  }

  /** The age of a timestamp `at` at time `now`, both in milliseconds: whole seconds
      rounded down; under a minute (or in the future) "just now", then whole minutes, whole
      hours and whole days. */
  function AgeOf(now: int, at: int): (a: Age)
    ensures var diff := (now - at) / 1000;
      && (a.JustNow? <==> diff < 60)
      && (a.Minutes? <==> 60 <= diff < 3600)
      && (a.Hours? <==> 3600 <= diff < 86400)
      && (a.Days? <==> 86400 <= diff)
  {
    var diff := (now - at) / 1000;
    if diff < 60 then JustNow
    else if diff < 3600 then Minutes(diff / 60)
    else if diff < 86400 then Hours(diff / 3600)
    else Days(diff / 86400)
  }

  /** The label is never an overstatement, and is short by less than its own unit: the
      whole seconds elapsed lie between the age's seconds and one more minute, hour or day. */
  lemma AgeBounds(now: int, at: int)
    ensures var diff := (now - at) / 1000; var a := AgeOf(now, at);
      && (a.JustNow? ==> diff < 60)
      && (a.Minutes? ==> 1 <= a.m < 60 && a.Seconds() <= diff < a.Seconds() + 60)
      && (a.Hours? ==> 1 <= a.h < 24 && a.Seconds() <= diff < a.Seconds() + 3600)
      && (a.Days? ==> 1 <= a.d && a.Seconds() <= diff < a.Seconds() + 86400)
  {
  }

  /** Time only moves the label forward: a later `now` never shows a smaller age. */
  lemma AgeMonotone(now1: int, now2: int, at: int)
    requires now1 <= now2
    ensures AgeOf(now1, at).Seconds() <= AgeOf(now2, at).Seconds()
  {
    var d1, d2 := (now1 - at) / 1000, (now2 - at) / 1000;
    FloorDivMonotone(now1 - at, now2 - at, 1000);
    if d1 >= 60 {
      var a1, a2 := AgeOf(now1, at), AgeOf(now2, at);
      AgeBounds(now1, at);
      AgeBounds(now2, at);
      if a1.Minutes? && a2.Minutes? {
        FloorDivMonotone(d1, d2, 60);
      } else if a1.Hours? && a2.Hours? {
        FloorDivMonotone(d1, d2, 3600);
      } else if a1.Days? && a2.Days? {
        FloorDivMonotone(d1, d2, 86400);
      }
    }
  }

  /** Division rounding down by a positive divisor keeps the order. */
  lemma FloorDivMonotone(x: int, y: int, k: int)
    requires x <= y && k > 0
    ensures x / k <= y / k
  {
    if x / k > y / k {
      assert (x / k) * k <= x <= y < (y / k) * k + k;
      assert (x / k) * k >= (y / k + 1) * k by {
        assert x / k >= y / k + 1;
        MultiplyMonotone(y / k + 1, x / k, k);
      }
    }
  }

  lemma MultiplyMonotone(a: int, b: int, k: nat)
    requires a <= b
    ensures a * k <= b * k
  {
  }

  /** What one card shows. */
  datatype CardView = CardView(
    href: string,
    icon: Icon,
    summary: string,
    place: string,
    unit: string,
    tenantName: string,
    age: Age,
    badge: StatusLabel,
    border: string,
    reviewMarker: bool)

  /** The card for `ticket` at time `now`: the property's name, or "Unknown" when the
      property is not listed or has an empty name. */
  function CardOf(ticket: Ticket, now: int): (c: CardView)
    ensures c.href == "/dashboard/tickets/" + ticket.id
    ensures c.reviewMarker <==> ticket.status == AwaitingApproval
    ensures c.badge == StatusLabelFor(ticket.status.Name())
    ensures c.border == UrgencyStyleFor(ticket.urgency.Name()).border
    ensures c.place == "Unknown" <==>
      (Store.FindProperty(Store.PROPERTIES, ticket.propertyId).None?
       || Store.FindProperty(Store.PROPERTIES, ticket.propertyId).value.name == "Unknown"
       || Store.FindProperty(Store.PROPERTIES, ticket.propertyId).value.name == "")
  {
    var property := Store.FindProperty(Store.PROPERTIES, ticket.propertyId);
    CardView(
      "/dashboard/tickets/" + ticket.id,
      IconFor(ticket.issueType.Name()),
      ticket.summary,
      if property.Some? && property.value.name != "" then property.value.name else "Unknown",
      ticket.unit,
      ticket.tenantName,
      AgeOf(now, ticket.createdAt),
      StatusLabelFor(ticket.status.Name()),
      UrgencyStyleFor(ticket.urgency.Name()).border,
      IsActionNeeded(ticket.status))
  }

  /** A ticket of a listed property shows that property's name. */
  lemma CardShowsListedProperty(ticket: Ticket, now: int, i: nat)
    requires i < |Store.PROPERTIES| && ticket.propertyId == Store.PROPERTIES[i].id
    ensures CardOf(ticket, now).place == Store.PROPERTIES[i].name
  {
    Store.FindListedProperty(i);
  }
}
