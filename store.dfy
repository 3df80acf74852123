/** The in-memory ticket store: the property and tenant tables, and the process-wide
    ticket map that is created and seeded once, the first time the module is evaluated. */
module Store {
  import opened Types

  const PROPERTIES: seq<Property> := [
    Property("prop-1", "123 Oak St", "123 Oak Street", "Portland", "OR", "97201", "portland-oak-st"),
    Property("prop-2", "456 Maple Ave", "456 Maple Avenue", "Austin", "TX", "78701", "austin-maple-ave"),
    Property("prop-3", "789 Pine Rd", "789 Pine Road", "Chicago", "IL", "60601", "chicago-pine-rd")
  ]

  const TENANTS: seq<Tenant> := [
    Tenant("tenant-1", "Maria Lopez", "2B", "prop-1"),
    Tenant("tenant-2", "James Kim", "3C", "prop-3")
  ]

  /** Every tenant lives at a listed property, and property ids and slugs are unique. */
  lemma SeedTablesConsistent()
    ensures forall t :: t in TENANTS ==> exists p :: p in PROPERTIES && p.id == t.propertyId
    ensures forall i, j :: 0 <= i < j < |PROPERTIES| ==>
      PROPERTIES[i].id != PROPERTIES[j].id && PROPERTIES[i].slug != PROPERTIES[j].slug
  {
    assert PROPERTIES[0].id == TENANTS[0].propertyId;
    assert PROPERTIES[2].id == TENANTS[1].propertyId;
  }

  /** `properties.find(p => p.id === id)`: the first property with that id, or None. */
  function FindProperty(properties: seq<Property>, id: string): (r: Option<Property>)
    ensures r.None? <==> forall i :: 0 <= i < |properties| ==> properties[i].id != id
    ensures r.Some? ==>
      exists i :: && 0 <= i < |properties| && properties[i] == r.value && r.value.id == id
                  && forall j :: 0 <= j < i ==> properties[j].id != id
    decreases |properties|
  {
    if properties == [] then None
    else if properties[0].id == id then Some(properties[0])
    else
      var r := FindProperty(properties[1..], id);
      assert forall i :: 1 <= i < |properties| ==> properties[i] == properties[1..][i - 1];
      r
  }

  /** Every listed property is found under its own id. */
  lemma FindListedProperty(i: nat)
    requires i < |PROPERTIES|
    ensures FindProperty(PROPERTIES, PROPERTIES[i].id) == Some(PROPERTIES[i])
  {
    SeedTablesConsistent();
  }

  const MINUTE: int := 60 * 1000
  const DAY: int := 24 * 60 * MINUTE

  /** The completed ticket seeded so that the dashboard is not empty. */
  function SeedTicket(now: int): Ticket {
    Ticket(
      "ticket-seed-1", "prop-2", "tenant-seed", "Derek Walsh", "1B", Hvac, Low,
      "AC filter replacement requested",
      "Can someone replace the AC filter? It looks really dirty.",
      Complete, [], [], None, None,
      now - 3 * DAY, now - 1 * DAY)
  }

  /** The walkthrough ticket, waiting for the landlord's approval. */
  function DemoTicket(now: int): Ticket {
    Ticket(
      "demo-ticket-1", "prop-1", "tenant-1", "Maria Lopez", "2B", Plumbing, Medium,
      "Kitchen sink leaking under cabinet. Water dripping, bucket in place.",
      "My kitchen sink is leaking under the cabinet. Water is pooling.",
      AwaitingApproval,
      [
        Message(TenantRole, "My kitchen sink is leaking under the cabinet. Water is pooling.", now - 25 * MINUTE),
        Message(Ai, "I'm sorry to hear that. Is water actively dripping right now, or has it pooled and stopped?", now - 24 * MINUTE),
        Message(TenantRole, "It's still dripping slowly. I put a bucket under it.", now - 22 * MINUTE),
        Message(Ai, "Got it — I've created a repair ticket and found 3 plumbers available nearby. Your landlord is reviewing the options now.", now - 21 * MINUTE)
      ],
      [
        Vendor("v1", "Mike's Plumbing", 48, 127, 8, 150, 250,
          ["Tomorrow 9–11am", "Tomorrow 2–4pm", "Wednesday 10am–12pm"], "(503) 555-0101"),
        Vendor("v2", "Fast Fix Plumbing", 45, 89, 14, 180, 300,
          ["Tomorrow 1–3pm", "Thursday 9–11am"], "(503) 555-0202"),
        Vendor("v3", "Portland Pro Services", 43, 44, 21, 120, 200,
          ["Wednesday 2–4pm", "Friday 9–11am"], "(503) 555-0303")
      ],
      None, None,
      now - 25 * MINUTE, now - 21 * MINUTE)
  }

  /** The contents of the map right after seeding. */
  function SeedEntries(now: int): map<string, Ticket> {
    map["ticket-seed-1" := SeedTicket(now), "demo-ticket-1" := DemoTicket(now)]
  }

  /** A conversation that starts with the tenant, alternates speakers and never goes back
      in time. */
  predicate Alternating(msgs: seq<Message>) {
    && (|msgs| > 0 ==> msgs[0].role == TenantRole)
    && forall i :: 0 <= i < |msgs| - 1 ==>
         msgs[i].role != msgs[i + 1].role && msgs[i].timestamp <= msgs[i + 1].timestamp
  }

  /** A vendor whose cost range is ordered and whose rating is between 0 and 5. */
  predicate VendorWellFormed(v: Vendor) {
    v.estimatedCostLow <= v.estimatedCostHigh && 0 <= v.ratingTenths <= 50
  }

  /** A ticket whose own fields are consistent. */
  predicate TicketWellFormed(t: Ticket) {
    && t.createdAt <= t.updatedAt
    && Alternating(t.messages)
    && (forall v :: v in t.vendors ==> VendorWellFormed(v))
    && (t.selectedVendor.Some? <==> t.selectedSlot.Some?)
  }

  /** The completed seed ticket is well formed and has no chosen vendor or slot. */
  lemma SeedTicketFacts(now: int)
    ensures SeedTicket(now).status == Complete
    ensures TicketWellFormed(SeedTicket(now))
    ensures SeedTicket(now).selectedVendor.None? && SeedTicket(now).selectedSlot.None?
    ensures PROPERTIES[1].id == SeedTicket(now).propertyId
  {
  }

  /** The demo ticket is well formed: its conversation alternates tenant and assistant in
      time order, its vendors have ordered cost ranges and ratings within 0 to 5. */
  lemma DemoTicketFacts(now: int)
    ensures DemoTicket(now).status == AwaitingApproval
    ensures TicketWellFormed(DemoTicket(now))
    ensures DemoTicket(now).selectedVendor.None? && DemoTicket(now).selectedSlot.None?
    ensures PROPERTIES[0].id == DemoTicket(now).propertyId
  {
    var demo := DemoTicket(now);
    var vs := demo.vendors;
    assert VendorWellFormed(vs[0]) && VendorWellFormed(vs[1]) && VendorWellFormed(vs[2]);
    assert forall v :: v in vs ==> v == vs[0] || v == vs[1] || v == vs[2];
    var ms := demo.messages;
    assert ms[0].role == TenantRole && ms[1].role == Ai && ms[2].role == TenantRole && ms[3].role == Ai;
  }

  /** What seeding stores: exactly two tickets, each under its own id, both well formed,
      neither with a chosen vendor or slot, each at a listed property. */
  lemma SeedEntriesFacts(now: int)
    ensures SeedEntries(now).Keys == {"ticket-seed-1", "demo-ticket-1"}
    ensures SeedEntries(now)["ticket-seed-1"] == SeedTicket(now)
    ensures SeedEntries(now)["demo-ticket-1"] == DemoTicket(now)
    ensures forall k :: k in SeedEntries(now) ==> SeedEntries(now)[k].id == k
    ensures forall k :: k in SeedEntries(now) ==> TicketWellFormed(SeedEntries(now)[k])
    ensures forall k :: k in SeedEntries(now) ==>
      SeedEntries(now)[k].selectedVendor.None? && SeedEntries(now)[k].selectedSlot.None?
    ensures forall k :: k in SeedEntries(now) ==>
      exists p :: p in PROPERTIES && p.id == SeedEntries(now)[k].propertyId
  {
    SeedTicketFacts(now);
    DemoTicketFacts(now);
  }

  /** A JavaScript `Map<string, Ticket>`: a mutable key/value table. */
  class TicketMap {
    var entries: map<string, Ticket>

    constructor ()
      ensures entries == map[]
    {
      entries := map[];
    }

    /** `set(key, ticket)`: adds or replaces one entry and leaves the others alone. */
    method Set(key: string, ticket: Ticket)
      modifies this
      ensures entries == old(entries)[key := ticket]
      ensures entries.Keys == old(entries).Keys + {key}
    {
      entries := entries[key := ticket];
    }
  }

  /** The global object on which the ticket map is parked, so that it survives the module
      being evaluated again. */
  class GlobalScope {
    var tickets: TicketMap?

    constructor ()
      ensures tickets == null
    {
      tickets := null;
    }
  }

  /** Evaluating the store module at time `now`: the map is created and seeded only when
      the global has none; an existing map is returned as it is, neither reset nor
      re-seeded. The result is the exported `tickets`. */
  method EvaluateStore(global: GlobalScope, now: int) returns (tickets: TicketMap)
    modifies global
    ensures global.tickets == tickets
    ensures old(global.tickets) != null ==>
      tickets == old(global.tickets) && tickets.entries == old(global.tickets.entries)
    ensures old(global.tickets) == null ==> fresh(tickets) && tickets.entries == SeedEntries(now)
  {
    if global.tickets == null {
      var m := new TicketMap();
      global.tickets := m;
      m.Set("ticket-seed-1", SeedTicket(now));
      m.Set("demo-ticket-1", DemoTicket(now));
    }
    tickets := global.tickets;
  }
}
