/** The landlord's dashboard: the tickets fetched from the server, narrowed to the selected
    property and split into open and completed lists. The request is described by
    `FetchOutcome`; the 5-second polling is the repeated call of `FetchTickets`. */
module Dashboard {
  import opened Types
  import Store
  import PropertySidebar

  /** How one `fetch('/api/tickets')` ends: it throws, the status is not ok, or the body
      parses to a ticket list. */
  datatype FetchOutcome = FetchFailed | FetchNotOk | FetchOk(data: seq<Ticket>)

  /** What the main pane shows. */
  datatype Pane = LoadingPane | EmptyPane | ListsPane(active: seq<Ticket>, completed: seq<Ticket>)

  /** Whether a selection narrows the list: a missing or empty id selects everything. */
  predicate Selects(selected: Option<string>) {
    selected.Some? && selected.value != ""
  }

  /** The tickets of the selected property, or all of them. */
  function Filtered(tickets: seq<Ticket>, selected: Option<string>): (r: seq<Ticket>)
    ensures |r| <= |tickets|
    ensures forall t :: t in r <==> t in tickets && (Selects(selected) ==> t.propertyId == selected.value)
    decreases |tickets|
  {
    if tickets == [] then []
    else
      var rest := Filtered(tickets[1..], selected);
      assert forall t :: t in tickets <==> t == tickets[0] || t in tickets[1..];
      if !Selects(selected) || tickets[0].propertyId == selected.value then [tickets[0]] + rest else rest
  }

  /** The tickets that are not complete, in order. */
  function ActiveTickets(tickets: seq<Ticket>): (r: seq<Ticket>)
    ensures forall t :: t in r <==> t in tickets && t.status != Complete
    decreases |tickets|
  {
    if tickets == [] then []
    else
      var rest := ActiveTickets(tickets[1..]);
      assert forall t :: t in tickets <==> t == tickets[0] || t in tickets[1..];
      if tickets[0].status != Complete then [tickets[0]] + rest else rest
  }

  /** The completed tickets, in order. */
  function CompletedTickets(tickets: seq<Ticket>): (r: seq<Ticket>)
    ensures forall t :: t in r <==> t in tickets && t.status == Complete
    decreases |tickets|
  {
    if tickets == [] then []
    else
      var rest := CompletedTickets(tickets[1..]);
      assert forall t :: t in tickets <==> t == tickets[0] || t in tickets[1..];
      if tickets[0].status == Complete then [tickets[0]] + rest else rest
  }

  /** Without a selection nothing is filtered out. */
  lemma {:induction false} NoSelectionShowsAll(tickets: seq<Ticket>, selected: Option<string>)
    requires !Selects(selected)
    ensures Filtered(tickets, selected) == tickets
    decreases |tickets|
  {
    if tickets != [] {
      NoSelectionShowsAll(tickets[1..], selected);
      assert tickets == [tickets[0]] + tickets[1..];
    }
  }

  /** The property filter keeps the order: filtering a concatenation filters each part. */
  lemma {:induction false} FilteredDistributes(a: seq<Ticket>, b: seq<Ticket>, selected: Option<string>)
    ensures Filtered(a + b, selected) == Filtered(a, selected) + Filtered(b, selected)
    decreases |a|
  {
    if a == [] {
      assert a + b == b;
    } else {
      assert (a + b)[0] == a[0] && (a + b)[1..] == a[1..] + b;
      FilteredDistributes(a[1..], b, selected);
    }
  }

  /** The open-ticket filter keeps the order too. */
  lemma {:induction false} ActiveDistributes(a: seq<Ticket>, b: seq<Ticket>)
    ensures ActiveTickets(a + b) == ActiveTickets(a) + ActiveTickets(b)
    decreases |a|
  {
    if a == [] {
      assert a + b == b;
    } else {
      assert (a + b)[0] == a[0] && (a + b)[1..] == a[1..] + b;
      ActiveDistributes(a[1..], b);
    }
  }

  /** And so does the completed-ticket filter. */
  lemma {:induction false} CompletedDistributes(a: seq<Ticket>, b: seq<Ticket>)
    ensures CompletedTickets(a + b) == CompletedTickets(a) + CompletedTickets(b)
    decreases |a|
  {
    if a == [] {
      assert a + b == b;
    } else {
      assert (a + b)[0] == a[0] && (a + b)[1..] == a[1..] + b;
      CompletedDistributes(a[1..], b);
    }
  }

  /** The open and the completed lists split the filtered tickets: no ticket is lost or
      shown twice. */
  lemma {:induction false} ListsPartition(tickets: seq<Ticket>)
    ensures multiset(ActiveTickets(tickets)) + multiset(CompletedTickets(tickets)) == multiset(tickets)
    ensures |ActiveTickets(tickets)| + |CompletedTickets(tickets)| == |tickets|
    decreases |tickets|
  {
    if tickets != [] {
      ListsPartition(tickets[1..]);
      assert tickets == [tickets[0]] + tickets[1..];
    }
  }

  /** The open-ticket count in the header agrees with the sidebar's badges: the selected
      property's badge, or the total badge when nothing is selected. */
  lemma {:induction false} HeaderCountMatchesSidebar(tickets: seq<Ticket>, selected: Option<string>)
    ensures Selects(selected) ==>
      |ActiveTickets(Filtered(tickets, selected))| == PropertySidebar.ActiveCount(tickets, selected.value)
    ensures !Selects(selected) ==>
      |ActiveTickets(Filtered(tickets, selected))| == PropertySidebar.TotalActive(tickets)
    decreases |tickets|
  {
    if tickets != [] {
      HeaderCountMatchesSidebar(tickets[1..], selected);
    }
  }

  /** The noun after the count: singular exactly for one ticket. */
  function TicketNoun(n: nat): (r: string)
    ensures r == "ticket" <==> n == 1
    ensures n != 1 ==> r == "tickets"
  {
    if n == 1 then "ticket" else "tickets"
  }

  /** The selected property's name in the header, if the property is listed. */
  function PropertyName(selected: Option<string>): (r: Option<string>)
    ensures r.Some? ==> Selects(selected) && exists p :: p in Store.PROPERTIES && p.id == selected.value && p.name == r.value
    ensures Selects(selected) && (exists p :: p in Store.PROPERTIES && p.id == selected.value) ==> r.Some?
  {
    if !Selects(selected) then None
    else
      match Store.FindProperty(Store.PROPERTIES, selected.value)
      case Some(p) => Some(p.name)
      case None => None
  }

  /** Selecting a listed property names it in the header. */
  lemma PropertyNamesFound(i: nat)
    requires i < |Store.PROPERTIES|
    ensures PropertyName(Some(Store.PROPERTIES[i].id)) == Some(Store.PROPERTIES[i].name)
  {
    Store.FindListedProperty(i);
  }

  /** The main pane: placeholders while loading, the empty message when the selection has
      no ticket at all, and otherwise the two lists. */
  function PaneOf(loading: bool, tickets: seq<Ticket>, selected: Option<string>): (r: Pane)
    ensures r == LoadingPane <==> loading
    ensures r.ListsPane? ==>
      && multiset(r.active) + multiset(r.completed) == multiset(Filtered(tickets, selected))
      && (forall t :: t in r.active ==> t.status != Complete)
      && (forall t :: t in r.completed ==> t.status == Complete)
    ensures r.ListsPane? ==>
      && r.active == ActiveTickets(Filtered(tickets, selected))
      && r.completed == CompletedTickets(Filtered(tickets, selected))
  {
    var filtered := Filtered(tickets, selected);
    var active := ActiveTickets(filtered);
    var completed := CompletedTickets(filtered);
    ListsPartition(filtered);
    if loading then LoadingPane
    else if |active| == 0 && |completed| == 0 then EmptyPane
    else ListsPane(active, completed)
  }

  /** Once loaded, the empty message shows exactly when the selection has no ticket. */
  lemma EmptyPaneIff(tickets: seq<Ticket>, selected: Option<string>)
    ensures PaneOf(false, tickets, selected) == EmptyPane <==> Filtered(tickets, selected) == []
  {
    ListsPartition(Filtered(tickets, selected));
  }

  /** The dashboard's state. */
  class Page {
    var tickets: seq<Ticket>
    var selectedPropertyId: Option<string>
    var loading: bool

    constructor ()
      ensures tickets == [] && selectedPropertyId == None && loading
    {
      tickets, selectedPropertyId, loading := [], None, true;
    }

    /** `fetchTickets`: the list is replaced only by a successful response; loading ends
        whatever happens. */
    method FetchTickets(outcome: FetchOutcome)
      modifies this
      ensures tickets == (if outcome.FetchOk? then outcome.data else old(tickets))
      ensures selectedPropertyId == old(selectedPropertyId) && !loading
    {
      match outcome {
        case FetchOk(data) => tickets := data;
        case _ =>
      }
      loading := false;
    }

    /** The sidebar's `onSelect`. */
    method Select(propertyId: Option<string>)
      modifies this
      ensures selectedPropertyId == propertyId
      ensures tickets == old(tickets) && loading == old(loading)
    {
      selectedPropertyId := propertyId;
    }
  }
}
