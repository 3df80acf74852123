/** The demo bar: steps the demo ticket through the lifecycle, one PATCH request per step.
    A change runs in two parts, split at the request: `BeginChange` checks the target and
    marks the bar busy, `FinishChange` applies the request's outcome. */
module DemoControls {
  import opened Types
  import Status

  const DEMO_TICKET_ID: string := "demo-ticket-1"

  /** The bar is shown only when the query parameter `demo` is exactly "true". */
  predicate IsDemo(demoParam: Option<string>) {
    demoParam == Some("true")
  }

  /** How the PATCH request ends: it throws, the status is not ok, or it succeeds. */
  datatype PatchOutcome = PatchFailed | PatchNotOk | PatchOk

  /** Whether `changeStatus(newIndex)` goes ahead: the index names a status and no change
      is in flight. */
  predicate Accepts(newIndex: int, updating: bool) {
    0 <= newIndex < |Status.ALL_STATUSES| && !updating
  }

  predicate PrevDisabled(currentIndex: int, updating: bool) {
    currentIndex == 0 || updating
  }

  predicate NextDisabled(currentIndex: int, updating: bool) {
    currentIndex == |Status.ALL_STATUSES| - 1 || updating
  }

  /** The arrows are enabled exactly when the change they ask for would go ahead. */
  lemma ArrowsMatchGuard(currentIndex: int, updating: bool)
    requires 0 <= currentIndex < |Status.ALL_STATUSES|
    ensures !PrevDisabled(currentIndex, updating) <==> Accepts(currentIndex - 1, updating)
    ensures !NextDisabled(currentIndex, updating) <==> Accepts(currentIndex + 1, updating)
  {
  }

  /** How a dot on the status track looks. */
  datatype Dot = CurrentDot(color: string) | PastDot(color: string) | UpcomingDot

  /** The dot for status `i`: ringed in its colour when current, in its colour when
      passed, grey otherwise. */
  function DotAt(i: nat, currentIndex: int): (d: Dot)
    requires i < |Status.ALL_STATUSES|
    ensures d.CurrentDot? <==> i == currentIndex
    ensures d.PastDot? <==> i < currentIndex
    ensures !d.UpcomingDot? ==> d.color == Status.ConfigOf(Status.ALL_STATUSES[i]).dotColor
  {
    var sc := Status.ConfigOf(Status.ALL_STATUSES[i]);
    if i == currentIndex then CurrentDot(sc.dotColor)
    else if i < currentIndex then PastDot(sc.dotColor)
    else UpcomingDot
  }

  /** For a valid index exactly one dot is current. */
  lemma ExactlyOneCurrentDot(currentIndex: nat)
    requires currentIndex < |Status.ALL_STATUSES|
    ensures (set i | 0 <= i < |Status.ALL_STATUSES| && DotAt(i, currentIndex).CurrentDot?) == {currentIndex}
  {
  }

  /** The bar's state. */
  class Controls {
    var currentIndex: int
    var updating: bool

    /** The index names a status. */
    predicate Valid()
      reads this
    {
      0 <= currentIndex < |Status.ALL_STATUSES|
    }

    /** The bar starts at `awaiting_approval`, where the demo ticket is seeded. */
    constructor ()
      ensures Valid() && !updating
      ensures Status.ALL_STATUSES[currentIndex] == AwaitingApproval
      ensures currentIndex == Status.IndexOf(Status.ALL_STATUSES, AwaitingApproval)
    {
      Status.IndexOfAllStatuses(AwaitingApproval);
      currentIndex := Status.IndexOf(Status.ALL_STATUSES, AwaitingApproval);
      updating := false;
    }

    /** The status shown on the badge. */
    function CurrentStatus(): TicketStatus
      reads this
      requires Valid()
    {
      Status.ALL_STATUSES[currentIndex]
    }

    /** The first part of `changeStatus(newIndex)`: an out-of-range index or a change in
        flight does nothing; otherwise the bar becomes busy and the status to PATCH is
        returned. */
    method BeginChange(newIndex: int) returns (request: Option<TicketStatus>)
      modifies this
      ensures currentIndex == old(currentIndex)
      ensures request.Some? <==> Accepts(newIndex, old(updating))
      ensures request.Some? ==> request.value == Status.ALL_STATUSES[newIndex] && updating
      ensures request.None? ==> updating == old(updating)
    {
      if newIndex < 0 || newIndex >= |Status.ALL_STATUSES| || updating {
        return None;
      }
      updating := true;
      request := Some(Status.ALL_STATUSES[newIndex]);
    }

    /** The second part: a successful request moves the bar to `newIndex` and reports the
        new status to `onStatusChange`; any other outcome leaves the index; the bar is no
        longer busy either way. */
    method FinishChange(newIndex: int, outcome: PatchOutcome) returns (notify: Option<TicketStatus>)
      requires Valid() && updating && 0 <= newIndex < |Status.ALL_STATUSES|
      modifies this
      ensures Valid() && !updating
      ensures currentIndex == (if outcome.PatchOk? then newIndex else old(currentIndex))
      ensures notify == (if outcome.PatchOk? then Some(Status.ALL_STATUSES[newIndex]) else None)
    {
      if outcome.PatchOk? {
        currentIndex := newIndex;
        notify := Some(Status.ALL_STATUSES[newIndex]);
      } else {
        notify := None;
      }
      updating := false;
    }
  }
}
