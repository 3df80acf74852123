/** The landlord's property list: the number of open tickets per property and in total,
    and whether a property has an open emergency. */
module PropertySidebar {
  import opened Types

  /** A ticket that is not complete. */
  predicate IsActive(t: Ticket) {
    t.status != Complete
  }

  /** 1 when `t` is an open ticket of property `propId`, else 0. */
  function ActiveAt(t: Ticket, propId: string): nat {
    if t.propertyId == propId && IsActive(t) then 1 else 0
  }

  /** `activeCount(propId)`: the open tickets of one property. */
  function ActiveCount(tickets: seq<Ticket>, propId: string): (r: nat)
    ensures r <= |tickets|
    ensures r == |tickets| ==> forall i :: 0 <= i < |tickets| ==> tickets[i].propertyId == propId && IsActive(tickets[i])
    decreases |tickets|
  {
    if tickets == [] then 0 else ActiveAt(tickets[0], propId) + ActiveCount(tickets[1..], propId)
  }

  /** `totalActive`: the open tickets of all properties. */
  function TotalActive(tickets: seq<Ticket>): (r: nat)
    ensures r <= |tickets|
    ensures r == |tickets| <==> forall i :: 0 <= i < |tickets| ==> IsActive(tickets[i])
    decreases |tickets|
  {
    if tickets == [] then 0 else (if IsActive(tickets[0]) then 1 else 0) + TotalActive(tickets[1..])
  }

  /** An open emergency of property `propId`. */
  predicate UrgentAt(t: Ticket, propId: string) {
    t.propertyId == propId && t.urgency == Emergency && IsActive(t)
  }

  /** `hasUrgent(propId)`, scanning the list as `some` does: some open ticket of the
      property is an emergency. */
  predicate HasUrgent(tickets: seq<Ticket>, propId: string)
    ensures HasUrgent(tickets, propId) <==> exists i :: 0 <= i < |tickets| && UrgentAt(tickets[i], propId)
    decreases |tickets|
  {
    if tickets == [] then false
    else
      assert forall i :: 1 <= i < |tickets| ==> tickets[i] == tickets[1..][i - 1];
      UrgentAt(tickets[0], propId) || HasUrgent(tickets[1..], propId)
  }

  /** The count badge: shown, with the count, only when the count is positive. */
  function Badge(count: nat): (r: Option<nat>)
    ensures r.Some? <==> count > 0
    ensures r.Some? ==> r.value == count
  {
    if count > 0 then Some(count) else None
  }

  /** The property has a badge exactly when it has an open ticket. */
  lemma BadgeIffOpenTicket(tickets: seq<Ticket>, propId: string)
    ensures Badge(ActiveCount(tickets, propId)).Some? <==>
      exists i :: 0 <= i < |tickets| && tickets[i].propertyId == propId && IsActive(tickets[i])
  {
    ActiveCountPositive(tickets, propId);
  }

  /** A property's count is positive exactly when it has an open ticket. */
  lemma {:induction false} ActiveCountPositive(tickets: seq<Ticket>, propId: string)
    ensures ActiveCount(tickets, propId) > 0 <==>
      exists i :: 0 <= i < |tickets| && tickets[i].propertyId == propId && IsActive(tickets[i])
    decreases |tickets|
  {
    if tickets != [] {
      ActiveCountPositive(tickets[1..], propId);
      if ActiveCount(tickets[1..], propId) > 0 {
        var i :| 0 <= i < |tickets[1..]| && tickets[1..][i].propertyId == propId && IsActive(tickets[1..][i]);
        assert tickets[i + 1] == tickets[1..][i];
      }
      forall i | 1 <= i < |tickets| && tickets[i].propertyId == propId && IsActive(tickets[i])
        ensures ActiveCount(tickets[1..], propId) > 0
      {
        assert tickets[1..][i - 1] == tickets[i];
      }
    }
  }

  /** A property with an open emergency has a positive count, so its badge shows. */
  lemma UrgentIsCounted(tickets: seq<Ticket>, propId: string)
    requires HasUrgent(tickets, propId)
    ensures ActiveCount(tickets, propId) >= 1
  {
    ActiveCountPositive(tickets, propId);
  }

  /** One property never has more open tickets than all properties together. */
  lemma {:induction false} ActiveCountAtMostTotal(tickets: seq<Ticket>, propId: string)
    ensures ActiveCount(tickets, propId) <= TotalActive(tickets)
    decreases |tickets|
  {
    if tickets != [] {
      ActiveCountAtMostTotal(tickets[1..], propId);
    }
  }

  /** Counting a concatenation counts each part. */
  lemma {:induction false} ActiveCountAppend(a: seq<Ticket>, b: seq<Ticket>, propId: string)
    ensures ActiveCount(a + b, propId) == ActiveCount(a, propId) + ActiveCount(b, propId)
    ensures TotalActive(a + b) == TotalActive(a) + TotalActive(b)
    decreases |a|
  {
    if a == [] {
      assert a + b == b;
    } else {
      assert (a + b)[0] == a[0] && (a + b)[1..] == a[1..] + b;
      ActiveCountAppend(a[1..], b, propId);
    }
  }

  /** A completed ticket changes no count and no urgency flag. */
  lemma CompletedTicketIgnored(tickets: seq<Ticket>, t: Ticket, propId: string)
    requires t.status == Complete
    ensures ActiveCount(tickets + [t], propId) == ActiveCount(tickets, propId)
    ensures TotalActive(tickets + [t]) == TotalActive(tickets)
    ensures HasUrgent(tickets + [t], propId) == HasUrgent(tickets, propId)
  {
    ActiveCountAppend(tickets, [t], propId);
    assert [t][1..] == [];
    if HasUrgent(tickets + [t], propId) {
      var i :| 0 <= i < |tickets + [t]| && (tickets + [t])[i].propertyId == propId
               && (tickets + [t])[i].urgency == Emergency && IsActive((tickets + [t])[i]);
      assert i < |tickets| && (tickets + [t])[i] == tickets[i];
    }
    if HasUrgent(tickets, propId) {
      var i :| 0 <= i < |tickets| && tickets[i].propertyId == propId
               && tickets[i].urgency == Emergency && IsActive(tickets[i]);
      assert (tickets + [t])[i] == tickets[i];
    }
  }

  /** The per-property counts of the listed properties, added up. */
  function SumCounts(tickets: seq<Ticket>, ids: seq<string>): nat
    decreases |ids|
  {
    if ids == [] then 0 else ActiveCount(tickets, ids[0]) + SumCounts(tickets, ids[1..])
  }

  /** How many times `x` occurs in `ids`. */
  function Occurrences(ids: seq<string>, x: string): nat
    decreases |ids|
  {
    if ids == [] then 0 else (if ids[0] == x then 1 else 0) + Occurrences(ids[1..], x)
  }

  predicate Distinct(ids: seq<string>) {
    forall i, j :: 0 <= i < j < |ids| ==> ids[i] != ids[j]
  }

  lemma {:induction false} OccurrencesDistinct(ids: seq<string>, x: string)
    requires Distinct(ids)
    ensures Occurrences(ids, x) == if x in ids then 1 else 0
    decreases |ids|
  {
    if ids != [] {
      assert Distinct(ids[1..]) by {
        forall i, j | 0 <= i < j < |ids[1..]| ensures ids[1..][i] != ids[1..][j] {
          assert ids[1..][i] == ids[i + 1] && ids[1..][j] == ids[j + 1];
        }
      }
      OccurrencesDistinct(ids[1..], x);
      if ids[0] == x {
        assert x !in ids[1..] by {
          forall k | 0 <= k < |ids[1..]| ensures ids[1..][k] != x {
            assert ids[1..][k] == ids[k + 1];
          }
        }
      }
      assert x in ids <==> ids[0] == x || x in ids[1..];
    }
  }

  /** Adding one ticket in front adds, over the listed properties, one per listing of the
      ticket's property when the ticket is open. */
  lemma {:induction false} SumCountsCons(t: Ticket, rest: seq<Ticket>, ids: seq<string>)
    ensures SumCounts([t] + rest, ids)
         == SumCounts(rest, ids) + (if IsActive(t) then Occurrences(ids, t.propertyId) else 0)
    decreases |ids|
  {
    assert ([t] + rest)[0] == t && ([t] + rest)[1..] == rest;
    if ids != [] {
      SumCountsCons(t, rest, ids[1..]);
    }
  }

  /** Over a list of distinct properties the badges add up to at most the total badge, and
      to exactly the total when every open ticket belongs to a listed property. */
  lemma {:induction false} SumCountsAtMostTotal(tickets: seq<Ticket>, ids: seq<string>)
    requires Distinct(ids)
    ensures SumCounts(tickets, ids) <= TotalActive(tickets)
    ensures (forall i :: 0 <= i < |tickets| && IsActive(tickets[i]) ==> tickets[i].propertyId in ids)
            ==> SumCounts(tickets, ids) == TotalActive(tickets)
    decreases |tickets|
  {
    if tickets == [] {
      SumCountsOfEmpty(ids);
    } else {
      var t, rest := tickets[0], tickets[1..];
      assert tickets == [t] + rest;
      SumCountsCons(t, rest, ids);
      OccurrencesDistinct(ids, t.propertyId);
      SumCountsAtMostTotal(rest, ids);
      if forall i :: 0 <= i < |tickets| && IsActive(tickets[i]) ==> tickets[i].propertyId in ids {
        forall i | 0 <= i < |rest| && IsActive(rest[i]) ensures rest[i].propertyId in ids {
          assert rest[i] == tickets[i + 1];
        }
      }
    }
  }

  lemma {:induction false} SumCountsOfEmpty(ids: seq<string>)
    ensures SumCounts([], ids) == 0
    decreases |ids|
  {
    if ids != [] {
      SumCountsOfEmpty(ids[1..]);
    }
  }
}
