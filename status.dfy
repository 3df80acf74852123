/** The status lifecycle list and the per-status display configuration. */
module Status {
  import opened Types

  datatype StatusConfig = StatusConfig(labelText: string, color: string, dotColor: string)

  /** The configuration table, keyed by the status's wire name. */
  const STATUS_CONFIG: map<string, StatusConfig> := map[
    "new" := StatusConfig("New", "bg-gray-100 text-gray-800", "bg-gray-400"),
    "gathering_info" := StatusConfig("Gathering info", "bg-blue-100 text-blue-800", "bg-blue-400"),
    "triaged" := StatusConfig("Triaged", "bg-blue-100 text-blue-800", "bg-blue-400"),
    "finding_vendors" := StatusConfig("Finding vendors", "bg-purple-100 text-purple-800", "bg-purple-400"),
    "awaiting_approval" := StatusConfig("Action needed", "bg-amber-100 text-amber-800", "bg-amber-400"),
    "scheduled" := StatusConfig("Scheduled", "bg-green-100 text-green-800", "bg-green-400"),
    "complete" := StatusConfig("Complete", "bg-gray-100 text-gray-800", "bg-gray-400")
  ]

  /** The lifecycle in order. */
  const ALL_STATUSES: seq<TicketStatus> :=
    [New, GatheringInfo, Triaged, FindingVendors, AwaitingApproval, Scheduled, Complete]

  /** The table holds exactly one entry per status name, and no other key. */
  lemma StatusConfigKeys()
    ensures forall key :: key in STATUS_CONFIG <==> ParseStatus(key).Some?
    ensures forall s: TicketStatus :: s.Name() in STATUS_CONFIG
  {
    forall key ensures key in STATUS_CONFIG <==> ParseStatus(key).Some? {
      if ParseStatus(key).Some? {
        assert key == ParseStatus(key).value.Name();
      }
    }
  }

  /** The configuration of a status given by name; a name that is not in the table gets
      the configuration of `new`. */
  function GetStatusConfig(key: string): (c: StatusConfig)
    ensures c in STATUS_CONFIG.Values
  {
    if key in STATUS_CONFIG then STATUS_CONFIG[key] else STATUS_CONFIG["new"]
  }

  /** The lookup is total on the statuses and returns the table entry of each. */
  lemma GetStatusConfigOfStatus(s: TicketStatus)
    ensures s.Name() in STATUS_CONFIG && GetStatusConfig(s.Name()) == STATUS_CONFIG[s.Name()]
  {
    StatusConfigKeys();
  }

  /** A name that is not a status falls back to the `new` entry. */
  lemma GetStatusConfigFallback(key: string)
    requires ParseStatus(key).None?
    ensures GetStatusConfig(key) == GetStatusConfig(New.Name())
    ensures GetStatusConfig(key).labelText == "New"
  {
    StatusConfigKeys();
  }

  /** The configuration of a status, read through the lookup. */
  function ConfigOf(s: TicketStatus): StatusConfig {
    GetStatusConfig(s.Name())
  }

  /** `awaiting_approval` is the one status labelled "Action needed". */
  lemma ActionNeededOnlyForAwaitingApproval(s: TicketStatus)
    ensures ConfigOf(s).labelText == "Action needed" <==> s == AwaitingApproval
  {
  }

  /** No two statuses share a label. */
  lemma StatusLabelsDistinct(s: TicketStatus, t: TicketStatus)
    requires ConfigOf(s).labelText == ConfigOf(t).labelText
    ensures s == t
  {
  }

  /** The position of a status in the lifecycle `new` .. `complete`. */
  function Rank(s: TicketStatus): nat {
    match s
    case New => 0
    case GatheringInfo => 1
    case Triaged => 2
    case FindingVendors => 3
    case AwaitingApproval => 4
    case Scheduled => 5
    case Complete => 6
  }

  /** The lifecycle list has the seven statuses in order, each exactly once. */
  lemma AllStatusesLifecycle()
    ensures |ALL_STATUSES| == 7
    ensures forall s: TicketStatus :: s in ALL_STATUSES
    ensures forall i, j :: 0 <= i < j < |ALL_STATUSES| ==> ALL_STATUSES[i] != ALL_STATUSES[j]
    ensures ALL_STATUSES[0] == New && ALL_STATUSES[6] == Complete
  {
    forall s: TicketStatus ensures s in ALL_STATUSES {
      assert ALL_STATUSES[Rank(s)] == s;
    }
  }

  /** The position of `x` in `s`, or -1 when absent: `Array.prototype.indexOf`. */
  function IndexOf<T(==)>(s: seq<T>, x: T): (r: int)
    ensures -1 <= r < |s|
    ensures r >= 0 ==> s[r] == x && x !in s[..r]
    ensures r == -1 <==> x !in s
  {
    if s == [] then -1
    else if s[0] == x then 0
    else
      var k := IndexOf(s[1..], x);
      if k == -1 then -1
      else
        assert s[..k + 1] == [s[0]] + s[1..][..k];
        k + 1
  }

  /** Looking a status up in the lifecycle list finds it at its rank. */
  lemma IndexOfAllStatuses(s: TicketStatus)
    ensures IndexOf(ALL_STATUSES, s) == Rank(s)
  {
    AllStatusesLifecycle();
    assert ALL_STATUSES[Rank(s)] == s;
  }
}
