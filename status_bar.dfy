/** The six-step progress bar: each step groups one or more statuses and is shown as
    complete, current or future relative to the ticket's status. */
module StatusBar {
  import opened Types
  import Status

  /** The statuses a step groups: never none. */
  type StepKeys = keys: seq<TicketStatus> | |keys| > 0 witness [New]

  datatype Step = Step(keys: StepKeys, caption: string)

  datatype StepState = StepComplete | StepCurrent | StepFuture
  {
    /** How far along a step is: future < current < complete. */
    function Progress(): nat {
      match this
      case StepFuture => 0
      case StepCurrent => 1
      case StepComplete => 2
    }
  }

  const STEPS: seq<Step> := [
    Step([New, GatheringInfo], "Submitted"),
    Step([Triaged], "Triaged"),
    Step([FindingVendors], "Vendors found"),
    Step([AwaitingApproval], "Your approval"),
    Step([Scheduled], "Scheduled"),
    Step([Complete], "Complete")
  ]

  const STATUS_ORDER: seq<TicketStatus> :=
    [New, GatheringInfo, Triaged, FindingVendors, AwaitingApproval, Scheduled, Complete]

  /** The bar orders statuses exactly as the lifecycle list does. */
  lemma StatusOrderIsLifecycle()
    ensures STATUS_ORDER == Status.ALL_STATUSES
  {
  }

  /** `STATUS_ORDER.indexOf(status)` for a status given by name: -1 when the name is not
      a status. */
  function CurrentIndex(key: string): (r: int)
    ensures -1 <= r < |STATUS_ORDER|
    ensures r == -1 <==> ParseStatus(key).None?
  {
    match ParseStatus(key)
    case Some(s) => Status.IndexOf(STATUS_ORDER, s)
    case None => -1
  }

  /** The concatenation of the steps' key lists. */
  function Flatten(steps: seq<Step>): seq<TicketStatus> {
    if steps == [] then [] else steps[0].keys + Flatten(steps[1..])
  }

  /** The steps cut the status order into contiguous, in-order, non-empty groups. */
  lemma StepsPartitionStatusOrder()
    ensures Flatten(STEPS) == STATUS_ORDER
    ensures forall i :: 0 <= i < |STEPS| ==> |STEPS[i].keys| > 0
  {
    assert Flatten(STEPS[5..]) == [Complete];
    assert Flatten(STEPS[4..]) == [Scheduled, Complete];
    assert Flatten(STEPS[3..]) == [AwaitingApproval, Scheduled, Complete];
    assert Flatten(STEPS[2..]) == [FindingVendors, AwaitingApproval, Scheduled, Complete];
    assert Flatten(STEPS[1..]) == [Triaged, FindingVendors, AwaitingApproval, Scheduled, Complete];
  }

  /** `Math.max(...xs)` for a non-empty list. */
  function MaxOf(xs: seq<int>): (m: int)
    requires |xs| > 0
    ensures m in xs && forall k :: 0 <= k < |xs| ==> xs[k] <= m
  {
    if |xs| == 1 then xs[0]
    else
      var rest := MaxOf(xs[1..]);
      assert forall k :: 1 <= k < |xs| ==> xs[k] == xs[1..][k - 1];
      if xs[0] >= rest then xs[0] else rest
  }

  /** `Math.min(...xs)` for a non-empty list. */
  function MinOf(xs: seq<int>): (m: int)
    requires |xs| > 0
    ensures m in xs && forall k :: 0 <= k < |xs| ==> m <= xs[k]
  {
    if |xs| == 1 then xs[0]
    else
      var rest := MinOf(xs[1..]);
      assert forall k :: 1 <= k < |xs| ==> xs[k] == xs[1..][k - 1];
      if xs[0] <= rest then xs[0] else rest
  }

  /** The positions of a step's keys in the status order. */
  function KeyIndices(keys: seq<TicketStatus>): (r: seq<int>)
    ensures |r| == |keys|
  {
    seq(|keys|, k requires 0 <= k < |keys| => Status.IndexOf(STATUS_ORDER, keys[k]))
  }

  /** The state of one step for the ticket's position `currentIndex` in the status order. */
  function GetStepState(currentIndex: int, step: Step): StepState
  {
    var stepMaxIndex := MaxOf(KeyIndices(step.keys));
    var stepMinIndex := MinOf(KeyIndices(step.keys));
    if currentIndex > stepMaxIndex then StepComplete
    else if currentIndex >= stepMinIndex && currentIndex <= stepMaxIndex then StepCurrent
    else StepFuture
  }

  /** The step that a status belongs to: an independent statement of the grouping. */
  function StepOf(s: TicketStatus): nat {
    match s
    case New => 0
    case GatheringInfo => 0
    case Triaged => 1
    case FindingVendors => 2
    case AwaitingApproval => 3
    case Scheduled => 4
    case Complete => 5
  }

  /** Each step covers the ranks from its first to its last key. */
  lemma StepBounds(i: nat)
    requires i < |STEPS|
    ensures MinOf(KeyIndices(STEPS[i].keys)) == (if i == 0 then 0 else i + 1)
    ensures MaxOf(KeyIndices(STEPS[i].keys)) == i + 1
  {
    if i == 0 {
      FirstStepBounds();
      assert MinOf([0, 1]) == 0 && MaxOf([0, 1]) == 1;
    } else {
      LaterStepBounds(i);
    }
  }

  /** Every step after the first holds the one status of rank `i + 1`. */
  lemma LaterStepBounds(i: nat)
    requires 0 < i < |STEPS|
    ensures MinOf(KeyIndices(STEPS[i].keys)) == i + 1
    ensures MaxOf(KeyIndices(STEPS[i].keys)) == i + 1
  {
    if i == 1 {
      SingleKeyBounds(STEPS[1].keys, Triaged, 2);
    } else if i == 2 {
      SingleKeyBounds(STEPS[2].keys, FindingVendors, 3);
    } else if i == 3 {
      SingleKeyBounds(STEPS[3].keys, AwaitingApproval, 4);
    } else if i == 4 {
      SingleKeyBounds(STEPS[4].keys, Scheduled, 5);
    } else {
      SingleKeyBounds(STEPS[5].keys, Complete, 6);
    }
  }

  /** The first step groups ranks 0 and 1. */
  lemma FirstStepBounds()
    ensures KeyIndices(STEPS[0].keys) == [0, 1]
  {
    StatusOrderIsLifecycle();
    Status.IndexOfAllStatuses(New);
    Status.IndexOfAllStatuses(GatheringInfo);
  }

  /** A step whose only key has rank `r` covers exactly that rank. */
  lemma SingleKeyBounds(keys: StepKeys, s: TicketStatus, r: nat)
    requires keys == [s] && Status.Rank(s) == r
    ensures MinOf(KeyIndices(keys)) == r && MaxOf(KeyIndices(keys)) == r
  {
    StatusOrderIsLifecycle();
    Status.IndexOfAllStatuses(s);
    assert KeyIndices(keys) == [r];
  }

  /** The position of a known status in the bar's order is its lifecycle rank. */
  lemma CurrentIndexOfStatus(s: TicketStatus)
    ensures CurrentIndex(s.Name()) == Status.Rank(s)
  {
    StatusOrderIsLifecycle();
    Status.IndexOfAllStatuses(s);
  }

  /** For a known status, the steps before its own are complete, its own step is current
      and the steps after it are future. */
  lemma StepStateOfStatus(s: TicketStatus, i: nat)
    requires i < |STEPS|
    ensures GetStepState(CurrentIndex(s.Name()), STEPS[i]) ==
      if i < StepOf(s) then StepComplete
      else if i == StepOf(s) then StepCurrent
      else StepFuture
  {
    var c := CurrentIndex(s.Name());
    CurrentIndexOfStatus(s);
    StepBounds(i);
    StateWithinBounds(c, STEPS[i]);
    StepOfRank(s);
    RankAgainstStep(c, i, StepOf(s));
  }

  /** The first step holds ranks 0 and 1; every later step holds the one rank after it. */
  lemma StepOfRank(s: TicketStatus)
    ensures StepOf(s) == if Status.Rank(s) == 0 then 0 else Status.Rank(s) - 1
  {
  }

  /** The step state read off the step's lowest and highest rank. */
  lemma StateWithinBounds(c: int, step: Step)
    ensures var ks := KeyIndices(step.keys);
      GetStepState(c, step) ==
        if c > MaxOf(ks) then StepComplete else if c >= MinOf(ks) then StepCurrent else StepFuture
  {
  }

  /** Rank `c` against the bounds of step `i`, for the step `k` that rank belongs to. */
  lemma RankAgainstStep(c: int, i: nat, k: nat)
    requires k == if c == 0 then 0 else c - 1
    ensures c > i + 1 <==> i < k
    ensures (c >= (if i == 0 then 0 else i + 1) && c <= i + 1) <==> i == k
  {
  }

  /** For a known status exactly one step is current. */
  lemma ExactlyOneCurrentStep(s: TicketStatus)
    ensures (set i | 0 <= i < |STEPS| && GetStepState(CurrentIndex(s.Name()), STEPS[i]) == StepCurrent)
            == {StepOf(s)}
  {
    forall i | 0 <= i < |STEPS| {
      StepStateOfStatus(s, i);
    }
    assert StepOf(s) < |STEPS|;
  }

  /** `new` and `gathering_info` both make "Submitted" the current step. */
  lemma SubmittedIsCurrentEarly(s: TicketStatus)
    requires s == New || s == GatheringInfo
    ensures STEPS[0].caption == "Submitted"
    ensures GetStepState(CurrentIndex(s.Name()), STEPS[0]) == StepCurrent
  {
    StepStateOfStatus(s, 0);
  }

  /** A later position never moves a step back: the step state is monotone. */
  lemma StepStateMonotone(c1: int, c2: int, step: Step)
    requires c1 <= c2
    ensures GetStepState(c1, step).Progress() <= GetStepState(c2, step).Progress()
  {
  }

  /** An unknown status (index -1) leaves every step in the future. */
  lemma UnknownStatusAllFuture(key: string, i: nat)
    requires ParseStatus(key).None?
    requires i < |STEPS|
    ensures GetStepState(CurrentIndex(key), STEPS[i]) == StepFuture
  {
    StepBounds(i);
  }
}
