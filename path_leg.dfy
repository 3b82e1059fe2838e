/**
 * The legs of a Raptor path: a singly linked chain that starts with an access
 * leg, continues with transit legs (possibly joined by one transfer leg) and
 * ends with an egress leg. The type parameter T is the trip schedule type.
 */
module PathLegs {
  import opened Wrappers
  import Decimal

  /** A walk (or other street) connection to or from a stop. */
  datatype RaptorTransfer = RaptorTransfer(stop: int, durationInSeconds: int)

  /**
   * One leg of the chain. The egress leg has no `next`, so the chain is always
   * finite and always ends at an egress leg.
   */
  datatype PathLeg<T> =
    | AccessLeg(access: RaptorTransfer, toStopIndex: int, fromTime: int, toTime: int,
                generalizedCost: int, next: PathLeg<T>)
    | TransitLeg(fromStopIndex: int, fromTime: int, toStopIndex: int, toTime: int,
                 generalizedCost: int, trip: T, next: PathLeg<T>)
    | TransferLeg(fromStopIndex: int, fromTime: int, toStopIndex: int, toTime: int,
                  generalizedCost: int, transfer: RaptorTransfer, next: PathLeg<T>)
    | EgressLeg(egress: RaptorTransfer, fromStopIndex: int, fromTime: int, toTime: int,
                generalizedCost: int)

  predicate IsAccessLeg<T>(l: PathLeg<T>) { l.AccessLeg? }
  predicate IsTransitLeg<T>(l: PathLeg<T>) { l.TransitLeg? }
  predicate IsTransferLeg<T>(l: PathLeg<T>) { l.TransferLeg? }
  predicate IsEgressLeg<T>(l: PathLeg<T>) { l.EgressLeg? }

  /** The leg seen as a transit leg; a cast the caller guards with IsTransitLeg. */
  function AsTransitLeg<T>(l: PathLeg<T>): (r: PathLeg<T>)
    requires IsTransitLeg(l)
    ensures r.TransitLeg? && r == l
  {
    l
  }

  /** The leg seen as a transfer leg; a cast the caller guards with IsTransferLeg. */
  function AsTransferLeg<T>(l: PathLeg<T>): (r: PathLeg<T>)
    requires IsTransferLeg(l)
    ensures r.TransferLeg? && r == l
  {
    l
  }

  /** The leg seen as an egress leg; a cast the caller guards with IsEgressLeg. */
  function AsEgressLeg<T>(l: PathLeg<T>): (r: PathLeg<T>)
    requires IsEgressLeg(l)
    ensures r.EgressLeg? && r == l
  {
    l
  }

  /** The stop the leg starts at; an access leg does not start at a stop. */
  function FromStop<T>(l: PathLeg<T>): (r: Option<int>)
    ensures r.None? <==> IsAccessLeg(l)
    ensures r.Some? ==> r.value == l.fromStopIndex
  {
    if l.AccessLeg? then None else Some(l.fromStopIndex)
  }

  /** The stop the leg ends at; an egress leg does not end at a stop. */
  function ToStop<T>(l: PathLeg<T>): (r: Option<int>)
    ensures r.None? <==> IsEgressLeg(l)
    ensures r.Some? ==> r.value == l.toStopIndex
  {
    if l.EgressLeg? then None else Some(l.toStopIndex)
  }

  /** Seconds spent travelling this leg, without waiting. */
  function Duration<T>(l: PathLeg<T>): int
  {
    l.toTime - l.fromTime
  }

  /** The next leg; the egress leg has none. */
  function NextLeg<T>(l: PathLeg<T>): (r: PathLeg<T>)
    requires !IsEgressLeg(l)
    ensures |Legs(r)| == |Legs(l)| - 1
  {
    l.next
  }

  /** The successor rules of a path. */
  predicate SuccessorAllowed<T>(l: PathLeg<T>, n: PathLeg<T>)
  {
    match l
    case AccessLeg(_, _, _, _, _, _) => n.TransitLeg?
    case TransitLeg(_, _, _, _, _, _, _) => n.TransitLeg? || n.TransferLeg? || n.EgressLeg?
    case TransferLeg(_, _, _, _, _, _, _) => n.TransitLeg?
    case EgressLeg(_, _, _, _, _) => false
  }

  /** Every leg of the chain, from `l` on, is followed only as the rules allow. */
  predicate WellFormed<T>(l: PathLeg<T>)
  {
    l.EgressLeg? || (SuccessorAllowed(l, l.next) && WellFormed(l.next))
  }

  /** A complete path: an access leg heading a well-formed chain. */
  predicate IsPath<T>(l: PathLeg<T>)
  {
    l.AccessLeg? && WellFormed(l)
  }

  /** The legs met by iterating from `l`: `l` itself, then each successor, ending with the egress leg. */
  function Legs<T>(l: PathLeg<T>): (r: seq<PathLeg<T>>)
    ensures |r| >= 1 && r[0] == l && r[|r| - 1].EgressLeg?
  {
    if l.EgressLeg? then [l] else [l] + Legs(l.next)
  }

  /** Iteration steps through `next` links and meets the egress leg only at the end. */
  lemma {:induction false} LegsStep<T>(l: PathLeg<T>, k: nat)
    requires k < |Legs(l)|
    ensures Legs(l)[k].EgressLeg? <==> k == |Legs(l)| - 1
    ensures k < |Legs(l)| - 1 ==> Legs(l)[k + 1] == Legs(l)[k].next
    decreases k
  {
    if k > 0 {
      LegsStep(l.next, k - 1);
    }
  }

  /** Iterating from the k-th leg meets the rest of the legs. */
  lemma {:induction false} LegsSuffix<T>(l: PathLeg<T>, k: nat)
    requires k < |Legs(l)|
    ensures Legs(Legs(l)[k]) == Legs(l)[k..]
    decreases k
  {
    if k > 0 {
      LegsSuffix(l.next, k - 1);
      assert Legs(l)[k..] == Legs(l.next)[k - 1..];
    }
  }

  /** The recursive well-formedness rule, read as a statement about every consecutive pair of legs. */
  lemma {:induction false} WellFormedPairs<T>(l: PathLeg<T>)
    ensures WellFormed(l) <==>
      forall k :: 0 <= k < |Legs(l)| - 1 ==> SuccessorAllowed(Legs(l)[k], Legs(l)[k + 1])
  {
    if !l.EgressLeg? {
      WellFormedPairs(l.next);
      var s := Legs(l);
      assert s[1..] == Legs(l.next);
      if forall k :: 0 <= k < |s| - 1 ==> SuccessorAllowed(s[k], s[k + 1]) {
        assert SuccessorAllowed(s[0], s[1]);
        forall k | 0 <= k < |Legs(l.next)| - 1
          ensures SuccessorAllowed(Legs(l.next)[k], Legs(l.next)[k + 1])
        {
          assert SuccessorAllowed(s[k + 1], s[k + 2]);
        }
      }
      if WellFormed(l) {
        forall k | 0 <= k < |s| - 1
          ensures SuccessorAllowed(s[k], s[k + 1])
        {
          if k > 0 {
            assert s[k] == Legs(l.next)[k - 1] && s[k + 1] == Legs(l.next)[k];
          }
        }
      }
    }
  }

  /** A path has exactly one access leg (the first), exactly one egress leg (the last) and a transit leg. */
  lemma PathShape<T>(l: PathLeg<T>)
    requires IsPath(l)
    ensures |Legs(l)| >= 3 && Legs(l)[1].TransitLeg?
    ensures forall k :: 0 < k < |Legs(l)| ==> !Legs(l)[k].AccessLeg?
    ensures forall k :: 0 <= k < |Legs(l)| - 1 ==> !Legs(l)[k].EgressLeg?
  {
    WellFormedPairs(l);
    var s := Legs(l);
    forall k | 0 < k < |s|
      ensures !s[k].AccessLeg?
    {
      assert SuccessorAllowed(s[k - 1], s[k]);
    }
    forall k | 0 <= k < |s| - 1
      ensures !s[k].EgressLeg?
    {
      LegsStep(l, k);
    }
    assert SuccessorAllowed(s[0], s[1]);
  }

  /** The first transit leg met from `l` on (`l` included), or None when the egress leg comes first. */
  function FirstTransitAt<T>(l: PathLeg<T>): (r: Option<PathLeg<T>>)
    ensures r.Some? ==> |Legs(r.value)| <= |Legs(l)|
  {
    if l.EgressLeg? then None
    else if l.TransitLeg? then Some(l)
    else FirstTransitAt(l.next)
  }

  /** FirstTransitAt finds the earliest transit leg of the iteration, and finds none only when there is none. */
  lemma {:induction false} FirstTransitAtIsFirst<T>(l: PathLeg<T>)
    ensures FirstTransitAt(l).Some? ==>
      && FirstTransitAt(l).value.TransitLeg?
      && exists k {:trigger Legs(l)[k]} :: 0 <= k < |Legs(l)| && Legs(l)[k] == FirstTransitAt(l).value &&
           forall j :: 0 <= j < k ==> !Legs(l)[j].TransitLeg?
    ensures FirstTransitAt(l).None? <==> forall j :: 0 <= j < |Legs(l)| ==> !Legs(l)[j].TransitLeg?
  {
    if !l.EgressLeg? && !l.TransitLeg? {
      FirstTransitAtIsFirst(l.next);
      assert forall j :: 1 <= j < |Legs(l)| ==> Legs(l)[j] == Legs(l.next)[j - 1];
      if FirstTransitAt(l).Some? {
        var k :| 0 <= k < |Legs(l.next)| && Legs(l.next)[k] == FirstTransitAt(l).value &&
                 forall j :: 0 <= j < k ==> !Legs(l.next)[j].TransitLeg?;
        assert Legs(l)[k + 1] == FirstTransitAt(l).value;
      }
    }
  }

  /**
   * The first transit leg after `l`, or None when the egress leg comes first.
   * The search starts at the next leg, so `l` itself is never returned; the legs
   * after `l` are `Legs(NextLeg(l))`, which is `Legs(l)` without its head.
   */
  method NextTransitLeg<T>(l: PathLeg<T>) returns (r: Option<PathLeg<T>>)
    requires !IsEgressLeg(l)
    ensures r == FirstTransitAt(NextLeg(l))
    ensures r.Some? ==>
      && r.value.TransitLeg?
      && r != Some(l)
      && exists k {:trigger Legs(NextLeg(l))[k]} :: 0 <= k < |Legs(NextLeg(l))| && Legs(NextLeg(l))[k] == r.value &&
           forall j :: 0 <= j < k ==> !Legs(NextLeg(l))[j].TransitLeg?
    ensures r.None? <==> forall j :: 0 <= j < |Legs(NextLeg(l))| ==> !Legs(NextLeg(l))[j].TransitLeg?
  {
    var leg := NextLeg(l);
    while !leg.EgressLeg?
      invariant FirstTransitAt(leg) == FirstTransitAt(l.next)
      decreases |Legs(leg)|
    {
      if leg.TransitLeg? {
        r := Some(leg);
        FirstTransitAtIsFirst(l.next);
        return;
      }
      leg := NextLeg(leg);
    }
    r := None;
    FirstTransitAtIsFirst(l.next);
  }

  /** The legs after a non-egress leg are its iteration without the head. */
  lemma LegsAfter<T>(l: PathLeg<T>)
    requires !l.EgressLeg?
    ensures Legs(NextLeg(l)) == Legs(l)[1..] && |Legs(NextLeg(l))| == |Legs(l)| - 1
  {
  }

  /** Iterates the legs of a chain, as the source's leg iterator does. */
  class PathLegIterator<T> {
    var currentLeg: Option<PathLeg<T>>
    ghost const start: PathLeg<T>
    /** How many legs `Next` has returned so far. */
    ghost var count: nat

    ghost predicate Valid()
      reads this
    {
      count <= |Legs(start)| &&
      currentLeg == (if count < |Legs(start)| then Some(Legs(start)[count]) else None)
    }

    constructor (leg: PathLeg<T>)
      ensures Valid() && start == leg && count == 0
    {
      currentLeg := Some(leg);
      start := leg;
      count := 0;
    }

    function HasNext(): (b: bool)
      reads this
      requires Valid()
      ensures b <==> count < |Legs(start)|
    {
      currentLeg.Some?
    }

    method Next() returns (leg: PathLeg<T>)
      requires Valid() && HasNext()
      modifies this
      ensures Valid()
      ensures count == old(count) + 1 && leg == Legs(start)[old(count)]
    {
      leg := currentLeg.value;
      LegsStep(start, count);
      currentLeg := if leg.EgressLeg? then None else Some(leg.next);
      count := count + 1;
    }
  }

  /** All legs from `l` on, collected through the iterator. */
  method Stream<T>(l: PathLeg<T>) returns (s: seq<PathLeg<T>>)
    ensures s == Legs(l)
  {
    var it := new PathLegIterator(l);
    s := [];
    while it.HasNext()
      invariant it.Valid() && it.start == l
      invariant s == Legs(l)[..it.count]
      decreases |Legs(l)| - it.count
    {
      var leg := it.Next();
      s := s + [leg];
    }
  }

  /** The leg, rendered with the two time formatters the source delegates to. */
  function AsString<T>(l: PathLeg<T>, timeToStrCompact: int -> string, durationToStr: int -> string): string
  {
    timeToStrCompact(l.fromTime) + "-" + timeToStrCompact(l.toTime) + "(" + durationToStr(Duration(l)) + ")"
  }

  /** The leg's rendering followed by " ~ " and the given stop index. */
  function AsStringTo<T>(l: PathLeg<T>, timeToStrCompact: int -> string, durationToStr: int -> string, toStop: int): (r: string)
    ensures AsString(l, timeToStrCompact, durationToStr) + " ~ " <= r
  {
    AsString(l, timeToStrCompact, durationToStr) + " ~ " + Decimal.IntToString(toStop)
  }

  /** What follows the " ~ " separator reads back as the stop index. */
  lemma AsStringToReadsBack<T>(l: PathLeg<T>, timeToStrCompact: int -> string, durationToStr: int -> string, toStop: int)
    ensures var prefix := AsString(l, timeToStrCompact, durationToStr) + " ~ ";
      var r := AsStringTo(l, timeToStrCompact, durationToStr, toStop);
      && (Decimal.IsDigits(r[|prefix|..]) || (|r[|prefix|..]| > 1 && r[|prefix|] == '-' && Decimal.IsDigits(r[|prefix| + 1..])))
      && Decimal.ParseInt(r[|prefix|..]) == toStop
  {
    var prefix := AsString(l, timeToStrCompact, durationToStr) + " ~ ";
    Decimal.IntToStringRoundTrip(toStop);
    var r := AsStringTo(l, timeToStrCompact, durationToStr, toStop);
    assert r[|prefix|..] == Decimal.IntToString(toStop);
    assert r[|prefix| + 1..] == Decimal.IntToString(toStop)[1..];
  }

  /** Sum of the legs' generalized costs. */
  function TotalCost<T>(l: PathLeg<T>): int
  {
    if l.EgressLeg? then l.generalizedCost else l.generalizedCost + TotalCost(l.next)
  }

  /** Sum of the legs' durations. */
  function TotalDuration<T>(l: PathLeg<T>): int
  {
    if l.EgressLeg? then Duration(l) else Duration(l) + TotalDuration(l.next)
  }

  /** Sum of the waits between one leg's end and the next leg's start. */
  function TotalWait<T>(l: PathLeg<T>): int
  {
    if l.EgressLeg? then 0 else (l.next.fromTime - l.toTime) + TotalWait(l.next)
  }

  /** The time the chain ends: the egress leg's arrival. */
  function EndTime<T>(l: PathLeg<T>): int
  {
    if l.EgressLeg? then l.toTime else EndTime(l.next)
  }

  /** Each leg ends where the next starts, and no later than the next starts. */
  predicate Connected<T>(l: PathLeg<T>)
  {
    l.EgressLeg? ||
    (ToStop(l) == FromStop(l.next) && l.toTime <= l.next.fromTime && Connected(l.next))
  }

  /** Travel plus waiting covers the whole chain, from its start to the egress arrival. */
  lemma {:induction false} DurationTelescopes<T>(l: PathLeg<T>)
    ensures TotalDuration(l) + TotalWait(l) == EndTime(l) - l.fromTime
  {
    if !l.EgressLeg? {
      DurationTelescopes(l.next);
    }
  }

  /** In a connected chain no wait is negative, so the travel time never exceeds the elapsed time. */
  lemma {:induction false} ConnectedWaitsNonNegative<T>(l: PathLeg<T>)
    requires Connected(l)
    ensures TotalWait(l) >= 0
    ensures TotalDuration(l) <= EndTime(l) - l.fromTime
  {
    if !l.EgressLeg? {
      ConnectedWaitsNonNegative(l.next);
    }
    DurationTelescopes(l);
  }
}
