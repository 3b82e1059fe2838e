/**
 * The arrival and departure times of one trip: a zero-based schedule shared
 * through a per-trip time shift, and a realtime layer that is created on the
 * first per-stop update and then changed in place. Times are seconds after
 * midnight.
 */
module TripTimesModel {
  import opened Wrappers
  import Decimal
  import opened JavaInt

  /** The time of a passed, cancelled or otherwise unavailable stop. */
  const UNAVAILABLE: int := -1

  /** The pickup/drop-off code meaning "no pickup" / "no drop-off". */
  const PICKDROP_NONE: int := 1

  datatype RealTimeState = Scheduled | Updated | Canceled

  datatype Trip = Trip(id: string, tripHeadsign: Option<string>)

  /** Booking details are carried along and never inspected. */
  datatype BookingInfo = BookingInfo(id: int)

  datatype StopTime = StopTime(
    arrivalTime: int, departureTime: int, stopSequence: int, timepoint: int,
    pickupType: int, dropOffType: int, stopHeadsign: Option<string>,
    bookingInfo: Option<BookingInfo>)

  /** Everything a reader of a TripTimes can observe, stop by stop, through its getters. */
  datatype Observed = Observed(
    arrivals: seq<int>, departures: seq<int>,
    recorded: seq<bool>, cancelled: seq<bool>, inaccurate: seq<bool>,
    pickups: seq<int>, dropoffs: seq<int>,
    state: RealTimeState, hasRealtime: bool)

  function Shifted(s: seq<int>, k: int): (r: seq<int>)
    ensures |r| == |s| && forall i :: 0 <= i < |s| ==> r[i] == s[i] + k
  {
    seq(|s|, i requires 0 <= i < |s| => s[i] + k)
  }

  function Filled<X>(n: nat, x: X): (r: seq<X>)
    ensures |r| == n && forall i :: 0 <= i < n ==> r[i] == x
  {
    seq(n, _ => x)
  }

  /** A flag array read through its getter: a missing array reads as all false. */
  function Flags(a: array?<bool>, n: nat): (r: seq<bool>)
    reads a
    requires a != null ==> a.Length == n
    ensures |r| == n
    ensures a == null ==> forall i :: 0 <= i < n ==> !r[i]
  {
    if a == null then Filled(n, false) else a[..]
  }

  /**
   * What the first mutation does to the observation: the realtime layer starts
   * as the shifted schedule (so arrivals and departures read as before), every
   * flag is false and the state becomes Updated. Later mutations find it in place.
   */
  function Materialized(o: Observed): (r: Observed)
    ensures r.arrivals == o.arrivals && r.departures == o.departures
    ensures r.pickups == o.pickups && r.dropoffs == o.dropoffs
    ensures r.hasRealtime
    ensures o.hasRealtime ==> r == o
    ensures !o.hasRealtime ==> r.state == Updated && (forall i :: 0 <= i < |r.cancelled| ==> !r.cancelled[i])
  {
    if o.hasRealtime then o
    else
      var n := |o.arrivals|;
      o.(recorded := Filled(n, false), cancelled := Filled(n, false), inaccurate := Filled(n, false),
         state := Updated, hasRealtime := true)
  }

  /** Seconds the vehicle waits at `stop`. */
  function DwellTime(arrivals: seq<int>, departures: seq<int>, stop: int): int
    requires |arrivals| == |departures| && 0 <= stop < |arrivals|
  {
    departures[stop] - arrivals[stop]
  }

  /** Seconds the vehicle takes from `stop` to the following stop. */
  function RunningTime(arrivals: seq<int>, departures: seq<int>, stop: int): int
    requires |arrivals| == |departures| && 0 <= stop < |arrivals| - 1
  {
    arrivals[stop + 1] - departures[stop]
  }

  /**
   * No negative dwell time, no negative running time, and a first arrival not
   * before UNAVAILABLE (the scan starts with previous departure -1).
   */
  predicate TimesAreIncreasing(arrivals: seq<int>, departures: seq<int>)
    requires |arrivals| == |departures|
  {
    && (forall s :: 0 <= s < |arrivals| ==> DwellTime(arrivals, departures, s) >= 0)
    && (forall s :: 0 <= s < |arrivals| - 1 ==> RunningTime(arrivals, departures, s) >= 0)
    && (|arrivals| > 0 ==> arrivals[0] >= UNAVAILABLE)
  }

  /** TimesAreIncreasing, restricted to the first `k` stops. */
  predicate IncreasingUpTo(arrivals: seq<int>, departures: seq<int>, k: nat)
    requires |arrivals| == |departures| && k <= |arrivals|
  {
    && (forall s :: 0 <= s < k ==> DwellTime(arrivals, departures, s) >= 0)
    && (forall s :: 0 <= s < k - 1 ==> RunningTime(arrivals, departures, s) >= 0)
    && (k > 0 ==> arrivals[0] >= UNAVAILABLE)
  }

  /** Validated times never go backwards: every later event is no earlier than every earlier one. */
  lemma {:induction false} IncreasingTimesAreOrdered(arrivals: seq<int>, departures: seq<int>, i: nat, j: nat)
    requires |arrivals| == |departures| && TimesAreIncreasing(arrivals, departures)
    requires i <= j < |arrivals|
    ensures arrivals[i] <= arrivals[j] && departures[i] <= departures[j] && arrivals[i] <= departures[j]
    decreases j - i
  {
    assert DwellTime(arrivals, departures, j) >= 0;
    if i < j {
      IncreasingTimesAreOrdered(arrivals, departures, i, j - 1);
      assert RunningTime(arrivals, departures, j - 1) >= 0;
    }
  }

  /** A cancelled trip (every time UNAVAILABLE) passes the check. */
  lemma UnavailableTimesAreIncreasing(n: nat)
    ensures TimesAreIncreasing(Filled(n, UNAVAILABLE), Filled(n, UNAVAILABLE))
  {
  }

  /**
   * The ints fed to the semantic hash: for every hop, the departure from its
   * first stop and the arrival at its second.
   */
  function HopTimes(departures: seq<int>, arrivals: seq<int>): (r: seq<int>)
    requires |departures| == |arrivals|
    ensures |r| == (if |arrivals| == 0 then 0 else 2 * (|arrivals| - 1))
    ensures forall h :: 0 <= h < |arrivals| - 1 ==> r[2 * h] == departures[h] && r[2 * h + 1] == arrivals[h + 1]
    decreases |arrivals|
  {
    if |arrivals| <= 1 then []
    else HopTimes(departures[..|departures| - 1], arrivals[..|arrivals| - 1])
         + [departures[|departures| - 2], arrivals[|arrivals| - 1]]
  }

  /** The stop headsigns, one per stop time. */
  function StopHeadsigns(stopTimes: seq<StopTime>): (r: seq<Option<string>>)
    ensures |r| == |stopTimes| && forall i :: 0 <= i < |stopTimes| ==> r[i] == stopTimes[i].stopHeadsign
  {
    seq(|stopTimes|, i requires 0 <= i < |stopTimes| => stopTimes[i].stopHeadsign)
  }

  predicate AllStopHeadsignsNull(stopTimes: seq<StopTime>)
  {
    forall i :: 0 <= i < |stopTimes| ==> stopTimes[i].stopHeadsign.None?
  }

  predicate AllStopHeadsignsAre(stopTimes: seq<StopTime>, headsign: Option<string>)
  {
    forall i :: 0 <= i < |stopTimes| ==> stopTimes[i].stopHeadsign == headsign
  }

  /**
   * The per-stop headsigns kept for a trip: none when every stop shows the
   * (non-null) trip headsign or when no stop has a headsign, else one per stop.
   */
  predicate IsHeadsignsArrayFor(tripHeadsign: Option<string>, stopTimes: seq<StopTime>, hs: Option<seq<Option<string>>>)
  {
    && (hs.None? <==> ((tripHeadsign.Some? && AllStopHeadsignsAre(stopTimes, tripHeadsign)) || AllStopHeadsignsNull(stopTimes)))
    && (hs.Some? ==> hs.value == StopHeadsigns(stopTimes))
  }

  method MakeHeadsignsArray(tripHeadsign: Option<string>, stopTimes: seq<StopTime>)
    returns (hs: Option<seq<Option<string>>>)
    ensures IsHeadsignsArrayFor(tripHeadsign, stopTimes, hs)
  {
    var useStopHeadsigns := false;
    if tripHeadsign.None? {
      useStopHeadsigns := true;
    } else {
      var i := 0;
      while i < |stopTimes|
        invariant 0 <= i <= |stopTimes|
        invariant forall j :: 0 <= j < i ==> stopTimes[j].stopHeadsign == tripHeadsign
      {
        if stopTimes[i].stopHeadsign != tripHeadsign {
          useStopHeadsigns := true;
          break;
        }
        i := i + 1;
      }
      assert !useStopHeadsigns ==> AllStopHeadsignsAre(stopTimes, tripHeadsign);
      assert useStopHeadsigns ==> !AllStopHeadsignsAre(stopTimes, tripHeadsign);
    }
    if !useStopHeadsigns {
      return None;
    }
    var allNull := true;
    var perStop: seq<Option<string>> := [];
    var i := 0;
    while i < |stopTimes|
      invariant 0 <= i <= |stopTimes|
      invariant perStop == StopHeadsigns(stopTimes)[..i]
      invariant allNull <==> forall j :: 0 <= j < i ==> stopTimes[j].stopHeadsign.None?
    {
      var headsign := stopTimes[i].stopHeadsign;
      perStop := perStop + [headsign];
      if headsign.Some? {
        allNull := false;
      }
      i := i + 1;
    }
    if allNull {
      return None;
    }
    assert perStop == StopHeadsigns(stopTimes);
    return Some(perStop);
  }

  /** Hours, minutes and seconds of a time, with Java's truncating arithmetic. */
  function Clock(seconds: int): (hms: (int, int, int))
    ensures hms.0 * 3600 + hms.1 * 60 + hms.2 == seconds
    ensures seconds >= 0 ==> hms.0 >= 0 && 0 <= hms.1 < 60 && 0 <= hms.2 < 60
    ensures seconds < 0 ==> hms.0 <= 0 && -60 < hms.1 <= 0 && -60 < hms.2 <= 0
  {
    var m := JavaDiv(seconds, 60);
    var s := JavaRem(seconds, 60);
    var h := JavaDiv(m, 60);
    (h, JavaRem(m, 60), s)
  }

  /** "HH:MM:SS", each field formatted with `%02d`. */
  function FormatSeconds(seconds: int): string
  {
    var hms := Clock(seconds);
    Decimal.Pad2(hms.0) + ":" + Decimal.Pad2(hms.1) + ":" + Decimal.Pad2(hms.2)
  }

  /** Within the first hundred hours the formatted time reads back as the same number of seconds. */
  lemma FormatSecondsReadsBack(seconds: int)
    requires 0 <= seconds < 100 * 3600
    ensures var r := FormatSeconds(seconds);
      && |r| == 8 && r[2] == ':' && r[5] == ':'
      && Decimal.IsDigits(r[0..2]) && Decimal.IsDigits(r[3..5]) && Decimal.IsDigits(r[6..8])
      && Decimal.ParseNat(r[0..2]) * 3600 + Decimal.ParseNat(r[3..5]) * 60 + Decimal.ParseNat(r[6..8]) == seconds
  {
    var hms := Clock(seconds);
    Decimal.Pad2TwoDigits(hms.0);
    Decimal.Pad2TwoDigits(hms.1);
    Decimal.Pad2TwoDigits(hms.2);
    var r := FormatSeconds(seconds);
    assert r[0..2] == Decimal.Pad2(hms.0);
    assert r[3..5] == Decimal.Pad2(hms.1);
    assert r[6..8] == Decimal.Pad2(hms.2);
  }

  /** A new array of `n` copies of `x` (an array allocation followed by Arrays.fill). */
  method FilledArray(n: nat, x: int) returns (a: array<int>)
    ensures fresh(a) && a[..] == Filled(n, x)
  {
    a := new int[n](_ => x);
    assert a[..] == Filled(n, x);
  }

  /**
   * The realtime layer as first created: copies of the zero-based schedule with
   * the time shift added by the loop, and three all-false flag arrays. A new
   * boolean array is already all false, so the flags are made after the loop
   * and the loop's writes of false are left out.
   */
  method NewRealtimeArrays(scheduledArrivals: array<int>, scheduledDepartures: array<int>, shift: int)
    returns (arrivals: array<int>, departures: array<int>,
             recorded: array<bool>, cancelled: array<bool>, inaccurate: array<bool>)
    requires scheduledArrivals.Length == scheduledDepartures.Length
    ensures fresh(arrivals) && fresh(departures) && fresh(recorded) && fresh(cancelled) && fresh(inaccurate)
    ensures arrivals != departures && recorded != cancelled && recorded != inaccurate && cancelled != inaccurate
    ensures arrivals[..] == Shifted(scheduledArrivals[..], shift)
    ensures departures[..] == Shifted(scheduledDepartures[..], shift)
    ensures recorded[..] == Filled(scheduledArrivals.Length, false)
    ensures cancelled[..] == Filled(scheduledArrivals.Length, false)
    ensures inaccurate[..] == Filled(scheduledArrivals.Length, false)
  {
    var n := scheduledArrivals.Length;
    arrivals := new int[n](i reads scheduledArrivals requires 0 <= i < n => scheduledArrivals[i]);
    departures := new int[n](i reads scheduledDepartures requires 0 <= i < n => scheduledDepartures[i]);
    var i := 0;
    while i < n
      invariant 0 <= i <= n
      invariant forall j :: 0 <= j < n ==> arrivals[j] == scheduledArrivals[j] + (if j < i then shift else 0)
      invariant forall j :: 0 <= j < n ==> departures[j] == scheduledDepartures[j] + (if j < i then shift else 0)
    {
      arrivals[i] := arrivals[i] + shift;
      departures[i] := departures[i] + shift;
      i := i + 1;
    }
    assert arrivals[..] == Shifted(scheduledArrivals[..], shift);
    assert departures[..] == Shifted(scheduledDepartures[..], shift);
    recorded := new bool[n](_ => false);
    cancelled := new bool[n](_ => false);
    inaccurate := new bool[n](_ => false);
    assert recorded[..] == cancelled[..] == inaccurate[..] == Filled(n, false);
  }

  /**
   * One pass over the stop times: times made relative to `shift`, and the
   * per-stop sequence numbers, timepoint flags, pickup and drop-off types and
   * booking details.
   */
  method ZeroBasedSchedule(stopTimes: seq<StopTime>, shift: int)
    returns (departures: seq<int>, arrivals: seq<int>, sequences: seq<int>, points: seq<bool>,
             pickupTypes: seq<int>, dropoffTypes: seq<int>, bookings: seq<Option<BookingInfo>>)
    ensures |departures| == |arrivals| == |sequences| == |points| == |stopTimes|
    ensures |pickupTypes| == |dropoffTypes| == |bookings| == |stopTimes|
    ensures forall s :: 0 <= s < |stopTimes| ==> departures[s] == stopTimes[s].departureTime - shift
    ensures forall s :: 0 <= s < |stopTimes| ==> arrivals[s] == stopTimes[s].arrivalTime - shift
    ensures forall s :: 0 <= s < |stopTimes| ==> sequences[s] == stopTimes[s].stopSequence
    ensures forall s :: 0 <= s < |stopTimes| ==> points[s] == (stopTimes[s].timepoint == 1)
    ensures forall s :: 0 <= s < |stopTimes| ==> pickupTypes[s] == stopTimes[s].pickupType
    ensures forall s :: 0 <= s < |stopTimes| ==> dropoffTypes[s] == stopTimes[s].dropOffType
    ensures forall s :: 0 <= s < |stopTimes| ==> bookings[s] == stopTimes[s].bookingInfo
  {
    departures, arrivals, sequences, points, pickupTypes, dropoffTypes, bookings := [], [], [], [], [], [], [];
    var s := 0;
    while s < |stopTimes|
      invariant 0 <= s <= |stopTimes|
      invariant |departures| == |arrivals| == |sequences| == |points| == s
      invariant |pickupTypes| == |dropoffTypes| == |bookings| == s
      invariant forall j :: 0 <= j < s ==> departures[j] == stopTimes[j].departureTime - shift
      invariant forall j :: 0 <= j < s ==> arrivals[j] == stopTimes[j].arrivalTime - shift
      invariant forall j :: 0 <= j < s ==> sequences[j] == stopTimes[j].stopSequence
      invariant forall j :: 0 <= j < s ==> points[j] == (stopTimes[j].timepoint == 1)
      invariant forall j :: 0 <= j < s ==> pickupTypes[j] == stopTimes[j].pickupType
      invariant forall j :: 0 <= j < s ==> dropoffTypes[j] == stopTimes[j].dropOffType
      invariant forall j :: 0 <= j < s ==> bookings[j] == stopTimes[j].bookingInfo
    {
      var st := stopTimes[s];
      departures := departures + [st.departureTime - shift];
      arrivals := arrivals + [st.arrivalTime - shift];
      sequences := sequences + [st.stopSequence];
      points := points + [st.timepoint == 1];
      pickupTypes := pickupTypes + [st.pickupType];
      dropoffTypes := dropoffTypes + [st.dropOffType];
      bookings := bookings + [st.bookingInfo];
      s := s + 1;
    }
  }

  /**
   * The array stored for a per-stop column. Deduplication, which may hand out
   * one shared array for equal contents, is not modelled: every column gets
   * its own array.
   */
  method ArrayOf(contents: seq<int>) returns (a: array<int>)
    ensures fresh(a) && a[..] == contents
  {
    a := new int[|contents|](i requires 0 <= i < |contents| => contents[i]);
  }

  class TripTimes {
    /** Added to the zero-based scheduled times to give times after midnight. */
    var timeShift: int
    const trip: Trip
    var serviceCode: int
    /** None when every stop shows the trip headsign. */
    const headsigns: Option<seq<Option<string>>>
    const scheduledArrivalTimes: array<int>
    const scheduledDepartureTimes: array<int>
    /** The realtime layer: null until the first update (arrivals and departures are not time shifted). */
    var arrivalTimes: array?<int>
    var departureTimes: array?<int>
    var recordedStops: array?<bool>
    var cancelledStops: array?<bool>
    var predictionInaccurateOnStops: array?<bool>
    var pickups: array<int>
    var dropoffs: array<int>
    const bookingInfos: seq<Option<BookingInfo>>
    const stopSequences: seq<int>
    const timepoints: seq<bool>
    var realTimeState: RealTimeState
    /** The stop times this trip was built from, for stating the headsign rule. */
    ghost const sourceStopTimes: seq<StopTime>

    /**
     * Lengths agree with the number of stops; the realtime layer is either
     * absent or has both time arrays and the cancelled flags, and the recorded
     * and inaccurate-prediction flags come and go together; the arrays written
     * in place are distinct from each other and from the schedule.
     */
    ghost predicate Valid()
      reads this
    {
      var n := scheduledArrivalTimes.Length;
      && scheduledDepartureTimes.Length == n
      && |stopSequences| == n && |timepoints| == n && |bookingInfos| == n
      && (headsigns.Some? ==> |headsigns.value| == n)
      && pickups.Length == n && dropoffs.Length == n
      && pickups != dropoffs
      && pickups != scheduledArrivalTimes && pickups != scheduledDepartureTimes
      && dropoffs != scheduledArrivalTimes && dropoffs != scheduledDepartureTimes
      && (cancelledStops != null ==> cancelledStops.Length == n)
      && if arrivalTimes == null then
           departureTimes == null && recordedStops == null && predictionInaccurateOnStops == null
         else
           && departureTimes != null && cancelledStops != null
           && arrivalTimes.Length == n && departureTimes.Length == n
           && arrivalTimes != departureTimes
           && arrivalTimes != scheduledArrivalTimes && arrivalTimes != scheduledDepartureTimes
           && departureTimes != scheduledArrivalTimes && departureTimes != scheduledDepartureTimes
           && arrivalTimes != pickups && arrivalTimes != dropoffs
           && departureTimes != pickups && departureTimes != dropoffs
           && if recordedStops == null then predictionInaccurateOnStops == null
              else
                && predictionInaccurateOnStops != null
                && recordedStops.Length == n && predictionInaccurateOnStops.Length == n
                && recordedStops != cancelledStops && recordedStops != predictionInaccurateOnStops
                && cancelledStops != predictionInaccurateOnStops
    }

    ghost function Repr(): set<object?>
      reads this
    {
      {this, scheduledArrivalTimes, scheduledDepartureTimes, arrivalTimes, departureTimes,
       recordedStops, cancelledStops, predictionInaccurateOnStops, pickups, dropoffs}
    }

    /** The headsigns were derived from `sourceStopTimes` and the trip's headsign. */
    ghost predicate HeadsignsFromSource()
    {
      && |sourceStopTimes| == scheduledArrivalTimes.Length
      && IsHeadsignsArrayFor(trip.tripHeadsign, sourceStopTimes, headsigns)
    }

    function NumStops(): nat
    {
      scheduledArrivalTimes.Length
    }

    ghost function ScheduledArrivals(): (r: seq<int>)
      reads this, scheduledArrivalTimes
      ensures |r| == NumStops()
    {
      Shifted(scheduledArrivalTimes[..], timeShift)
    }

    ghost function ScheduledDepartures(): (r: seq<int>)
      reads this, scheduledDepartureTimes
      ensures |r| == scheduledDepartureTimes.Length
    {
      Shifted(scheduledDepartureTimes[..], timeShift)
    }

    /** Arrival times as read: the realtime layer if present, the shifted schedule otherwise. */
    ghost function Arrivals(): (r: seq<int>)
      reads this, arrivalTimes, scheduledArrivalTimes
      requires Valid()
      ensures |r| == NumStops()
    {
      if arrivalTimes == null then ScheduledArrivals() else arrivalTimes[..]
    }

    ghost function Departures(): (r: seq<int>)
      reads this, departureTimes, scheduledDepartureTimes
      requires Valid()
      ensures |r| == NumStops()
    {
      if departureTimes == null then ScheduledDepartures() else departureTimes[..]
    }

    ghost function View(): (o: Observed)
      reads this, Repr()
      requires Valid()
      ensures |o.arrivals| == |o.departures| == |o.cancelled| == |o.recorded| == |o.inaccurate| == NumStops()
      ensures |o.pickups| == |o.dropoffs| == NumStops()
    {
      Observed(Arrivals(), Departures(),
               Flags(recordedStops, NumStops()), Flags(cancelledStops, NumStops()),
               Flags(predictionInaccurateOnStops, NumStops()),
               pickups[..], dropoffs[..], realTimeState, !IsScheduled())
    }

    /** The headsign at `stop`: the stop's own, unless no stop has one, then the trip's. */
    function GetHeadsign(stop: int): (r: Option<string>)
      requires (headsigns.Some? ==> stop < |headsigns.value|) && 0 <= stop
      ensures HeadsignsFromSource() && stop < |sourceStopTimes| ==>
        r == (if AllStopHeadsignsNull(sourceStopTimes) then trip.tripHeadsign else sourceStopTimes[stop].stopHeadsign)
    {
      if headsigns.None? then trip.tripHeadsign else headsigns.value[stop]
    }

    function GetScheduledArrivalTime(stop: int): (t: int)
      reads this, scheduledArrivalTimes
      requires 0 <= stop < NumStops()
      ensures t == ScheduledArrivals()[stop]
    {
      scheduledArrivalTimes[stop] + timeShift
    }

    function GetScheduledDepartureTime(stop: int): (t: int)
      reads this, scheduledDepartureTimes
      requires 0 <= stop < scheduledDepartureTimes.Length
      ensures t == ScheduledDepartures()[stop]
    {
      scheduledDepartureTimes[stop] + timeShift
    }

    function GetArrivalTime(stop: int): (t: int)
      reads this, arrivalTimes, scheduledArrivalTimes
      requires Valid() && 0 <= stop < NumStops()
      ensures t == Arrivals()[stop]
      ensures IsScheduled() ==> t == GetScheduledArrivalTime(stop)
    {
      if arrivalTimes == null then GetScheduledArrivalTime(stop) else arrivalTimes[stop]
    }

    function GetDepartureTime(stop: int): (t: int)
      reads this, departureTimes, scheduledDepartureTimes
      requires Valid() && 0 <= stop < NumStops()
      ensures t == Departures()[stop]
      ensures IsScheduled() ==> t == GetScheduledDepartureTime(stop)
    {
      if departureTimes == null then GetScheduledDepartureTime(stop) else departureTimes[stop]
    }

    function GetDwellTime(stop: int): (d: int)
      reads this, arrivalTimes, departureTimes, scheduledArrivalTimes, scheduledDepartureTimes
      requires Valid() && 0 <= stop < NumStops()
      ensures d == DwellTime(Arrivals(), Departures(), stop)
    {
      GetDepartureTime(stop) - GetArrivalTime(stop)
    }

    function GetRunningTime(stop: int): (d: int)
      reads this, arrivalTimes, departureTimes, scheduledArrivalTimes, scheduledDepartureTimes
      requires Valid() && 0 <= stop < NumStops() - 1
      ensures d == RunningTime(Arrivals(), Departures(), stop)
    {
      GetArrivalTime(stop + 1) - GetDepartureTime(stop)
    }

    /** Actual minus scheduled arrival; zero at every stop while there is no realtime layer. */
    function GetArrivalDelay(stop: int): (d: int)
      reads this, arrivalTimes, scheduledArrivalTimes
      requires Valid() && 0 <= stop < NumStops()
      ensures GetArrivalTime(stop) == ScheduledArrivals()[stop] + d
      ensures IsScheduled() ==> d == 0
    {
      GetArrivalTime(stop) - (scheduledArrivalTimes[stop] + timeShift)
    }

    /** Actual minus scheduled departure; zero at every stop while there is no realtime layer. */
    function GetDepartureDelay(stop: int): (d: int)
      reads this, departureTimes, scheduledDepartureTimes
      requires Valid() && 0 <= stop < NumStops()
      ensures GetDepartureTime(stop) == ScheduledDepartures()[stop] + d
      ensures IsScheduled() ==> d == 0
    {
      GetDepartureTime(stop) - (scheduledDepartureTimes[stop] + timeShift)
    }

    function IsRecordedStop(stop: int): (b: bool)
      reads this, recordedStops
      requires Valid() && 0 <= stop < NumStops()
      ensures b == Flags(recordedStops, NumStops())[stop]
      ensures recordedStops == null ==> !b
    {
      if recordedStops == null then false else recordedStops[stop]
    }

    function IsCancelledStop(stop: int): (b: bool)
      reads this, cancelledStops
      requires Valid() && 0 <= stop < NumStops()
      ensures b == Flags(cancelledStops, NumStops())[stop]
      ensures cancelledStops == null ==> !b
    {
      if cancelledStops == null then false else cancelledStops[stop]
    }

    function IsPredictionInaccurate(stop: int): (b: bool)
      reads this, predictionInaccurateOnStops
      requires Valid() && 0 <= stop < NumStops()
      ensures b == Flags(predictionInaccurateOnStops, NumStops())[stop]
      ensures predictionInaccurateOnStops == null ==> !b
    {
      if predictionInaccurateOnStops == null then false else predictionInaccurateOnStops[stop]
    }

    function GetPickupType(stop: int): int
      reads this, pickups
      requires Valid() && 0 <= stop < NumStops()
    {
      pickups[stop]
    }

    function GetDropoffType(stop: int): int
      reads this, dropoffs
      requires Valid() && 0 <= stop < NumStops()
    {
      dropoffs[stop]
    }

    function GetBookingInfo(stop: int): Option<BookingInfo>
      reads this
      requires Valid() && 0 <= stop < NumStops()
    {
      bookingInfos[stop]
    }

    function GetStopSequence(stop: int): int
      reads this
      requires Valid() && 0 <= stop < NumStops()
    {
      stopSequences[stop]
    }

    function IsTimepoint(stop: int): bool
      reads this
      requires Valid() && 0 <= stop < NumStops()
    {
      timepoints[stop]
    }

    /** No realtime times exist: every read falls back to the schedule. */
    predicate IsScheduled()
      reads this
    {
      departureTimes == null && arrivalTimes == null
    }

    predicate IsCanceled()
      reads this
    {
      realTimeState == Canceled
    }

    function GetRealTimeState(): RealTimeState
      reads this
    {
      realTimeState
    }

    /** Orders trips by their first departure. */
    function CompareTo(other: TripTimes): (r: int)
      reads this, departureTimes, scheduledDepartureTimes, scheduledArrivalTimes
      reads other, other.departureTimes, other.scheduledDepartureTimes, other.scheduledArrivalTimes
      requires Valid() && other.Valid() && NumStops() > 0 && other.NumStops() > 0
      ensures r < 0 <==> Departures()[0] < other.Departures()[0]
      ensures r == 0 <==> Departures()[0] == other.Departures()[0]
      ensures r > 0 <==> Departures()[0] > other.Departures()[0]
    {
      GetDepartureTime(0) - other.GetDepartureTime(0)
    }

    /**
     * Builds the trip from its stop times: the schedule is stored shifted to
     * start at zero, with the first arrival as the time shift.
     */
    constructor (trip: Trip, stopTimes: seq<StopTime>)
      requires |stopTimes| > 0
      ensures Valid() && IsScheduled() && realTimeState == Scheduled && HeadsignsFromSource()
      ensures this.trip == trip && sourceStopTimes == stopTimes
      ensures NumStops() == |stopTimes| && timeShift == stopTimes[0].arrivalTime
      ensures scheduledArrivalTimes[0] == 0
      ensures forall s :: 0 <= s < |stopTimes| ==> scheduledArrivalTimes[s] == stopTimes[s].arrivalTime - timeShift
      ensures forall s :: 0 <= s < |stopTimes| ==> scheduledDepartureTimes[s] == stopTimes[s].departureTime - timeShift
      ensures forall s :: 0 <= s < |stopTimes| ==> GetScheduledArrivalTime(s) == stopTimes[s].arrivalTime
      ensures forall s :: 0 <= s < |stopTimes| ==> GetScheduledDepartureTime(s) == stopTimes[s].departureTime
      ensures forall s :: 0 <= s < |stopTimes| ==> stopSequences[s] == stopTimes[s].stopSequence
      ensures forall s :: 0 <= s < |stopTimes| ==> timepoints[s] == (stopTimes[s].timepoint == 1)
      ensures forall s :: 0 <= s < |stopTimes| ==> pickups[s] == stopTimes[s].pickupType
      ensures forall s :: 0 <= s < |stopTimes| ==> dropoffs[s] == stopTimes[s].dropOffType
      ensures forall s :: 0 <= s < |stopTimes| ==> bookingInfos[s] == stopTimes[s].bookingInfo
      ensures recordedStops == null && cancelledStops == null && predictionInaccurateOnStops == null
      ensures fresh(scheduledArrivalTimes) && fresh(scheduledDepartureTimes) && fresh(pickups) && fresh(dropoffs)
    {
      var shift := stopTimes[0].arrivalTime;
      var departureOffsets, arrivalOffsets, sequences, points, pickupTypes, dropoffTypes, bookings :=
        ZeroBasedSchedule(stopTimes, shift);
      var departures := ArrayOf(departureOffsets);
      var arrivals := ArrayOf(arrivalOffsets);
      var pickupArray := ArrayOf(pickupTypes);
      var dropoffArray := ArrayOf(dropoffTypes);
      var hs := MakeHeadsignsArray(trip.tripHeadsign, stopTimes);
      this.trip := trip;
      timeShift := shift;
      serviceCode := -1;
      scheduledDepartureTimes := departures;
      scheduledArrivalTimes := arrivals;
      stopSequences := sequences;
      headsigns := hs;
      pickups := pickupArray;
      dropoffs := dropoffArray;
      bookingInfos := bookings;
      arrivalTimes := null;
      departureTimes := null;
      recordedStops := null;
      cancelledStops := null;
      predictionInaccurateOnStops := null;
      timepoints := points;
      realTimeState := Scheduled;
      sourceStopTimes := stopTimes;
      new;
      assert |StopHeadsigns(stopTimes)| == |stopTimes|;
    }

    /** The copy constructor: the schedule is shared, the realtime layer is not copied. */
    constructor CopyScheduled(other: TripTimes)
      requires other.Valid()
      ensures Valid() && IsScheduled() && realTimeState == Scheduled
      ensures cancelledStops == null
      ensures trip == other.trip && serviceCode == other.serviceCode && timeShift == other.timeShift
      ensures headsigns == other.headsigns && sourceStopTimes == other.sourceStopTimes
      ensures scheduledArrivalTimes == other.scheduledArrivalTimes && scheduledDepartureTimes == other.scheduledDepartureTimes
      ensures pickups == other.pickups && dropoffs == other.dropoffs
      ensures stopSequences == other.stopSequences && timepoints == other.timepoints && bookingInfos == other.bookingInfos
    {
      trip := other.trip;
      serviceCode := other.serviceCode;
      timeShift := other.timeShift;
      headsigns := other.headsigns;
      scheduledDepartureTimes := other.scheduledDepartureTimes;
      scheduledArrivalTimes := other.scheduledArrivalTimes;
      stopSequences := other.stopSequences;
      timepoints := other.timepoints;
      pickups := other.pickups;
      dropoffs := other.dropoffs;
      bookingInfos := other.bookingInfos;
      arrivalTimes := null;
      departureTimes := null;
      recordedStops := null;
      cancelledStops := null;
      predictionInaccurateOnStops := null;
      realTimeState := Scheduled;
      sourceStopTimes := other.sourceStopTimes;
    }

    /** A field-by-field copy: every array is shared with `other`. */
    constructor Clone(other: TripTimes)
      requires other.Valid()
      ensures Valid()
      ensures trip == other.trip && serviceCode == other.serviceCode && timeShift == other.timeShift
      ensures headsigns == other.headsigns && sourceStopTimes == other.sourceStopTimes
      ensures scheduledArrivalTimes == other.scheduledArrivalTimes && scheduledDepartureTimes == other.scheduledDepartureTimes
      ensures arrivalTimes == other.arrivalTimes && departureTimes == other.departureTimes
      ensures recordedStops == other.recordedStops && cancelledStops == other.cancelledStops
      ensures predictionInaccurateOnStops == other.predictionInaccurateOnStops
      ensures pickups == other.pickups && dropoffs == other.dropoffs && realTimeState == other.realTimeState
      ensures stopSequences == other.stopSequences && timepoints == other.timepoints && bookingInfos == other.bookingInfos
    {
      trip := other.trip;
      serviceCode := other.serviceCode;
      timeShift := other.timeShift;
      headsigns := other.headsigns;
      scheduledDepartureTimes := other.scheduledDepartureTimes;
      scheduledArrivalTimes := other.scheduledArrivalTimes;
      stopSequences := other.stopSequences;
      timepoints := other.timepoints;
      pickups := other.pickups;
      dropoffs := other.dropoffs;
      bookingInfos := other.bookingInfos;
      arrivalTimes := other.arrivalTimes;
      departureTimes := other.departureTimes;
      recordedStops := other.recordedStops;
      cancelledStops := other.cancelledStops;
      predictionInaccurateOnStops := other.predictionInaccurateOnStops;
      realTimeState := other.realTimeState;
      sourceStopTimes := other.sourceStopTimes;
    }

    method SetRealTimeState(state: RealTimeState)
      requires Valid()
      modifies this`realTimeState
      ensures Valid() && View() == old(View()).(state := state)
    {
      realTimeState := state;
    }

    /**
     * The realtime arrays after a per-stop update: newly allocated if there were
     * none before, otherwise the very arrays there were.
     */
    twostate predicate RealtimeArraysFreshOrKept()
      reads this
    {
      if old(arrivalTimes) == null then
        && fresh(arrivalTimes) && fresh(departureTimes) && recordedStops != null && fresh(recordedStops)
        && cancelledStops != null && fresh(cancelledStops)
        && predictionInaccurateOnStops != null && fresh(predictionInaccurateOnStops)
      else
        && arrivalTimes == old(arrivalTimes) && departureTimes == old(departureTimes)
        && recordedStops == old(recordedStops) && cancelledStops == old(cancelledStops)
        && predictionInaccurateOnStops == old(predictionInaccurateOnStops)
    }

    /**
     * Creates the realtime layer when it is missing: time-shifted copies of
     * the schedule and all-false flag arrays, and the state becomes Updated.
     */
    method CheckCreateTimesArrays()
      requires Valid()
      modifies this`arrivalTimes, this`departureTimes, this`recordedStops, this`cancelledStops
      modifies this`predictionInaccurateOnStops, this`realTimeState
      ensures Valid() && View() == Materialized(old(View()))
      ensures RealtimeArraysFreshOrKept()
      ensures old(StopFlagsAvailable()) ==> StopFlagsAvailable()
    {
      if arrivalTimes == null {
        var n := scheduledArrivalTimes.Length;
        var arrivals, departures, recorded, cancelled, inaccurate :=
          NewRealtimeArrays(scheduledArrivalTimes, scheduledDepartureTimes, timeShift);
        arrivalTimes := arrivals;
        departureTimes := departures;
        recordedStops := recorded;
        cancelledStops := cancelled;
        predictionInaccurateOnStops := inaccurate;
        realTimeState := Updated;
      }
    }

    method UpdateArrivalTime(stop: int, time: int)
      requires Valid() && 0 <= stop < NumStops()
      modifies this`arrivalTimes, this`departureTimes, this`recordedStops, this`cancelledStops
      modifies this`predictionInaccurateOnStops, this`realTimeState, arrivalTimes
      ensures Valid() && GetArrivalTime(stop) == time
      ensures View() == var m := Materialized(old(View())); m.(arrivals := m.arrivals[stop := time])
      ensures RealtimeArraysFreshOrKept()
      ensures old(StopFlagsAvailable()) ==> StopFlagsAvailable()
    {
      CheckCreateTimesArrays();
      arrivalTimes[stop] := time;
    }

    method UpdateDepartureTime(stop: int, time: int)
      requires Valid() && 0 <= stop < NumStops()
      modifies this`arrivalTimes, this`departureTimes, this`recordedStops, this`cancelledStops
      modifies this`predictionInaccurateOnStops, this`realTimeState, departureTimes
      ensures Valid() && GetDepartureTime(stop) == time
      ensures View() == var m := Materialized(old(View())); m.(departures := m.departures[stop := time])
      ensures RealtimeArraysFreshOrKept()
      ensures old(StopFlagsAvailable()) ==> StopFlagsAvailable()
    {
      CheckCreateTimesArrays();
      departureTimes[stop] := time;
    }

    method UpdateArrivalDelay(stop: int, delay: int)
      requires Valid() && 0 <= stop < NumStops()
      modifies this`arrivalTimes, this`departureTimes, this`recordedStops, this`cancelledStops
      modifies this`predictionInaccurateOnStops, this`realTimeState, arrivalTimes
      ensures Valid() && GetArrivalDelay(stop) == delay
      ensures View() == var m := Materialized(old(View()));
        m.(arrivals := m.arrivals[stop := ScheduledArrivals()[stop] + delay])
      ensures RealtimeArraysFreshOrKept()
      ensures old(StopFlagsAvailable()) ==> StopFlagsAvailable()
    {
      CheckCreateTimesArrays();
      arrivalTimes[stop] := scheduledArrivalTimes[stop] + timeShift + delay;
    }

    method UpdateDepartureDelay(stop: int, delay: int)
      requires Valid() && 0 <= stop < NumStops()
      modifies this`arrivalTimes, this`departureTimes, this`recordedStops, this`cancelledStops
      modifies this`predictionInaccurateOnStops, this`realTimeState, departureTimes
      ensures Valid() && GetDepartureDelay(stop) == delay
      ensures View() == var m := Materialized(old(View()));
        m.(departures := m.departures[stop := ScheduledDepartures()[stop] + delay])
      ensures RealtimeArraysFreshOrKept()
      ensures old(StopFlagsAvailable()) ==> StopFlagsAvailable()
    {
      CheckCreateTimesArrays();
      departureTimes[stop] := scheduledDepartureTimes[stop] + timeShift + delay;
    }

    /**
     * The recorded and inaccurate-prediction flags exist whenever realtime times
     * do (a cancel() on an unmodified trip creates the times but not these flags).
     */
    predicate StopFlagsAvailable()
      reads this
    {
      arrivalTimes == null || recordedStops != null
    }

    method SetRecorded(stop: int, recorded: bool)
      requires Valid() && 0 <= stop < NumStops() && StopFlagsAvailable()
      modifies this`arrivalTimes, this`departureTimes, this`recordedStops, this`cancelledStops
      modifies this`predictionInaccurateOnStops, this`realTimeState, recordedStops
      ensures Valid() && IsRecordedStop(stop) == recorded
      ensures View() == var m := Materialized(old(View())); m.(recorded := m.recorded[stop := recorded])
      ensures RealtimeArraysFreshOrKept()
      ensures old(StopFlagsAvailable()) ==> StopFlagsAvailable()
    {
      CheckCreateTimesArrays();
      recordedStops[stop] := recorded;
    }

    method SetCancelledStop(stop: int, isCancelled: bool)
      requires Valid() && 0 <= stop < NumStops()
      modifies this`arrivalTimes, this`departureTimes, this`recordedStops, this`cancelledStops
      modifies this`predictionInaccurateOnStops, this`realTimeState, cancelledStops
      ensures Valid() && IsCancelledStop(stop) == isCancelled
      ensures View() == var m := Materialized(old(View())); m.(cancelled := m.cancelled[stop := isCancelled])
      ensures RealtimeArraysFreshOrKept()
      ensures old(StopFlagsAvailable()) ==> StopFlagsAvailable()
    {
      CheckCreateTimesArrays();
      cancelledStops[stop] := isCancelled;
    }

    method SetPredictionInaccurate(stop: int, predictionInaccurate: bool)
      requires Valid() && 0 <= stop < NumStops() && StopFlagsAvailable()
      modifies this`arrivalTimes, this`departureTimes, this`recordedStops, this`cancelledStops
      modifies this`predictionInaccurateOnStops, this`realTimeState, predictionInaccurateOnStops
      ensures Valid() && IsPredictionInaccurate(stop) == predictionInaccurate
      ensures View() == var m := Materialized(old(View()));
        m.(inaccurate := m.inaccurate[stop := predictionInaccurate])
      ensures RealtimeArraysFreshOrKept()
      ensures old(StopFlagsAvailable()) ==> StopFlagsAvailable()
    {
      CheckCreateTimesArrays();
      predictionInaccurateOnStops[stop] := predictionInaccurate;
    }

    method SetPickupType(stop: int, pickupType: int)
      requires Valid() && 0 <= stop < NumStops()
      modifies this`arrivalTimes, this`departureTimes, this`recordedStops, this`cancelledStops
      modifies this`predictionInaccurateOnStops, this`realTimeState, pickups
      ensures Valid() && GetPickupType(stop) == pickupType
      ensures View() == var m := Materialized(old(View())); m.(pickups := m.pickups[stop := pickupType])
      ensures RealtimeArraysFreshOrKept()
      ensures old(StopFlagsAvailable()) ==> StopFlagsAvailable()
    {
      CheckCreateTimesArrays();
      pickups[stop] := pickupType;
    }

    method SetDropoffType(stop: int, dropoffType: int)
      requires Valid() && 0 <= stop < NumStops()
      modifies this`arrivalTimes, this`departureTimes, this`recordedStops, this`cancelledStops
      modifies this`predictionInaccurateOnStops, this`realTimeState, dropoffs
      ensures Valid() && GetDropoffType(stop) == dropoffType
      ensures View() == var m := Materialized(old(View())); m.(dropoffs := m.dropoffs[stop := dropoffType])
      ensures RealtimeArraysFreshOrKept()
      ensures old(StopFlagsAvailable()) ==> StopFlagsAvailable()
    {
      CheckCreateTimesArrays();
      dropoffs[stop] := dropoffType;
    }

    /** Flags every stop as cancelled. */
    method CancelAllStops()
      requires Valid()
      modifies this`cancelledStops
      ensures Valid() && fresh(cancelledStops)
      ensures View() == old(View()).(cancelled := Filled(NumStops(), true))
    {
      var cancelled := new bool[NumStops()](_ => true);
      cancelledStops := cancelled;
      assert cancelled[..] == Filled(NumStops(), true);
    }

    /** Replaces the realtime times by new arrays holding UNAVAILABLE at every stop. */
    method MakeTimesUnavailable()
      requires Valid() && cancelledStops != null
      modifies this`arrivalTimes, this`departureTimes
      ensures Valid() && !IsScheduled() && fresh(arrivalTimes) && fresh(departureTimes)
      ensures View() == old(View()).(arrivals := Filled(NumStops(), UNAVAILABLE),
                                     departures := Filled(NumStops(), UNAVAILABLE), hasRealtime := true)
    {
      var arrivals := FilledArray(NumStops(), UNAVAILABLE);
      var departures := FilledArray(NumStops(), UNAVAILABLE);
      arrivalTimes := arrivals;
      departureTimes := departures;
    }

    /** Replaces the pickup and drop-off types by new arrays holding PICKDROP_NONE at every stop. */
    method DisallowPickupsAndDropoffs()
      requires Valid()
      modifies this`pickups, this`dropoffs
      ensures Valid() && fresh(pickups) && fresh(dropoffs)
      ensures View() == old(View()).(pickups := Filled(NumStops(), PICKDROP_NONE),
                                     dropoffs := Filled(NumStops(), PICKDROP_NONE))
    {
      var pickupTypes := FilledArray(NumStops(), PICKDROP_NONE);
      var dropoffTypes := FilledArray(NumStops(), PICKDROP_NONE);
      pickups := pickupTypes;
      dropoffs := dropoffTypes;
    }

    /** Cancels the whole trip: every time UNAVAILABLE, every stop cancelled, no pickup or drop-off. */
    method Cancel()
      requires Valid()
      modifies this`arrivalTimes, this`departureTimes, this`cancelledStops, this`pickups, this`dropoffs
      modifies this`realTimeState
      ensures Valid() && IsCanceled() && !IsScheduled()
      ensures View() == old(View()).(
        arrivals := Filled(NumStops(), UNAVAILABLE), departures := Filled(NumStops(), UNAVAILABLE),
        cancelled := Filled(NumStops(), true),
        pickups := Filled(NumStops(), PICKDROP_NONE), dropoffs := Filled(NumStops(), PICKDROP_NONE),
        state := Canceled, hasRealtime := true)
      ensures fresh(arrivalTimes) && fresh(departureTimes) && fresh(cancelledStops) && fresh(pickups) && fresh(dropoffs)
      ensures recordedStops == old(recordedStops) && predictionInaccurateOnStops == old(predictionInaccurateOnStops)
      ensures StopFlagsAvailable() <==> old(recordedStops) != null
    {
      CancelAllStops();
      MakeTimesUnavailable();
      DisallowPickupsAndDropoffs();
      realTimeState := Canceled;
    }

    /** Whether no dwell time and no running time is negative. */
    method TimesIncreasing() returns (ok: bool)
      requires Valid()
      ensures ok == TimesAreIncreasing(Arrivals(), Departures())
    {
      var nStops := scheduledArrivalTimes.Length;
      var prevDep := -1;
      var s := 0;
      while s < nStops
        invariant 0 <= s <= nStops
        invariant prevDep == (if s == 0 then UNAVAILABLE else Departures()[s - 1])
        invariant IncreasingUpTo(Arrivals(), Departures(), s)
      {
        var arr := GetArrivalTime(s);
        var dep := GetDepartureTime(s);
        if dep < arr {
          assert DwellTime(Arrivals(), Departures(), s) < 0;
          return false;
        }
        if prevDep > arr {
          assert s > 0 ==> RunningTime(Arrivals(), Departures(), s - 1) < 0;
          return false;
        }
        prevDep := dep;
        s := s + 1;
      }
      return true;
    }

    /**
     * A copy whose schedule is moved so that the vehicle passes `stop` at
     * `time`; no copy (null) when realtime times exist.
     */
    method TimeShift(stop: int, time: int, depart: bool) returns (shifted: TripTimes?)
      requires Valid() && 0 <= stop < NumStops()
      ensures shifted == null <==> !IsScheduled()
      ensures shifted != null ==>
        && fresh(shifted) && shifted.Valid() && shifted.IsScheduled()
        && shifted.NumStops() == NumStops()
        && (depart ==> shifted.GetDepartureTime(stop) == time)
        && (!depart ==> shifted.GetArrivalTime(stop) == time)
        && var delta := shifted.timeShift - timeShift;
           && (forall s :: 0 <= s < NumStops() ==>
                 shifted.GetArrivalTime(s) == GetArrivalTime(s) + delta &&
                 shifted.GetDepartureTime(s) == GetDepartureTime(s) + delta)
      ensures shifted != null ==>
        && shifted.trip == trip && shifted.serviceCode == serviceCode
        && shifted.headsigns == headsigns && shifted.sourceStopTimes == sourceStopTimes
        && shifted.scheduledArrivalTimes == scheduledArrivalTimes
        && shifted.scheduledDepartureTimes == scheduledDepartureTimes
        && shifted.recordedStops == recordedStops && shifted.cancelledStops == cancelledStops
        && shifted.predictionInaccurateOnStops == predictionInaccurateOnStops
        && shifted.pickups == pickups && shifted.dropoffs == dropoffs && shifted.realTimeState == realTimeState
        && shifted.stopSequences == stopSequences && shifted.timepoints == timepoints
        && shifted.bookingInfos == bookingInfos
    {
      if arrivalTimes != null || departureTimes != null {
        return null;
      }
      shifted := new TripTimes.Clone(this);
      var shift := time - (if depart then GetDepartureTime(stop) else GetArrivalTime(stop));
      shifted.timeShift := shifted.timeShift + shift;
    }

    /** The ints the semantic hash is computed from. */
    method SemanticHashInput() returns (ints: seq<int>)
      requires Valid()
      ensures ints == HopTimes(ScheduledDepartures(), ScheduledArrivals())
    {
      ints := [];
      var n := NumStops();
      if n == 0 {
        return;
      }
      var hop := 0;
      while hop + 1 < n
        invariant 0 <= hop < n
        invariant ints == HopTimes(ScheduledDepartures()[..hop + 1], ScheduledArrivals()[..hop + 1])
      {
        assert ScheduledDepartures()[..hop + 2][..hop + 1] == ScheduledDepartures()[..hop + 1];
        assert ScheduledArrivals()[..hop + 2][..hop + 1] == ScheduledArrivals()[..hop + 1];
        ints := ints + [GetScheduledDepartureTime(hop), GetScheduledArrivalTime(hop + 1)];
        hop := hop + 1;
      }
      assert ScheduledDepartures()[..hop + 1] == ScheduledDepartures();
      assert ScheduledArrivals()[..hop + 1] == ScheduledArrivals();
    }
  }

  /**
   * While a trip has no realtime layer, every read returns the scheduled time,
   * so a trip built from stop times reads back those times, with zero delays.
   */
  lemma ScheduledReadsAreOriginal(tt: TripTimes, stopTimes: seq<StopTime>)
    requires tt.Valid() && tt.IsScheduled() && tt.NumStops() == |stopTimes|
    requires forall s :: 0 <= s < |stopTimes| ==> tt.GetScheduledArrivalTime(s) == stopTimes[s].arrivalTime
    requires forall s :: 0 <= s < |stopTimes| ==> tt.GetScheduledDepartureTime(s) == stopTimes[s].departureTime
    ensures forall s :: 0 <= s < |stopTimes| ==>
      && tt.GetArrivalTime(s) == stopTimes[s].arrivalTime && tt.GetDepartureTime(s) == stopTimes[s].departureTime
      && tt.GetArrivalDelay(s) == 0 && tt.GetDepartureDelay(s) == 0
  {
  }

  /** A realtime update leaves the ints of the semantic hash as they were. */
  method SemanticHashIgnoresRealtime(tt: TripTimes, stop: int, time: int) returns (before: seq<int>, after: seq<int>)
    requires tt.Valid() && 0 <= stop < tt.NumStops()
    modifies tt, tt.arrivalTimes
    ensures before == after
  {
    before := tt.SemanticHashInput();
    tt.UpdateArrivalTime(stop, time);
    after := tt.SemanticHashInput();
  }
}
