/**
 * The reference journey used by the Raptor tests: walk to A, bus L11 to B,
 * walk to C, bus L21 to D, bus L31 to E, walk to the destination; 10:00 to
 * 12:00 with a generalized cost of 8184. The constants fix the cost formulas
 * and slack arithmetic, and the journey is given three times: as found by a
 * forward search, as found by a reverse search, and as a path of legs.
 */
module BasicPath {
  import opened Wrappers
  import opened PathLegs
  import opened JavaInt

  /** Math.round: the nearest integer, halves rounded up. */
  function RoundHalfUp(x: real): (r: int)
    ensures r as real - 0.5 <= x < r as real + 0.5
  {
    (x + 0.5).Floor
  }

  /** Seconds (possibly fractional, after a reluctance) to Raptor cost units, hundredths of a second. */
  function ToRaptorCost(seconds: real): (c: int)
    ensures c as real - 0.5 <= seconds * 100.0 < c as real + 0.5
  {
    RoundHalfUp(seconds * 100.0)
  }

  /**
   * Raptor cost units back to whole seconds of generalized cost: `(c + 50) / 100`
   * in Java's int division, the nearest whole unit for costs down to -50.
   */
  function ToDomainCost(raptorCost: int): (c: int)
    ensures raptorCost >= -50 ==> c * 100 - 50 <= raptorCost < c * 100 + 50
    ensures raptorCost < -50 ==> c * 100 - 150 < raptorCost <= c * 100 - 50
  {
    JavaDiv(raptorCost + 50, 100)
  }

  /**
   * Whole non-negative seconds survive the trip to Raptor cost units and back;
   * negative ones come back one higher, as the division rounds toward zero.
   */
  lemma CostConversionRoundTrip(seconds: int)
    ensures ToRaptorCost(seconds as real) == 100 * seconds
    ensures seconds >= 0 ==> ToDomainCost(ToRaptorCost(seconds as real)) == seconds
    ensures seconds < 0 ==> ToDomainCost(ToRaptorCost(seconds as real)) == seconds + 1
  {
    RoundWhole(100 * seconds);
  }

  /** Rounding a whole number changes nothing. */
  lemma RoundWhole(k: int)
    ensures RoundHalfUp(k as real) == k
  {
  }

  // Slack and cost parameters of the test case.
  const BOARD_SLACK: int := 45
  const ALIGHT_SLACK: int := 15
  const BOARD_COST_SEC: int := 60
  const TRANSFER_COST_SEC: int := 120
  const TRANSFER_RELUCTANCE: real := 2.0
  const WAIT_RELUCTANCE: real := 0.8
  /** The two reluctances in hundredths, the unit the integer cost formulas use. */
  const TRANSFER_RELUCTANCE_PCT: int := 200
  const WAIT_RELUCTANCE_PCT: int := 80

  // Stop indexes: no stop is 0, then A = 1, B = 2 and so on.
  const STOP_A: int := 1
  const STOP_B: int := 2
  const STOP_C: int := 3
  const STOP_D: int := 4
  const STOP_E: int := 5
  const STOP_F: int := 6

  /** Boarding or alighting at B costs 30 s and at D 60 s (in Raptor units); every other stop is free. */
  const STOP_COSTS: seq<int> := [0, 0, 3000, 0, 6000, 0, 0, 0, 0, 0]

  /** The reluctances in hundredths are the source's factors exactly. */
  lemma ReluctancesInHundredths()
    ensures TRANSFER_RELUCTANCE * 100.0 == TRANSFER_RELUCTANCE_PCT as real
    ensures WAIT_RELUCTANCE * 100.0 == WAIT_RELUCTANCE_PCT as real
  {
  }

  /** The cost of walking for `duration` seconds, in Raptor units. */
  function WalkCost(duration: int): int
  {
    duration * TRANSFER_RELUCTANCE_PCT
  }

  /**
   * The cost of one transit ride, in Raptor units: the board and alight stop
   * costs, the board cost, the transfer cost unless this is the first boarding,
   * the wait weighted by the wait reluctance, and the ride itself.
   */
  function TransitArrivalCost(firstBoarding: bool, boardStop: int, waitTime: int, transitTime: int, alightStop: int): int
    requires 0 <= boardStop < |STOP_COSTS| && 0 <= alightStop < |STOP_COSTS|
  {
    STOP_COSTS[boardStop] + STOP_COSTS[alightStop]
    + 100 * (BOARD_COST_SEC + (if firstBoarding then 0 else TRANSFER_COST_SEC) + transitTime)
    + WAIT_RELUCTANCE_PCT * waitTime
  }

  /** The integer walk cost is the duration times the transfer reluctance, converted without rounding error. */
  lemma WalkCostIsWeightedDuration(duration: int)
    ensures WalkCost(duration) == ToRaptorCost(duration as real * TRANSFER_RELUCTANCE)
  {
    assert duration as real * TRANSFER_RELUCTANCE * 100.0 == WalkCost(duration) as real;
    RoundWhole(WalkCost(duration));
  }

  /** The integer transit cost is the source's weighted sum of seconds, converted without rounding error. */
  lemma TransitArrivalCostIsWeightedSum(firstBoarding: bool, boardStop: int, waitTime: int, transitTime: int, alightStop: int)
    requires 0 <= boardStop < |STOP_COSTS| && 0 <= alightStop < |STOP_COSTS|
    ensures TransitArrivalCost(firstBoarding, boardStop, waitTime, transitTime, alightStop)
      == STOP_COSTS[boardStop] + STOP_COSTS[alightStop]
         + ToRaptorCost((BOARD_COST_SEC + (if firstBoarding then 0 else TRANSFER_COST_SEC)) as real
                        + WAIT_RELUCTANCE * waitTime as real + transitTime as real)
  {
    var weighted := 100 * (BOARD_COST_SEC + (if firstBoarding then 0 else TRANSFER_COST_SEC) + transitTime)
                    + WAIT_RELUCTANCE_PCT * waitTime;
    assert ((BOARD_COST_SEC + (if firstBoarding then 0 else TRANSFER_COST_SEC)) as real
            + WAIT_RELUCTANCE * waitTime as real + transitTime as real) * 100.0 == weighted as real;
    RoundWhole(weighted);
  }

  /** A boarding after a transfer costs exactly the transfer cost more than a first boarding. */
  lemma TransferPenalty(boardStop: int, waitTime: int, transitTime: int, alightStop: int)
    requires 0 <= boardStop < |STOP_COSTS| && 0 <= alightStop < |STOP_COSTS|
    ensures TransitArrivalCost(false, boardStop, waitTime, transitTime, alightStop)
      == TransitArrivalCost(true, boardStop, waitTime, transitTime, alightStop) + ToRaptorCost(TRANSFER_COST_SEC as real)
  {
    CostConversionRoundTrip(TRANSFER_COST_SEC);
  }

  // Times of day are seconds after midnight, with the clock time beside each.
  // Times that play no part in the journey.
  const VERY_EARLY: int := 0  // 00:00:00
  const VERY_LATE: int := 86340  // 23:59:00

  // Access: walk 3m15s to A.
  const ACCESS_START: int := 36000  // 10:00:00
  const ACCESS_END: int := 36195  // 10:03:15
  const ACCESS_DURATION: int := ACCESS_END - ACCESS_START
  const ACCESS_COST: int := ToRaptorCost(ACCESS_DURATION as real * TRANSFER_RELUCTANCE)

  // Trip 1: A ~ BUS L11 10:04 10:35 ~ B.
  const L11_START: int := 36240  // 10:04:00
  const L11_END: int := 38100  // 10:35:00
  const L11_DURATION: int := L11_END - L11_START
  const L11_WAIT_DURATION: int := L11_START - ACCESS_END + ALIGHT_SLACK
  const LINE_11_COST: int := STOP_COSTS[STOP_A] + STOP_COSTS[STOP_B]
    + ToRaptorCost(BOARD_COST_SEC as real + WAIT_RELUCTANCE * L11_WAIT_DURATION as real + L11_DURATION as real)

  // Transfer: B ~ walk 3m45s ~ C.
  const TX_START: int := 38115  // 10:35:15
  const TX_END: int := 38340  // 10:39:00
  const TX_DURATION: int := TX_END - TX_START
  const TX_COST: int := ToRaptorCost(TX_DURATION as real * TRANSFER_RELUCTANCE)

  // Trip 2: C ~ BUS L21 11:00 11:23 ~ D.
  const L21_START: int := 39600  // 11:00:00
  const L21_END: int := 40980  // 11:23:00
  const L21_DURATION: int := L21_END - L21_START
  const L21_WAIT_DURATION: int := L21_START - TX_END + ALIGHT_SLACK
  const LINE_21_COST: int := STOP_COSTS[STOP_C] + STOP_COSTS[STOP_D]
    + ToRaptorCost((BOARD_COST_SEC + TRANSFER_COST_SEC) as real + WAIT_RELUCTANCE * L21_WAIT_DURATION as real
                   + L21_DURATION as real)

  // Trip 3: D ~ BUS L31 11:40 11:52 ~ E.
  const L31_START: int := 42000  // 11:40:00
  const L31_END: int := 42720  // 11:52:00
  const L31_DURATION: int := L31_END - L31_START
  const L31_WAIT_DURATION: int := L31_START - (L21_END + ALIGHT_SLACK) + ALIGHT_SLACK
  const LINE_31_COST: int := STOP_COSTS[STOP_D] + STOP_COSTS[STOP_E]
    + ToRaptorCost((BOARD_COST_SEC + TRANSFER_COST_SEC) as real + WAIT_RELUCTANCE * L31_WAIT_DURATION as real
                   + L31_DURATION as real)

  // Egress: E ~ walk 7m45s.
  const EGRESS_START: int := 42735  // 11:52:15
  const EGRESS_END: int := 43200  // 12:00:00
  const EGRESS_DURATION: int := EGRESS_END - EGRESS_START
  const EGRESS_COST: int := ToRaptorCost(EGRESS_DURATION as real * TRANSFER_RELUCTANCE)

  const TRIP_DURATION: int := EGRESS_END - ACCESS_START

  const TOTAL_COST: int := ACCESS_COST + LINE_11_COST + TX_COST + LINE_21_COST + LINE_31_COST + EGRESS_COST

  /** The test data is consistent: boarding and alighting slack account for the gaps around the rides. */
  lemma SlackArithmetic()
    ensures ACCESS_END + BOARD_SLACK == L11_START
    ensures L11_WAIT_DURATION == BOARD_SLACK + ALIGHT_SLACK
    ensures L31_END + ALIGHT_SLACK == EGRESS_START
  {
  }

  /** Every leg's duration plus every wait adds up to the two hours from start to arrival. */
  lemma DurationsAddUp()
    ensures ACCESS_DURATION + L11_DURATION + L11_WAIT_DURATION + TX_DURATION
            + L21_DURATION + L21_WAIT_DURATION + L31_DURATION + L31_WAIT_DURATION + EGRESS_DURATION
            == TRIP_DURATION
    ensures TRIP_DURATION == 7200
  {
  }

  /** The constants agree with the cost calculator's walk and transit formulas. */
  lemma CostsMatchCalculator()
    ensures ACCESS_COST == WalkCost(ACCESS_DURATION)
    ensures LINE_11_COST == TransitArrivalCost(true, STOP_A, L11_WAIT_DURATION, L11_DURATION, STOP_B)
    ensures TX_COST == WalkCost(TX_DURATION)
    ensures LINE_21_COST == TransitArrivalCost(false, STOP_C, L21_WAIT_DURATION, L21_DURATION, STOP_D)
    ensures LINE_31_COST == TransitArrivalCost(false, STOP_D, L31_WAIT_DURATION, L31_DURATION, STOP_E)
    ensures EGRESS_COST == WalkCost(EGRESS_DURATION)
  {
    WalkCostIsWeightedDuration(ACCESS_DURATION);
    WalkCostIsWeightedDuration(TX_DURATION);
    WalkCostIsWeightedDuration(EGRESS_DURATION);
    TransitArrivalCostIsWeightedSum(true, STOP_A, L11_WAIT_DURATION, L11_DURATION, STOP_B);
    TransitArrivalCostIsWeightedSum(false, STOP_C, L21_WAIT_DURATION, L21_DURATION, STOP_D);
    TransitArrivalCostIsWeightedSum(false, STOP_D, L31_WAIT_DURATION, L31_DURATION, STOP_E);
  }

  /** The leg costs, their total 818400 and its domain value 8184, which is also the sum of the legs' domain costs. */
  lemma ScenarioCosts()
    ensures ACCESS_COST == 39000 && LINE_11_COST == 199800 && TX_COST == 45000
    ensures LINE_21_COST == 264000 && LINE_31_COST == 177600 && EGRESS_COST == 93000
    ensures TOTAL_COST == 818400 && ToDomainCost(TOTAL_COST) == 8184
    ensures ToDomainCost(TOTAL_COST) == ToDomainCost(ACCESS_COST) + ToDomainCost(LINE_11_COST) + ToDomainCost(TX_COST)
            + ToDomainCost(LINE_21_COST) + ToDomainCost(LINE_31_COST) + ToDomainCost(EGRESS_COST)
  {
    CostsMatchCalculator();
  }

  /** A trip of a test pattern: its stops and the arrival and departure time at each. */
  datatype TripSchedule = TripSchedule(pattern: string, stops: seq<int>, arrivals: seq<int>, departures: seq<int>)

  /** The trip visits `stop`, and has one arrival and one departure per stop. */
  predicate Serves(trip: TripSchedule, stop: int)
  {
    |trip.arrivals| == |trip.stops| && |trip.departures| == |trip.stops| && stop in trip.stops
  }

  /** The first position of `x` in `s`. */
  function IndexOf(s: seq<int>, x: int): (i: nat)
    requires x in s
    ensures i < |s| && s[i] == x && forall j :: 0 <= j < i ==> s[j] != x
  {
    if s[0] == x then 0 else 1 + IndexOf(s[1..], x)
  }

  /** Departure time of the trip at `stop`. */
  function DepartureAt(trip: TripSchedule, stop: int): int
    requires Serves(trip, stop)
  {
    trip.departures[IndexOf(trip.stops, stop)]
  }

  /** Arrival time of the trip at `stop`. */
  function ArrivalAt(trip: TripSchedule, stop: int): int
    requires Serves(trip, stop)
  {
    trip.arrivals[IndexOf(trip.stops, stop)]
  }

  const TRIP_1: TripSchedule := TripSchedule("L11", [STOP_A, STOP_B], [L11_START, L11_END], [L11_START, L11_END])
  const TRIP_2: TripSchedule := TripSchedule("L21", [STOP_C, STOP_D], [L21_START, L21_END], [L21_START, L21_END])

  /** The third trip, with a given arrival at its first stop and departure from its last, times no search uses. */
  function Trip3(earlyArrival: int, lateDeparture: int): TripSchedule
  {
    TripSchedule("L31", [STOP_D, STOP_E], [earlyArrival, L31_END], [L31_START, lateDeparture])
  }

  const TRIP_3: TripSchedule := Trip3(VERY_EARLY, VERY_LATE)

  /** A stop arrival of a search, linked to the arrival it was reached from. */
  datatype StopArrival =
    | Access(stop: int, departureTime: int, arrivalTime: int, cost: int)
    | Bus(round: int, stop: int, arrivalTime: int, cost: int, trip: TripSchedule, previous: StopArrival)
    | Walk(round: int, stop: int, departureTime: int, arrivalTime: int, cost: int, previous: StopArrival)

  /** The arrival at the destination, after the stop arrivals. */
  datatype Egress = Egress(departureTime: int, arrivalTime: int, cost: int, previous: StopArrival)

  /** Every bus boards at the stop it was reached from and alights at its own stop, both on its trip. */
  predicate ChainFormed(a: StopArrival)
  {
    match a
    case Access(_, _, _, _) => true
    case Bus(_, stop, _, _, trip, previous) => Serves(trip, previous.stop) && Serves(trip, stop) && ChainFormed(previous)
    case Walk(_, _, _, _, _, previous) => ChainFormed(previous)
  }

  /**
   * Every bus arrival time is its trip's time at the stop: the arrival there in
   * a forward search, the departure there in a reverse search (which moves
   * backwards in time).
   */
  predicate TimesFromSchedule(a: StopArrival, forward: bool)
    requires ChainFormed(a)
  {
    match a
    case Access(_, _, _, _) => true
    case Bus(_, stop, arrivalTime, _, trip, previous) =>
      arrivalTime == (if forward then ArrivalAt(trip, stop) else DepartureAt(trip, stop))
      && TimesFromSchedule(previous, forward)
    case Walk(_, _, _, _, _, previous) => TimesFromSchedule(previous, forward)
  }

  /** One leg, as the searches and the path can both describe it. */
  datatype LegTimes = LegTimes(fromStop: Option<int>, fromTime: int, toStop: Option<int>, toTime: int,
                               cost: int, trip: Option<TripSchedule>)

  /**
   * The legs behind a stop arrival, first leg first. A bus leg starts at the
   * stop it was reached from, at the trip's departure there in a forward search
   * and at its arrival there in a reverse search.
   */
  function ArrivalLegs(a: StopArrival, forward: bool): (r: seq<LegTimes>)
    requires ChainFormed(a)
    ensures |r| >= 1 && r[|r| - 1].toStop == Some(a.stop) && r[|r| - 1].toTime == a.arrivalTime
  {
    match a
    case Access(stop, departureTime, arrivalTime, cost) =>
      [LegTimes(None, departureTime, Some(stop), arrivalTime, cost, None)]
    case Bus(_, stop, arrivalTime, cost, trip, previous) =>
      var boarding := if forward then DepartureAt(trip, previous.stop) else ArrivalAt(trip, previous.stop);
      ArrivalLegs(previous, forward) + [LegTimes(Some(previous.stop), boarding, Some(stop), arrivalTime, cost, Some(trip))]
    case Walk(_, stop, departureTime, arrivalTime, cost, previous) =>
      ArrivalLegs(previous, forward) + [LegTimes(Some(previous.stop), departureTime, Some(stop), arrivalTime, cost, None)]
  }

  /** All legs of a search result, ending with the leg to (or, in reverse, from) the destination. */
  function EgressLegs(e: Egress, forward: bool): (r: seq<LegTimes>)
    requires ChainFormed(e.previous)
    ensures |r| >= 2 && r[|r| - 1].toStop.None? && r[|r| - 1].toTime == e.arrivalTime
  {
    ArrivalLegs(e.previous, forward)
    + [LegTimes(Some(e.previous.stop), e.departureTime, None, e.arrivalTime, e.cost, None)]
  }

  /** The same leg travelled the other way in time: from and to swapped. */
  function Mirror(l: LegTimes): LegTimes
  {
    LegTimes(l.toStop, l.toTime, l.fromStop, l.fromTime, l.cost, l.trip)
  }

  /** The legs in reverse order, each mirrored. */
  function MirrorAll(legs: seq<LegTimes>): (r: seq<LegTimes>)
    ensures |r| == |legs| && forall i :: 0 <= i < |legs| ==> r[i] == Mirror(legs[|legs| - 1 - i])
  {
    seq(|legs|, i requires 0 <= i < |legs| => Mirror(legs[|legs| - 1 - i]))
  }

  /** Mirroring twice gives back the original legs. */
  lemma MirrorAllInvolution(legs: seq<LegTimes>)
    ensures MirrorAll(MirrorAll(legs)) == legs
  {
    assert forall i :: 0 <= i < |legs| ==> MirrorAll(MirrorAll(legs))[i] == legs[i];
  }

  /** The journey as a forward search reaches it, with a given third trip. */
  function ForwardSearch(trip3: TripSchedule): Egress
  {
    var access := Access(STOP_A, ACCESS_START, ACCESS_END, ACCESS_COST);
    var bus1 := Bus(1, STOP_B, L11_END, LINE_11_COST, TRIP_1, access);
    var walk := Walk(1, STOP_C, TX_START, TX_END, TX_COST, bus1);
    var bus2 := Bus(2, STOP_D, L21_END, LINE_21_COST, TRIP_2, walk);
    var bus3 := Bus(3, STOP_E, L31_END, LINE_31_COST, trip3, bus2);
    Egress(EGRESS_START, EGRESS_END, EGRESS_COST, bus3)
  }

  /** The journey as a reverse search reaches it, from the destination back to the origin. */
  function ReverseSearch(trip3: TripSchedule): Egress
  {
    var access := Access(STOP_E, EGRESS_END, EGRESS_START, EGRESS_COST);
    var bus1 := Bus(1, STOP_D, L31_START, LINE_31_COST, trip3, access);
    var bus2 := Bus(2, STOP_C, L21_START, LINE_21_COST, TRIP_2, bus1);
    var walk := Walk(2, STOP_B, TX_END, TX_START, TX_COST, bus2);
    var bus3 := Bus(3, STOP_A, L11_START, LINE_11_COST, TRIP_1, walk);
    Egress(ACCESS_END, ACCESS_START, ACCESS_COST, bus3)
  }

  function BasicTripByForwardSearch(): Egress
  {
    ForwardSearch(TRIP_3)
  }

  function BasicTripByReverseSearch(): Egress
  {
    ReverseSearch(TRIP_3)
  }

  /** The forward legs, written out. */
  function ForwardLegs(trip3: TripSchedule): seq<LegTimes>
  {
    [LegTimes(None, ACCESS_START, Some(STOP_A), ACCESS_END, ACCESS_COST, None),
     LegTimes(Some(STOP_A), L11_START, Some(STOP_B), L11_END, LINE_11_COST, Some(TRIP_1)),
     LegTimes(Some(STOP_B), TX_START, Some(STOP_C), TX_END, TX_COST, None),
     LegTimes(Some(STOP_C), L21_START, Some(STOP_D), L21_END, LINE_21_COST, Some(TRIP_2)),
     LegTimes(Some(STOP_D), L31_START, Some(STOP_E), L31_END, LINE_31_COST, Some(trip3)),
     LegTimes(Some(STOP_E), EGRESS_START, None, EGRESS_END, EGRESS_COST, None)]
  }

  /** The forward search describes the legs above, and each bus arrives when its trip does. */
  lemma ForwardSearchLegs(early: int, late: int)
    ensures ChainFormed(ForwardSearch(Trip3(early, late)).previous)
    ensures TimesFromSchedule(ForwardSearch(Trip3(early, late)).previous, true)
    ensures EgressLegs(ForwardSearch(Trip3(early, late)), true) == ForwardLegs(Trip3(early, late))
  {
    var e := ForwardSearch(Trip3(early, late));
    var bus3 := e.previous;
    var bus2 := bus3.previous;
    var walk := bus2.previous;
    var bus1 := walk.previous;
    assert ChainFormed(bus1) && ChainFormed(walk) && ChainFormed(bus2) && ChainFormed(bus3);
    assert TimesFromSchedule(bus1, true);
    assert TimesFromSchedule(walk, true);
    assert TimesFromSchedule(bus2, true);
    assert ArrivalLegs(bus1, true) == ForwardLegs(Trip3(early, late))[..2];
    assert ArrivalLegs(walk, true) == ForwardLegs(Trip3(early, late))[..3];
    assert ArrivalLegs(bus2, true) == ForwardLegs(Trip3(early, late))[..4];
    assert ArrivalLegs(bus3, true) == ForwardLegs(Trip3(early, late))[..5];
  }

  /** The reverse legs, written out: the destination first, times running backwards. */
  function ReverseLegs(trip3: TripSchedule): seq<LegTimes>
  {
    [LegTimes(None, EGRESS_END, Some(STOP_E), EGRESS_START, EGRESS_COST, None),
     LegTimes(Some(STOP_E), L31_END, Some(STOP_D), L31_START, LINE_31_COST, Some(trip3)),
     LegTimes(Some(STOP_D), L21_END, Some(STOP_C), L21_START, LINE_21_COST, Some(TRIP_2)),
     LegTimes(Some(STOP_C), TX_END, Some(STOP_B), TX_START, TX_COST, None),
     LegTimes(Some(STOP_B), L11_END, Some(STOP_A), L11_START, LINE_11_COST, Some(TRIP_1)),
     LegTimes(Some(STOP_A), ACCESS_END, None, ACCESS_START, ACCESS_COST, None)]
  }

  /** The reverse search describes the legs above, and each bus leaves when its trip does. */
  lemma ReverseSearchLegs(early: int, late: int)
    ensures ChainFormed(ReverseSearch(Trip3(early, late)).previous)
    ensures TimesFromSchedule(ReverseSearch(Trip3(early, late)).previous, false)
    ensures EgressLegs(ReverseSearch(Trip3(early, late)), false) == ReverseLegs(Trip3(early, late))
  {
    var e := ReverseSearch(Trip3(early, late));
    var bus3 := e.previous;
    var walk := bus3.previous;
    var bus2 := walk.previous;
    var bus1 := bus2.previous;
    assert ChainFormed(bus1) && ChainFormed(bus2) && ChainFormed(walk) && ChainFormed(bus3);
    assert TimesFromSchedule(bus1, false);
    assert TimesFromSchedule(bus2, false);
    assert TimesFromSchedule(walk, false);
    assert ArrivalLegs(bus1, false) == ReverseLegs(Trip3(early, late))[..2];
    assert ArrivalLegs(bus2, false) == ReverseLegs(Trip3(early, late))[..3];
    assert ArrivalLegs(walk, false) == ReverseLegs(Trip3(early, late))[..4];
    assert ArrivalLegs(bus3, false) == ReverseLegs(Trip3(early, late))[..5];
  }

  /** The reverse legs are the forward legs in the opposite order, each mirrored. */
  lemma ReverseLegsMirrorForward(trip3: TripSchedule)
    ensures ReverseLegs(trip3) == MirrorAll(ForwardLegs(trip3))
  {
    var r, m := ReverseLegs(trip3), MirrorAll(ForwardLegs(trip3));
    assert |r| == |m| == 6;
    forall k | 0 <= k < 6
      ensures r[k] == m[k]
    {
      assert m[k] == Mirror(ForwardLegs(trip3)[5 - k]);
    }
  }

  /**
   * The reverse search finds the same journey: its legs are the forward legs in
   * the opposite order, each with from and to swapped, and each bus leaves
   * when its trip does.
   */
  lemma ReverseSearchMirrorsForward(early: int, late: int)
    ensures ChainFormed(ForwardSearch(Trip3(early, late)).previous)
    ensures ChainFormed(ReverseSearch(Trip3(early, late)).previous)
    ensures TimesFromSchedule(ReverseSearch(Trip3(early, late)).previous, false)
    ensures EgressLegs(ReverseSearch(Trip3(early, late)), false)
            == MirrorAll(EgressLegs(ForwardSearch(Trip3(early, late)), true))
  {
    ForwardSearchLegs(early, late);
    ReverseSearchLegs(early, late);
    ReverseLegsMirrorForward(Trip3(early, late));
  }

  /**
   * The early arrival and late departure of the third trip affect neither
   * search: with other such times, each search finds the same legs, the third
   * trip's leg naming the other trip.
   */
  lemma UnusedTimesHaveNoEffect(early: int, late: int, early': int, late': int)
    ensures ChainFormed(ForwardSearch(Trip3(early, late)).previous) && ChainFormed(ForwardSearch(Trip3(early', late')).previous)
    ensures ChainFormed(ReverseSearch(Trip3(early, late)).previous) && ChainFormed(ReverseSearch(Trip3(early', late')).previous)
    ensures |EgressLegs(ForwardSearch(Trip3(early, late)), true)| == |EgressLegs(ReverseSearch(Trip3(early, late)), false)| == 6
    ensures EgressLegs(ForwardSearch(Trip3(early', late')), true)
            == EgressLegs(ForwardSearch(Trip3(early, late)), true)
              [4 := EgressLegs(ForwardSearch(Trip3(early, late)), true)[4].(trip := Some(Trip3(early', late')))]
    ensures EgressLegs(ReverseSearch(Trip3(early', late')), false)
            == EgressLegs(ReverseSearch(Trip3(early, late)), false)
              [1 := EgressLegs(ReverseSearch(Trip3(early, late)), false)[1].(trip := Some(Trip3(early', late')))]
  {
    ForwardSearchLegs(early, late);
    ForwardSearchLegs(early', late');
    ReverseSearchLegs(early, late);
    ReverseSearchLegs(early', late');
  }

  /** A Raptor path: the iteration's departure time, the access leg heading the chain, and the total cost. */
  datatype Path<T> = Path(iterationDepartureTime: int, accessLeg: PathLeg<T>, generalizedCost: int)

  // The legs of the journey as a path, built from the last to the first; every cost is in domain units.
  const ACCESS: RaptorTransfer := RaptorTransfer(STOP_B, ACCESS_DURATION)
  const EGRESS: RaptorTransfer := RaptorTransfer(STOP_F, EGRESS_DURATION)
  const TRANSFER: RaptorTransfer := RaptorTransfer(STOP_C, TX_END - TX_START)
  const LEG_6: PathLeg<TripSchedule> := EgressLeg(EGRESS, STOP_E, EGRESS_START, EGRESS_END, ToDomainCost(EGRESS_COST))
  const LEG_5: PathLeg<TripSchedule> := TransitLeg(STOP_D, L31_START, STOP_E, L31_END, ToDomainCost(LINE_31_COST), TRIP_3, LEG_6)
  const LEG_4: PathLeg<TripSchedule> := TransitLeg(STOP_C, L21_START, STOP_D, L21_END, ToDomainCost(LINE_21_COST), TRIP_2, LEG_5)
  const LEG_3: PathLeg<TripSchedule> :=
    TransferLeg(STOP_B, TX_START, STOP_C, TX_END, ToDomainCost(TX_COST), TRANSFER, AsTransitLeg(LEG_4))
  const LEG_2: PathLeg<TripSchedule> := TransitLeg(STOP_A, L11_START, STOP_B, L11_END, ToDomainCost(LINE_11_COST), TRIP_1, LEG_3)
  const LEG_1: PathLeg<TripSchedule> :=
    AccessLeg(ACCESS, STOP_A, ACCESS_START, ACCESS_END, ToDomainCost(ACCESS_COST), AsTransitLeg(LEG_2))

  /** The journey as a path. */
  function BasicTripAsPath(): Path<TripSchedule>
  {
    Path(1, LEG_1, ToDomainCost(TOTAL_COST))
  }

  /** The stops the journey passes, in order. */
  function BasicTripStops(): seq<int>
  {
    [STOP_A, STOP_B, STOP_C, STOP_D, STOP_E]
  }

  /** A path leg described as the searches describe theirs. */
  function LegTimesOf(l: PathLeg<TripSchedule>): LegTimes
  {
    LegTimes(FromStop(l), l.fromTime, ToStop(l), l.toTime, l.generalizedCost,
             if l.TransitLeg? then Some(l.trip) else None)
  }

  /** Every leg of a chain, described as the searches describe theirs. */
  function PathLegTimes(l: PathLeg<TripSchedule>): seq<LegTimes>
  {
    if l.EgressLeg? then [LegTimesOf(l)] else [LegTimesOf(l)] + PathLegTimes(l.next)
  }

  /** Describing the chain describes each leg the iteration meets, in order. */
  lemma {:induction false} PathLegTimesFollowLegs(l: PathLeg<TripSchedule>)
    ensures |PathLegTimes(l)| == |Legs(l)|
    ensures forall k :: 0 <= k < |Legs(l)| ==> PathLegTimes(l)[k] == LegTimesOf(Legs(l)[k])
  {
    if !l.EgressLeg? {
      PathLegTimesFollowLegs(l.next);
      assert forall k :: 1 <= k < |Legs(l)| ==> Legs(l)[k] == Legs(l.next)[k - 1];
    }
  }

  /** Each leg with its cost converted to domain units. */
  function InDomainCost(legs: seq<LegTimes>): (r: seq<LegTimes>)
    ensures |r| == |legs| && forall k :: 0 <= k < |legs| ==> r[k] == legs[k].(cost := ToDomainCost(legs[k].cost))
  {
    seq(|legs|, k requires 0 <= k < |legs| => legs[k].(cost := ToDomainCost(legs[k].cost)))
  }

  /** The legs the path's iteration meets, written out. */
  lemma PathLegsListed()
    ensures |Legs(LEG_1)| == 6
    ensures Legs(LEG_1)[0] == LEG_1 && Legs(LEG_1)[1] == LEG_2 && Legs(LEG_1)[2] == LEG_3
    ensures Legs(LEG_1)[3] == LEG_4 && Legs(LEG_1)[4] == LEG_5 && Legs(LEG_1)[5] == LEG_6
  {
    LegsStep(LEG_1, 0);
    LegsStep(LEG_1, 1);
    LegsStep(LEG_1, 2);
    LegsStep(LEG_1, 3);
    LegsStep(LEG_1, 4);
    LegsStep(LEG_1, 5);
  }

  /** The path's legs, leg by leg, are the forward legs with their costs in domain units. */
  lemma PathLegsWrittenOut()
    ensures PathLegTimes(BasicTripAsPath().accessLeg) == InDomainCost(ForwardLegs(TRIP_3))
  {
    PathLegsListed();
    PathLegTimesFollowLegs(LEG_1);
    var p := PathLegTimes(LEG_1);
    var d := InDomainCost(ForwardLegs(TRIP_3));
    assert |p| == |d| == 6;
    forall k | 0 <= k < 6
      ensures p[k] == d[k]
    {
      assert p[k] == LegTimesOf(Legs(LEG_1)[k]);
    }
  }

  /** The path describes the journey the forward search found, with costs in domain units. */
  lemma ForwardSearchGivesThePath()
    ensures ChainFormed(BasicTripByForwardSearch().previous)
    ensures PathLegTimes(BasicTripAsPath().accessLeg) == InDomainCost(EgressLegs(BasicTripByForwardSearch(), true))
  {
    ForwardSearchLegs(VERY_EARLY, VERY_LATE);
    PathLegsWrittenOut();
  }

  /** Read back to front and mirrored, the reverse search's journey is the path too. */
  lemma ReverseSearchGivesThePath()
    ensures ChainFormed(BasicTripByReverseSearch().previous)
    ensures PathLegTimes(BasicTripAsPath().accessLeg)
            == InDomainCost(MirrorAll(EgressLegs(BasicTripByReverseSearch(), false)))
  {
    ForwardSearchGivesThePath();
    ReverseSearchMirrorsForward(VERY_EARLY, VERY_LATE);
    MirrorAllInvolution(EgressLegs(BasicTripByForwardSearch(), true));
  }

  /** The path is a well-formed chain headed by its access leg. */
  lemma BasicTripAsPathIsPath()
    ensures IsPath(BasicTripAsPath().accessLeg)
  {
    assert WellFormed(LEG_6) && WellFormed(LEG_5) && WellFormed(LEG_4) && WellFormed(LEG_3) && WellFormed(LEG_2);
  }

  /**
   * The path is connected: every leg ends at the stop the next starts from, no
   * later than it starts; it leaves at 10:00 and arrives at 12:00.
   */
  lemma BasicTripAsPathIsConnected()
    ensures var p := BasicTripAsPath();
      && Connected(p.accessLeg) && p.accessLeg.fromTime == ACCESS_START && EndTime(p.accessLeg) == EGRESS_END
  {
    assert Connected(LEG_6) && Connected(LEG_5) && Connected(LEG_4) && Connected(LEG_3) && Connected(LEG_2);
    assert EndTime(LEG_5) == EGRESS_END;
    assert EndTime(LEG_3) == EndTime(LEG_4) == EGRESS_END;
  }

  /** The path has six legs and passes the stops A to E in order. */
  lemma BasicTripAsPathStops()
    ensures var p := BasicTripAsPath();
      && |Legs(p.accessLeg)| == 6
      && forall k :: 0 <= k < 5 ==> ToStop(Legs(p.accessLeg)[k]) == Some(BasicTripStops()[k])
  {
    PathLegsListed();
  }

  /** The legs' costs add up to the path's cost, 8184. */
  lemma BasicTripAsPathCost()
    ensures var p := BasicTripAsPath();
      TotalCost(p.accessLeg) == p.generalizedCost == 8184
  {
    ScenarioCosts();
    assert TotalCost(LEG_5) == ToDomainCost(LINE_31_COST) + ToDomainCost(EGRESS_COST);
    assert TotalCost(LEG_4) == ToDomainCost(LINE_21_COST) + TotalCost(LEG_5);
    assert TotalCost(LEG_3) == ToDomainCost(TX_COST) + TotalCost(LEG_4);
    assert TotalCost(LEG_2) == ToDomainCost(LINE_11_COST) + TotalCost(LEG_3);
  }

  /** The path's travel and waiting fill the two hours exactly, the waiting being the three waits for a bus. */
  lemma BasicTripAsPathTimes()
    ensures var p := BasicTripAsPath();
      && TotalDuration(p.accessLeg) + TotalWait(p.accessLeg) == TRIP_DURATION
      && TotalWait(p.accessLeg) == L11_WAIT_DURATION + L21_WAIT_DURATION + L31_WAIT_DURATION
  {
    BasicTripAsPathIsConnected();
    DurationTelescopes(LEG_1);
    assert TotalWait(LEG_5) == EGRESS_START - L31_END;
    assert TotalWait(LEG_4) == L31_START - L21_END + TotalWait(LEG_5);
    assert TotalWait(LEG_3) == L21_START - TX_END + TotalWait(LEG_4);
    assert TotalWait(LEG_2) == TX_START - L11_END + TotalWait(LEG_3);
  }
}
