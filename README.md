# OpenTripPlanner core, modelled in Dafny

This project models four pieces of OpenTripPlanner (Java):

- **TripTimes** keeps the arrival and departure times of one transit trip. It stores a zero-based schedule plus a per-trip time shift. A realtime layer of arrays is created on the first per-stop update and then changed in place. There are also per-stop flags (recorded, cancelled, prediction inaccurate), pickup and drop-off types, and a realtime state. It is modelled as a Dafny `class` over `array`s, in `trip_times.dfy`. `View()` is the state a caller can observe through the getters, and each mutator states its new `View()` in terms of the old one.
- **PathLeg** is one leg of a Raptor path: access, transit, transfer or egress. Each leg is linked to the next, and the chain ends with the egress leg. It is modelled as a datatype in `path_leg.dfy`, together with:
  - `Legs`, the sequence of legs an iteration meets;
  - the `nextTransitLeg` loop, as a method;
  - the iterator, as a class with a cursor.
- **BasicPathTestCase** defines the reference journey used by the Raptor tests. It runs 10:00 to 12:00 with cost 8184. The journey is given three ways: as a forward search finds it, as a reverse search finds it, and as a path of legs. It is modelled as constants, formulas and lemmas in `basic_path.dfy`.
- **SimpleIntersectionTraversalCostModel** gives the cost in seconds of crossing an intersection. It depends on the turn angle, the traffic light, the driving side and the travel mode. It is modelled as pure functions in `intersection_cost.dfy`.

Three support files:

- `wrappers.dfy` holds `Option`, standing in for Java's `null`.
- `java_int.dfy` holds Java's truncating int `/` and `%`.
- `decimal.dfy` holds the decimal rendering used by `formatSeconds`.

Times are seconds after midnight. Java `int` arithmetic is modelled on unbounded integers; see "Left out".

## Model

| member | source | states |
|---|---|---|
| `TripTimesModel.TripTimes.constructor` | src/main/java/org/opentripplanner/routing/trippattern/TripTimes.java:149-187 | The schedule is stored relative to the first arrival (first scheduled arrival 0, time shift = first arrival), so the scheduled getters return each stop time's own times. The trip and its stop times are the ones given. Sequences, timepoints, pickup/drop-off types and booking infos are copied per stop. The state is SCHEDULED and there are no realtime arrays. |
| `TripTimesModel.ZeroBasedSchedule` | src/main/java/org/opentripplanner/routing/trippattern/TripTimes.java:163-181 | The loop over the stop times yields, for every stop, the time minus the shift and the stop's sequence, timepoint flag (timepoint == 1), pickup type, drop-off type and booking info. |
| `TripTimesModel.MakeHeadsignsArray` | src/main/java/org/opentripplanner/routing/trippattern/TripTimes.java:210-239 | No per-stop array when the trip headsign is non-null and every stop has exactly that headsign, or when no stop has a headsign. Otherwise the array holds each stop's headsign. Both directions are stated. |
| `TripTimesModel.TripTimes.GetHeadsign` | src/main/java/org/opentripplanner/routing/trippattern/TripTimes.java:247-253 | For a trip made from stop times: the stop's own headsign, unless no stop has one, in which case the trip's headsign. |
| `TripTimesModel.TripTimes.GetScheduledArrivalTime` | src/main/java/org/opentripplanner/routing/trippattern/TripTimes.java:256-258 | The shifted scheduled arrival of the stop. |
| `TripTimesModel.TripTimes.GetScheduledDepartureTime` | src/main/java/org/opentripplanner/routing/trippattern/TripTimes.java:261-263 | The shifted scheduled departure of the stop. |
| `TripTimesModel.TripTimes.GetArrivalTime` | src/main/java/org/opentripplanner/routing/trippattern/TripTimes.java:266-269 | The observed arrival. It equals the scheduled arrival while no realtime times exist. |
| `TripTimesModel.TripTimes.GetDepartureTime` | src/main/java/org/opentripplanner/routing/trippattern/TripTimes.java:272-275 | The observed departure. It equals the scheduled departure while no realtime times exist. |
| `TripTimesModel.TripTimes.GetDwellTime` | src/main/java/org/opentripplanner/routing/trippattern/TripTimes.java:278-281 | Departure minus arrival at the stop, over the observed times. |
| `TripTimesModel.TripTimes.GetRunningTime` | src/main/java/org/opentripplanner/routing/trippattern/TripTimes.java:284-287 | Arrival at the next stop minus departure from this one, over the observed times. |
| `TripTimesModel.TripTimes.GetArrivalDelay` | src/main/java/org/opentripplanner/routing/trippattern/TripTimes.java:290-292 | The observed arrival is the scheduled arrival plus the delay. The delay is 0 while the trip is only scheduled. |
| `TripTimesModel.TripTimes.GetDepartureDelay` | src/main/java/org/opentripplanner/routing/trippattern/TripTimes.java:295-297 | The observed departure is the scheduled departure plus the delay. The delay is 0 while the trip is only scheduled. |
| `TripTimesModel.TripTimes.SetRecorded` | src/main/java/org/opentripplanner/routing/trippattern/TripTimes.java:299-302 | Materialises the realtime layer, then sets one recorded flag. The stop then reads back the new value and nothing else observable changes. The realtime arrays are newly allocated if there were none, otherwise kept, and the recorded and inaccurate flags stay available if they were. |
| `TripTimesModel.TripTimes.IsRecordedStop` | src/main/java/org/opentripplanner/routing/trippattern/TripTimes.java:305-310 | The stop's recorded flag. It is false while the flag array does not exist. |
| `TripTimesModel.TripTimes.SetCancelledStop` | src/main/java/org/opentripplanner/routing/trippattern/TripTimes.java:313-316 | Materialises, then sets one cancelled flag. The stop reads back the new value and nothing else observable changes. The realtime arrays are newly allocated if there were none, otherwise kept, and the recorded and inaccurate flags stay available if they were. |
| `TripTimesModel.TripTimes.IsCancelledStop` | src/main/java/org/opentripplanner/routing/trippattern/TripTimes.java:319-324 | The stop's cancelled flag. It is false while the flag array does not exist. |
| `TripTimesModel.TripTimes.SetPredictionInaccurate` | src/main/java/org/opentripplanner/routing/trippattern/TripTimes.java:327-330 | Materialises, then sets one inaccurate-prediction flag. The stop reads back the new value and nothing else observable changes. The realtime arrays are newly allocated if there were none, otherwise kept, and the recorded and inaccurate flags stay available if they were. |
| `TripTimesModel.TripTimes.IsPredictionInaccurate` | src/main/java/org/opentripplanner/routing/trippattern/TripTimes.java:333-338 | The stop's inaccurate-prediction flag. It is false while the flag array does not exist. |
| `TripTimesModel.TripTimes.SetPickupType` | src/main/java/org/opentripplanner/routing/trippattern/TripTimes.java:340-343 | Materialises, then sets the stop's pickup type, which reads back. Nothing else observable changes. The realtime arrays are newly allocated if there were none, otherwise kept, and the recorded and inaccurate flags stay available if they were. |
| `TripTimesModel.TripTimes.SetDropoffType` | src/main/java/org/opentripplanner/routing/trippattern/TripTimes.java:353-356 | Materialises, then sets the stop's drop-off type, which reads back. Nothing else observable changes. The realtime arrays are newly allocated if there were none, otherwise kept, and the recorded and inaccurate flags stay available if they were. |
| `TripTimesModel.TripTimes.SetRealTimeState` | src/main/java/org/opentripplanner/routing/trippattern/TripTimes.java:395-397 | Only the realtime state changes. |
| `TripTimesModel.FormatSecondsReadsBack` | src/main/java/org/opentripplanner/routing/trippattern/TripTimes.java:400-406 | For times under 100 hours, `HH:MM:SS` is eight characters with colons at positions 2 and 5 and two-digit fields. The fields read back as the same number of seconds. |
| `TripTimesModel.Clock` | src/main/java/org/opentripplanner/routing/trippattern/TripTimes.java:400-406 | Hours, minutes and seconds with Java's truncating `/` and `%`. They recombine to the input, fields are in 0..59 for non-negative times, and fields are non-positive for negative times. |
| `JavaInt.JavaDiv` | src/main/java/org/opentripplanner/routing/trippattern/TripTimes.java:401-403 | Java's `/` for a positive divisor: the remainder it leaves lies in [0, b) for a non-negative dividend and in (−b, 0] for a negative one, so the quotient rounds toward zero. |
| `JavaInt.JavaRem` | src/main/java/org/opentripplanner/routing/trippattern/TripTimes.java:401-403 | Java's `%`: dividend = quotient × divisor + remainder, and the remainder takes the dividend's sign. |
| `TripTimesModel.TripTimes.TimesIncreasing` | src/main/java/org/opentripplanner/routing/trippattern/TripTimes.java:414-432 | True exactly when, over the observed times, no dwell time is negative, no running time is negative and the first arrival is not before −1 (the scan starts with a previous departure of −1). |
| `TripTimesModel.IncreasingTimesAreOrdered` | src/main/java/org/opentripplanner/routing/trippattern/TripTimes.java:409-432 | When times are increasing, arrivals and departures never decrease from one stop to any later stop, and an arrival never comes after a later departure. |
| `TripTimesModel.UnavailableTimesAreIncreasing` | src/main/java/org/opentripplanner/routing/trippattern/TripTimes.java:435-448 | A trip whose every time is UNAVAILABLE still passes the increasing-times test. |
| `TripTimesModel.TripTimes.Cancel` | src/main/java/org/opentripplanner/routing/trippattern/TripTimes.java:435-448 | Every time becomes UNAVAILABLE, every stop is cancelled, every pickup and drop-off becomes "none", and the state becomes CANCELED. Recorded and inaccurate flags are kept. The time, cancelled, pickup and drop-off arrays are newly allocated, so the trip can be updated again; the recorded and inaccurate flags are available afterwards exactly when they were before. |
| `TripTimesModel.TripTimes.CancelAllStops` | src/main/java/org/opentripplanner/routing/trippattern/TripTimes.java:450-454 | A fresh cancelled-flags array, all true. Nothing else changes. |
| `TripTimesModel.TripTimes.MakeTimesUnavailable` | src/main/java/org/opentripplanner/routing/trippattern/TripTimes.java:436-438 | Every arrival and departure reads UNAVAILABLE, from newly allocated arrays. Nothing else changes. |
| `TripTimesModel.TripTimes.DisallowPickupsAndDropoffs` | src/main/java/org/opentripplanner/routing/trippattern/TripTimes.java:442-444 | Every pickup and drop-off type reads "none", from newly allocated arrays. Nothing else changes. |
| `TripTimesModel.TripTimes.UpdateDepartureTime` | src/main/java/org/opentripplanner/routing/trippattern/TripTimes.java:456-459 | Materialises, then the stop's departure reads the new time. Nothing else observable changes. The realtime arrays are newly allocated if there were none, otherwise kept, and the recorded and inaccurate flags stay available if they were. |
| `TripTimesModel.TripTimes.UpdateDepartureDelay` | src/main/java/org/opentripplanner/routing/trippattern/TripTimes.java:461-464 | Materialises, then the stop's departure delay reads back as the given delay. Nothing else observable changes. The realtime arrays are newly allocated if there were none, otherwise kept, and the recorded and inaccurate flags stay available if they were. |
| `TripTimesModel.TripTimes.UpdateArrivalTime` | src/main/java/org/opentripplanner/routing/trippattern/TripTimes.java:466-469 | Materialises, then the stop's arrival reads the new time. Nothing else observable changes. The realtime arrays are newly allocated if there were none, otherwise kept, and the recorded and inaccurate flags stay available if they were. |
| `TripTimesModel.TripTimes.UpdateArrivalDelay` | src/main/java/org/opentripplanner/routing/trippattern/TripTimes.java:471-474 | Materialises, then the stop's arrival delay reads back as the given delay. Nothing else observable changes. The realtime arrays are newly allocated if there were none, otherwise kept, and the recorded and inaccurate flags stay available if they were. |
| `TripTimesModel.TripTimes.CheckCreateTimesArrays` | src/main/java/org/opentripplanner/routing/trippattern/TripTimes.java:480-498 | On the first call, creates separate realtime arrays (times equal to the shifted schedule, flags all false) and sets the state to UPDATED. Any later call changes nothing. |
| `TripTimesModel.Materialized` | src/main/java/org/opentripplanner/routing/trippattern/TripTimes.java:480-498 | Materialising keeps every observed time, pickup and drop-off, is the identity once realtime data exists, and otherwise gives UPDATED with no stop cancelled. |
| `TripTimesModel.NewRealtimeArrays` | src/main/java/org/opentripplanner/routing/trippattern/TripTimes.java:481-493 | Fresh, distinct arrays: times are the schedule plus the time shift, and all three flag arrays are false. |
| `TripTimesModel.TripTimes.CompareTo` | src/main/java/org/opentripplanner/routing/trippattern/TripTimes.java:506-509 | The sign of the result orders two trips by their first observed departure, in all three directions. |
| `TripTimesModel.TripTimes.Clone` | src/main/java/org/opentripplanner/routing/trippattern/TripTimes.java:511-520 | A shallow copy: every field, array references included, equals the original's. |
| `TripTimesModel.TripTimes.CopyScheduled` | src/main/java/org/opentripplanner/routing/trippattern/TripTimes.java:192-204 | Shares the scheduled arrays, headsigns, pickups and drop-offs of the original, has no realtime times and is SCHEDULED. |
| `TripTimesModel.TripTimes.TimeShift` | src/main/java/org/opentripplanner/routing/trippattern/TripTimes.java:527-534 | Null exactly when realtime times exist. Otherwise gives a fresh scheduled copy that passes the given stop at the given time (departure or arrival), with every time moved by the same amount. Like a clone, the copy keeps the original's trip, service code, headsigns, stop times, schedule arrays, per-stop flags, pickups, drop-offs, realtime state, sequences, timepoints and booking infos. |
| `TripTimesModel.TripTimes.SemanticHashInput` | src/main/java/org/opentripplanner/routing/trippattern/TripTimes.java:552-559 | The hashed ints are, for each hop, the scheduled departure from the stop followed by the scheduled arrival at the next stop. |
| `TripTimesModel.HopTimes` | src/main/java/org/opentripplanner/routing/trippattern/TripTimes.java:554-557 | Two ints per hop, 2(n−1) in all: the departure at hop h, then the arrival at h+1. |
| `TripTimesModel.SemanticHashIgnoresRealtime` | src/main/java/org/opentripplanner/routing/trippattern/TripTimes.java:548-559 | A realtime arrival update leaves the semantic hash input unchanged, since only scheduled times are hashed. |
| `TripTimesModel.ScheduledReadsAreOriginal` | src/main/java/org/opentripplanner/routing/trippattern/TripTimes.java:266-297 | While only scheduled, observed times equal the stop times' own times and both delays are 0. |
| `PathLegs.FromStop` | src/main/java/org/opentripplanner/transit/raptor/api/path/PathLeg.java:39-41 | No from-stop exactly for an access leg; otherwise the leg's from-stop. |
| `PathLegs.ToStop` | src/main/java/org/opentripplanner/transit/raptor/api/path/PathLeg.java:52-54 | No to-stop exactly for an egress leg; otherwise the leg's to-stop. |
| `PathLegs.AsTransitLeg` | src/main/java/org/opentripplanner/transit/raptor/api/path/PathLeg.java:74-91 | Defined only on transit legs, and returns the same leg. |
| `PathLegs.AsTransferLeg` | src/main/java/org/opentripplanner/transit/raptor/api/path/PathLeg.java:96-113 | Defined only on transfer legs, and returns the same leg. |
| `PathLegs.AsEgressLeg` | src/main/java/org/opentripplanner/transit/raptor/api/path/PathLeg.java:118-134 | Defined only on egress legs, and returns the same leg. |
| `PathLegs.NextLeg` | src/main/java/org/opentripplanner/transit/raptor/api/path/PathLeg.java:136-147 | Every leg except egress has a next leg, and the rest of the chain is one leg shorter. |
| `PathLegs.LegsAfter` | src/main/java/org/opentripplanner/transit/raptor/api/path/PathLeg.java:136-147 | The legs after the next one are the chain's legs without the first. |
| `PathLegs.WellFormedPairs` | src/main/java/org/opentripplanner/transit/raptor/api/path/PathLeg.java:12-17 | A chain is well formed exactly when every consecutive pair follows the succession rules: after transit, transfer, transit or egress; after transfer, transit only. |
| `PathLegs.PathShape` | src/main/java/org/opentripplanner/transit/raptor/api/path/PathLeg.java:12-17 | A path headed by an access leg has at least three legs, the second a transit leg. Only the first leg is an access leg and only the last is an egress leg. |
| `PathLegs.LegsStep` | src/main/java/org/opentripplanner/transit/raptor/api/path/PathLeg.java:175-191 | The iteration meets each leg's next leg after it, and the egress leg exactly last. |
| `PathLegs.LegsSuffix` | src/main/java/org/opentripplanner/transit/raptor/api/path/PathLeg.java:175-191 | Iterating from the k-th leg gives the rest of the chain from k. |
| `PathLegs.FirstTransitAtIsFirst` | src/main/java/org/opentripplanner/transit/raptor/api/path/PathLeg.java:161-173 | A found leg is a transit leg of the chain and comes before every other transit leg. Nothing is found exactly when the chain has no transit leg. |
| `PathLegs.NextTransitLeg` | src/main/java/org/opentripplanner/transit/raptor/api/path/PathLeg.java:161-173 | The walk over the following legs returns the first transit leg after this one, not this leg itself. It returns none exactly when no later leg is a transit leg. Proved over the loop with its invariant. |
| `PathLegs.Stream` | src/main/java/org/opentripplanner/transit/raptor/api/path/PathLeg.java:175-177 | The legs from this one to the egress leg, in order. |
| `PathLegs.PathLegIterator.constructor` | src/main/java/org/opentripplanner/transit/raptor/api/path/PathLeg.java:179-181 | The iterator starts at the given leg, before any leg has been returned. |
| `PathLegs.PathLegIterator.HasNext` | src/main/java/org/opentripplanner/transit/raptor/api/path/PathLeg.java:182-184 | True exactly while fewer legs have been returned than the chain holds. |
| `PathLegs.PathLegIterator.Next` | src/main/java/org/opentripplanner/transit/raptor/api/path/PathLeg.java:185-189 | Returns the chain's legs one after another, the k-th call the k-th leg. |
| `PathLegs.AsStringTo` | src/main/java/org/opentripplanner/transit/raptor/api/path/PathLeg.java:150-152 | The "to stop" form starts with the plain form followed by " ~ ". |
| `PathLegs.AsStringToReadsBack` | src/main/java/org/opentripplanner/transit/raptor/api/path/PathLeg.java:150-159 | After the plain form and " ~ ", the "to stop" form holds the stop index written in decimal (with a minus sign if negative), which reads back as that index. |
| `PathLegs.DurationTelescopes` | src/main/java/org/opentripplanner/transit/raptor/api/path/PathLeg.java:56-61 | The legs' durations plus the waits between legs span exactly from the first leg's start to the last leg's end. |
| `PathLegs.ConnectedWaitsNonNegative` | src/main/java/org/opentripplanner/transit/raptor/api/path/PathLeg.java:56-61 | In a connected chain (each leg ends where and no later than the next starts) the waits are non-negative, so the legs' durations never exceed the span. |
| `BasicPath.RoundHalfUp` | src/test/java/org/opentripplanner/transit/raptor/_data/stoparrival/BasicPathTestCase.java:79 | Rounding to the nearest integer, halves up (Math.round): within half a unit of the input. |
| `BasicPath.ToRaptorCost` | src/test/java/org/opentripplanner/transit/raptor/_data/stoparrival/BasicPathTestCase.java:79 | Seconds to Raptor cost units (hundredths), within half a unit. |
| `BasicPath.ToDomainCost` | src/test/java/org/opentripplanner/transit/raptor/_data/stoparrival/BasicPathTestCase.java:184 | Raptor units back to whole domain units with Java's truncating `(c + 50) / 100`: the nearest whole unit for costs from −50 up, and one unit higher below that. |
| `BasicPath.CostConversionRoundTrip` | src/test/java/org/opentripplanner/transit/raptor/_data/stoparrival/BasicPathTestCase.java:184-205 | A whole number of seconds converts to exactly 100× that in Raptor units. Converted back it gives the same number when non-negative, and one more when negative. |
| `BasicPath.RoundWhole` | src/test/java/org/opentripplanner/transit/raptor/_data/stoparrival/BasicPathTestCase.java:79 | Rounding a whole number gives that number. |
| `BasicPath.ReluctancesInHundredths` | src/test/java/org/opentripplanner/transit/raptor/_data/stoparrival/BasicPathTestCase.java:65-66 | The reluctances 2.0 and 0.8 are exactly 200 and 80 hundredths. |
| `BasicPath.WalkCostIsWeightedDuration` | src/test/java/org/opentripplanner/transit/raptor/_data/stoparrival/BasicPathTestCase.java:79 | The integer walk cost equals the duration times the transfer reluctance, converted to Raptor units. |
| `BasicPath.TransitArrivalCostIsWeightedSum` | src/test/java/org/opentripplanner/transit/raptor/_data/stoparrival/BasicPathTestCase.java:86-87 | A first boarding costs the two stop costs plus the converted sum of board cost, weighted wait and ride time. |
| `BasicPath.TransferPenalty` | src/test/java/org/opentripplanner/transit/raptor/_data/stoparrival/BasicPathTestCase.java:100-101 | Any later boarding costs exactly the converted transfer cost more than a first boarding. |
| `BasicPath.SlackArithmetic` | src/test/java/org/opentripplanner/transit/raptor/_data/stoparrival/BasicPathTestCase.java:215-217 | The first bus leaves board-slack after the access walk ends. Its wait is board plus alight slack. The egress walk starts alight-slack after the last bus arrives. |
| `BasicPath.DurationsAddUp` | src/test/java/org/opentripplanner/transit/raptor/_data/stoparrival/BasicPathTestCase.java:218-238 | The access, ride, wait, transfer and egress durations add up to the trip duration, two hours. |
| `BasicPath.CostsMatchCalculator` | src/test/java/org/opentripplanner/transit/raptor/_data/stoparrival/BasicPathTestCase.java:241-261 | Each leg cost constant equals the cost calculator's walk or transit-arrival cost for that leg. |
| `BasicPath.ScenarioCosts` | src/test/java/org/opentripplanner/transit/raptor/_data/stoparrival/BasicPathTestCase.java:75-147 | The six leg costs are 39000, 199800, 45000, 264000, 177600 and 93000. The total is 818400, which is 8184 in domain units and equals the sum of the legs' domain costs. |
| `BasicPath.IndexOf` | src/test/java/org/opentripplanner/transit/raptor/_data/stoparrival/BasicPathTestCase.java:123-136 | The first position of a stop in a trip's pattern. |
| `BasicPath.ArrivalLegs` | src/test/java/org/opentripplanner/transit/raptor/_data/stoparrival/BasicPathTestCase.java:154-176 | The legs behind a stop arrival end at that arrival's stop and time. |
| `BasicPath.EgressLegs` | src/test/java/org/opentripplanner/transit/raptor/_data/stoparrival/BasicPathTestCase.java:154-176 | A search result has at least two legs, the last one ending at no stop at the egress arrival time. |
| `BasicPath.MirrorAll` | src/test/java/org/opentripplanner/transit/raptor/_data/stoparrival/BasicPathTestCase.java:164-176 | Reverses the legs and swaps each leg's from and to. |
| `BasicPath.MirrorAllInvolution` | src/test/java/org/opentripplanner/transit/raptor/_data/stoparrival/BasicPathTestCase.java:164-176 | Mirroring twice gives back the legs. |
| `BasicPath.ForwardSearchLegs` | src/test/java/org/opentripplanner/transit/raptor/_data/stoparrival/BasicPathTestCase.java:154-162 | The forward search's arrivals form a chain on their trips, each bus arriving when its trip does, and describe the six legs written out. |
| `BasicPath.ReverseSearchLegs` | src/test/java/org/opentripplanner/transit/raptor/_data/stoparrival/BasicPathTestCase.java:164-176 | The reverse search's arrivals form a chain, each bus "arriving" at its trip's departure (time runs backwards), and describe the reverse legs written out. |
| `BasicPath.ReverseLegsMirrorForward` | src/test/java/org/opentripplanner/transit/raptor/_data/stoparrival/BasicPathTestCase.java:164-176 | The reverse legs are the forward legs mirrored. |
| `BasicPath.ReverseSearchMirrorsForward` | src/test/java/org/opentripplanner/transit/raptor/_data/stoparrival/BasicPathTestCase.java:164-176 | The reverse search finds the forward search's journey, read back to front. |
| `BasicPath.UnusedTimesHaveNoEffect` | src/test/java/org/opentripplanner/transit/raptor/_data/stoparrival/BasicPathTestCase.java:131-136 | The third trip's early arrival and late departure do not affect either search. With other values, both find the same legs apart from the trip they name. |
| `BasicPath.PathLegTimesFollowLegs` | src/test/java/org/opentripplanner/transit/raptor/_data/stoparrival/BasicPathTestCase.java:182-206 | Describing a path's chain describes, in order, the legs its iteration meets. |
| `BasicPath.InDomainCost` | src/test/java/org/opentripplanner/transit/raptor/_data/stoparrival/BasicPathTestCase.java:184-205 | Each leg with only its cost converted to domain units. |
| `BasicPath.PathLegsListed` | src/test/java/org/opentripplanner/transit/raptor/_data/stoparrival/BasicPathTestCase.java:182-206 | The path's iteration meets exactly leg1 to leg6, in that order. |
| `BasicPath.PathLegsWrittenOut` | src/test/java/org/opentripplanner/transit/raptor/_data/stoparrival/BasicPathTestCase.java:182-206 | Leg by leg, the path is the forward legs with their costs in domain units. |
| `BasicPath.ForwardSearchGivesThePath` | src/test/java/org/opentripplanner/transit/raptor/_data/stoparrival/BasicPathTestCase.java:178-181 | The path describes the journey the forward search finds, costs in domain units. |
| `BasicPath.ReverseSearchGivesThePath` | src/test/java/org/opentripplanner/transit/raptor/_data/stoparrival/BasicPathTestCase.java:178-181 | The path also describes the reverse search's journey, mirrored. |
| `BasicPath.BasicTripAsPathIsPath` | src/test/java/org/opentripplanner/transit/raptor/_data/stoparrival/BasicPathTestCase.java:182-206 | The path is a well-formed chain headed by its access leg. |
| `BasicPath.BasicTripAsPathIsConnected` | src/test/java/org/opentripplanner/transit/raptor/_data/stoparrival/BasicPathTestCase.java:182-206 | The path is connected, leaves at 10:00 and arrives at 12:00. |
| `BasicPath.BasicTripAsPathStops` | src/test/java/org/opentripplanner/transit/raptor/_data/stoparrival/BasicPathTestCase.java:208-210 | The path has six legs, and its first five legs end at stops A, B, C, D and E in turn. |
| `BasicPath.BasicTripAsPathCost` | src/test/java/org/opentripplanner/transit/raptor/_data/stoparrival/BasicPathTestCase.java:205 | The legs' costs add up to the path's cost, 8184. |
| `BasicPath.BasicTripAsPathTimes` | src/test/java/org/opentripplanner/transit/raptor/_data/stoparrival/BasicPathTestCase.java:44-47 | Travel plus waiting fills the two hours exactly. The waiting is the three waits for a bus. |
| `IntersectionCost.TurnRanges` | src/main/java/org/opentripplanner/routing/core/SimpleIntersectionTraversalCostModel.java:179-185 | A right turn is an angle in [45, 135) and a left turn one in [225, 315). No angle is both. |
| `IntersectionCost.TurnClassesByDirection` | src/main/java/org/opentripplanner/routing/core/SimpleIntersectionTraversalCostModel.java:89-115 | Right-hand traffic: safe = right, across = left. Left-hand traffic: the reverse. The two never coincide, and switching direction swaps them. |
| `IntersectionCost.ComputeDrivingTraversalCost` | src/main/java/org/opentripplanner/routing/core/SimpleIntersectionTraversalCostModel.java:117-158 | 15 s at a light. Otherwise 0 when both edges are fast, else 8 s for a turn and 5 s straight on. |
| `IntersectionCost.ComputeCyclingTraversalCost` | src/main/java/org/opentripplanner/routing/core/SimpleIntersectionTraversalCostModel.java:160-177 | The base cost ×15 across traffic, ×5 on a safe turn, unchanged otherwise. |
| `IntersectionCost.ComputeTraversalCost` | src/main/java/org/opentripplanner/routing/core/SimpleIntersectionTraversalCostModel.java:56-80 | 0 at a free-flowing vertex. The non-driving cost for other modes. Otherwise driving gives exactly `ComputeDrivingTraversalCost` and cycling exactly `ComputeCyclingTraversalCost`, so one of 0, 5, 8 or 15 s for driving and the base cost times 1, 5 or 15 for cycling. |
| `IntersectionCost.DrivingCostIgnoresDirection` | src/main/java/org/opentripplanner/routing/core/SimpleIntersectionTraversalCostModel.java:117-158 | The driving cost is the same in right- and left-hand traffic. |
| `IntersectionCost.CyclingCostSwapsWithDirection` | src/main/java/org/opentripplanner/routing/core/SimpleIntersectionTraversalCostModel.java:160-177 | Switching the driving side triples the cost of an angle that was a safe turn, divides by three the cost of one that crossed traffic, and leaves straight on alone. It gives a right turn the cost a left turn had, and a left turn the cost a right turn had. |
| `IntersectionCost.CyclingCostAtLeastBase` | src/main/java/org/opentripplanner/routing/core/SimpleIntersectionTraversalCostModel.java:160-177 | For a non-negative base cost, the cycling cost lies between the base cost and 15 times it. |

## Left out

- Java `int` is 32 bits. The model uses unbounded integers, so no time, delay, shift or cost wraps around. Every value in the reference journey is far below 2^31.
- TripTimesModel.TripTimes.Cancel: in the source, `cancel()` afterwards makes the departure times the same array as the arrival times, and the drop-offs the same array as the pickups. The model keeps separate arrays with equal contents, so a later update of one does not show in the other. The observable state right after cancelling is the same.
- TripTimesModel.TripTimes.constructor: the deduplicator, which may share equal arrays between trips, is not modelled. Every trip owns fresh arrays; sharing through `Clone` and `CopyScheduled` is modelled. Within one trip the deduplicator can also make the pickups and the drop-offs one array when their contents are equal, so that in the source `setPickupType` then changes the drop-off too. The model keeps them distinct.
- TripTimesModel.TripTimes.constructor: requires at least one stop time. The source reads the first one through `stopTimes.iterator().next()` and throws on an empty collection; that error is not modelled.
- TripTimesModel.TripTimes.SetRecorded: requires that the flag arrays exist or that no realtime layer exists yet. After `cancel()` on a never-updated trip the source would throw a null-pointer exception here, and that error path is not modelled.
- TripTimesModel.TripTimes.SetPredictionInaccurate: requires that the flag arrays exist or that no realtime layer exists yet. After `cancel()` on a never-updated trip the source would throw a null-pointer exception here, and that error path is not modelled.
- TripTimesModel.TripTimes.CheckCreateTimesArrays: the three flag arrays are created in one step after the times are copied, rather than inside the copy loop. The resulting state is the same.
- TripTimesModel.TripTimes.GetHeadsign: the contract ties the result to the stop times only while the headsigns are the ones built from them.
- The fallback of `getPickupType`/`getDropoffType` to -999 when no array exists cannot be reached, because the constructor always creates both arrays. The model has no null branch there.
- The numeric value of "no pickup / no drop-off" (PICKDROP_NONE) is defined outside TripTimes.java and is taken to be 1, the GTFS code for "not available".
- TripTimes logging, `toString` and the Guava hash function behind `semanticHash` are left out; the model gives the ints that are hashed.
- Members without contracts of their own, each a plain read or test that other contracts use: `NumStops`, `GetStopSequence`, `IsTimepoint`, `GetBookingInfo`, `GetPickupType`, `GetDropoffType`, `IsScheduled`, `IsCanceled` and `GetRealTimeState` of TripTimes, and `IsAccessLeg`, `IsTransitLeg`, `IsTransferLeg`, `IsEgressLeg` and `Duration` of PathLegs. `Duration` is stated through `DurationTelescopes`.
- TripTimesModel.FormatSeconds has no contract of its own; FormatSecondsReadsBack states what it produces. PathLegs.AsString, likewise, is stated through AsStringTo and AsStringToReadsBack.
- The trip's timepoints, a BitSet in the source, are a sequence of booleans.
- PathLegs.AsString: the leg's string form takes the time and duration formatters as parameters. Their formats (`TimeUtils.timeToStrCompact`, `DurationUtils.durationToStr`) are not part of this model. BasicPathTestCase's expected string (BASIC_PATH_AS_STRING) and `Path.toString()` are therefore not derived.
- PathLegs.NextLeg: requires a leg that is not an egress leg. The source's `nextLeg()` throws UnsupportedOperationException on an egress leg, and that error is not modelled. The same holds for NextTransitLeg, which calls `nextLeg()` first.
- The concrete leg classes (AccessPathLeg, TransitPathLeg, TransferPathLeg, EgressPathLeg) are constructors of one datatype. The `ClassCastException` in `asTransitLeg` and similar casts is a precondition.
- BasicPath: TimeUtils.time is written out as literal seconds after midnight, with the clock time beside each.
- BasicPath: RaptorCostConverter and DefaultCostCalculator are not part of this model. Their formulas are taken from how the test case uses them: toRaptorCost(s) = Math.round(s × 100), toOtpDomainCost(c) = (c + 50) / 100, walk cost = duration × transfer reluctance, transit cost = stop costs + board cost (+ transfer cost after the first boarding) + wait reluctance × wait + ride time.
- BasicPath: a TestTripSchedule built with `times(a, b)` is taken to have those times as both arrivals and departures.
- BasicPath: ACCESS is a walk to STOP_B and EGRESS a walk from STOP_F, exactly as the source declares them, although the access leg ends at A and the egress leg starts at E. The path legs carry their own stops and do not read them back from these transfers.
- BasicPath: the worker life cycle, the slack provider object (and with it the transit slack of 60 s, which only it uses) and the JUnit assertion of the string form are not modelled. The slack arithmetic the test asserts is modelled.
- IntersectionCost: the turn angle, the non-driving cost (both computed by the abstract superclass, which is not part of this model) and the `getCarSpeed() > 25` tests come in as inputs. Costs are Dafny reals rather than doubles. The constants are exact in binary, but the products with the base cost are not rounded as doubles would be.
- IntersectionCost: the RuntimeException for an unknown driving direction cannot be reached, since the datatype has two values.
- RoutingService.java, ParkAndRideLinkEdge.java and NorwayWayPropertySetSource.java are not part of this model.
