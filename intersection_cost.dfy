/**
 * The simple intersection traversal cost model: how many seconds it costs to
 * cross an intersection, from the turn angle, the traffic light, the driving
 * side of the road and the travel mode.
 *
 * The turn angle (computed by the superclass from the two street edges), the
 * superclass's non-driving cost and the "car speed above 25" tests on the two
 * edges are inputs here.
 */
module IntersectionCost {

  datatype DrivingDirection = RightHandTraffic | LeftHandTraffic

  /** The three ways the model treats a travel mode. */
  datatype ModeKind = Driving | Cycling | OtherMode

  /** The two vertex attributes the model reads. */
  datatype IntersectionVertex = IntersectionVertex(inferredFreeFlowing: bool, trafficLight: bool)

  const MinRightTurnAngle: int := 45
  const MaxRightTurnAngle: int := 135
  const MinLeftTurnAngle: int := 225
  const MaxLeftTurnAngle: int := 315

  const ExpectedRightAtLightTimeSec: real := 15.0
  const ExpectedStraightAtLightTimeSec: real := 15.0
  const ExpectedLeftAtLightTimeSec: real := 15.0
  const ExpectedRightNoLightTimeSec: real := 8.0
  const ExpectedStraightNoLightTimeSec: real := 5.0
  const ExpectedLeftNoLightTimeSec: real := 8.0
  const SafeBicycleTurnModifier: real := 5.0
  const AcrossTrafficBicycleTurnMultiplier: real := SafeBicycleTurnModifier * 3.0

  predicate IsRightTurn(turnAngle: int)
  {
    turnAngle >= MinRightTurnAngle && turnAngle < MaxRightTurnAngle
  }

  predicate IsLeftTurn(turnAngle: int)
  {
    turnAngle >= MinLeftTurnAngle && turnAngle < MaxLeftTurnAngle
  }

  /** A turn that does not cross oncoming traffic. */
  predicate IsSafeTurn(direction: DrivingDirection, turnAngle: int)
  {
    match direction
    case RightHandTraffic => IsRightTurn(turnAngle)
    case LeftHandTraffic => IsLeftTurn(turnAngle)
  }

  /** A turn across oncoming traffic. */
  predicate IsTurnAcrossTraffic(direction: DrivingDirection, turnAngle: int)
  {
    match direction
    case RightHandTraffic => IsLeftTurn(turnAngle)
    case LeftHandTraffic => IsRightTurn(turnAngle)
  }

  function Opposite(direction: DrivingDirection): DrivingDirection
  {
    match direction
    case RightHandTraffic => LeftHandTraffic
    case LeftHandTraffic => RightHandTraffic
  }

  /** The turn angles, as the source's constants fix them. */
  lemma TurnRanges(turnAngle: int)
    ensures IsRightTurn(turnAngle) <==> 45 <= turnAngle < 135
    ensures IsLeftTurn(turnAngle) <==> 225 <= turnAngle < 315
    ensures !(IsRightTurn(turnAngle) && IsLeftTurn(turnAngle))
  {
  }

  /** Which turns are safe and which cross traffic, for either side of the road. */
  lemma TurnClassesByDirection(direction: DrivingDirection, turnAngle: int)
    ensures direction == RightHandTraffic ==>
      (IsSafeTurn(direction, turnAngle) <==> IsRightTurn(turnAngle)) &&
      (IsTurnAcrossTraffic(direction, turnAngle) <==> IsLeftTurn(turnAngle))
    ensures direction == LeftHandTraffic ==>
      (IsSafeTurn(direction, turnAngle) <==> IsLeftTurn(turnAngle)) &&
      (IsTurnAcrossTraffic(direction, turnAngle) <==> IsRightTurn(turnAngle))
    ensures !(IsSafeTurn(direction, turnAngle) && IsTurnAcrossTraffic(direction, turnAngle))
    ensures IsSafeTurn(direction, turnAngle) <==> IsTurnAcrossTraffic(Opposite(direction), turnAngle)
    ensures IsTurnAcrossTraffic(direction, turnAngle) <==> IsSafeTurn(Opposite(direction), turnAngle)
  {
  }

  /** The driving cost, without the free-flowing short cut. */
  function ComputeDrivingTraversalCost(
    direction: DrivingDirection, v: IntersectionVertex, turnAngle: int,
    fromCarSpeedAbove25: bool, toCarSpeedAbove25: bool): (cost: real)
    ensures v.trafficLight ==> cost == 15.0
    ensures !v.trafficLight && fromCarSpeedAbove25 && toCarSpeedAbove25 ==> cost == 0.0
    ensures !v.trafficLight && !(fromCarSpeedAbove25 && toCarSpeedAbove25) ==>
      cost == (if IsRightTurn(turnAngle) || IsLeftTurn(turnAngle) then 8.0 else 5.0)
  {
    if v.trafficLight then
      if IsSafeTurn(direction, turnAngle) then ExpectedRightAtLightTimeSec
      else if IsTurnAcrossTraffic(direction, turnAngle) then ExpectedLeftAtLightTimeSec
      else ExpectedStraightAtLightTimeSec
    else if fromCarSpeedAbove25 && toCarSpeedAbove25 then
      0.0
    else if IsSafeTurn(direction, turnAngle) then ExpectedRightNoLightTimeSec
    else if IsTurnAcrossTraffic(direction, turnAngle) then ExpectedLeftNoLightTimeSec
    else ExpectedStraightNoLightTimeSec
  }

  /** The cycling cost: a multiple of the non-driving base cost. */
  function ComputeCyclingTraversalCost(direction: DrivingDirection, turnAngle: int, baseCost: real): (cost: real)
    ensures IsTurnAcrossTraffic(direction, turnAngle) ==> cost == baseCost * 15.0
    ensures IsSafeTurn(direction, turnAngle) ==> cost == baseCost * 5.0
    ensures !IsSafeTurn(direction, turnAngle) && !IsTurnAcrossTraffic(direction, turnAngle) ==> cost == baseCost
  {
    if IsTurnAcrossTraffic(direction, turnAngle) then baseCost * AcrossTrafficBicycleTurnMultiplier
    else if IsSafeTurn(direction, turnAngle) then baseCost * SafeBicycleTurnModifier
    else baseCost
  }

  /**
   * The cost of traversing vertex `v`, turning by `turnAngle`, in a mode of kind
   * `mode`. `nonDrivingCost` is what the superclass charges for non-driving modes.
   */
  function ComputeTraversalCost(
    direction: DrivingDirection, v: IntersectionVertex, mode: ModeKind, turnAngle: int,
    fromCarSpeedAbove25: bool, toCarSpeedAbove25: bool, nonDrivingCost: real): (cost: real)
    ensures v.inferredFreeFlowing ==> cost == 0.0
    ensures !v.inferredFreeFlowing && mode == OtherMode ==> cost == nonDrivingCost
    ensures !v.inferredFreeFlowing && mode == Driving ==>
      cost == ComputeDrivingTraversalCost(direction, v, turnAngle, fromCarSpeedAbove25, toCarSpeedAbove25)
    ensures !v.inferredFreeFlowing && mode == Cycling ==>
      cost == ComputeCyclingTraversalCost(direction, turnAngle, nonDrivingCost)
    ensures !v.inferredFreeFlowing && mode == Driving ==>
      cost in {0.0, 5.0, 8.0, 15.0}
    ensures !v.inferredFreeFlowing && mode == Cycling ==>
      cost in {nonDrivingCost, nonDrivingCost * 5.0, nonDrivingCost * 15.0}
  {
    if v.inferredFreeFlowing then 0.0
    else if mode == Driving then
      ComputeDrivingTraversalCost(direction, v, turnAngle, fromCarSpeedAbove25, toCarSpeedAbove25)
    else if mode == Cycling then
      ComputeCyclingTraversalCost(direction, turnAngle, nonDrivingCost)
    else nonDrivingCost
  }

  /** Driving costs do not depend on the side of the road: safe and across-traffic turns cost alike. */
  lemma DrivingCostIgnoresDirection(v: IntersectionVertex, turnAngle: int, fromFast: bool, toFast: bool)
    ensures ComputeDrivingTraversalCost(RightHandTraffic, v, turnAngle, fromFast, toFast)
         == ComputeDrivingTraversalCost(LeftHandTraffic, v, turnAngle, fromFast, toFast)
  {
  }

  /**
   * Cycling costs do depend on it. The same angle that is a safe turn on one
   * side of the road crosses traffic on the other and costs three times as
   * much there, and the other way round. Switching sides gives a right turn the
   * cost a left turn had, and a left turn the cost a right turn had.
   */
  lemma CyclingCostSwapsWithDirection(direction: DrivingDirection, turnAngle: int, otherAngle: int, baseCost: real)
    ensures IsSafeTurn(direction, turnAngle) ==>
      ComputeCyclingTraversalCost(Opposite(direction), turnAngle, baseCost)
      == 3.0 * ComputeCyclingTraversalCost(direction, turnAngle, baseCost)
    ensures IsTurnAcrossTraffic(direction, turnAngle) ==>
      3.0 * ComputeCyclingTraversalCost(Opposite(direction), turnAngle, baseCost)
      == ComputeCyclingTraversalCost(direction, turnAngle, baseCost)
    ensures !IsSafeTurn(direction, turnAngle) && !IsTurnAcrossTraffic(direction, turnAngle) ==>
      ComputeCyclingTraversalCost(Opposite(direction), turnAngle, baseCost)
      == ComputeCyclingTraversalCost(direction, turnAngle, baseCost)
    ensures IsRightTurn(turnAngle) && IsLeftTurn(otherAngle) ==>
      && ComputeCyclingTraversalCost(Opposite(direction), turnAngle, baseCost)
         == ComputeCyclingTraversalCost(direction, otherAngle, baseCost)
      && ComputeCyclingTraversalCost(Opposite(direction), otherAngle, baseCost)
         == ComputeCyclingTraversalCost(direction, turnAngle, baseCost)
  {
    TurnClassesByDirection(direction, turnAngle);
    TurnClassesByDirection(Opposite(direction), turnAngle);
    TurnClassesByDirection(direction, otherAngle);
    TurnClassesByDirection(Opposite(direction), otherAngle);
  }

  /** With non-negative base costs the cycling cost never falls below the base cost. */
  lemma CyclingCostAtLeastBase(direction: DrivingDirection, turnAngle: int, baseCost: real)
    requires baseCost >= 0.0
    ensures baseCost <= ComputeCyclingTraversalCost(direction, turnAngle, baseCost) <= baseCost * 15.0
  {
  }
}
