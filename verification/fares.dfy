/**
 * The fare calculation of the card: the per-pair tariffs, the amounts
 * already charged in a day or week, the cap clamp and the fare itself.
 */
module Fares {
  import opened Models

  function Max(a: int, b: int): int
  {
    if a < b then b else a
  }

  /** The single-journey price of a trip: the dearer of the two zones' prices. */
  function CostPerSingleJourney(startStation: Station, endStation: Station): (r: int)
    ensures r >= startStation.zone.costPerSingleJourney && r >= endStation.zone.costPerSingleJourney
    ensures r == startStation.zone.costPerSingleJourney || r == endStation.zone.costPerSingleJourney
  {
    Max(startStation.zone.costPerSingleJourney, endStation.zone.costPerSingleJourney)
  }

  /** The day cap of a trip: the higher of the two zones' day caps. */
  function CostPerDayLimit(startStation: Station, endStation: Station): (r: int)
    ensures r >= startStation.zone.costPerDayLimit && r >= endStation.zone.costPerDayLimit
    ensures r == startStation.zone.costPerDayLimit || r == endStation.zone.costPerDayLimit
  {
    Max(startStation.zone.costPerDayLimit, endStation.zone.costPerDayLimit)
  }

  /** The week cap of a trip: the higher of the two zones' week caps. */
  function CostPerWeekLimit(startStation: Station, endStation: Station): (r: int)
    ensures r >= startStation.zone.costPerWeekLimit && r >= endStation.zone.costPerWeekLimit
    ensures r == startStation.zone.costPerWeekLimit || r == endStation.zone.costPerWeekLimit
  {
    Max(startStation.zone.costPerWeekLimit, endStation.zone.costPerWeekLimit)
  }

  /** Which tariffs do not depend on the direction of travel. */
  lemma TariffsAreSymmetric(a: Station, b: Station)
    ensures CostPerSingleJourney(a, b) == CostPerSingleJourney(b, a)
    ensures CostPerDayLimit(a, b) == CostPerDayLimit(b, a)
    ensures CostPerWeekLimit(a, b) == CostPerWeekLimit(b, a)
  {
  }

  /**
   * Clamps `cost` so that, added to what was already charged, it stays
   * within `costUpperLimit`: the result is the largest amount not above
   * `cost` that keeps the total within the limit. It is negative when the
   * amount already charged exceeds the limit.
   */
  function LimitCostToMaxAmount(cost: int, costUpperLimit: int, amountAlreadyCharged: int): (r: int)
    ensures r <= cost
    ensures amountAlreadyCharged + r <= costUpperLimit
    ensures r == cost || amountAlreadyCharged + r == costUpperLimit
  {
    if amountAlreadyCharged + cost > costUpperLimit then costUpperLimit - amountAlreadyCharged else cost
  }

  /** A clamp against a limit already exceeded charges a negative amount. */
  lemma ClampBelowZeroWhenOverLimit(cost: int, costUpperLimit: int, amountAlreadyCharged: int)
    requires cost >= 0 && amountAlreadyCharged > costUpperLimit
    ensures LimitCostToMaxAmount(cost, costUpperLimit, amountAlreadyCharged) < 0
  {
  }

  /** Clamping against two caps gives the same amount in either order. */
  lemma ClampOrderIrrelevant(cost: int, limit1: int, charged1: int, limit2: int, charged2: int)
    ensures LimitCostToMaxAmount(LimitCostToMaxAmount(cost, limit1, charged1), limit2, charged2)
         == LimitCostToMaxAmount(LimitCostToMaxAmount(cost, limit2, charged2), limit1, charged1)
  {
  }

  /** A stretch of calendar time over which charges are totalled. */
  datatype Period = Day(date: Date) | Week(year: int, weekOfYear: nat)

  /** Whether a journey was completed within a period. */
  predicate TakenIn(j: Journey, p: Period)
  {
    match p
    case Day(d) => j.date.date == d
    case Week(y, w) => j.date.date.year == y && j.date.date.weekOfYear == w
  }

  predicate AllCostsNonNegative(history: seq<Journey>)
  {
    forall i :: 0 <= i < |history| ==> history[i].cost >= 0
  }

  /**
   * The total cost of the journeys of `history` completed within `p`.
   * It is never negative when no journey cost is, and it is zero when no
   * journey lies within the period.
   */
  function SumCostOfJourneysTakenIn(history: seq<Journey>, p: Period): (r: int)
    ensures AllCostsNonNegative(history) ==> r >= 0
    ensures (forall i :: 0 <= i < |history| ==> !TakenIn(history[i], p)) ==> r == 0
  {
    if history == [] then 0
    else (if TakenIn(history[0], p) then history[0].cost else 0) + SumCostOfJourneysTakenIn(history[1..], p)
  }

  /** Appending a journey adds its cost to the total exactly when it lies in the period. */
  lemma {:induction false} SumCostAppend(history: seq<Journey>, j: Journey, p: Period)
    ensures SumCostOfJourneysTakenIn(history + [j], p)
         == SumCostOfJourneysTakenIn(history, p) + (if TakenIn(j, p) then j.cost else 0)
  {
    if history == [] {
      assert [] + [j] == [j];
    } else {
      assert (history + [j])[1..] == history[1..] + [j];
      SumCostAppend(history[1..], j, p);
    }
  }

  /** With no negative charge, what was charged on a day is within what was charged that week. */
  lemma {:induction false} DayWithinWeek(history: seq<Journey>, d: Date)
    requires AllCostsNonNegative(history)
    ensures SumCostOfJourneysTakenIn(history, Day(d)) <= SumCostOfJourneysTakenIn(history, Week(d.year, d.weekOfYear))
  {
    if history != [] {
      assert AllCostsNonNegative(history[1..]) by {
        forall i | 0 <= i < |history[1..]| ensures history[1..][i].cost >= 0 {
          assert history[1..][i] == history[i + 1];
        }
      }
      DayWithinWeek(history[1..], d);
    }
  }

  /**
   * The fare for a journey from `startStation` to `endStation` completed at
   * `now`, given the card's history: the single-journey price clamped by the
   * day cap against today's charges, then by the week cap against this
   * week's. It is the largest amount that exceeds neither the price nor
   * either cap's remaining headroom.
   */
  function CalculateCostForCurrentJourney(startStation: Station, endStation: Station, history: seq<Journey>, now: DateTime): (r: int)
    ensures r <= CostPerSingleJourney(startStation, endStation)
    ensures SumCostOfJourneysTakenIn(history, Day(now.date)) + r <= CostPerDayLimit(startStation, endStation)
    ensures SumCostOfJourneysTakenIn(history, Week(now.date.year, now.date.weekOfYear)) + r
         <= CostPerWeekLimit(startStation, endStation)
    ensures || r == CostPerSingleJourney(startStation, endStation)
            || SumCostOfJourneysTakenIn(history, Day(now.date)) + r == CostPerDayLimit(startStation, endStation)
            || SumCostOfJourneysTakenIn(history, Week(now.date.year, now.date.weekOfYear)) + r
               == CostPerWeekLimit(startStation, endStation)
  {
    var journeyCost := CostPerSingleJourney(startStation, endStation);
    var currentDate := now.date;
    var chargedToday := SumCostOfJourneysTakenIn(history, Day(currentDate));
    var chargedThisWeek := SumCostOfJourneysTakenIn(history, Week(currentDate.year, currentDate.weekOfYear));
    var dayLimited := LimitCostToMaxAmount(journeyCost, CostPerDayLimit(startStation, endStation), chargedToday);
    LimitCostToMaxAmount(dayLimited, CostPerWeekLimit(startStation, endStation), chargedThisWeek)
  }

  /** The fare never exceeds the fare clamped by the day cap alone. */
  lemma FareAtMostDayLimited(startStation: Station, endStation: Station, history: seq<Journey>, now: DateTime)
    ensures CalculateCostForCurrentJourney(startStation, endStation, history, now)
         <= LimitCostToMaxAmount(CostPerSingleJourney(startStation, endStation),
                                 CostPerDayLimit(startStation, endStation),
                                 SumCostOfJourneysTakenIn(history, Day(now.date)))
  {
  }

  /** The fare is the same in both directions of travel. */
  lemma FareIsSymmetric(a: Station, b: Station, history: seq<Journey>, now: DateTime)
    ensures CalculateCostForCurrentJourney(a, b, history, now) == CalculateCostForCurrentJourney(b, a, history, now)
  {
    TariffsAreSymmetric(a, b);
  }

  /** A first journey under caps that do not bind costs the single-journey price. */
  lemma IsolatedJourneyCostsSinglePrice(startStation: Station, endStation: Station, now: DateTime)
    requires CostPerSingleJourney(startStation, endStation) <= CostPerDayLimit(startStation, endStation)
    requires CostPerSingleJourney(startStation, endStation) <= CostPerWeekLimit(startStation, endStation)
    ensures CalculateCostForCurrentJourney(startStation, endStation, [], now) == CostPerSingleJourney(startStation, endStation)
  {
  }

  /** Once the day's charges reach the day cap, further journeys that day are free. */
  lemma DayCapReachedChargesNothing(startStation: Station, endStation: Station, history: seq<Journey>, now: DateTime)
    requires CostPerSingleJourney(startStation, endStation) >= 0
    requires SumCostOfJourneysTakenIn(history, Day(now.date)) == CostPerDayLimit(startStation, endStation)
    requires SumCostOfJourneysTakenIn(history, Week(now.date.year, now.date.weekOfYear))
          <= CostPerWeekLimit(startStation, endStation)
    ensures CalculateCostForCurrentJourney(startStation, endStation, history, now) == 0
  {
  }

  /** Once the week's charges reach the week cap, further journeys that week are free. */
  lemma WeekCapReachedChargesNothing(startStation: Station, endStation: Station, history: seq<Journey>, now: DateTime)
    requires CostPerSingleJourney(startStation, endStation) >= 0
    requires SumCostOfJourneysTakenIn(history, Day(now.date)) <= CostPerDayLimit(startStation, endStation)
    requires SumCostOfJourneysTakenIn(history, Week(now.date.year, now.date.weekOfYear))
          == CostPerWeekLimit(startStation, endStation)
    ensures CalculateCostForCurrentJourney(startStation, endStation, history, now) == 0
  {
  }

  /** While neither cap is exceeded, the fare is never negative. */
  lemma FareNonNegativeWithinCaps(startStation: Station, endStation: Station, history: seq<Journey>, now: DateTime)
    requires CostPerSingleJourney(startStation, endStation) >= 0
    requires SumCostOfJourneysTakenIn(history, Day(now.date)) <= CostPerDayLimit(startStation, endStation)
    requires SumCostOfJourneysTakenIn(history, Week(now.date.year, now.date.weekOfYear))
          <= CostPerWeekLimit(startStation, endStation)
    ensures CalculateCostForCurrentJourney(startStation, endStation, history, now) >= 0
  {
  }

  /** The charge made when today's charges already exceed the day cap is negative. */
  lemma FareNegativeOverDayCap(startStation: Station, endStation: Station, history: seq<Journey>, now: DateTime)
    requires CostPerSingleJourney(startStation, endStation) >= 0
    requires SumCostOfJourneysTakenIn(history, Day(now.date)) > CostPerDayLimit(startStation, endStation)
    ensures CalculateCostForCurrentJourney(startStation, endStation, history, now) < 0
  {
  }

  /**
   * Recording a journey charged by the fare, dated at the time it was
   * computed, keeps that day's and that week's totals within the trip's caps.
   */
  lemma {:induction false} ChargeKeepsTotalsWithinCaps(history: seq<Journey>, j: Journey)
    requires j.cost == CalculateCostForCurrentJourney(j.from, j.to, history, j.date)
    ensures SumCostOfJourneysTakenIn(history + [j], Day(j.date.date)) <= CostPerDayLimit(j.from, j.to)
    ensures SumCostOfJourneysTakenIn(history + [j], Week(j.date.date.year, j.date.date.weekOfYear))
         <= CostPerWeekLimit(j.from, j.to)
  {
    SumCostAppend(history, j, Day(j.date.date));
    SumCostAppend(history, j, Week(j.date.date.year, j.date.date.weekOfYear));
  }
}
