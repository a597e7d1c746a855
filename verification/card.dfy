/**
 * The fare card: at most one journey in progress, an owned, append-only
 * history of completed journeys, and the start/end operations that move
 * between "no journey" and "journey from a station".
 */
module Cards {
  import opened Wrappers
  import opened Models
  import Fares

  const JourneyAlreadyUnderway := "A Journey is already underway"
  const NoJourneyUnderway := "No Journey currently underway"

  /** The exceptions the card throws. */
  datatype CardError =
    | ArgumentNull(paramName: string)
    | JourneyException(message: string)

  class Card {
    const dateTimeProvider: Clock
    /** The station the open journey started from; null when none is open. */
    var currentJourneyStartFrom: Station?
    /** Completed journeys, in the order they were completed. */
    var journeyHistory: seq<Journey>

    /** A card over its own copy of the given history, with no journey open. */
    constructor (dateTimeProvider: Clock, journeyHistory: seq<Journey>)
      ensures this.dateTimeProvider == dateTimeProvider
      ensures this.journeyHistory == journeyHistory
      ensures currentJourneyStartFrom == null
    {
      this.dateTimeProvider := dateTimeProvider;
      this.journeyHistory := journeyHistory;
      currentJourneyStartFrom := null;
    }

    /**
     * Construction with the source's argument checks: a missing history is
     * reported before a missing clock.
     */
    static method Create(dateTimeProvider: Clock?, journeyHistory: Option<seq<Journey>>)
      returns (r: Result<Card, CardError>)
      ensures journeyHistory.None? ==> r == Failure(ArgumentNull("journeyHistory"))
      ensures journeyHistory.Some? && dateTimeProvider == null ==> r == Failure(ArgumentNull("dateTimeProvider"))
      ensures journeyHistory.Some? && dateTimeProvider != null ==>
                && r.Success? && fresh(r.value)
                && r.value.dateTimeProvider == dateTimeProvider
                && r.value.journeyHistory == journeyHistory.value
                && r.value.currentJourneyStartFrom == null
    {
      if journeyHistory.None? {
        return Failure(ArgumentNull("journeyHistory"));
      }
      if dateTimeProvider == null {
        return Failure(ArgumentNull("dateTimeProvider"));
      }
      var card := new Card(dateTimeProvider, journeyHistory.value);
      return Success(card);
    }

    /**
     * Opens a journey at `station`. An open journey is reported before a
     * missing station; a failure changes nothing.
     */
    method StartJourney(station: Station?) returns (r: Outcome<CardError>)
      modifies this
      ensures journeyHistory == old(journeyHistory)
      ensures old(currentJourneyStartFrom) != null ==>
                r == Fail(JourneyException(JourneyAlreadyUnderway))
                && currentJourneyStartFrom == old(currentJourneyStartFrom)
      ensures old(currentJourneyStartFrom) == null && station == null ==>
                r == Fail(ArgumentNull("station")) && currentJourneyStartFrom == null
      ensures old(currentJourneyStartFrom) == null && station != null ==>
                r == Pass && currentJourneyStartFrom == station
    {
      if currentJourneyStartFrom != null {
        return Fail(JourneyException(JourneyAlreadyUnderway));
      }
      if station == null {
        return Fail(ArgumentNull("station"));
      }
      currentJourneyStartFrom := station;
      return Pass;
    }

    /**
     * Closes the open journey at `station`. A missing station is reported
     * before a missing journey, and neither failure changes anything. Tapping
     * out where the journey started returns no journey and leaves that
     * journey open. Otherwise the journey, dated now and charged the capped
     * fare, is appended to the history and returned, and no journey is open.
     */
    method EndJourney(station: Station?) returns (r: Result<Option<Journey>, CardError>)
      modifies this
      ensures station == null ==> r == Failure(ArgumentNull("station")) && unchanged(this)
      ensures station != null && old(currentJourneyStartFrom) == null ==>
                r == Failure(JourneyException(NoJourneyUnderway)) && unchanged(this)
      ensures station != null && old(currentJourneyStartFrom) == station ==>
                r == Success(None) && unchanged(this)
      ensures station != null && old(currentJourneyStartFrom) != null && old(currentJourneyStartFrom) != station ==>
                && r == Success(Some(Journey(dateTimeProvider.now, old(currentJourneyStartFrom), station,
                       Fares.CalculateCostForCurrentJourney(old(currentJourneyStartFrom), station,
                                                            old(journeyHistory), dateTimeProvider.now))))
                && journeyHistory == old(journeyHistory) + [r.value.value]
                && currentJourneyStartFrom == null
    {
      if station == null {
        return Failure(ArgumentNull("station"));
      }
      if currentJourneyStartFrom == null {
        return Failure(JourneyException(NoJourneyUnderway));
      }
      if currentJourneyStartFrom == station {
        return Success(None);
      }
      var journey := ProcessJourneyEnd(station);
      return Success(Some(journey));
    }

    /** Records the open journey as ended at `station` and returns the record. */
    method ProcessJourneyEnd(station: Station) returns (journey: Journey)
      requires currentJourneyStartFrom != null
      modifies this
      ensures journey == Journey(dateTimeProvider.now, old(currentJourneyStartFrom), station,
                                 Fares.CalculateCostForCurrentJourney(old(currentJourneyStartFrom), station,
                                                                      old(journeyHistory), dateTimeProvider.now))
      ensures journeyHistory == old(journeyHistory) + [journey]
      ensures currentJourneyStartFrom == null
    {
      var now := dateTimeProvider.now;
      var cost := Fares.CalculateCostForCurrentJourney(currentJourneyStartFrom, station, journeyHistory, now);
      journey := Journey(now, currentJourneyStartFrom, station, cost);
      ClearCurrentJourney(journey);
    }

    /** Closes the open journey and appends the completed one to the history. */
    method ClearCurrentJourney(theCompletedJourney: Journey)
      modifies this
      ensures currentJourneyStartFrom == null
      ensures journeyHistory == old(journeyHistory) + [theCompletedJourney]
    {
      currentJourneyStartFrom := null;
      journeyHistory := journeyHistory + [theCompletedJourney];
    }
  }

  /** One journey from `a` to `b` on an idle card; returns what it charged. */
  method Travel(card: Card, a: Station, b: Station) returns (cost: int)
    requires card.currentJourneyStartFrom == null && a != b
    modifies card
    ensures card.currentJourneyStartFrom == null
    ensures |card.journeyHistory| == |old(card.journeyHistory)| + 1
    ensures cost == Fares.CalculateCostForCurrentJourney(a, b, old(card.journeyHistory), card.dateTimeProvider.now)
    ensures forall p: Fares.Period ::
              Fares.SumCostOfJourneysTakenIn(card.journeyHistory, p)
              == Fares.SumCostOfJourneysTakenIn(old(card.journeyHistory), p)
                 + (if Fares.TakenIn(card.journeyHistory[|card.journeyHistory| - 1], p) then cost else 0)
    ensures card.journeyHistory[|card.journeyHistory| - 1].date == card.dateTimeProvider.now
  {
    var before := card.journeyHistory;
    var started := card.StartJourney(a);
    var ended := card.EndJourney(b);
    var j := ended.value.value;
    forall p: Fares.Period
      ensures Fares.SumCostOfJourneysTakenIn(before + [j], p)
              == Fares.SumCostOfJourneysTakenIn(before, p) + (if Fares.TakenIn(j, p) then j.cost else 0)
    {
      Fares.SumCostAppend(before, j, p);
    }
    cost := j.cost;
  }

  /**
   * A day of travel between two stations of one zone priced 3 with a day cap
   * of 10: the charges are 3, 3, 3, 1 and then 0, and a tap-out at the start
   * station charges nothing and keeps the journey open.
   */
  method DayCapScenario()
  {
    var zone := Zone(3, 10, 100);
    var a := new Station("A", zone);
    var b := new Station("B", zone);
    var today := DateTime(Date(2020, 1, 6, 2), 0);
    var clock := new Clock(today);
    var card := new Card(clock, []);

    var c1 := Travel(card, a, b);
    assert c1 == 3;
    var c2 := Travel(card, a, b);
    assert c2 == 3;
    var c3 := Travel(card, a, b);
    assert c3 == 3;
    var c4 := Travel(card, a, b);
    assert c4 == 1;
    var c5 := Travel(card, a, b);
    assert c5 == 0;

    var started := card.StartJourney(a);
    var again := card.StartJourney(b);
    assert again == Fail(JourneyException(JourneyAlreadyUnderway));
    var cancelled := card.EndJourney(a);
    assert cancelled == Success(None) && card.currentJourneyStartFrom == a && |card.journeyHistory| == 5;
  }

  /** A trip between a zone priced 2 and one priced 5 charges 5 in either direction. */
  method CrossZoneScenario()
  {
    var x := new Station("X", Zone(2, 100, 500));
    var y := new Station("Y", Zone(5, 100, 500));
    var clock := new Clock(DateTime(Date(2020, 1, 6, 2), 0));
    var card := new Card(clock, []);
    var there := Travel(card, x, y);
    assert there == 5;
    var back := Travel(card, y, x);
    assert back == 5;
    assert |card.journeyHistory| == 2;
  }
}
