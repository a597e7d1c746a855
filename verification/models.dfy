/**
 * The reference data and records the card works with: zones and their
 * tariffs, stations, calendar values, the clock and completed journeys.
 * Money is a whole number of the smallest currency unit; the card only adds,
 * subtracts and compares amounts, so exact decimals and integers agree.
 */
module Models {

  /** A tariff-bearing zone: the single-journey price and the two caps. */
  datatype Zone = Zone(costPerSingleJourney: int, costPerDayLimit: int, costPerWeekLimit: int)

  /**
   * A station is borrowed reference data. It is an object so that `==`
   * compares identities, as the card compares station references.
   */
  class Station {
    const name: string
    const zone: Zone

    constructor (name: string, zone: Zone)
      ensures this.name == name && this.zone == zone
    {
      this.name := name;
      this.zone := zone;
    }
  }

  /**
   * A calendar date. The week-of-year numbering belongs to calendar code that
   * is not part of this model, so the week number is carried with the date;
   * two equal dates therefore always lie in the same year and week.
   */
  datatype Date = Date(year: int, month: nat, day: nat, weekOfYear: nat)

  /** A point in time: its calendar date and the time elapsed since midnight. */
  datatype DateTime = DateTime(date: Date, timeOfDay: nat)

  /** The time source the card reads; a test may set `now` at will. */
  class Clock {
    var now: DateTime

    constructor (now: DateTime)
      ensures this.now == now
    {
      this.now := now;
    }
  }

  /** A completed journey: when it ended, where it ran and what it cost. */
  datatype Journey = Journey(date: DateTime, from: Station, to: Station, cost: int)
}
