# Clam card fare capping, modelled in Dafny

A contactless transit card (`Card`, source/ClamCard/Implementations/Card.cs)
keeps at most one journey open, from the station where the rider tapped in.
Tapping out at another station completes the journey and charges a fare. The
card then appends the completed journey to a history that it owns. The fare
is the dearer of the two zones' single-journey prices. That price is clamped
first so that today's charges stay within the day cap, then so that this
week's charges stay within the week cap. Each cap is the higher of the two
zones' caps.

Files:
- `wrappers.dfy` (module `Wrappers`): `Option`, `Result` and `Outcome`. They stand for nullable returns and thrown exceptions.
- `models.dfy` (module `Models`): zones, stations, dates, the clock and journey records.
  - Stations are objects, so `==` is reference identity, as in the card's same-station test.
  - Money is an `int` in the smallest currency unit. The card only adds, subtracts and compares amounts, so this is exact.
  - A `Date` carries its week-of-year number, because that numbering belongs to calendar code that is not part of this model.
- `fares.dfy` (module `Fares`): the static tariff helpers, the clamp, the filtered sums of past charges and the fare, with their lemmas.
- `card.dfy` (module `Cards`): the `Card` class, plus two client methods.
  - `Card` has the nullable start station `currentJourneyStartFrom`, the history `journeyHistory: seq<Journey>` and the clock.
  - `Travel`, `DayCapScenario` and `CrossZoneScenario` are the client methods. They replay a day of capped travel (charges 3, 3, 3, 1, 0) and a cross-zone trip in both directions (5 and 5) from the method contracts alone.

Behaviour kept exactly as the code has it:
- Tapping out at the start station returns no journey and does **not** close the open journey. The card stays "in progress" (Card.cs:39).
- `StartJourney` reports an open journey before it reports a missing station (Card.cs:29-31).
- `EndJourney` reports a missing station before it reports that no journey is open (Card.cs:36-37).
- The constructor reports a missing history before a missing clock (Card.cs:16-18).
- The clamp is not floored at zero. If earlier charges already exceed a cap, the fare is negative (`FareNegativeOverDayCap`).
- Both clamps compute a minimum, so applying them day-then-week gives the same fare as week-then-day (`ClampOrderIrrelevant`). The fare is the least of the price, the day headroom and the week headroom.

## Model

| member | source | states |
|---|---|---|
| `Fares.CostPerSingleJourney` | source/ClamCard/Implementations/Card.cs:84-89 | the price is at least each zone's single-journey price and equals one of them (their maximum) |
| `Fares.CostPerDayLimit` | source/ClamCard/Implementations/Card.cs:91-96 | the day cap is at least each zone's day cap and equals one of them |
| `Fares.CostPerWeekLimit` | source/ClamCard/Implementations/Card.cs:98-103 | the week cap is at least each zone's week cap and equals one of them |
| `Fares.TariffsAreSymmetric` | source/ClamCard/Implementations/Card.cs:84-103 | price, day cap and week cap do not depend on the direction of travel |
| `Fares.LimitCostToMaxAmount` | source/ClamCard/Implementations/Card.cs:105-110 | the clamped amount never exceeds the cost, keeps charged-plus-amount within the limit, and is either the cost itself or exactly fills the limit |
| `Fares.ClampBelowZeroWhenOverLimit` | source/ClamCard/Implementations/Card.cs:105-110 | when the amount already charged exceeds the limit, a non-negative cost is clamped to a negative amount |
| `Fares.ClampOrderIrrelevant` | source/ClamCard/Implementations/Card.cs:72-73 | clamping against two limits gives the same amount in either order |
| `Fares.SumCostOfJourneysTakenIn` | source/ClamCard/Implementations/Card.cs:65-70 | the total charged in a day or week is non-negative when every recorded cost is, and zero when no journey falls in the period |
| `Fares.SumCostAppend` | source/ClamCard/Implementations/Card.cs:78-82 | appending a journey adds its cost to a period's total exactly when the journey falls in that period |
| `Fares.DayWithinWeek` | source/ClamCard/Implementations/Card.cs:65-70 | with no negative costs, what was charged on a date is at most what was charged in that date's year and week |
| `Fares.CalculateCostForCurrentJourney` | source/ClamCard/Implementations/Card.cs:59-76 | the fare is at most the single-journey price, keeps today's total within the day cap and this week's total within the week cap, and is the largest such amount (one of the three bounds is met exactly) |
| `Fares.FareAtMostDayLimited` | source/ClamCard/Implementations/Card.cs:72-75 | the fare is at most the price clamped by the day cap alone |
| `Fares.FareIsSymmetric` | source/ClamCard/Implementations/Card.cs:59-63 | the fare is the same in both directions between two stations |
| `Fares.IsolatedJourneyCostsSinglePrice` | source/ClamCard/Implementations/Card.cs:59-75 | with no history and caps at or above the price, the fare is the single-journey price |
| `Fares.DayCapReachedChargesNothing` | source/ClamCard/Implementations/Card.cs:72-75 | once today's charges equal the day cap (week not exceeded), the fare is 0 |
| `Fares.WeekCapReachedChargesNothing` | source/ClamCard/Implementations/Card.cs:72-75 | once this week's charges equal the week cap (day not exceeded), the fare is 0 whatever the day headroom |
| `Fares.FareNonNegativeWithinCaps` | source/ClamCard/Implementations/Card.cs:72-75 | while neither cap is already exceeded, the fare is never negative |
| `Fares.FareNegativeOverDayCap` | source/ClamCard/Implementations/Card.cs:72-75 | when today's charges already exceed the day cap, the fare is negative |
| `Fares.ChargeKeepsTotalsWithinCaps` | source/ClamCard/Implementations/Card.cs:44-57 | after recording a journey charged by the fare and dated when it was computed, that day's and that week's totals are within the trip's caps |
| `Cards.Card.constructor` | source/ClamCard/Implementations/Card.cs:12-19 | the card holds the given clock and its own copy of the given history, with no journey open |
| `Cards.Card.Create` | source/ClamCard/Implementations/Card.cs:12-19 | a missing history fails first, then a missing clock, each with its argument name; otherwise a fresh card holds a copy of the history with no journey open |
| `Cards.Card.StartJourney` | source/ClamCard/Implementations/Card.cs:27-32 | an open journey fails with the "already underway" error and keeps the start station; otherwise a missing station fails with an argument error and leaves the card idle; otherwise the start station becomes the given one; the history never changes |
| `Cards.Card.EndJourney` | source/ClamCard/Implementations/Card.cs:34-42 | a missing station fails first, then no open journey; neither changes the card. Tap-out at the start station returns no journey and changes nothing (the journey stays open). Otherwise it returns the journey from the old start to the station, dated now and charged the capped fare on the old history; that journey is appended as the last history entry, all earlier entries are kept, and no journey is open |
| `Cards.Card.ProcessJourneyEnd` | source/ClamCard/Implementations/Card.cs:44-57 | builds the journey (now, old start, station, fare on the old history), appends it to the history, closes the journey and returns it |
| `Cards.Card.ClearCurrentJourney` | source/ClamCard/Implementations/Card.cs:78-82 | no journey is open and the history is the old history with the completed journey appended |

## Left out

- Clock reads: "now" is the clock object's `now` field, read once per tap-out. The source reads the clock twice (Card.cs:48 and Card.cs:65). A real clock that ticks past midnight between the two reads could date the journey on a different day from the one its fare was capped against. The model does not capture that.
- Calendar arithmetic is not part of this model: `.Date` truncation and `WeekOfYear()` live in extension code. A date carries its year and week number as given data.
- `SumCostOfJourneysTakenOnDay` and `SumCostOfJourneysTakenInWeek` are not part of this model. Their bodies are modelled as the sum of `cost` over history entries whose date (respectively year and week number) matches.
- Exceptions are values of `CardError` (`ArgumentNull` with the parameter name, `JourneyException` with the source's message). They are not .NET exception objects.
- The `ICard`, `IStation`, `IZone` and `IDateTimeProvider` interfaces are replaced by concrete types. Zones are immutable values.
- Aliasing: the history is a `seq` value, so the constructor's defensive copy and the read-only `JourneyHistory` view hold trivially. In the source, the returned `Journey` is a mutable object shared with the history; the model's journeys are immutable values.
- Null entries inside a supplied history cannot be expressed, because `seq<Journey>` holds no nulls.
- Money is an unbounded integer. The range and scale limits of .NET `decimal` are not modelled.
- Concurrency: the card is single-threaded and no locking is modelled.
