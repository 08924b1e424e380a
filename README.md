# Sleep dashboard: a Dafny model of its store and controllers

The dashboard records sleep sessions. The user presses a button to start a
session and presses it again to end it. Each finished session becomes a record
with a date, clock texts, a duration in hours and a quality label
(good / normal / poor). The label is judged against the daily sleep goal in
force when the record is made. The store keeps the 30 newest records, newest
first, together with the goal and an "is sleeping" flag. From the records it
derives a seven-day series (oldest day first, today last), the mean of the
positive days of that series, and today's sleep.

The model has four modules, one per source file:

- `SleepData` (`sleep_data.dfy`, from `src/hooks/useSleepData.ts`). It holds
  the record and state datatypes and the seed history. The three state
  updaters are pure functions on `SleepState`, since the source passes them to
  the state setter as functions of the previous state. The class `SleepStore`
  holds the state; its methods replace it through those updaters. The weekly
  series, the weekly average and today's sleep are pure functions of the
  records and an explicit "now".
- `SleepTimer` (`sleep_timer_card.dfy`, from
  `src/components/sleep/SleepTimerCard.tsx`). It holds the elapsed-time split
  into hours and minutes. Its class `TimerCard` has the start/stop toggle,
  which reports one `TimerEvent` to the page.
- `SleepGoal` (`sleep_goal_card.dfy`, from
  `src/components/sleep/SleepGoalCard.tsx`). It holds the [4, 12] acceptance
  rule. Its class `GoalCard` holds the draft text and the editing flag.
- `SleepPage` (`index_page.dfy`, from `src/pages/Index.tsx`). Its class `Page`
  remembers the session's start instant and wires the cards to the store.

Representation choices:

- Instants are integer milliseconds since the epoch.
- A record's date is its UTC day number: the instant divided by 86 400 000,
  rounded down. The source takes the date part of the ISO-8601 (UTC) text, so
  this is the same day. The source reads a stored date back as UTC midnight,
  which is `date * 86400000` here. Slot `i` of the week is day `today - 6 + i`.
- Durations and goals are exact reals.
- JavaScript's `%` keeps the sign of the dividend. It is written out as
  `JsRem60`. Dafny's `/` on integers rounds down for a positive divisor, as
  `Math.floor` does.

Things the source gets from its environment are passed in as parameters:

- the current time (`now`, `time`, `lastTick`);
- the record id, which the source makes from the clock;
- the locale formatter for clock texts (`clockText: int -> string`);
- the number-to-text conversion of the goal (`show: real -> string`);
- the number parser for the draft (`parse: string -> Option<real>`, where
  `None` stands for NaN);
- the saved state found in local storage (`Option<SleepState>`).

## Model

| member | source | states |
|---|---|---|
| `SleepData.Classify` | src/hooks/useSleepData.ts:79-84 | the classifier: good iff duration >= 0.9·goal, poor iff not good and duration < 0.7·goal, otherwise normal; its meaning as bands is in ClassifyBands and ClassifyMonotone |
| `SleepData.ClassifyBands` | src/hooks/useSleepData.ts:79-84 | for a goal g >= 0: good iff duration >= 0.9·g, poor iff duration < 0.7·g, normal iff 0.7·g <= duration < 0.9·g |
| `SleepData.ClassifyMonotone` | src/hooks/useSleepData.ts:79-84 | for any goal, a longer duration never gets a worse label |
| `SleepData.DurationHours` | src/hooks/useSleepData.ts:77 | hours times 3 600 000 gives the span in ms; the result is negative iff the end precedes the start, and zero iff they are equal |
| `SleepData.UtcDay` | src/hooks/useSleepData.ts:88 | the day number d satisfies d·86400000 <= ms < (d+1)·86400000 (floor, also before 1970) |
| `SleepData.UtcDayUnique` | src/hooks/useSleepData.ts:88 | that bracket determines the day number uniquely |
| `SleepData.UtcDayShift` | src/hooks/useSleepData.ts:126-127 | going back k whole days from an instant lowers its UTC day by exactly k |
| `SleepData.NewRecord` | src/hooks/useSleepData.ts:76-93 | the record has the given id; its date is the UTC day of the start; its duration is (end − start) ms in hours, negative when end < start (not rejected); good iff duration >= 0.9·goal, else poor iff < 0.7·goal, using the goal passed at call time; the clock texts are those of the start and end |
| `SleepData.Prepend` | src/hooks/useSleepData.ts:95-98 | the new record is first; the length is min(n, 29) + 1 <= 30; the rest is a prefix of the old list in order; below 30 nothing is dropped |
| `SleepData.SleepState.AddRecord` | src/hooks/useSleepData.ts:95-98 | adding a record leaves the goal and the flag unchanged, puts the record first, makes the length min(n, 29) + 1 <= 30 and keeps the rest as an in-order prefix of the old records |
| `SleepData.SleepState.WithGoal` | src/hooks/useSleepData.ts:102-105 | the goal updater sets the goal to the given value, whatever it is, and keeps the records and the flag |
| `SleepData.SleepState.WithSleeping` | src/hooks/useSleepData.ts:109-112 | the flag updater sets the flag and keeps the records and the goal |
| `SleepData.AddAll` | src/hooks/useSleepData.ts:95-98 | repeated additions: no addition leaves the list as it was; one or more leave between 1 and 30 records; the exact contents are in AddAllWindow |
| `SleepData.AddAllWindow` | src/hooks/useSleepData.ts:95-98 | after one or more additions the list is exactly the min(k + n, 30) newest records, newest first, so the oldest are dropped first |
| `SleepData.AddAllBounded` | src/hooks/useSleepData.ts:95-98 | after any non-empty sequence of additions the length is min(k + n, 30), never above 30 |
| `SleepData.FindByDate` | src/hooks/useSleepData.ts:128 | `find` by date gives nothing iff no record has that date; otherwise it gives the first record in list order with that date |
| `SleepData.WeekFilter` | src/hooks/useSleepData.ts:117-122 | the week filter keeps only records whose date, read as UTC midnight, lies between now − 7 days and now, and never lengthens the list |
| `SleepData.WeekFilterKeepsSlots` | src/hooks/useSleepData.ts:117-130 | for every day of the seven-day window, looking up that day after the filter gives the same result as looking it up in all records |
| `SleepData.WeeklyData` | src/hooks/useSleepData.ts:115-133 | `getWeeklyData` returns exactly 7 values; what each value is comes from WeeklyDataSlots |
| `SleepData.SlotValue` | src/hooks/useSleepData.ts:125-130 | one slot over the filtered records: 0 when no record is dated the UTC day of now − (6 − i) days, otherwise the duration of the first such record |
| `SleepData.WeeklyDataSlots` | src/hooks/useSleepData.ts:115-133 | the series has exactly 7 values; value i is 0 when no record is dated today − 6 + i, and otherwise it is the duration of the first such record |
| `SleepData.Positives` | src/hooks/useSleepData.ts:137 | the kept values are all > 0 and taken from the input; none is kept iff no input is > 0 |
| `SleepData.SumBounds` | src/hooks/useSleepData.ts:138 | a sum of n values in (0, m] lies in (0, n·m] |
| `SleepData.MeanBounds` | src/hooks/useSleepData.ts:138 | the mean of n values in (0, m] lies in (0, m] |
| `SleepData.Average` | src/hooks/useSleepData.ts:137-138 | the mean of the positive values is 0 when no value is positive; the full meaning is in AverageBounds |
| `SleepData.WeeklyAverage` | src/hooks/useSleepData.ts:135-139 | `getWeeklyAverage` is never negative, and it is 0 iff no weekly value is positive; the upper bound is in AverageBounds |
| `SleepData.AverageWithinWeek` | src/hooks/useSleepData.ts:135-139 | with some positive day, the average is > 0 and at most the largest weekly value |
| `SleepData.AverageBounds` | src/hooks/useSleepData.ts:135-139 | the average is 0 iff no weekly value is > 0 (no division by zero); otherwise it is in (0, max] |
| `SleepData.AverageIgnoresNonPositive` | src/hooks/useSleepData.ts:137-138 | adding a zero or negative day at either end does not change the average |
| `SleepData.PositivesAppend` | src/hooks/useSleepData.ts:137 | the positive filter distributes over concatenation |
| `SleepData.TodaySleep` | src/hooks/useSleepData.ts:141-145 | `getTodaySleep` is 0 when no record is dated today's UTC day, otherwise the duration of the first record so dated; TodayIsLastSlot ties it to the weekly series |
| `SleepData.TodayIsLastSlot` | src/hooks/useSleepData.ts:141-145 | today's sleep equals the last value of the weekly series for the same now |
| `SleepData.Seed` | src/hooks/useSleepData.ts:24-69 | the seed has 5 records, goal 8 and the flag off; its order and labels are in SeedFacts |
| `SleepData.SeedFacts` | src/hooks/useSleepData.ts:24-69 | the seed has 5 records with strictly decreasing dates, goal 8 and the flag off; every seed label is what the classifier gives for its duration under goal 8 |
| `SleepData.SleepStore.constructor` | src/hooks/useSleepData.ts:19-69 | the store holds the saved state when there is one, and the seed otherwise |
| `SleepData.SleepStore.AddSleepRecord` | src/hooks/useSleepData.ts:76-99 | the new state is the old one with `NewRecord` (classified with the goal held before the call) prepended under the cap; the length becomes min(n, 29) + 1 |
| `SleepData.SleepStore.UpdateSleepGoal` | src/hooks/useSleepData.ts:101-106 | only the goal changes, to any real; there is no range check |
| `SleepData.SleepStore.SetIsSleeping` | src/hooks/useSleepData.ts:108-113 | only the flag changes |
| `SleepData.SetIsSleepingTwice` | src/hooks/useSleepData.ts:108-113 | setting the same flag twice leaves the same state as setting it once |
| `SleepTimer.JsRem60` | src/components/sleep/SleepTimerCard.tsx:25 | the remainder lies in [0, 60) for a non-negative dividend and in (−60, 0] for a negative one; it equals the floor remainder or that minus 60 |
| `SleepTimer.ElapsedMinutes` | src/components/sleep/SleepTimerCard.tsx:23 | whole minutes rounded down: d·60000 <= end − start < (d+1)·60000; non-negative iff end >= start |
| `SleepTimer.FormatDuration` | src/components/sleep/SleepTimerCard.tsx:22-27 | for end >= start: hours >= 0, minutes in [0, 59], and hours·60 + minutes is the total of whole minutes |
| `SleepTimer.FormatDurationNegative` | src/components/sleep/SleepTimerCard.tsx:22-27 | as written, a negative span that is not a whole number of hours shows negative minutes, and hours·60 + minutes falls 60 short of the total |
| `SleepTimer.FormatDurationJustAfterStart` | src/components/sleep/SleepTimerCard.tsx:15-27 | a clock tick up to one second older than the stored start shows −1 hours and −1 minutes |
| `SleepTimer.FormatDurationClamped` | src/components/sleep/SleepTimerCard.tsx:22-27 | the corrected split: hours >= 0, minutes in [0, 59], hours·60 + minutes is the elapsed whole minutes clamped at 0; it agrees with the source for end >= start |
| `SleepTimer.TimerCard.constructor` | src/components/sleep/SleepTimerCard.tsx:14 | no start instant is remembered at first |
| `SleepTimer.TimerCard.HandleToggleSleep` | src/components/sleep/SleepTimerCard.tsx:29-38 | while sleeping, it reports exactly one end event at now and forgets its start; otherwise it remembers now and reports that same instant as the start |
| `SleepGoal.AcceptGoal` | src/components/sleep/SleepGoalCard.tsx:19-20 | a parsed goal is accepted iff it is a number with 4 <= goal <= 12, both ends inclusive; an unparsable draft is rejected; an accepted goal is passed on unchanged |
| `SleepGoal.GoalCard.constructor` | src/components/sleep/SleepGoalCard.tsx:15-16 | the card starts out of edit mode with the current goal's text as the draft |
| `SleepGoal.GoalCard.StartEditing` | src/components/sleep/SleepGoalCard.tsx:62 | the adjust button enters edit mode and keeps the draft |
| `SleepGoal.GoalCard.EditDraft` | src/components/sleep/SleepGoalCard.tsx:81 | typing replaces the draft and keeps the mode |
| `SleepGoal.GoalCard.HandleSave` | src/components/sleep/SleepGoalCard.tsx:18-27 | the callback gets exactly the accepted value, or is not called; on acceptance editing ends; on rejection the mode and the draft stay as they were |
| `SleepGoal.GoalCard.HandleCancel` | src/components/sleep/SleepGoalCard.tsx:29-32 | the draft goes back to the current goal's text and editing ends; no goal is reported |
| `SleepPage.Page.constructor` | src/pages/Index.tsx:11-21 | the store is rehydrated or seeded, no start is remembered, and the goal card shows the store's goal |
| `SleepPage.Page.HandleSleepStart` | src/pages/Index.tsx:23-26 | it remembers the given start and sets the flag; nothing else in the store changes |
| `SleepPage.Page.HandleSleepEnd` | src/pages/Index.tsx:28-34 | with a remembered start s it adds exactly one record built from (s, time) with the goal held then; without one it adds none; on both paths the start is cleared and the flag is off |
| `SleepPage.Page.ToggleSleep` | src/pages/Index.tsx:74-78 | the timer card's event is sent to the matching handler: while the flag is set, the session ends (a record only if a start is remembered); otherwise both the card and the page remember now and the flag is set; the goal never changes |
| `SleepPage.Page.SaveGoal` | src/pages/Index.tsx:82-85 | the store's goal becomes the accepted draft value or stays as it was, so any goal that reaches the store through the card lies in [4, 12], and a goal in range stays in range; on acceptance the card leaves edit mode, on rejection its mode stays as it was; the draft, the records and the flag are unchanged |
| `SleepPage.Page.CancelGoal` | src/pages/Index.tsx:82-85 | cancelling resets the card's draft to the store's goal text and ends editing |
| `SleepPage.StartThenEnd` | src/pages/Index.tsx:23-34 | start then end grows the records to min(n, 29) + 1 with the new record first, built from the two instants; the goal is unchanged; the flag is off and no start is remembered |

## Findings

| source | as written | input that shows it | evidently intended | confidence | as-written member | corrected member |
|---|---|---|---|---|---|---|
| src/components/sleep/SleepTimerCard.tsx:22-27 | `formatDuration(sleepStartTime, currentTime)` (lines 91-95) splits a span that can be negative. `currentTime` is only refreshed by the one-second tick (lines 17-20), but the start is set to a fresh `new Date()` when the button is pressed. `%` keeps the sign. | start pressed at t, last tick at t − 500 ms: the whole minutes are −1 and the card shows "−1 hours −1 minutes" until the next tick | the elapsed time is never shown as negative: hours >= 0, minutes in [0, 59], and they add up to the elapsed whole minutes | not executed; high that the negative text appears for up to one second after a start | `SleepTimer.FormatDurationJustAfterStart`, `SleepTimer.FormatDurationNegative` | `SleepTimer.FormatDurationClamped` |

## Left out

- Local storage and JSON (src/hooks/useSleepData.ts:19-23, 72-74). The store
  takes the saved state as a parameter. Writing the state back after each
  change is not modelled. A stored value that does not parse makes the source
  throw; no fallback is modelled for it.
- Id generation from the clock (line 87). The id is a parameter, and the model
  claims nothing about its uniqueness.
- Locale formatting of clock texts and dates. The formatters are parameters.
  `toISOString` also throws for instants beyond ±8.64·10^15 ms, and that case
  is not modelled.
- The one-second clock tick and `new Date()`: "now" is a parameter of every
  operation that reads the clock.
- IEEE-754 rounding. Durations, goals and averages are exact reals, so results
  exactly at the 0.9·goal and 0.7·goal boundaries may differ from the source's
  doubles. Dividing the span by 1000 and then by 60 is taken as one exact
  division.
- `parseFloat`. It is abstracted as `parse: string -> Option<real>`.
- React behaviour: re-render timing, batched updates, and the stale closure
  that reads the goal from the rendered state while the updater uses the
  previous state. The calls are modelled as sequential, so both read the same
  state.
- The text, colours and toast notifications of the cards, and the statistics
  and history cards (SleepStatsCard.tsx, SleepHistoryCard.tsx), which only
  display values.
