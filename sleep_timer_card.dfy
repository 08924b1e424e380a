/** The timer card: the start/stop toggle, which remembers its own start
    instant and reports one event to the page, and the split of the elapsed
    time into hours and minutes shown while sleeping. */
module SleepTimer {
  import opened SleepData

  const MinuteMs: int := 60 * 1000

  /** JavaScript's `a % 60` on integers: the remainder takes the sign of the
      dividend (Dafny's own `%` never returns a negative value). */
  function JsRem60(a: int): (r: int)
    ensures a >= 0 ==> 0 <= r < 60
    ensures a < 0 ==> -60 < r <= 0
    ensures r == a % 60 || r == a % 60 - 60
  {
    if a >= 0 then a % 60 else -((-a) % 60)
  }

  /** Whole elapsed minutes, rounded down. */
  function ElapsedMinutes(start: int, end: int): (d: int)
    ensures d * MinuteMs <= end - start < d * MinuteMs + MinuteMs
    ensures d >= 0 <==> end >= start
  {
    (end - start) / MinuteMs
  }

  datatype Elapsed = Elapsed(hours: int, minutes: int)

  /** `formatDuration` as written: hours by floor division, minutes by the
      sign-following remainder. For a non-negative span it is the usual split. */
  function FormatDuration(start: int, end: int): (e: Elapsed)
    ensures end >= start ==> 0 <= e.hours && 0 <= e.minutes < 60
    ensures end >= start ==> e.hours * 60 + e.minutes == ElapsedMinutes(start, end)
  {
    var diff := ElapsedMinutes(start, end);
    Elapsed(diff / 60, JsRem60(diff))
  }

  /** For a negative span that is not a whole number of hours, the two parts
      no longer add up: the split loses 60 minutes and shows negative minutes. */
  lemma FormatDurationNegative(start: int, end: int)
    requires end < start && ElapsedMinutes(start, end) % 60 != 0
    ensures FormatDuration(start, end).minutes < 0
    ensures FormatDuration(start, end).hours * 60 + FormatDuration(start, end).minutes
              == ElapsedMinutes(start, end) - 60
  {
    var diff := ElapsedMinutes(start, end);
    var p := -diff;
    assert p > 0;
    var r := p % 60;
    assert r != 0 by {
      assert diff == -(p / 60) * 60 - r;
    }
    assert diff == -(p / 60) * 60 - r;
    assert diff == (-(p / 60) - 1) * 60 + (60 - r);
    assert diff / 60 == -(p / 60) - 1;
  }

  /** Just after the start is pressed the last clock tick is up to a second
      older than the stored start, and the card shows minus one hour and minus
      one minute. */
  lemma FormatDurationJustAfterStart(start: int, lastTick: int)
    requires start - 1000 <= lastTick < start
    ensures FormatDuration(start, lastTick) == Elapsed(-1, -1)
  {
    assert ElapsedMinutes(start, lastTick) == -1;
  }

  /** The split with the span clamped at zero: hours and minutes are never
      negative and always add up to the whole minutes elapsed. */
  function FormatDurationClamped(start: int, end: int): (e: Elapsed)
    ensures 0 <= e.hours && 0 <= e.minutes < 60
    ensures e.hours * 60 + e.minutes == if end >= start then ElapsedMinutes(start, end) else 0
    ensures end >= start ==> e == FormatDuration(start, end)
  {
    var diff := if end >= start then ElapsedMinutes(start, end) else 0;
    Elapsed(diff / 60, diff % 60)
  }

  /** What the toggle reports to the page. */
  datatype TimerEvent = SleepStarted(at: int) | SleepEnded(at: int)

  class TimerCard {
    var sleepStartTime: Option<int>

    constructor ()
      ensures sleepStartTime == None
    {
      sleepStartTime := None;
    }

    /** `handleToggleSleep`: while sleeping, reports the end and forgets the
        start; otherwise stores `now` and reports that same instant as the
        start. Exactly one event is reported either way. */
    method HandleToggleSleep(isSleeping: bool, now: int) returns (event: TimerEvent)
      modifies this
      ensures isSleeping ==> event == SleepEnded(now) && sleepStartTime == None
      ensures !isSleeping ==> event == SleepStarted(now) && sleepStartTime == Some(now)
    {
      if isSleeping {
        event := SleepEnded(now);
        sleepStartTime := None;
      } else {
        sleepStartTime := Some(now);
        event := SleepStarted(now);
      }
    }
  }
}
