/** The sleep-record store of the dashboard: the record and state shapes, the
    seed history, the three state updaters and the three derived queries
    (the weekly series, the weekly average and today's sleep).

    Instants are integer milliseconds since the Unix epoch. A record's date is
    its UTC day number (milliseconds divided by the length of a day, rounded
    down), which is what taking the date part of an ISO-8601 timestamp gives.
    Durations and goals are exact reals (hours). */
module SleepData {

  datatype Option<+T> = None | Some(value: T)

  /** Milliseconds in one day and in one hour. */
  const DayMs: int := 24 * 60 * 60 * 1000
  const HourMs: int := 1000 * 60 * 60

  /** The store keeps the new record and at most 29 older ones. */
  const MaxRecords: nat := 30

  /** UTC day number of 2024-01-01 (1704067200000 ms after the epoch). */
  const Jan1st2024: int := 19723

  function Min(a: int, b: int): int { if a <= b then a else b }

  datatype Quality = Good | Normal | Poor

  datatype SleepRecord = SleepRecord(
    id: string,
    date: int,         // UTC day number of the sleep start
    sleepTime: string, // clock text of the start, as the locale formats it
    wakeTime: string,  // clock text of the end
    duration: real,    // hours
    quality: Quality)

  /** The persisted aggregate: records newest first, the goal, the flag. */
  datatype SleepState = SleepState(records: seq<SleepRecord>, sleepGoal: real, isSleeping: bool)
  {
    /** The updater passed when a record is added: only `records` changes. */
    function AddRecord(rec: SleepRecord): (s: SleepState)
      ensures s.sleepGoal == sleepGoal && s.isSleeping == isSleeping
      ensures 1 <= |s.records| <= MaxRecords && s.records[0] == rec
      ensures |s.records| == Min(|records|, MaxRecords - 1) + 1
      ensures s.records[1..] <= records
    {
      this.(records := Prepend(rec, records))
    }

    /** The updater of `updateSleepGoal`: no range check on the goal. */
    function WithGoal(goal: real): (s: SleepState)
      ensures s.sleepGoal == goal
      ensures s.records == records && s.isSleeping == isSleeping
    {
      this.(sleepGoal := goal)
    }

    /** The updater of `setIsSleeping`. */
    function WithSleeping(flag: bool): (s: SleepState)
      ensures s.isSleeping == flag
      ensures s.records == records && s.sleepGoal == sleepGoal
    {
      this.(isSleeping := flag)
    }
  }

  /** Ordering of the quality levels, worst first. */
  function Rank(q: Quality): nat
  {
    match q
    case Poor => 0
    case Normal => 1
    case Good => 2
  }

  /** The three-way classifier: tested against 90% of the goal first, then 70%. */
  function Classify(duration: real, goal: real): (q: Quality)
    ensures q == Good <==> duration >= goal * 0.9
    ensures q == Poor <==> duration < goal * 0.9 && duration < goal * 0.7
  {
    if duration >= goal * 0.9 then Good
    else if duration < goal * 0.7 then Poor
    else Normal
  }

  /** For a non-negative goal the three levels are three disjoint bands. */
  lemma ClassifyBands(duration: real, goal: real)
    requires goal >= 0.0
    ensures Classify(duration, goal) == Good <==> duration >= 0.9 * goal
    ensures Classify(duration, goal) == Poor <==> duration < 0.7 * goal
    ensures Classify(duration, goal) == Normal <==> 0.7 * goal <= duration < 0.9 * goal
  {
  }

  /** A longer sleep never gets a worse label, whatever the goal. */
  lemma ClassifyMonotone(d1: real, d2: real, goal: real)
    requires d1 <= d2
    ensures Rank(Classify(d1, goal)) <= Rank(Classify(d2, goal))
  {
  }

  /** Hours between two instants; negative when the end precedes the start. */
  function DurationHours(sleepStart: int, sleepEnd: int): (h: real)
    ensures h * HourMs as real == (sleepEnd - sleepStart) as real
    ensures h < 0.0 <==> sleepEnd < sleepStart
    ensures h == 0.0 <==> sleepEnd == sleepStart
  {
    (sleepEnd - sleepStart) as real / HourMs as real
  }

  /** UTC day number of an instant (floor division by the day length). */
  function UtcDay(ms: int): (d: int)
    ensures d * DayMs <= ms < d * DayMs + DayMs
  {
    ms / DayMs
  }

  /** The floor characterisation pins the day number down uniquely. */
  lemma UtcDayUnique(ms: int, d: int)
    requires d * DayMs <= ms < d * DayMs + DayMs
    ensures UtcDay(ms) == d
  {
  }

  /** Going back k whole days from an instant goes back k day numbers. */
  lemma {:induction false} UtcDayShift(ms: int, k: int)
    ensures UtcDay(ms - k * DayMs) == UtcDay(ms) - k
  {
    var q := UtcDay(ms);
    assert (q - k) * DayMs == q * DayMs - k * DayMs;
    UtcDayUnique(ms - k * DayMs, q - k);
  }

  /** The record built by `addSleepRecord` from two instants and the goal in
      force at call time; `id` and the clock-text formatter are supplied. */
  function NewRecord(id: string, sleepStart: int, sleepEnd: int, goal: real,
                     clockText: int -> string): (rec: SleepRecord)
    ensures rec.id == id
    ensures rec.date * DayMs <= sleepStart < rec.date * DayMs + DayMs
    ensures rec.duration * HourMs as real == (sleepEnd - sleepStart) as real
    ensures rec.duration < 0.0 <==> sleepEnd < sleepStart
    ensures rec.quality == Good <==> rec.duration >= goal * 0.9
    ensures rec.quality == Poor <==> rec.duration < goal * 0.9 && rec.duration < goal * 0.7
    ensures rec.sleepTime == clockText(sleepStart) && rec.wakeTime == clockText(sleepEnd)
  {
    var duration := DurationHours(sleepStart, sleepEnd);
    SleepRecord(id, UtcDay(sleepStart), clockText(sleepStart), clockText(sleepEnd),
                duration, Classify(duration, goal))
  }

  /** The new record goes in front; only the 29 newest old records stay. */
  function Prepend(rec: SleepRecord, rs: seq<SleepRecord>): (r: seq<SleepRecord>)
    ensures 1 <= |r| <= MaxRecords && r[0] == rec
    ensures |r| == Min(|rs|, MaxRecords - 1) + 1
    ensures r[1..] <= rs
    ensures |rs| < MaxRecords ==> r[1..] == rs
  {
    [rec] + rs[..Min(|rs|, MaxRecords - 1)]
  }

  /** Adds records one after the other, oldest of `recs` first. */
  function AddAll(rs: seq<SleepRecord>, recs: seq<SleepRecord>): (r: seq<SleepRecord>)
    ensures recs == [] ==> r == rs
    ensures recs != [] ==> 1 <= |r| <= MaxRecords
    decreases |recs|
  {
    if recs == [] then rs else AddAll(Prepend(recs[0], rs), recs[1..])
  }

  function Reversed(s: seq<SleepRecord>): seq<SleepRecord>
  {
    if s == [] then [] else Reversed(s[1..]) + [s[0]]
  }

  lemma {:induction false} ReversedLength(s: seq<SleepRecord>)
    ensures |Reversed(s)| == |s|
  {
    if s != [] { ReversedLength(s[1..]); }
  }

  /** Cutting a tail off past the window taken does not change the window. */
  lemma TakeOfTruncated(a: seq<SleepRecord>, p: seq<SleepRecord>, j: nat, t: nat)
    requires j <= |p| && t <= |a| + j
    ensures (a + p[..j])[..t] == (a + p)[..t]
  {
    assert forall i :: 0 <= i < t ==> (a + p[..j])[i] == (a + p)[i];
  }

  /** After one or more additions the list holds the 30 newest records, newest
      first: the oldest record is always the first to be dropped. */
  lemma {:induction false} AddAllWindow(rs: seq<SleepRecord>, recs: seq<SleepRecord>)
    requires |recs| >= 1
    ensures |Reversed(recs) + rs| >= Min(|recs| + |rs|, MaxRecords)
    ensures AddAll(rs, recs) == (Reversed(recs) + rs)[..Min(|recs| + |rs|, MaxRecords)]
    decreases |recs|
  {
    ReversedLength(recs);
    var rs' := Prepend(recs[0], rs);
    var tail := recs[1..];
    assert rs' == ([recs[0]] + rs)[..Min(|rs| + 1, MaxRecords)];
    if tail == [] {
      assert Reversed(recs) == [recs[0]];
    } else {
      AddAllWindow(rs', tail);
      ReversedLength(tail);
      var a := Reversed(tail);
      assert Reversed(recs) + rs == a + ([recs[0]] + rs);
      TakeOfTruncated(a, [recs[0]] + rs, Min(|rs| + 1, MaxRecords), Min(|recs| + |rs|, MaxRecords));
    }
  }

  /** However many records are added, the list never holds more than 30. */
  lemma AddAllBounded(rs: seq<SleepRecord>, recs: seq<SleepRecord>)
    requires |recs| >= 1
    ensures |AddAll(rs, recs)| == Min(|recs| + |rs|, MaxRecords)
  {
    AddAllWindow(rs, recs);
  }

  /** No record of `rs` is dated `day`. */
  predicate NoneDated(rs: seq<SleepRecord>, day: int)
  {
    forall k :: 0 <= k < |rs| ==> rs[k].date != day
  }

  /** Index k holds the first record of `rs` dated `day`. */
  predicate FirstDated(rs: seq<SleepRecord>, k: int, day: int)
  {
    0 <= k < |rs| && rs[k].date == day && NoneDated(rs[..k], day)
  }

  /** `find` by date: the first record (list order) with that date. */
  function FindByDate(rs: seq<SleepRecord>, day: int): (r: Option<SleepRecord>)
    ensures r.None? <==> NoneDated(rs, day)
    ensures forall k {:trigger FirstDated(rs, k, day)} :: FirstDated(rs, k, day) ==> r == Some(rs[k])
  {
    if rs == [] then None
    else if rs[0].date == day then Some(rs[0])
    else
      var r := FindByDate(rs[1..], day);
      assert forall k :: 1 <= k < |rs| ==> rs[k] == rs[1..][k - 1];
      assert forall k :: 1 <= k <= |rs| ==> rs[1..][..k - 1] == rs[..k][1..];
      assert forall k {:trigger FirstDated(rs, k, day)} :: FirstDated(rs, k, day) ==> k >= 1 && FirstDated(rs[1..], k - 1, day);
      r
  }

  function DurationOrZero(r: Option<SleepRecord>): real
  {
    if r.Some? then r.value.duration else 0.0
  }

  /** The week filter: the record's date read back as UTC midnight must lie
      between seven days before `now` and `now`. */
  predicate InWeek(rec: SleepRecord, now: int)
  {
    rec.date * DayMs >= now - 7 * DayMs && rec.date * DayMs <= now
  }

  function WeekFilter(rs: seq<SleepRecord>, now: int): (r: seq<SleepRecord>)
    ensures |r| <= |rs|
    ensures forall x :: x in r ==> x in rs && InWeek(x, now)
  {
    if rs == [] then []
    else if InWeek(rs[0], now) then [rs[0]] + WeekFilter(rs[1..], now)
    else WeekFilter(rs[1..], now)
  }

  /** Every date of the seven-day window passes the week filter, so the filter
      never hides a record that a slot of the series would match. */
  lemma {:induction false} WeekFilterKeepsSlots(rs: seq<SleepRecord>, now: int, day: int)
    requires UtcDay(now) - 6 <= day <= UtcDay(now)
    ensures FindByDate(WeekFilter(rs, now), day) == FindByDate(rs, day)
  {
    if rs != [] {
      WeekFilterKeepsSlots(rs[1..], now, day);
      if rs[0].date == day {
        assert InWeek(rs[0], now);
      }
    }
  }

  /** `getWeeklyData`: seven slots, oldest day first; slot i is the day
      6 - i days before `now`. */
  function WeeklyData(rs: seq<SleepRecord>, now: int): (w: seq<real>)
    ensures |w| == 7
  {
    var weekly := WeekFilter(rs, now);
    seq(7, i requires 0 <= i < 7 => SlotValue(weekly, now, i))
  }

  /** One slot of the series: the day `6 - i` days before `now`. */
  function SlotValue(weekly: seq<SleepRecord>, now: int, i: int): (v: real)
    ensures NoneDated(weekly, UtcDay(now - (6 - i) * DayMs)) ==> v == 0.0
    ensures forall k {:trigger FirstDated(weekly, k, UtcDay(now - (6 - i) * DayMs))} ::
              FirstDated(weekly, k, UtcDay(now - (6 - i) * DayMs)) ==> v == weekly[k].duration
  {
    DurationOrZero(FindByDate(weekly, UtcDay(now - (6 - i) * DayMs)))
  }

  /** Slot i holds the duration of the first record dated day today - 6 + i,
      or 0 when there is none. */
  lemma WeeklyDataSlots(rs: seq<SleepRecord>, now: int, i: int)
    requires 0 <= i < 7
    ensures |WeeklyData(rs, now)| == 7
    ensures NoneDated(rs, UtcDay(now) - 6 + i) ==> WeeklyData(rs, now)[i] == 0.0
    ensures forall k {:trigger FirstDated(rs, k, UtcDay(now) - 6 + i)} ::
              FirstDated(rs, k, UtcDay(now) - 6 + i) ==> WeeklyData(rs, now)[i] == rs[k].duration
  {
    var day := UtcDay(now) - 6 + i;
    UtcDayShift(now, 6 - i);
    WeekFilterKeepsSlots(rs, now, day);
    assert WeeklyData(rs, now)[i] == SlotValue(WeekFilter(rs, now), now, i);
    assert SlotValue(WeekFilter(rs, now), now, i) == DurationOrZero(FindByDate(rs, day));
  }

  /** No entry is strictly positive. */
  predicate NoPositive(xs: seq<real>)
  {
    forall i :: 0 <= i < |xs| ==> xs[i] <= 0.0
  }

  /** The strictly positive entries, in order. */
  function Positives(xs: seq<real>): (r: seq<real>)
    ensures |r| <= |xs|
    ensures forall x :: x in r ==> x in xs && x > 0.0
    ensures |r| == 0 <==> NoPositive(xs)
  {
    if xs == [] then []
    else
      var rest := Positives(xs[1..]);
      assert forall i :: 1 <= i < |xs| ==> xs[i] == xs[1..][i - 1];
      if xs[0] > 0.0 then [xs[0]] + rest else rest
  }

  /** Left-to-right sum, as `reduce((sum, h) => sum + h, 0)`. */
  function Sum(xs: seq<real>): real
  {
    if xs == [] then 0.0 else Sum(xs[..|xs| - 1]) + xs[|xs| - 1]
  }

  /** The mean of the strictly positive entries, or 0 when there are none. */
  function Average(w: seq<real>): (a: real)
    ensures NoPositive(w) ==> a == 0.0
  {
    var valid := Positives(w);
    if |valid| > 0 then Sum(valid) / |valid| as real else 0.0
  }

  /** `getWeeklyAverage`. */
  function WeeklyAverage(rs: seq<SleepRecord>, now: int): (a: real)
    ensures a >= 0.0
    ensures a == 0.0 <==> NoPositive(WeeklyData(rs, now))
  {
    AverageBounds(WeeklyData(rs, now));
    Average(WeeklyData(rs, now))
  }

  function MaxOf(w: seq<real>): (m: real)
    requires |w| > 0
    ensures m in w
    ensures forall x :: x in w ==> x <= m
  {
    if |w| == 1 then w[0]
    else
      var rest := MaxOf(w[1..]);
      assert forall x :: x in w ==> x == w[0] || x in w[1..];
      if w[0] >= rest then w[0] else rest
  }

  /** A sum of n values in (0, m] lies in (0, n * m]. */
  lemma {:induction false} SumBounds(v: seq<real>, m: real)
    requires |v| > 0
    requires forall x :: x in v ==> 0.0 < x <= m
    ensures 0.0 < Sum(v) <= |v| as real * m
  {
    var n := |v|;
    assert v[n - 1] in v;
    assert Sum(v) == Sum(v[..n - 1]) + v[n - 1];
    if n > 1 {
      var init := v[..n - 1];
      assert forall x :: x in init ==> x in v;
      SumBounds(init, m);
      assert (n - 1) as real * m + m == n as real * m;
    } else {
      assert v[..0] == [];
    }
  }

  /** With at least one positive day the average is positive and at most the
      largest value of the week. */
  lemma MeanBounds(v: seq<real>, m: real)
    requires |v| > 0
    requires forall x :: x in v ==> 0.0 < x <= m
    ensures 0.0 < Sum(v) / |v| as real <= m
  {
    SumBounds(v, m);
    QuotientBounds(Sum(v), |v| as real, m, Sum(v) / |v| as real);
  }

  lemma AverageWithinWeek(w: seq<real>)
    requires !NoPositive(w)
    ensures |w| > 0 && 0.0 < Average(w) <= MaxOf(w)
  {
    var valid := Positives(w);
    MeanBounds(valid, MaxOf(w));
  }

  /** The weekly average is 0 exactly when no day has a positive value. */
  lemma AverageBounds(w: seq<real>)
    ensures NoPositive(w) <==> Average(w) == 0.0
    ensures !NoPositive(w) ==> |w| > 0 && 0.0 < Average(w) <= MaxOf(w)
  {
    if !NoPositive(w) {
      AverageWithinWeek(w);
    }
  }

  lemma QuotientBounds(a: real, n: real, m: real, q: real)
    requires n > 0.0 && 0.0 < a <= n * m && q == a / n
    ensures 0.0 < q <= m
  {
    assert q * n == a;
    assert q * n <= m * n;
  }

  /** Only the positive days enter the average: a zero or negative day adds
      nothing to it. */
  lemma AverageIgnoresNonPositive(w: seq<real>, x: real)
    requires x <= 0.0
    ensures Average(w + [x]) == Average(w) && Average([x] + w) == Average(w)
  {
    PositivesAppend(w, [x]);
    PositivesAppend([x], w);
    assert Positives([x]) == [] by {
      assert [x][1..] == [];
    }
    assert Positives(w) + [] == Positives(w);
    assert [] + Positives(w) == Positives(w);
  }

  lemma {:induction false} PositivesAppend(a: seq<real>, b: seq<real>)
    ensures Positives(a + b) == Positives(a) + Positives(b)
  {
    if a == [] {
      assert a + b == b;
    } else {
      assert (a + b)[0] == a[0];
      assert (a + b)[1..] == a[1..] + b;
      PositivesAppend(a[1..], b);
      if a[0] > 0.0 {
        assert Positives(a + b) == [a[0]] + Positives(a[1..] + b);
        assert Positives(a) == [a[0]] + Positives(a[1..]);
      } else {
        assert Positives(a + b) == Positives(a[1..] + b);
        assert Positives(a) == Positives(a[1..]);
      }
    }
  }

  /** `getTodaySleep`: the first record dated today, or 0. */
  function TodaySleep(rs: seq<SleepRecord>, now: int): (t: real)
    ensures NoneDated(rs, UtcDay(now)) ==> t == 0.0
    ensures forall k {:trigger FirstDated(rs, k, UtcDay(now))} ::
              FirstDated(rs, k, UtcDay(now)) ==> t == rs[k].duration
  {
    DurationOrZero(FindByDate(rs, UtcDay(now)))
  }

  /** Today's sleep is the last slot of the weekly series for the same `now`. */
  lemma TodayIsLastSlot(rs: seq<SleepRecord>, now: int)
    ensures |WeeklyData(rs, now)| == 7
    ensures TodaySleep(rs, now) == WeeklyData(rs, now)[6]
  {
    WeeklyDataSlots(rs, now, 6);
    UtcDayShift(now, 0);
    WeekFilterKeepsSlots(rs, now, UtcDay(now));
    assert WeeklyData(rs, now)[6] == SlotValue(WeekFilter(rs, now), now, 6);
  }

  /** The fixed five-record history used when nothing was saved. */
  function Seed(): (s: SleepState)
    ensures |s.records| == 5 && s.sleepGoal == 8.0 && !s.isSleeping
  {
    SleepState(
      [ SleepRecord("1", Jan1st2024 + 14, "23:30", "07:15", 7.75, Good),
        SleepRecord("2", Jan1st2024 + 13, "00:15", "06:45", 6.5, Normal),
        SleepRecord("3", Jan1st2024 + 12, "23:45", "08:00", 8.25, Good),
        SleepRecord("4", Jan1st2024 + 11, "01:00", "06:30", 5.5, Poor),
        SleepRecord("5", Jan1st2024 + 10, "22:30", "07:30", 9.0, Good) ],
      8.0, false)
  }

  /** The seed history is newest first, and its labels are the ones the
      classifier gives under the default goal of 8 hours. */
  lemma SeedFacts()
    ensures |Seed().records| == 5 && Seed().sleepGoal == 8.0 && !Seed().isSleeping
    ensures forall i, j :: 0 <= i < j < 5 ==> Seed().records[i].date > Seed().records[j].date
    ensures forall i :: 0 <= i < 5 ==>
              Seed().records[i].quality == Classify(Seed().records[i].duration, 8.0)
  {
  }

  /** The store: the state the hook holds, replaced by each updater. */
  class SleepStore {
    var records: seq<SleepRecord>
    var sleepGoal: real
    var isSleeping: bool

    function State(): SleepState
      reads this
    {
      SleepState(records, sleepGoal, isSleeping)
    }

    /** Rehydrates the saved state, or starts from the seed history. */
    constructor (saved: Option<SleepState>)
      ensures saved.Some? ==> State() == saved.value
      ensures saved.None? ==> State() == Seed()
    {
      var s := if saved.Some? then saved.value else Seed();
      records, sleepGoal, isSleeping := s.records, s.sleepGoal, s.isSleeping;
    }

    /** `addSleepRecord`: the quality uses the goal held at call time. */
    method AddSleepRecord(id: string, sleepStart: int, sleepEnd: int, clockText: int -> string)
      modifies this
      ensures State() == old(State()).AddRecord(NewRecord(id, sleepStart, sleepEnd, old(sleepGoal), clockText))
      ensures |records| == Min(|old(records)|, MaxRecords - 1) + 1
    {
      var rec := NewRecord(id, sleepStart, sleepEnd, sleepGoal, clockText);
      records := Prepend(rec, records);
    }

    /** `updateSleepGoal`: any real is accepted. */
    method UpdateSleepGoal(newGoal: real)
      modifies this
      ensures State() == old(State()).WithGoal(newGoal)
    {
      sleepGoal := newGoal;
    }

    /** `setIsSleeping`. */
    method SetIsSleeping(flag: bool)
      modifies this
      ensures State() == old(State()).WithSleeping(flag)
    {
      isSleeping := flag;
    }
  }

  /** Setting the flag twice leaves the same store as setting it once. */
  method SetIsSleepingTwice(store: SleepStore, flag: bool)
    modifies store
    ensures store.State() == old(store.State()).WithSleeping(flag)
  {
    store.SetIsSleeping(flag);
    store.SetIsSleeping(flag);
  }
}
