/** The dashboard page: it owns the store and the two interactive cards,
    remembers when the current sleep session started, and wires the cards'
    callbacks to the store's updaters. */
module SleepPage {
  import opened SleepData
  import opened SleepTimer
  import opened SleepGoal

  class Page {
    const store: SleepStore
    const timer: TimerCard
    const goalCard: GoalCard
    var sleepStartTime: Option<int>

    /** Mounting: the store is rehydrated (or seeded), no session is open and
        the goal card shows the store's goal. */
    constructor (saved: Option<SleepState>, show: real -> string)
      ensures fresh(store) && fresh(timer) && fresh(goalCard)
      ensures saved.Some? ==> store.State() == saved.value
      ensures saved.None? ==> store.State() == Seed()
      ensures sleepStartTime == None && timer.sleepStartTime == None
      ensures !goalCard.isEditing && goalCard.newGoal == show(store.sleepGoal)
    {
      var s := new SleepStore(saved);
      var g := new GoalCard(s.sleepGoal, show);
      store := s;
      goalCard := g;
      timer := new TimerCard();
      sleepStartTime := None;
    }

    /** `handleSleepStart`: remember the start and raise the flag. */
    method HandleSleepStart(time: int)
      modifies this, store
      ensures sleepStartTime == Some(time)
      ensures store.State() == old(store.State()).WithSleeping(true)
    {
      sleepStartTime := Some(time);
      store.SetIsSleeping(true);
    }

    /** `handleSleepEnd`: one record from the remembered start to `time` when
        a start is remembered, none otherwise; then the start is forgotten and
        the flag lowered on both paths. */
    method HandleSleepEnd(time: int, id: string, clockText: int -> string)
      modifies this, store
      ensures sleepStartTime == None && !store.isSleeping
      ensures old(sleepStartTime).Some? ==>
                store.State() == old(store.State())
                  .AddRecord(NewRecord(id, old(sleepStartTime).value, time, old(store.sleepGoal), clockText))
                  .WithSleeping(false)
      ensures old(sleepStartTime).None? ==> store.State() == old(store.State()).WithSleeping(false)
    {
      if sleepStartTime.Some? {
        store.AddSleepRecord(id, sleepStartTime.value, time, clockText);
      }
      sleepStartTime := None;
      store.SetIsSleeping(false);
    }

    /** The timer card's button, with the store's flag as the card's input and
        the card's event dispatched to the matching handler. */
    method ToggleSleep(now: int, id: string, clockText: int -> string)
      modifies this, store, timer
      ensures old(store.isSleeping) ==>
                timer.sleepStartTime == None && sleepStartTime == None && !store.isSleeping
      ensures old(store.isSleeping) && old(sleepStartTime).None? ==>
                store.records == old(store.records)
      ensures old(store.isSleeping) && old(sleepStartTime).Some? ==>
                store.records == Prepend(NewRecord(id, old(sleepStartTime).value, now,
                                                   old(store.sleepGoal), clockText),
                                         old(store.records))
      ensures !old(store.isSleeping) ==>
                timer.sleepStartTime == Some(now) && sleepStartTime == Some(now) &&
                store.State() == old(store.State()).WithSleeping(true)
      ensures store.sleepGoal == old(store.sleepGoal)
    {
      var event := timer.HandleToggleSleep(store.isSleeping, now);
      match event
      case SleepStarted(t) => HandleSleepStart(t);
      case SleepEnded(t) => HandleSleepEnd(t, id, clockText);
    }

    /** The goal card's save button wired to `updateSleepGoal`: a goal only
        reaches the store when it lies in [4, 12]. */
    method SaveGoal(parse: string -> Option<real>)
      modifies store, goalCard
      ensures var u := AcceptGoal(parse(old(goalCard.newGoal)));
              store.sleepGoal == if u.Some? then u.value else old(store.sleepGoal)
      ensures store.sleepGoal == old(store.sleepGoal) || InGoalRange(store.sleepGoal)
      ensures InGoalRange(old(store.sleepGoal)) ==> InGoalRange(store.sleepGoal)
      ensures store.records == old(store.records) && store.isSleeping == old(store.isSleeping)
      ensures goalCard.newGoal == old(goalCard.newGoal)
      ensures var u := AcceptGoal(parse(old(goalCard.newGoal)));
              u.Some? ==> !goalCard.isEditing
      ensures var u := AcceptGoal(parse(old(goalCard.newGoal)));
              u.None? ==> goalCard.isEditing == old(goalCard.isEditing)
    {
      var update := goalCard.HandleSave(parse);
      if update.Some? {
        store.UpdateSleepGoal(update.value);
      }
    }

    /** The goal card's cancel button, with the store's goal as the current one. */
    method CancelGoal(show: real -> string)
      modifies goalCard
      ensures goalCard.newGoal == show(store.sleepGoal) && !goalCard.isEditing
    {
      goalCard.HandleCancel(store.sleepGoal, show);
    }
  }

  /** A full session: start at `t1`, end at `t2`. Exactly one record, built
      from the two instants, is added in front; the goal is untouched. */
  method StartThenEnd(page: Page, t1: int, t2: int, id: string, clockText: int -> string)
    modifies page, page.store
    ensures |page.store.records| == Min(|old(page.store.records)|, MaxRecords - 1) + 1
    ensures page.store.records[0] == NewRecord(id, t1, t2, old(page.store.sleepGoal), clockText)
    ensures page.store.records[1..] <= old(page.store.records)
    ensures page.store.sleepGoal == old(page.store.sleepGoal)
    ensures !page.store.isSleeping && page.sleepStartTime == None
  {
    page.HandleSleepStart(t1);
    page.HandleSleepEnd(t2, id, clockText);
  }
}
