/** The goal card: a draft text and an editing flag. Saving parses the draft
    and hands the goal to the page only when it lies in [4, 12] hours. */
module SleepGoal {
  import opened SleepData

  const MinGoal: real := 4.0
  const MaxGoal: real := 12.0

  predicate InGoalRange(goal: real)
  {
    MinGoal <= goal <= MaxGoal
  }

  /** The save decision on the parsed draft. `None` stands for an unparsable
      draft (a NaN, which fails both comparisons). Both ends are inclusive. */
  function AcceptGoal(parsed: Option<real>): (r: Option<real>)
    ensures r.Some? <==> parsed.Some? && 4.0 <= parsed.value && parsed.value <= 12.0
    ensures r.Some? ==> r == parsed
  {
    if parsed.Some? && InGoalRange(parsed.value) then parsed else None
  }

  class GoalCard {
    var isEditing: bool
    var newGoal: string

    /** Starts out of edit mode, with the current goal's text as the draft. */
    constructor (currentGoal: real, show: real -> string)
      ensures !isEditing && newGoal == show(currentGoal)
    {
      isEditing := false;
      newGoal := show(currentGoal);
    }

    /** The "adjust goal" button. */
    method StartEditing()
      modifies this
      ensures isEditing && newGoal == old(newGoal)
    {
      isEditing := true;
    }

    /** Typing into the input replaces the draft. */
    method EditDraft(text: string)
      modifies this
      ensures newGoal == text && isEditing == old(isEditing)
    {
      newGoal := text;
    }

    /** `handleSave`: `goalUpdate` is the value passed to the goal callback,
        `None` when the callback is not called. On acceptance editing ends;
        on rejection nothing changes. The draft is never touched. */
    method HandleSave(parse: string -> Option<real>) returns (goalUpdate: Option<real>)
      modifies this
      ensures goalUpdate == AcceptGoal(parse(old(newGoal)))
      ensures goalUpdate.Some? ==> !isEditing
      ensures goalUpdate.None? ==> isEditing == old(isEditing)
      ensures newGoal == old(newGoal)
    {
      var goal := parse(newGoal);
      goalUpdate := AcceptGoal(goal);
      if goalUpdate.Some? {
        isEditing := false;
      }
    }

    /** `handleCancel`: the draft goes back to the current goal's text. */
    method HandleCancel(currentGoal: real, show: real -> string)
      modifies this
      ensures newGoal == show(currentGoal) && !isEditing
    {
      newGoal := show(currentGoal);
      isEditing := false;
    }
  }
}
