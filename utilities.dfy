/**
 * frontend/src/lib/utilities.jsx: the task filters. The clock is a
 * parameter: `now` is the instant `moment()` reads, and `endOfToday` is
 * `moment().endOf("day")`.
 */
module Utilities {
  import opened Seqs
  import opened TaskTypes

  function HasPriority(priority: string): Task -> bool
  {
    (t: Task) => t.priority == priority
  }

  /**
   * `filteredTasks`: for "low", "medium" and "high", the tasks of that
   * priority in their order, each as often as it occurs; for any other value
   * (such as "all") the list itself.
   */
  function FilteredTasks(tasks: seq<Task>, priority: string): (r: seq<Task>)
    ensures |r| <= |tasks| && SubsequenceOf(r, tasks)
    ensures priority in {"low", "medium", "high"} ==>
      forall t :: multiset(r)[t] == if t.priority == priority then multiset(tasks)[t] else 0
    ensures priority !in {"low", "medium", "high"} ==> r == tasks
  {
    if priority == "low" || priority == "medium" || priority == "high" then
      FilterCount(tasks, HasPriority(priority));
      FilterIsSubsequence(tasks, HasPriority(priority));
      Filter(tasks, HasPriority(priority))
    else
      SubsequenceOfItself(tasks);
      tasks
  }

  /** `moment(dueDate).isBefore(endOfToday)`; a missing date reads as `now`. */
  predicate DueBefore(d: DueDate, now: int, endOfToday: int)
  {
    match d
    case Unset => now < endOfToday
    case DueAt(ms) => ms < endOfToday
    case Unparsable => false
  }

  function IsOverdue(now: int, endOfToday: int): Task -> bool
  {
    (t: Task) => !t.completed && DueBefore(t.dueDate, now, endOfToday)
  }

  /**
   * `overdueTasks`: the tasks not completed whose due date is before the end
   * of today, in their order, each as often as it occurs.
   */
  function OverdueTasks(tasks: seq<Task>, now: int, endOfToday: int): (r: seq<Task>)
    ensures SubsequenceOf(r, tasks)
    ensures forall t: Task ::
              multiset(r)[t] ==
                if !t.completed && t.dueDate.DueAt? && t.dueDate.ms < endOfToday then multiset(tasks)[t]
                else if !t.completed && t.dueDate.Unset? && now < endOfToday then multiset(tasks)[t]
                else 0
    ensures forall i :: 0 <= i < |r| ==> !r[i].completed && !r[i].dueDate.Unparsable?
  {
    FilterCount(tasks, IsOverdue(now, endOfToday));
    FilterIsSubsequence(tasks, IsOverdue(now, endOfToday));
    Filter(tasks, IsOverdue(now, endOfToday))
  }

  /**
   * Before the last millisecond of the day, every unfinished task without a
   * due date is overdue, and a task whose date `moment` cannot read never is.
   */
  lemma UndatedTasksAreOverdue(tasks: seq<Task>, now: int, endOfToday: int)
    requires now < endOfToday
    ensures forall i :: 0 <= i < |tasks| && !tasks[i].completed && tasks[i].dueDate.Unset? ==>
      tasks[i] in OverdueTasks(tasks, now, endOfToday)
    ensures forall i :: 0 <= i < |tasks| && tasks[i].dueDate.Unparsable? ==>
      tasks[i] !in OverdueTasks(tasks, now, endOfToday)
  {
    var r := OverdueTasks(tasks, now, endOfToday);
    forall i | 0 <= i < |tasks| && !tasks[i].completed && tasks[i].dueDate.Unset?
      ensures tasks[i] in r
    {
      assert tasks[i] in multiset(tasks);
      assert multiset(r)[tasks[i]] == multiset(tasks)[tasks[i]];
    }
  }
}
