/**
 * The five sections of the task list sidebar (src/components/tasks/TaskList.tsx):
 * overdue, today, tomorrow, later, and done, each a filter of the task list
 * in its order, judged against the current time `now`.
 */
module TaskList {
  import opened Seqs
  import opened Dates
  import opened Types

  /** date-fns `isToday`. */
  predicate IsToday(d: DateTime, now: DateTime) {
    d.day == now.day
  }

  /** date-fns `isTomorrow`. */
  predicate IsTomorrow(d: DateTime, now: DateTime) {
    d.day == now.day + 1
  }

  predicate IsOverdue(t: Task, now: DateTime) {
    !t.completed && IsBefore(t.dueDate, now) && !IsToday(t.dueDate, now)
  }

  predicate IsLater(t: Task, now: DateTime) {
    !IsToday(t.dueDate, now) && !IsTomorrow(t.dueDate, now) && !IsBefore(t.dueDate, now)
  }

  /** The overdue section: open tasks due before now, on another day than today. */
  function OverdueTasks(tasks: seq<Task>, now: DateTime): (r: seq<Task>)
    ensures forall t :: t in r <==> t in tasks && !t.completed && IsBefore(t.dueDate, now) && t.dueDate.day != now.day
  {
    Filter((t: Task) => IsOverdue(t, now), tasks)
  }

  /** The today section: every task due today, done or not. */
  function TodayTasks(tasks: seq<Task>, now: DateTime): (r: seq<Task>)
    ensures forall t :: t in r <==> t in tasks && t.dueDate.day == now.day
  {
    Filter((t: Task) => IsToday(t.dueDate, now), tasks)
  }

  /** The tomorrow section: every task due tomorrow, done or not. */
  function TomorrowTasks(tasks: seq<Task>, now: DateTime): (r: seq<Task>)
    ensures forall t :: t in r <==> t in tasks && t.dueDate.day == now.day + 1
  {
    Filter((t: Task) => IsTomorrow(t.dueDate, now), tasks)
  }

  /** The later section: tasks due neither today nor tomorrow, and not before now. */
  function FutureTasks(tasks: seq<Task>, now: DateTime): (r: seq<Task>)
    ensures forall t :: t in r <==> t in tasks && t.dueDate.day != now.day && t.dueDate.day != now.day + 1 && !IsBefore(t.dueDate, now)
  {
    Filter((t: Task) => IsLater(t, now), tasks)
  }

  /** The done section. */
  function CompletedTasks(tasks: seq<Task>): (r: seq<Task>)
    ensures forall t :: t in r <==> t in tasks && t.completed
  {
    Filter((t: Task) => t.completed, tasks)
  }

  /** An overdue task is open and due on an earlier day. */
  lemma OverdueIsEarlierDay(tasks: seq<Task>, now: DateTime)
    ensures forall t :: t in OverdueTasks(tasks, now) <==> t in tasks && !t.completed && t.dueDate.day < now.day
  {
    forall t | t in tasks
      ensures IsOverdue(t, now) <==> !t.completed && t.dueDate.day < now.day
    {
      if t.dueDate.day < now.day {
        EarlierDayIsBefore(t.dueDate, now);
      } else if t.dueDate.day > now.day {
        EarlierDayIsBefore(now, t.dueDate);
      }
    }
  }

  /** A task in the later section is due two or more days ahead, and every such task is in it. */
  lemma LaterIsTwoDaysOut(tasks: seq<Task>, now: DateTime)
    ensures forall t :: t in FutureTasks(tasks, now) <==> t in tasks && t.dueDate.day >= now.day + 2
  {
    forall t | t in tasks
      ensures IsLater(t, now) <==> t.dueDate.day >= now.day + 2
    {
      if t.dueDate.day < now.day {
        EarlierDayIsBefore(t.dueDate, now);
      } else if t.dueDate.day > now.day {
        EarlierDayIsBefore(now, t.dueDate);
      }
    }
  }

  /** The number of date sections (overdue, today, tomorrow, later) that list `t`. */
  function DateSectionCount(tasks: seq<Task>, now: DateTime, t: Task): nat {
    (if t in OverdueTasks(tasks, now) then 1 else 0) + (if t in TodayTasks(tasks, now) then 1 else 0)
    + (if t in TomorrowTasks(tasks, now) then 1 else 0) + (if t in FutureTasks(tasks, now) then 1 else 0)
  }

  /**
   * A task is in at most one of the four date sections, and in none of them
   * exactly when it is done and due on an earlier day: such a task is listed
   * only as done, so every task is listed somewhere.
   */
  lemma DateSectionsPartition(tasks: seq<Task>, now: DateTime, t: Task)
    requires t in tasks
    ensures DateSectionCount(tasks, now, t) <= 1
    ensures DateSectionCount(tasks, now, t) == 0 <==> t.completed && t.dueDate.day < now.day
    ensures DateSectionCount(tasks, now, t) > 0 || t in CompletedTasks(tasks)
  {
    OverdueIsEarlierDay(tasks, now);
    LaterIsTwoDaysOut(tasks, now);
  }

  /** Done tasks are never overdue, and are exactly the done section. */
  lemma CompletedNeverOverdue(tasks: seq<Task>, now: DateTime)
    ensures forall t :: t in CompletedTasks(tasks) ==> t !in OverdueTasks(tasks, now)
    ensures forall t :: t in CompletedTasks(tasks) <==> t in tasks && t.completed
  {
  }

  /** Every section lists its tasks in the order of the task list. */
  lemma SectionsKeepOrder(tasks: seq<Task>, now: DateTime)
    ensures IsSubsequence(OverdueTasks(tasks, now), tasks) && IsSubsequence(TodayTasks(tasks, now), tasks)
    ensures IsSubsequence(TomorrowTasks(tasks, now), tasks) && IsSubsequence(FutureTasks(tasks, now), tasks)
    ensures IsSubsequence(CompletedTasks(tasks), tasks)
  {
  }
}
