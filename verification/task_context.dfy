/**
 * The task provider of src/context/TaskContext.tsx: the task list in memory,
 * saved to the storage after every change, and the sentence parser with its
 * 09:00 rule. Ids and the clock are parameters (`id`, `now`).
 */
module TaskContext {
  import opened Wrappers
  import opened Seqs
  import opened Dates
  import opened Types
  import opened Nlp
  import opened LocalStorage

  const DefaultTitle := "New Task"

  /**
   * The record `addTask` builds: each draft field, or its default when the
   * field is missing or falsy (an empty title or description); both time
   * stamps and a missing due date are `now`.
   */
  function NewTask(draft: TaskDraft, id: string, now: DateTime): (t: Task)
    ensures t.id == id && t.createdAt == now && t.updatedAt == now
    ensures t.title != []
    ensures t.title == if draft.title.Some? && draft.title.value != [] then draft.title.value else DefaultTitle
    ensures t.description == Some(draft.description.GetOr(""))
    ensures t.completed <==> draft.completed == Some(true)
    ensures t.dueDate == draft.dueDate.GetOr(now)
    ensures t.priority == draft.priority.GetOr(Medium) && t.category == draft.category.GetOr(Other)
  {
    Task(id,
         if draft.title.Some? && draft.title.value != [] then draft.title.value else DefaultTitle,
         Some(draft.description.GetOr("")),
         draft.completed.GetOr(false),
         draft.dueDate.GetOr(now),
         draft.priority.GetOr(Medium),
         draft.category.GetOr(Other),
         now,
         now)
  }

  /** `tasks.find(task => task.id === taskId)`: the first task carrying the id. */
  function Find(tasks: seq<Task>, id: string): (r: Option<Task>)
    ensures r.Some? <==> HasId(tasks, id)
    ensures r.Some? ==> r.value in tasks && r.value.id == id
    ensures r.Some? ==> exists i :: 0 <= i < |tasks| && tasks[i] == r.value && forall j :: 0 <= j < i ==> tasks[j].id != id
  {
    if tasks == [] then None
    else if tasks[0].id == id then Some(tasks[0])
    else
      var r := Find(tasks[1..], id);
      assert HasId(tasks, id) ==> HasId(tasks[1..], id) by {
        if HasId(tasks, id) {
          var i :| 0 <= i < |tasks| && tasks[i].id == id;
          assert tasks[1..][i - 1] == tasks[i];
        }
      }
      assert r.Some? ==> exists i :: 0 <= i < |tasks| && tasks[i] == r.value && forall j :: 0 <= j < i ==> tasks[j].id != id by {
        if r.Some? {
          var i :| 0 <= i < |tasks[1..]| && tasks[1..][i] == r.value && forall j :: 0 <= j < i ==> tasks[1..][j].id != id;
          assert tasks[i + 1] == r.value;
          assert forall j :: 0 <= j < i + 1 ==> tasks[j].id != id by {
            forall j | 0 <= j < i + 1 ensures tasks[j].id != id {
              if j > 0 {
                assert tasks[j] == tasks[1..][j - 1];
              }
            }
          }
        }
      }
      r
  }

  /** Completion is flipped and `updatedAt` set to `now` on every task carrying `id`. */
  function ToggledAt(tasks: seq<Task>, id: string, now: DateTime): (r: seq<Task>)
    ensures |r| == |tasks| && Ids(r) == Ids(tasks)
    ensures forall i :: 0 <= i < |tasks| && tasks[i].id != id ==> r[i] == tasks[i]
    ensures forall i :: 0 <= i < |tasks| && tasks[i].id == id ==>
      r[i] == tasks[i].(completed := !tasks[i].completed, updatedAt := now)
  {
    Map((t: Task) => if t.id == id then t.(completed := !t.completed, updatedAt := now) else t, tasks)
  }

  /** The provider's toggle is the storage's toggle plus the time stamp. */
  lemma ToggleAgreesWithStorage(tasks: seq<Task>, id: string, now: DateTime)
    ensures forall i :: 0 <= i < |tasks| ==>
      ToggledAt(tasks, id, now)[i] ==
        if tasks[i].id == id then Toggled(tasks, id)[i].(updatedAt := now) else Toggled(tasks, id)[i]
  {
  }

  /** Toggling twice restores every task's completion; only the second time stamp remains. */
  lemma ToggleTwiceRestoresCompletion(tasks: seq<Task>, id: string, first: DateTime, second: DateTime)
    ensures ToggledAt(ToggledAt(tasks, id, first), id, second) ==
            Map((t: Task) => if t.id == id then t.(updatedAt := second) else t, tasks)
  {
  }

  /**
   * `parseTask`: the parser's result, except that a due time of exactly
   * hh = 9, mm = 0 is taken to mean "no time given" and replaced by the
   * recommended slot.
   */
  function ParseTaskResult(input: string, tasks: seq<Task>, now: DateTime): (r: Parsed)
    ensures var p := Parse(input, now);
      r.title == p.title && r.priority == p.priority && r.category == p.category
    ensures var due := Parse(input, now).dueDate;
      r.dueDate != due ==> due.hour == 9 && due.minute == 0 && 9 <= r.dueDate.hour <= 17 && r.dueDate.minute == 0
  {
    var parsed := Parse(input, now);
    if parsed.dueDate.hour == 9 && parsed.dueDate.minute == 0 then parsed.(dueDate := Recommend(tasks, now))
    else parsed
  }

  /** A sentence without any date or time gets the recommended slot; title, priority and category are the parser's. */
  lemma UnscheduledGetsRecommendation(input: string, tasks: seq<Task>, now: DateTime)
    requires FirstMatch(DayOfWeekKeywords, input).None? && FirstMatch(TimeKeywords, input).None?
    requires MatchHourPattern(input).None?
    ensures ParseTaskResult(input, tasks, now) == Parse(input, now).(dueDate := Recommend(tasks, now))
  {
  }

  /** A due time other than 09:00 is kept as parsed. */
  lemma OtherTimesKept(input: string, tasks: seq<Task>, now: DateTime)
    requires !(Parse(input, now).dueDate.hour == 9 && Parse(input, now).dueDate.minute == 0)
    ensures ParseTaskResult(input, tasks, now) == Parse(input, now)
  {
  }

  /** No time phrase maps to 9 o'clock, so a time phrase is never overridden. */
  lemma TimePhraseKept(input: string, tasks: seq<Task>, now: DateTime)
    requires MatchHourPattern(input).None? && FirstMatch(TimeKeywords, input).Some?
    ensures ParseTaskResult(input, tasks, now) == Parse(input, now)
  {
    TimePhraseApplies(input, now);
    TimeKeywordNotNine(FirstMatch(TimeKeywords, input).value);
  }

  /**
   * An explicit "9点" or "9:00" is indistinguishable from no time: it is
   * replaced by the recommended slot, which also drops any day phrase.
   */
  lemma ExplicitNineReplaced(input: string, tasks: seq<Task>, now: DateTime)
    requires MatchHourPattern(input).Some?
    requires MatchHourPattern(input).value.hour == 9 && MatchHourPattern(input).value.minutes == 0
    ensures ParseTaskResult(input, tasks, now).dueDate == Recommend(tasks, now)
  {
  }

  /**
   * A day phrase alone keeps the clock time, so when the clock reads 9:00 to
   * 9:00:59 the day is lost to the recommended slot.
   */
  lemma DayPhraseAtNineLost(input: string, tasks: seq<Task>, now: DateTime)
    requires FirstMatch(DayOfWeekKeywords, input).Some?
    requires MatchHourPattern(input).None? && FirstMatch(TimeKeywords, input).None?
    requires now.hour == 9 && now.minute == 0
    ensures ParseTaskResult(input, tasks, now).dueDate == Recommend(tasks, now)
  {
    DayPhraseResolution(input, now);
  }

  /** The provider's state; every change is saved to `storage` (the save effect). */
  class TaskProvider {
    var tasks: seq<Task>
    const storage: TaskStorage

    /** What is in memory is what is saved. */
    predicate Valid()
      reads this, storage
    {
      storage.saved == Some(tasks)
    }

    /** Mounting: the saved list is loaded, then saved back. */
    constructor (storage: TaskStorage)
      modifies storage
      ensures this.storage == storage && Valid()
      ensures tasks == old(storage.Stored())
    {
      this.storage := storage;
      new;
      var storedTasks := storage.GetTasks();
      tasks := storedTasks;
      storage.SaveTasks(tasks);
    }

    method AddTask(taskData: TaskDraft, id: string, now: DateTime)
      requires Valid()
      modifies this, storage
      ensures Valid()
      ensures tasks == old(tasks) + [NewTask(taskData, id, now)]
    {
      var newTask := NewTask(taskData, id, now);
      tasks := tasks + [newTask];
      storage.SaveTasks(tasks);
    }

    method UpdateTask(updatedTask: Task, now: DateTime)
      requires Valid()
      modifies this, storage
      ensures Valid()
      ensures tasks == Replaced(old(tasks), updatedTask.(updatedAt := now))
    {
      tasks := Replaced(tasks, updatedTask.(updatedAt := now));
      storage.SaveTasks(tasks);
    }

    /** Returns the task the notification names, if the id was present. */
    method DeleteTask(taskId: string) returns (taskToDelete: Option<Task>)
      requires Valid()
      modifies this, storage
      ensures Valid()
      ensures taskToDelete == Find(old(tasks), taskId)
      ensures tasks == Deleted(old(tasks), taskId)
    {
      taskToDelete := Find(tasks, taskId);
      tasks := Deleted(tasks, taskId);
      storage.SaveTasks(tasks);
    }

    method ToggleTaskCompletion(taskId: string, now: DateTime)
      requires Valid()
      modifies this, storage
      ensures Valid()
      ensures tasks == ToggledAt(old(tasks), taskId, now)
    {
      tasks := ToggledAt(tasks, taskId, now);
      storage.SaveTasks(tasks);
    }

    method ParseTask(input: string, now: DateTime) returns (parsedTask: Parsed)
      ensures parsedTask == ParseTaskResult(input, tasks, now)
    {
      parsedTask := ParseNaturalLanguage(input, now);
      if parsedTask.dueDate.hour == 9 && parsedTask.dueDate.minute == 0 {
        var recommendedTime := RecommendBestTime(input, tasks, now);
        parsedTask := parsedTask.(dueDate := recommendedTime);
      }
    }
  }
}
