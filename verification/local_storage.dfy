/**
 * The task list persisted under one browser-storage key
 * (src/utils/localStorage.ts). The storage is an object whose field holds
 * the value under the key, `None` while nothing was saved; each write-back
 * operation reads the list, transforms it and saves it. The transforms are
 * pure functions; the task provider applies the same ones to its state.
 */
module LocalStorage {
  import opened Wrappers
  import opened Seqs
  import opened Types

  /** The ids of a task list, in order. */
  function Ids(tasks: seq<Task>): (ids: seq<string>)
    ensures |ids| == |tasks|
    ensures forall i :: 0 <= i < |tasks| ==> ids[i] == tasks[i].id
  {
    Map((t: Task) => t.id, tasks)
  }

  /**
   * Every task carrying `updated.id` is replaced by `updated`; the others,
   * the order and the ids stay as they were.
   */
  function Replaced(tasks: seq<Task>, updated: Task): (r: seq<Task>)
    ensures |r| == |tasks| && Ids(r) == Ids(tasks)
    ensures forall i :: 0 <= i < |tasks| && tasks[i].id == updated.id ==> r[i] == updated
    ensures forall i :: 0 <= i < |tasks| && tasks[i].id != updated.id ==> r[i] == tasks[i]
    ensures updated in r <==> HasId(tasks, updated.id)
  {
    Map((t: Task) => if t.id == updated.id then updated else t, tasks)
  }

  /** Replacing a task that is not in the list changes nothing. */
  lemma ReplaceAbsent(tasks: seq<Task>, updated: Task)
    requires !HasId(tasks, updated.id)
    ensures Replaced(tasks, updated) == tasks
  {
  }

  /** Saving the same update twice is saving it once. */
  lemma ReplaceIdempotent(tasks: seq<Task>, updated: Task)
    ensures Replaced(Replaced(tasks, updated), updated) == Replaced(tasks, updated)
  {
  }

  /** `tasks.filter(task => task.id !== taskId)`: every task with that id goes, the rest keep their order. */
  function Deleted(tasks: seq<Task>, id: string): (r: seq<Task>)
    ensures !HasId(r, id)
    ensures forall t :: t in r <==> t in tasks && t.id != id
    ensures IsSubsequence(r, tasks)
  {
    var r := Filter((t: Task) => t.id != id, tasks);
    forall i | 0 <= i < |r|
      ensures r[i].id != id
    {
      assert r[i] in r;
    }
    r
  }

  /** Deleting removes exactly as many tasks as carry the id. */
  lemma {:induction false} DeleteCount(tasks: seq<Task>, id: string)
    ensures |Deleted(tasks, id)| == |tasks| - Count(Ids(tasks), id)
  {
    if tasks != [] {
      DeleteCount(tasks[1..], id);
      assert Ids(tasks)[1..] == Ids(tasks[1..]);
    }
  }

  /** Deleting an id that is not in the list changes nothing. */
  lemma DeleteAbsent(tasks: seq<Task>, id: string)
    requires !HasId(tasks, id)
    ensures Deleted(tasks, id) == tasks
  {
    forall t | t in tasks ensures t.id != id {
      var i :| 0 <= i < |tasks| && tasks[i] == t;
    }
    FilterAll((t: Task) => t.id != id, tasks);
  }

  /** Deleting a task just added undoes the addition, and drops older tasks with the same id too. */
  lemma {:induction false} DeleteUndoesAdd(tasks: seq<Task>, task: Task)
    ensures Deleted(tasks + [task], task.id) == Deleted(tasks, task.id)
  {
    if tasks == [] {
      assert Deleted([task], task.id) == [];
    } else {
      assert (tasks + [task])[1..] == tasks[1..] + [task];
      DeleteUndoesAdd(tasks[1..], task);
    }
  }

  /** `completed` is flipped on every task carrying `id`; nothing else changes. */
  function Toggled(tasks: seq<Task>, id: string): (r: seq<Task>)
    ensures |r| == |tasks| && Ids(r) == Ids(tasks)
    ensures forall i :: 0 <= i < |tasks| ==>
      r[i] == if tasks[i].id == id then tasks[i].(completed := !tasks[i].completed) else tasks[i]
  {
    Map((t: Task) => if t.id == id then t.(completed := !t.completed) else t, tasks)
  }

  /** Toggling twice restores the list. */
  lemma ToggleTwice(tasks: seq<Task>, id: string)
    ensures Toggled(Toggled(tasks, id), id) == tasks
  {
  }

  /** Deleting a task after toggling it is deleting it. */
  lemma {:induction false} DeleteAfterToggle(tasks: seq<Task>, id: string)
    ensures Deleted(Toggled(tasks, id), id) == Deleted(tasks, id)
  {
    if tasks != [] {
      assert Toggled(tasks, id)[1..] == Toggled(tasks[1..], id);
      DeleteAfterToggle(tasks[1..], id);
    }
  }

  /** The storage: what is saved under the key "time-whisperer-tasks", if anything. */
  class TaskStorage {
    var saved: Option<seq<Task>>

    /** A storage where nothing was saved yet. */
    constructor ()
      ensures saved == None
    {
      saved := None;
    }

    /** `getTasks`: the saved list, or the empty list when nothing was saved. */
    function Stored(): seq<Task>
      reads this
    {
      saved.GetOr([])
    }

    method GetTasks() returns (tasks: seq<Task>)
      ensures tasks == Stored()
      ensures saved.None? ==> tasks == []
    {
      tasks := if saved.Some? then saved.value else [];
    }

    method SaveTasks(tasks: seq<Task>)
      modifies this
      ensures saved == Some(tasks)
    {
      saved := Some(tasks);
    }

    method AddTask(task: Task)
      modifies this
      ensures Stored() == old(Stored()) + [task]
      ensures Deleted(Stored(), task.id) == Deleted(old(Stored()), task.id)
    {
      var tasks := GetTasks();
      SaveTasks(tasks + [task]);
      DeleteUndoesAdd(tasks, task);
    }

    method UpdateTask(updatedTask: Task)
      modifies this
      ensures Stored() == Replaced(old(Stored()), updatedTask)
    {
      var tasks := GetTasks();
      var updatedTasks := Replaced(tasks, updatedTask);
      SaveTasks(updatedTasks);
    }

    method DeleteTask(taskId: string)
      modifies this
      ensures Stored() == Deleted(old(Stored()), taskId)
      ensures |Stored()| == |old(Stored())| - Count(Ids(old(Stored())), taskId)
    {
      var tasks := GetTasks();
      var filteredTasks := Deleted(tasks, taskId);
      DeleteCount(tasks, taskId);
      SaveTasks(filteredTasks);
    }

    method ToggleTaskCompletion(taskId: string)
      modifies this
      ensures Stored() == Toggled(old(Stored()), taskId)
    {
      var tasks := GetTasks();
      var updatedTasks := Toggled(tasks, taskId);
      SaveTasks(updatedTasks);
    }
  }
}
