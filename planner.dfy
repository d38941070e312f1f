/** The task list of pages/Planner.tsx: add (trimmed, empty rejected, newest
    first), toggle by id, delete by id, and the completed count. */
module Planner {
  import opened Types
  import opened Lists
  import opened Text

  /** `tasks.map(t => t.id === id ? { ...t, completed: !t.completed } : t)`. */
  function Toggle(tasks: seq<Task>, id: string): seq<Task>
  {
    MapWhere(tasks, (t: Task) => t.id == id, (t: Task) => t.(completed := !t.completed))
  }

  /** `tasks.filter(t => t.id !== id)`. */
  function Delete(tasks: seq<Task>, id: string): seq<Task>
  {
    Filter(tasks, (t: Task) => t.id != id)
  }

  /** `tasks.filter(t => t.completed).length`. */
  function CompletedCount(tasks: seq<Task>): (n: nat)
    ensures n <= |tasks|
  {
    |Filter(tasks, (t: Task) => t.completed)|
  }

  /** Toggling flips `completed` in exactly the tasks with that id; ids, texts,
      order and length are kept. */
  lemma ToggleSpec(tasks: seq<Task>, id: string)
    ensures var r := Toggle(tasks, id);
      && |r| == |tasks|
      && forall i :: 0 <= i < |tasks| ==>
           && r[i].id == tasks[i].id && r[i].text == tasks[i].text
           && (r[i].completed <==> (if tasks[i].id == id then !tasks[i].completed else tasks[i].completed))
  {
  }

  /** Toggling the same id twice gives back the original list. */
  lemma ToggleTwice(tasks: seq<Task>, id: string)
    ensures Toggle(Toggle(tasks, id), id) == tasks
  {
    var r := Toggle(Toggle(tasks, id), id);
    assert |r| == |tasks|;
    forall i | 0 <= i < |tasks| ensures r[i] == tasks[i] {
      assert Toggle(tasks, id)[i].id == tasks[i].id;
    }
  }

  /** A task survives deletion exactly when it was there and has another id. */
  lemma DeleteMembership(tasks: seq<Task>, id: string, t: Task)
    ensures t in Delete(tasks, id) <==> t in tasks && t.id != id
  {
    FilterMembership(tasks, (t: Task) => t.id != id, t);
  }

  /** Deletion keeps the other tasks in their order: it commutes with splitting the list. */
  lemma DeleteConcat(a: seq<Task>, b: seq<Task>, id: string)
    ensures Delete(a + b, id) == Delete(a, id) + Delete(b, id)
  {
    FilterConcat(a, b, (t: Task) => t.id != id);
  }

  /** Deleting an id that no task has leaves the list unchanged. */
  lemma DeleteAbsent(tasks: seq<Task>, id: string)
    requires forall i :: 0 <= i < |tasks| ==> tasks[i].id != id
    ensures Delete(tasks, id) == tasks
  {
    FilterKeepsAll(tasks, (t: Task) => t.id != id);
  }

  /** Every task is completed exactly when the completed count equals the total. */
  lemma CompletedCountAll(tasks: seq<Task>)
    ensures CompletedCount(tasks) == |tasks| <==> forall i :: 0 <= i < |tasks| ==> tasks[i].completed
  {
    if forall i :: 0 <= i < |tasks| ==> tasks[i].completed {
      FilterKeepsAll(tasks, (t: Task) => t.completed);
    }
  }

  /** A freshly added task is open, so it leaves the completed count as it was. */
  lemma {:induction false} CompletedCountPrepend(t: Task, tasks: seq<Task>)
    requires !t.completed
    ensures CompletedCount([t] + tasks) == CompletedCount(tasks)
  {
    assert ([t] + tasks)[1..] == tasks;
  }

  /** The state of the Planner page. */
  class PlannerState {
    var tasks: seq<Task>
    var newTaskText: string

    /** The page mounts with the persisted tasks. */
    constructor (stored: seq<Task>)
      ensures tasks == stored && newTaskText == ""
    {
      tasks := stored;
      newTaskText := "";
    }

    /** The input box changes. */
    method SetNewTaskText(text: string)
      modifies this`newTaskText
      ensures newTaskText == text
    {
      newTaskText := text;
    }

    /** `addTask`: white space only is rejected; otherwise an open task with the
        trimmed text and the clock's `id` goes to the front and the input clears. */
    method AddTask(id: string)
      modifies this
      ensures Trim(old(newTaskText)) == "" ==> tasks == old(tasks) && newTaskText == old(newTaskText)
      ensures Trim(old(newTaskText)) != "" ==>
        tasks == [Task(id, Trim(old(newTaskText)), false)] + old(tasks) && newTaskText == ""
    {
      if Trim(newTaskText) == "" {
        return;
      }
      var task := Task(id, Trim(newTaskText), false);
      tasks := [task] + tasks;
      newTaskText := "";
    }

    /** `toggleTask`. */
    method ToggleTask(id: string)
      modifies this`tasks
      ensures tasks == Toggle(old(tasks), id)
    {
      tasks := Toggle(tasks, id);
    }

    /** `deleteTask`. */
    method DeleteTask(id: string)
      modifies this`tasks
      ensures tasks == Delete(old(tasks), id)
    {
      tasks := Delete(tasks, id);
    }

    /** The progress line: completed and total counts. */
    method Progress() returns (completed: nat, total: nat)
      ensures completed == CompletedCount(tasks) && total == |tasks|
      ensures completed <= total
    {
      completed := CompletedCount(tasks);
      total := |tasks|;
    }
  }
}
