/** The task list: toggling a task's completion by id, the completed and
    total counts, and the component state that holds the list. */
module TaskList {
  import opened Types

  /** One task under a toggle of `id`. */
  function ToggleOne(task: Task, id: string): Task
  {
    if task.id == id then task.(isCompleted := !task.isCompleted) else task
  }

  /** `tasks.map(task => task.id === id ? {...task, isCompleted: !task.isCompleted} : task)`. */
  function ToggleById(tasks: seq<Task>, id: string): (r: seq<Task>)
    ensures |r| == |tasks|
    ensures forall i :: 0 <= i < |tasks| ==> r[i].id == tasks[i].id
  {
    if tasks == [] then [] else [ToggleOne(tasks[0], id)] + ToggleById(tasks[1..], id)
  }

  /** Toggling keeps length and order: every task whose id matches has its
      completion negated, with id, text and source unchanged, and every
      other task is left as it was. */
  lemma {:induction false} ToggleByIdAt(tasks: seq<Task>, id: string)
    ensures |ToggleById(tasks, id)| == |tasks|
    ensures forall i :: 0 <= i < |tasks| && tasks[i].id == id ==>
      var t := ToggleById(tasks, id)[i];
      t.id == tasks[i].id && t.text == tasks[i].text && t.source == tasks[i].source &&
      t.isCompleted == !tasks[i].isCompleted
    ensures forall i :: 0 <= i < |tasks| && tasks[i].id != id ==> ToggleById(tasks, id)[i] == tasks[i]
  {
    if tasks != [] {
      ToggleByIdAt(tasks[1..], id);
      var r := ToggleById(tasks, id);
      assert forall i :: 1 <= i < |tasks| ==> r[i] == ToggleById(tasks[1..], id)[i - 1];
    }
  }

  /** An id no task has leaves the list equal to the original. */
  lemma {:induction false} ToggleAbsent(tasks: seq<Task>, id: string)
    requires forall i :: 0 <= i < |tasks| ==> tasks[i].id != id
    ensures ToggleById(tasks, id) == tasks
  {
    if tasks != [] {
      ToggleAbsent(tasks[1..], id);
    }
  }

  /** Toggling the same id twice gives back the original list. */
  lemma {:induction false} ToggleTwice(tasks: seq<Task>, id: string)
    ensures ToggleById(ToggleById(tasks, id), id) == tasks
  {
    if tasks != [] {
      ToggleTwice(tasks[1..], id);
      assert ToggleById(tasks, id)[1..] == ToggleById(tasks[1..], id);
    }
  }

  /** `tasks.filter(t => t.isCompleted).length`. */
  function CompletedCount(tasks: seq<Task>): (n: nat)
    ensures n <= |tasks|
    ensures n == |tasks| <==> forall i :: 0 <= i < |tasks| ==> tasks[i].isCompleted
    ensures n == 0 <==> forall i :: 0 <= i < |tasks| ==> !tasks[i].isCompleted
  {
    if tasks == [] then 0
    else
      assert forall i :: 1 <= i < |tasks| ==> tasks[i] == tasks[1..][i - 1];
      (if tasks[0].isCompleted then 1 else 0) + CompletedCount(tasks[1..])
  }

  /** A single task counts 1 when it is completed and 0 otherwise. */
  lemma CompletedCountOne(t: Task)
    ensures CompletedCount([t]) == if t.isCompleted then 1 else 0
  {
    assert [t][1..] == [];
  }

  /** Counts add up over appended lists; with `CompletedCountOne` this
      makes the count the number of completed tasks, as the filter's
      length is. */
  lemma {:induction false} CompletedCountAppend(a: seq<Task>, b: seq<Task>)
    ensures CompletedCount(a + b) == CompletedCount(a) + CompletedCount(b)
  {
    if a == [] {
      assert a + b == b;
    } else {
      var head := if a[0].isCompleted then 1 else 0;
      CompletedCountAppend(a[1..], b);
      assert (a + b)[0] == a[0];
      assert (a + b)[1..] == a[1..] + b;
      calc {
        CompletedCount(a + b);
        head + CompletedCount(a[1..] + b);
        head + CompletedCount(a[1..]) + CompletedCount(b);
        CompletedCount(a) + CompletedCount(b);
      }
    }
  }

  /** Toggling the id of exactly one task moves the completed count by
      one: down when that task was completed, up when it was open. */
  lemma {:induction false} ToggleCount(tasks: seq<Task>, id: string, k: nat)
    requires k < |tasks| && tasks[k].id == id
    requires forall i :: 0 <= i < |tasks| && i != k ==> tasks[i].id != id
    ensures CompletedCount(ToggleById(tasks, id)) ==
      if tasks[k].isCompleted then CompletedCount(tasks) - 1 else CompletedCount(tasks) + 1
  {
    var r := ToggleById(tasks, id);
    assert r[1..] == ToggleById(tasks[1..], id);
    if k == 0 {
      ToggleAbsent(tasks[1..], id);
    } else {
      ToggleCount(tasks[1..], id, k - 1);
    }
  }

  /** A share of a positive whole lies between 0 and 1, and is 1 exactly
      when the part is the whole. */
  lemma RatioBounds(part: real, whole: real)
    requires 0.0 <= part <= whole && whole > 0.0
    ensures 0.0 <= part / whole <= 1.0
    ensures part / whole == 1.0 <==> part == whole
  {
    var q := part / whole;
    assert q * whole == part;
  }

  /** The progress bar's width, in exact arithmetic: `completed / total`
      as a percentage, and 0 for an empty list. */
  function Progress(tasks: seq<Task>): (p: real)
    ensures 0.0 <= p <= 100.0
    ensures tasks == [] ==> p == 0.0
    ensures tasks != [] ==> (p == 100.0 <==> CompletedCount(tasks) == |tasks|)
  {
    var completed, total := CompletedCount(tasks), |tasks|;
    if total > 0 then
      RatioBounds(completed as real, total as real);
      completed as real / total as real * 100.0
    else 0.0
  }

  /** The component's state: the list shown, and the lists handed to
      `onTasksUpdate`, oldest first. */
  class TaskListState {
    var tasks: seq<Task>
    var published: seq<seq<Task>>

    constructor ()
      ensures tasks == [] && published == []
    {
      tasks, published := [], [];
    }

    /** The effect that copies `initialTasks` into the state whenever the
        prop changes; nothing is published. */
    method SyncInitialTasks(initialTasks: seq<Task>)
      modifies this`tasks
      ensures tasks == initialTasks
    {
      tasks := initialTasks;
    }

    /** `handleToggleTask`: the new list becomes the state, and exactly
        that list is passed to `onTasksUpdate`. */
    method HandleToggleTask(id: string)
      modifies this
      ensures tasks == ToggleById(old(tasks), id)
      ensures published == old(published) + [tasks]
    {
      var updatedTasks := ToggleById(tasks, id);
      tasks := updatedTasks;
      published := published + [updatedTasks];
    }

    function CompletedTasks(): (n: nat)
      reads this
      ensures n <= TotalTasks()
      ensures n == CompletedCount(tasks)
    {
      CompletedCount(tasks)
    }

    function TotalTasks(): nat
      reads this
    {
      |tasks|
    }
  }
}
