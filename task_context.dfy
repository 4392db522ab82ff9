/**
 * frontend/src/context/taskContext.jsx: the state the tasks provider keeps
 * and how each of its operations updates it. An HTTP request is replaced by
 * its outcome, given as a parameter: the response's data, or a failure that
 * the operation catches and logs.
 */
module TaskContext {
  import opened Wrappers
  import opened Seqs
  import opened TaskTypes

  datatype Outcome<T> = Succeeded(data: T) | Failed

  /** The task being edited in the modal, as an object from field name to value. */
  type Draft = map<string, string>

  /** `prev.map((t) => (t._id === updated._id ? updated : t))` */
  function ReplaceById(tasks: seq<Task>, updated: Task): (r: seq<Task>)
    ensures |r| == |tasks|
    ensures forall i :: 0 <= i < |tasks| && tasks[i].id != updated.id ==> r[i] == tasks[i]
    ensures forall i :: 0 <= i < |tasks| && tasks[i].id == updated.id ==> r[i] == updated
    ensures forall i :: 0 <= i < |tasks| ==> r[i].id == tasks[i].id
  {
    if tasks == [] then []
    else [if tasks[0].id == updated.id then updated else tasks[0]] + ReplaceById(tasks[1..], updated)
  }

  function IdIsNot(taskId: string): Task -> bool
  {
    (t: Task) => t.id != taskId
  }

  /** `prev.filter((t) => t._id !== taskId)` */
  function RemoveById(tasks: seq<Task>, taskId: string): (r: seq<Task>)
    ensures SubsequenceOf(r, tasks)
    ensures forall i :: 0 <= i < |r| ==> r[i].id != taskId
    ensures forall t: Task :: t.id != taskId ==> multiset(r)[t] == multiset(tasks)[t]
  {
    FilterCount(tasks, IdIsNot(taskId));
    FilterIsSubsequence(tasks, IdIsNot(taskId));
    Filter(tasks, IdIsNot(taskId))
  }

  function IsCompleted(): Task -> bool
  {
    (t: Task) => t.completed
  }

  function IsActive(): Task -> bool
  {
    (t: Task) => !t.completed
  }

  /** `tasks.filter((t) => t.completed)` */
  function CompletedTasks(tasks: seq<Task>): (r: seq<Task>)
    ensures SubsequenceOf(r, tasks)
    ensures forall i :: 0 <= i < |r| ==> r[i].completed
    ensures forall t: Task :: t.completed ==> multiset(r)[t] == multiset(tasks)[t]
  {
    FilterCount(tasks, IsCompleted());
    FilterIsSubsequence(tasks, IsCompleted());
    Filter(tasks, IsCompleted())
  }

  /** `tasks.filter((t) => !t.completed)` */
  function ActiveTasks(tasks: seq<Task>): (r: seq<Task>)
    ensures SubsequenceOf(r, tasks)
    ensures forall i :: 0 <= i < |r| ==> !r[i].completed
    ensures forall t: Task :: !t.completed ==> multiset(r)[t] == multiset(tasks)[t]
  {
    FilterCount(tasks, IsActive());
    FilterIsSubsequence(tasks, IsActive());
    Filter(tasks, IsActive())
  }

  /**
   * The completed and the active tasks split the list: no task is in both,
   * and together they hold every task as often as the list does.
   */
  lemma CompletedAndActivePartition(tasks: seq<Task>)
    ensures |CompletedTasks(tasks)| + |ActiveTasks(tasks)| == |tasks|
    ensures multiset(CompletedTasks(tasks)) + multiset(ActiveTasks(tasks)) == multiset(tasks)
    ensures forall t: Task :: !(t in CompletedTasks(tasks) && t in ActiveTasks(tasks))
  {
    FilterPartition(tasks, IsCompleted(), IsActive());
  }

  /** The state of `TasksProvider`. */
  class TasksProvider {
    var tasks: seq<Task>
    var loading: bool
    var task: Draft
    var isEditing: bool
    var priority: string
    var activeTask: Option<Task>
    var modalMode: string
    var profileModal: bool

    /** The modal fields as `useState` initialises them. */
    ghost predicate ModalClosed()
      reads this
    {
      !isEditing && !profileModal && modalMode == "" && activeTask == None && task == map[]
    }

    constructor ()
      ensures tasks == [] && !loading && priority == "all" && ModalClosed()
    {
      tasks := [];
      loading := false;
      task := map[];
      isEditing := false;
      priority := "all";
      activeTask := None;
      modalMode := "";
      profileModal := false;
    }

    method OpenModalForAdd()
      modifies this`modalMode, this`isEditing, this`task
      ensures modalMode == "add" && isEditing && task == map[]
    {
      modalMode := "add";
      isEditing := true;
      task := map[];
    }

    /** Leaves `task` as it was: only `activeTask` receives the task. */
    method OpenModalForEdit(t: Task)
      modifies this`modalMode, this`isEditing, this`activeTask
      ensures modalMode == "edit" && isEditing && activeTask == Some(t)
    {
      modalMode := "edit";
      isEditing := true;
      activeTask := Some(t);
    }

    method OpenProfileModal()
      modifies this`profileModal
      ensures profileModal
    {
      profileModal := true;
    }

    /** From any state, the modal fields return to their initial values; so closing twice is closing once. */
    method CloseModal()
      modifies this`isEditing, this`profileModal, this`modalMode, this`activeTask, this`task
      ensures ModalClosed()
    {
      isEditing := false;
      profileModal := false;
      modalMode := "";
      activeTask := None;
      task := map[];
    }

    method SetPriority(p: string)
      modifies this`priority
      ensures priority == p
    {
      priority := p;
    }

    /** `getTasks`: `fetched` is the response's `tasks` field, when it has one. */
    method GetTasks(outcome: Outcome<Option<seq<Task>>>)
      modifies this`loading, this`tasks
      ensures !loading
      ensures tasks == match outcome
        case Succeeded(Some(fetched)) => fetched
        case Succeeded(None) => []
        case Failed => old(tasks)
    {
      loading := true;
      if outcome.Succeeded? {
        tasks := if outcome.data.Some? then outcome.data.value else [];
      }
      loading := false;
    }

    method GetTask(taskId: string, outcome: Outcome<Draft>)
      modifies this`loading, this`task
      ensures !loading
      ensures task == if outcome.Succeeded? then outcome.data else old(task)
    {
      loading := true;
      if outcome.Succeeded? {
        task := outcome.data;
      }
      loading := false;
    }

    /** `createTask`: the server's copy of the new task is appended. */
    method CreateTask(newTask: Draft, outcome: Outcome<Task>)
      modifies this`loading, this`tasks
      ensures !loading
      ensures outcome.Succeeded? ==> tasks == old(tasks) + [outcome.data]
      ensures outcome.Failed? ==> tasks == old(tasks)
    {
      loading := true;
      if outcome.Succeeded? {
        tasks := tasks + [outcome.data];
      }
      loading := false;
    }

    /** `updateTask`: every task with the server copy's id becomes that copy. */
    method UpdateTask(updatedTask: Task, outcome: Outcome<Task>)
      modifies this`loading, this`tasks
      ensures !loading
      ensures outcome.Succeeded? ==> tasks == ReplaceById(old(tasks), outcome.data)
      ensures outcome.Failed? ==> tasks == old(tasks)
    {
      loading := true;
      if outcome.Succeeded? {
        tasks := ReplaceById(tasks, outcome.data);
      }
      loading := false;
    }

    method DeleteTask(taskId: string, outcome: Outcome<()>)
      modifies this`loading, this`tasks
      ensures !loading
      ensures outcome.Succeeded? ==> tasks == RemoveById(old(tasks), taskId)
      ensures outcome.Failed? ==> tasks == old(tasks)
    {
      loading := true;
      if outcome.Succeeded? {
        tasks := RemoveById(tasks, taskId);
      }
      loading := false;
    }

    /**
     * `handleInput(name)(e)`: "setTask" replaces the whole draft with `whole`;
     * any other name sets that one field to `value` (`e.target.value`).
     */
    method HandleInput(name: string, whole: Draft, value: string)
      modifies this`task
      ensures name == "setTask" ==> task == whole
      ensures name != "setTask" ==> task == old(task)[name := value]
    {
      if name == "setTask" {
        task := whole;
      } else {
        task := task[name := value];
      }
    }
  }
}
