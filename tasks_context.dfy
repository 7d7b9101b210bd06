/**
 * `taskReducer` of src/features/tasks/tasks.context.tsx: the pure state
 * transition behind the task list.
 */
module TasksContext {
  import opened Wrappers
  import opened TaskDomain

  /** `state.tasks ?? []`. */
  function CurrentTasks(state: TaskState): seq<Task> {
    state.tasks.GetOr([])
  }

  /** `Math.max(0, ...ids)`: the largest id, or 0 when there is none larger. */
  function MaxId(tasks: seq<Task>): (m: int)
    ensures 0 <= m
    ensures forall i :: 0 <= i < |tasks| ==> tasks[i].id <= m
    ensures m == 0 || exists i :: 0 <= i < |tasks| && tasks[i].id == m
  {
    if |tasks| == 0 then 0
    else
      var rest := MaxId(tasks[1..]);
      if tasks[0].id > rest then tasks[0].id else rest
  }

  /** The id ADD_TASK gives the new task: positive, and larger than the id
      of every task in the list. */
  function NextId(tasks: seq<Task>): (id: int)
    ensures 1 <= id
    ensures forall t :: t in tasks ==> t.id < id
  {
    MaxId(tasks) + 1
  }

  /** `filter((task) => task.id !== id)`. */
  function RemoveById(tasks: seq<Task>, id: int): (r: seq<Task>)
    ensures |r| <= |tasks|
    ensures forall t :: t in r <==> t in tasks && t.id != id
  {
    if |tasks| == 0 then []
    else (if tasks[0].id != id then [tasks[0]] else []) + RemoveById(tasks[1..], id)
  }

  /** The task with its completion flag flipped when its id matches. */
  function ToggleIfMatches(task: Task, id: int): Task {
    if task.id == id then task.(completed := !task.completed) else task
  }

  /** `map(...)` with `ToggleIfMatches`. */
  function ToggleById(tasks: seq<Task>, id: int): (r: seq<Task>)
    ensures |r| == |tasks|
    ensures forall i :: 0 <= i < |tasks| ==> r[i] == ToggleIfMatches(tasks[i], id)
  {
    seq(|tasks|, i requires 0 <= i < |tasks| => ToggleIfMatches(tasks[i], id))
  }

  /** Every action leaves a defined list: SET_TASKS the given one, ADD_TASK
      one task more, DELETE_TASK none more, TOGGLE_TASK as many. */
  function TaskReducer(state: TaskState, action: TaskAction): (r: TaskState)
    ensures r.tasks.Some?
    ensures action.SetTasks? ==> r.tasks == Some(action.tasks)
    ensures action.AddTask? ==> |CurrentTasks(r)| == |CurrentTasks(state)| + 1
    ensures action.DeleteTask? ==> |CurrentTasks(r)| <= |CurrentTasks(state)|
    ensures action.ToggleTask? ==> |CurrentTasks(r)| == |CurrentTasks(state)|
  {
    match action
    case SetTasks(tasks) => TaskState(Some(tasks))
    case AddTask(payload) =>
      var currentTasks := CurrentTasks(state);
      var newTask := Task(NextId(currentTasks), payload.title, payload.description, payload.completed);
      TaskState(Some([newTask] + currentTasks))
    case DeleteTask(id) => TaskState(Some(RemoveById(CurrentTasks(state), id)))
    case ToggleTask(id) => TaskState(Some(ToggleById(CurrentTasks(state), id)))
  }

  /** No two tasks share an id. */
  predicate DistinctIds(tasks: seq<Task>) {
    forall i, j :: 0 <= i < j < |tasks| ==> tasks[i].id != tasks[j].id
  }

  /** ADD_TASK puts the payload in front, under an id larger than every
      existing one, and keeps the rest of the list as it was. */
  lemma AddTaskPrepends(state: TaskState, payload: NewTask)
    ensures var before := CurrentTasks(state);
            var after := CurrentTasks(TaskReducer(state, AddTask(payload)));
            && |after| == |before| + 1
            && after[1..] == before
            && after[0].title == payload.title
            && after[0].description == payload.description
            && after[0].completed == payload.completed
            && 1 <= after[0].id
            && forall t :: t in before ==> t.id < after[0].id
  {
    var after := CurrentTasks(TaskReducer(state, AddTask(payload)));
    assert after[1..] == CurrentTasks(state);
  }

  /** Adding keeps the ids distinct. */
  lemma AddTaskKeepsIdsDistinct(state: TaskState, payload: NewTask)
    requires DistinctIds(CurrentTasks(state))
    ensures DistinctIds(CurrentTasks(TaskReducer(state, AddTask(payload))))
  {
    var before := CurrentTasks(state);
    var after := CurrentTasks(TaskReducer(state, AddTask(payload)));
    forall i, j | 0 <= i < j < |after| ensures after[i].id != after[j].id {
      assert after[j] == before[j - 1];
      if i > 0 {
        assert after[i] == before[i - 1];
      }
    }
  }

  lemma AppendAssociative(x: seq<Task>, y: seq<Task>, z: seq<Task>)
    ensures x + (y + z) == (x + y) + z
  {
  }

  /** Removing by id keeps the remaining tasks in order and drops only the
      ones with that id. */
  lemma {:induction false} RemoveByIdDistributes(a: seq<Task>, b: seq<Task>, id: int)
    ensures RemoveById(a + b, id) == RemoveById(a, id) + RemoveById(b, id)
  {
    if |a| > 0 {
      var head := if a[0].id != id then [a[0]] else [];
      assert (a + b)[0] == a[0];
      assert (a + b)[1..] == a[1..] + b;
      assert RemoveById(a + b, id) == head + RemoveById(a[1..] + b, id);
      assert RemoveById(a, id) == head + RemoveById(a[1..], id);
      RemoveByIdDistributes(a[1..], b, id);
      AppendAssociative(head, RemoveById(a[1..], id), RemoveById(b, id));
    } else {
      assert a + b == b;
    }
  }

  /** A list without the id is left alone. */
  lemma {:induction false} RemoveAbsentId(tasks: seq<Task>, id: int)
    requires forall t :: t in tasks ==> t.id != id
    ensures RemoveById(tasks, id) == tasks
  {
    if |tasks| > 0 {
      assert tasks == [tasks[0]] + tasks[1..];
      RemoveAbsentId(tasks[1..], id);
    }
  }

  /** DELETE_TASK removes every task with the id and nothing else; a second
      delete of the same id changes nothing. */
  lemma DeleteTaskRemoves(state: TaskState, id: int)
    ensures var before := CurrentTasks(state);
            var after := CurrentTasks(TaskReducer(state, DeleteTask(id)));
            && (forall t :: t in after <==> t in before && t.id != id)
            && TaskReducer(TaskReducer(state, DeleteTask(id)), DeleteTask(id)) == TaskReducer(state, DeleteTask(id))
  {
    var after := CurrentTasks(TaskReducer(state, DeleteTask(id)));
    RemoveAbsentId(after, id);
  }

  /** Deleting the task just added gives back the list as it was. */
  lemma DeleteUndoesAdd(state: TaskState, payload: NewTask)
    ensures var added := TaskReducer(state, AddTask(payload));
            var newId := CurrentTasks(added)[0].id;
            CurrentTasks(TaskReducer(added, DeleteTask(newId))) == CurrentTasks(state)
  {
    var before := CurrentTasks(state);
    var added := CurrentTasks(TaskReducer(state, AddTask(payload)));
    var newId := added[0].id;
    assert added == [added[0]] + before;
    RemoveByIdDistributes([added[0]], before, newId);
    RemoveAbsentId(before, newId);
  }

  /** The tail of a list with distinct ids has distinct ids, none of them
      the head's. */
  lemma TailOfDistinct(tasks: seq<Task>)
    requires 0 < |tasks| && DistinctIds(tasks)
    ensures DistinctIds(tasks[1..])
    ensures forall t :: t in tasks[1..] ==> t.id != tasks[0].id
  {
    forall t | t in tasks[1..] ensures t.id != tasks[0].id {
      var k :| 0 <= k < |tasks[1..]| && tasks[1..][k] == t;
      assert tasks[k + 1] == t;
    }
  }

  /** A head whose id is not in a tail with distinct ids keeps them distinct. */
  lemma ConsDistinct(head: Task, tail: seq<Task>)
    requires DistinctIds(tail)
    requires forall t :: t in tail ==> t.id != head.id
    ensures DistinctIds([head] + tail)
  {
    var r := [head] + tail;
    forall i, j | 0 <= i < j < |r| ensures r[i].id != r[j].id {
      assert r[j] == tail[j - 1];
      if i > 0 {
        assert r[i] == tail[i - 1];
      }
    }
  }

  /** The removed list is a sublist, so distinct ids stay distinct. */
  lemma {:induction false} RemoveKeepsIdsDistinct(tasks: seq<Task>, id: int)
    requires DistinctIds(tasks)
    ensures DistinctIds(RemoveById(tasks, id))
  {
    if |tasks| > 0 {
      TailOfDistinct(tasks);
      RemoveKeepsIdsDistinct(tasks[1..], id);
      if tasks[0].id != id {
        ConsDistinct(tasks[0], RemoveById(tasks[1..], id));
      }
    }
  }

  /** DELETE_TASK keeps ids distinct. */
  lemma DeleteTaskKeepsIdsDistinct(state: TaskState, id: int)
    requires DistinctIds(CurrentTasks(state))
    ensures DistinctIds(CurrentTasks(TaskReducer(state, DeleteTask(id))))
  {
    RemoveKeepsIdsDistinct(CurrentTasks(state), id);
  }

  /** TOGGLE_TASK flips `completed` on the tasks with the id and changes
      nothing else; toggling twice restores the list. */
  lemma ToggleTaskFlips(state: TaskState, id: int)
    ensures var before := CurrentTasks(state);
            var after := CurrentTasks(TaskReducer(state, ToggleTask(id)));
            && |after| == |before|
            && (forall i :: 0 <= i < |before| ==>
                  && after[i].id == before[i].id
                  && after[i].title == before[i].title
                  && after[i].description == before[i].description
                  && (after[i].completed != before[i].completed <==> before[i].id == id))
            && DistinctIds(after) == DistinctIds(before)
  {
  }

  lemma ToggleTwiceRestores(state: TaskState, id: int)
    requires state.tasks.Some?
    ensures TaskReducer(TaskReducer(state, ToggleTask(id)), ToggleTask(id)) == state
  {
    var before := CurrentTasks(state);
    var twice := CurrentTasks(TaskReducer(TaskReducer(state, ToggleTask(id)), ToggleTask(id)));
    assert twice == before;
  }

  /** DELETE_TASK and TOGGLE_TASK on a list not loaded yet give the empty
      list. */
  lemma UndefinedListBecomesEmpty(id: int)
    ensures TaskReducer(TaskState(None), DeleteTask(id)).tasks == Some([])
    ensures TaskReducer(TaskState(None), ToggleTask(id)).tasks == Some([])
  {
  }

  /** The first task added to an empty list gets id 1, the next id 2. */
  lemma FirstIds(first: NewTask, second: NewTask)
    ensures var one := TaskReducer(TaskState(None), AddTask(first));
            var two := TaskReducer(one, AddTask(second));
            && CurrentTasks(one)[0].id == 1
            && CurrentTasks(two)[0].id == 2
  {
  }
}
