/** The task list state and the reducer's actions of src/domain/task.ts. */
module TaskDomain {
  import opened Wrappers

  datatype Task = Task(id: int, title: string, description: string, completed: bool)

  /** `tasks` is undefined until the list is first loaded. */
  datatype TaskState = TaskState(tasks: Option<seq<Task>>)

  /** The payload of ADD_TASK: a task without its id. */
  datatype NewTask = NewTask(title: string, description: string, completed: bool)

  datatype TaskAction =
    | SetTasks(tasks: seq<Task>)
    | AddTask(task: NewTask)
    | DeleteTask(id: int)
    | ToggleTask(id: int)
}
