/** The driving port of the task logic as the task handlers in src/api/user.rs and
    src/api/todo.rs call it. `TaskPort`, `TaskError` and `TaskService` are not declared in
    this snapshot's src/domain/todo.rs; their shape here is read off those calls. */
module TaskPorts {
  import opened Wrappers
  import Anyhow
  import DomainTodo

  /** `TaskError`: the owning user is missing, or a port failed. */
  datatype TaskError = UserDoesNotExist | PortError(cause: Anyhow.Error)

  /** `TaskPort`, given by the answers of its operations. */
  datatype TaskPort = TaskPort(
    tasksForUser: int -> Result<seq<DomainTodo.TodoTask>, TaskError>,
    userTaskById: (int, int) -> Result<Option<DomainTodo.TodoTask>, TaskError>,
    createTaskForUser: (int, DomainTodo.NewTask) -> Result<int, TaskError>,
    updateTask: (int, DomainTodo.UpdateTask) -> Result<(), Anyhow.Error>,
    deleteTask: int -> Result<(), Anyhow.Error>)

  /** The calls a handler makes on the task port, with their arguments. */
  datatype TaskCall =
    | TasksForUserCall(userId: int)
    | UserTaskByIdCall(userId: int, taskId: int)
    | CreateTaskForUserCall(userId: int, task: DomainTodo.NewTask)
    | UpdateTaskCall(taskId: int, update: DomainTodo.UpdateTask)
    | DeleteTaskCall(taskId: int)
}
