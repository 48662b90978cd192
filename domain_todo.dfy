/** Task business logic (src/domain/todo.rs): reading a user's tasks and creating a task,
    each guarded by the user existence check, and the in-memory task writer the tests
    use. Ports are given as the answers they return. */
module DomainTodo {
  import opened Wrappers
  import Anyhow
  import opened Validator
  import opened DomainTestUtil
  import DomainUser

  /** A to-do item owned by a user. */
  datatype TodoTask = TodoTask(id: int, ownerUserId: int, itemDesc: string)

  /** What is needed to create a task. */
  datatype NewTask = NewTask(description: string)

  /** The new content of a task. The DTO conversions and the task handlers use it; the
      version of todo.rs modelled here does not declare it. */
  datatype UpdateTask = UpdateTask(description: string)

  /** `#[validate(length(min = 1))]` on `NewTask::description` */
  const MinDescriptionLength: nat := 1

  /** `NewTask::validate` */
  function ValidateNewTask(task: NewTask): (r: Result<(), ValidationErrors>)
    ensures r.Ok? <==> |task.description| >= MinDescriptionLength
    ensures r.Err? ==> r.error.Keys == {"description"}
  {
    Outcome(LengthRule("description", task.description, Some(MinDescriptionLength), None))
  }

  /** A failure of a task port. Its conversions are not part of this snapshot's todo.rs:
      a port error is kept as the anyhow error it was made from. */
  datatype DrivenPortError = DrivenPortError(cause: Anyhow.Error)

  /** `domain::Error` as this file produces it: invalid input, a failed user check (the
      `?` on `verify_user_exists`), or a port failure with what was being attempted (the
      `into_error_trying_to` conversions). */
  datatype Error =
    | Invalid(issues: ValidationErrors)
    | UserCheckFailed(reason: DomainUser.UserExistsErr)
    | PortFailure(cause: DrivenPortError, attempted: string)

  const LookUpTasksAttempt: string := "look up a user's tasks"
  const LookUpTaskAttempt: string := "look up a user's task by id"
  const CreateTaskAttempt: string := "create a task for a user"

  /** `UserTaskReader` */
  datatype UserTaskReader = UserTaskReader(
    tasksForUser: int -> Result<seq<TodoTask>, DrivenPortError>,
    userTaskById: (int, int) -> Result<Option<TodoTask>, DrivenPortError>)

  /** `UserTaskWriter` */
  datatype UserTaskWriter = UserTaskWriter(createTaskForUser: (int, NewTask) -> Result<int, DrivenPortError>)

  /** The port calls the task operations make. */
  datatype PortCall =
    | UserExistsCall(userId: int)
    | TasksForUserCall(userId: int)
    | UserTaskByIdCall(userId: int, taskId: int)
    | CreateTaskForUserCall(userId: int, task: NewTask)

  /** `tasks_for_user`: checks the user, then reads. */
  function TasksForUser(detect: DomainUser.DetectUser, reader: UserTaskReader, userId: int): (t: Traced<Result<seq<TodoTask>, Error>, PortCall>)
    ensures |t.calls| >= 1 && t.calls[0] == UserExistsCall(userId)
    ensures TasksForUserCall(userId) in t.calls <==> DomainUser.VerifyUserExists(userId, detect).Ok?
    ensures DomainUser.VerifyUserExists(userId, detect).Err? ==>
      t.result == Err(UserCheckFailed(DomainUser.VerifyUserExists(userId, detect).error)) &&
      t.calls == [UserExistsCall(userId)]
    ensures DomainUser.VerifyUserExists(userId, detect).Ok? ==>
      t.calls == [UserExistsCall(userId), TasksForUserCall(userId)] &&
      (reader.tasksForUser(userId).Ok? ==> t.result == Ok(reader.tasksForUser(userId).value)) &&
      (reader.tasksForUser(userId).Err? ==>
         t.result == Err(PortFailure(reader.tasksForUser(userId).error, LookUpTasksAttempt)))
  {
    var checked := [UserExistsCall(userId)];
    match DomainUser.VerifyUserExists(userId, detect)
    case Err(e) => Traced(Err(UserCheckFailed(e)), checked)
    case Ok(_) =>
      var read := checked + [TasksForUserCall(userId)];
      match reader.tasksForUser(userId)
      case Ok(tasks) => Traced(Ok(tasks), read)
      case Err(e) => Traced(Err(PortFailure(e, LookUpTasksAttempt)), read)
  }

  /** `task_for_user`: checks the user, then reads the one task. */
  function TaskForUser(detect: DomainUser.DetectUser, reader: UserTaskReader, userId: int, taskId: int): (t: Traced<Result<Option<TodoTask>, Error>, PortCall>)
    ensures |t.calls| >= 1 && t.calls[0] == UserExistsCall(userId)
    ensures UserTaskByIdCall(userId, taskId) in t.calls <==> DomainUser.VerifyUserExists(userId, detect).Ok?
    ensures DomainUser.VerifyUserExists(userId, detect).Err? ==>
      t.result == Err(UserCheckFailed(DomainUser.VerifyUserExists(userId, detect).error)) &&
      t.calls == [UserExistsCall(userId)]
    ensures DomainUser.VerifyUserExists(userId, detect).Ok? ==>
      t.calls == [UserExistsCall(userId), UserTaskByIdCall(userId, taskId)] &&
      (reader.userTaskById(userId, taskId).Ok? ==> t.result == Ok(reader.userTaskById(userId, taskId).value)) &&
      (reader.userTaskById(userId, taskId).Err? ==>
         t.result == Err(PortFailure(reader.userTaskById(userId, taskId).error, LookUpTaskAttempt)))
  {
    var checked := [UserExistsCall(userId)];
    match DomainUser.VerifyUserExists(userId, detect)
    case Err(e) => Traced(Err(UserCheckFailed(e)), checked)
    case Ok(_) =>
      var read := checked + [UserTaskByIdCall(userId, taskId)];
      match reader.userTaskById(userId, taskId)
      case Ok(task) => Traced(Ok(task), read)
      case Err(e) => Traced(Err(PortFailure(e, LookUpTaskAttempt)), read)
  }

  /** `create_task`: validates, then checks the user, then writes. */
  function CreateTask(detect: DomainUser.DetectUser, writer: UserTaskWriter, userId: int, newTask: NewTask): (t: Traced<Result<int, Error>, PortCall>)
    // invalid input is refused before any port is called
    ensures ValidateNewTask(newTask).Err? ==> t.result == Err(Invalid(ValidateNewTask(newTask).error)) && t.calls == []
    ensures ValidateNewTask(newTask).Ok? ==> |t.calls| >= 1 && t.calls[0] == UserExistsCall(userId)
    // the writer is called exactly when the input is valid and the user exists
    ensures CreateTaskForUserCall(userId, newTask) in t.calls <==>
      ValidateNewTask(newTask).Ok? && DomainUser.VerifyUserExists(userId, detect).Ok?
    ensures ValidateNewTask(newTask).Ok? && DomainUser.VerifyUserExists(userId, detect).Err? ==>
      t.result == Err(UserCheckFailed(DomainUser.VerifyUserExists(userId, detect).error)) &&
      t.calls == [UserExistsCall(userId)]
    ensures ValidateNewTask(newTask).Ok? && DomainUser.VerifyUserExists(userId, detect).Ok? ==>
      t.calls == [UserExistsCall(userId), CreateTaskForUserCall(userId, newTask)] &&
      (writer.createTaskForUser(userId, newTask).Ok? ==> t.result == Ok(writer.createTaskForUser(userId, newTask).value)) &&
      (writer.createTaskForUser(userId, newTask).Err? ==>
         t.result == Err(PortFailure(writer.createTaskForUser(userId, newTask).error, CreateTaskAttempt)))
  {
    match ValidateNewTask(newTask)
    case Err(issues) => Traced(Err(Invalid(issues)), [])
    case Ok(_) =>
      var checked := [UserExistsCall(userId)];
      match DomainUser.VerifyUserExists(userId, detect)
      case Err(e) => Traced(Err(UserCheckFailed(e)), checked)
      case Ok(_) =>
        var written := checked + [CreateTaskForUserCall(userId, newTask)];
        match writer.createTaskForUser(userId, newTask)
        case Ok(id) => Traced(Ok(id), written)
        case Err(e) => Traced(Err(PortFailure(e, CreateTaskAttempt)), written)
  }

  /** `task_from_create`: the stored task carries the given ids and the description. */
  function TaskFromCreate(userId: int, taskId: int, newTask: NewTask): (task: TodoTask)
    ensures task.id == taskId && task.ownerUserId == userId && task.itemDesc == newTask.description
  {
    TodoTask(taskId, userId, newTask.description)
  }

  /** `InMemoryUserTaskWriter`. The `RwLock` around it is not modelled. */
  class InMemoryUserTaskWriter {
    var tasks: seq<TodoTask>
    var connected: Connectivity
    var highestTaskId: int

    /** Task ids are positive, at most `highestTaskId` and strictly increasing in store order. */
    ghost predicate Valid()
      reads this
    {
      && highestTaskId >= 0
      && (forall k :: 0 <= k < |tasks| ==> 1 <= tasks[k].id <= highestTaskId)
      && (forall j, k :: 0 <= j < k < |tasks| ==> tasks[j].id < tasks[k].id)
    }

    /** `new`: empty, connected. */
    constructor ()
      ensures tasks == [] && connected == Connected && highestTaskId == 0
      ensures Valid()
    {
      tasks := [];
      connected := Connected;
      highestTaskId := 0;
    }

    /** `UserTaskWriter::create_task_for_user`. Disconnected: an error, nothing changes.
        Connected: the next id, one appended task for the owner, and the id. */
    method CreateTaskForUser(userId: int, task: NewTask) returns (r: Result<int, DrivenPortError>)
      modifies this
      ensures connected == old(connected)
      ensures old(connected).Disconnected? ==>
        r == Err(DrivenPortError(Anyhow.Msg(DisconnectedMessage))) &&
        tasks == old(tasks) && highestTaskId == old(highestTaskId)
      ensures old(connected).Connected? ==>
        highestTaskId == old(highestTaskId) + 1 && r == Ok(highestTaskId) &&
        tasks == old(tasks) + [TodoTask(highestTaskId, userId, task.description)]
      ensures old(Valid()) ==> Valid()
    {
      var reachable := BlowUpIfDisconnected(connected);
      if reachable.Err? {
        return Err(DrivenPortError(reachable.error));
      }
      highestTaskId := highestTaskId + 1;
      var taskId := highestTaskId;
      tasks := tasks + [TaskFromCreate(userId, taskId, task)];
      r := Ok(taskId);
    }
  }

  /** The test `create_does_not_accept_invalid_tasks`: the service's result and the
      port calls it made. */
  method CreateDoesNotAcceptInvalidTasks() returns (t: Traced<Result<int, Error>, PortCall>)
    ensures t.result.Err? && t.result.error.Invalid? && "description" in t.result.error.issues
    ensures t.calls == []
  {
    var detect := DomainUser.DetectUser(id => Ok(id == 1), _ => Ok(false));
    var writer := UserTaskWriter((_, _) => Ok(1));
    t := CreateTask(detect, writer, 1, NewTask(""));
  }

  /** On a store that keeps its invariant, a connected create stores exactly one task
      with the returned id, and that task is the one asked for. */
  method CreatedTaskIsUnique(writer: InMemoryUserTaskWriter, userId: int, task: NewTask) returns (id: int)
    requires writer.Valid() && writer.connected == Connected
    modifies writer
    ensures writer.Valid()
    ensures id >= 1 && |writer.tasks| >= 1
    ensures writer.tasks[|writer.tasks| - 1] == TodoTask(id, userId, task.description)
    ensures forall k :: 0 <= k < |writer.tasks| - 1 ==> writer.tasks[k].id != id
  {
    var r := writer.CreateTaskForUser(userId, task);
    id := r.value;
  }
}
