/** The user and task handlers of src/api/user.rs: what each one answers for each outcome
    of the driving port it calls. A successful answer is its status and DTO; a failed one
    is an error response of src/routing_utils.rs. */
module ApiUser {
  import opened Wrappers
  import Anyhow
  import opened RoutingUtils
  import Dto
  import DomainUser
  import DomainTodo
  import opened TaskPorts

  const StatusOk: int := 200
  const StatusCreated: int := 201

  /** `UserPort`, given by the answers of its two operations. */
  datatype UserPort = UserPort(
    getUsers: Result<seq<DomainUser.TodoUser>, Anyhow.Error>,
    createUser: DomainUser.CreateUser -> Result<int, DomainUser.CreateUserError>)

  /** The calls `create_user` makes on the user port. */
  datatype UserCall = CreateUserCall(user: DomainUser.CreateUser)

  /** `map(dto::TodoUser::from).collect()`: every user converted, in order. */
  function ToDtoUsers(users: seq<DomainUser.TodoUser>): (r: seq<Dto.TodoUser>)
    ensures |r| == |users|
    ensures forall k :: 0 <= k < |r| ==>
      r[k].id == users[k].id && r[k].firstName == users[k].firstName && r[k].lastName == users[k].lastName
  {
    if users == [] then [] else [Dto.TodoUserFromDomain(users[0])] + ToDtoUsers(users[1..])
  }

  /** `map(dto::TodoTask::from).collect()`: every task converted, in order. */
  function ToDtoTasks(tasks: seq<DomainTodo.TodoTask>): (r: seq<Dto.TodoTask>)
    ensures |r| == |tasks|
    ensures forall k :: 0 <= k < |r| ==> r[k].id == tasks[k].id && r[k].description == tasks[k].itemDesc
  {
    if tasks == [] then [] else [Dto.TodoTaskFromDomain(tasks[0])] + ToDtoTasks(tasks[1..])
  }

  /** `get_users`: the users in the same order with their fields, or a 500
      `internal_error` when the service fails. */
  function GetUsers(port: UserPort): (r: Result<seq<Dto.TodoUser>, ErrorResponse>)
    ensures r.Ok? <==> port.getUsers.Ok?
    ensures r.Ok? ==>
      && |r.value| == |port.getUsers.value|
      && forall k :: 0 <= k < |r.value| ==>
           r.value[k] == Dto.TodoUser(port.getUsers.value[k].id, port.getUsers.value[k].firstName, port.getUsers.value[k].lastName)
    ensures r.Err? ==>
      r.error == Generic(port.getUsers.error) &&
      Status(r.error) == StatusInternalServerError && ErrorCode(r.error) == InternalErrorCode
  {
    match port.getUsers
    case Err(e) => Err(Generic(e))
    case Ok(users) => Ok(ToDtoUsers(users))
  }

  /** The body of the 409 answer to a duplicate user. */
  const UserExistsBody: BasicErrorResponse :=
    BasicErrorResponse("user_exists", "A user already exists in the system with the given information.", None)

  /** `create_user`: validates before calling the service; then 201 with the new id, 409
      `user_exists` for a duplicate, or 500 `internal_error` for a port failure. */
  function CreateUser(newUser: Dto.NewUser, port: UserPort): (t: Traced<Result<(int, Dto.InsertedUser), ErrorResponse>, UserCall>)
    ensures Dto.ValidateNewUser(newUser).Err? ==>
      t.calls == [] &&
      t.result == Err(ValidationErrorIntoResponse(ValidationErrorResponse(Dto.ValidateNewUser(newUser).error))) &&
      Status(t.result.error) == StatusBadRequest && ErrorCode(t.result.error) == "invalid_input"
    ensures Dto.ValidateNewUser(newUser).Ok? ==>
      var user := DomainUser.CreateUser(newUser.firstName, newUser.lastName);
      && t.calls == [CreateUserCall(user)]
      && (port.createUser(user).Ok? ==> t.result == Ok((StatusCreated, Dto.InsertedUser(port.createUser(user).value))))
      && (port.createUser(user) == Err(DomainUser.UserAlreadyExists) ==>
            t.result.Err? && Status(t.result.error) == StatusConflict && ErrorCode(t.result.error) == "user_exists")
      && (port.createUser(user).Err? && port.createUser(user).error.PortError? ==>
            t.result == Err(Generic(port.createUser(user).error.cause)) &&
            Status(t.result.error) == StatusInternalServerError && ErrorCode(t.result.error) == InternalErrorCode)
  {
    match Dto.ValidateNewUser(newUser)
    case Err(issues) => Traced(Err(ValidationErrorIntoResponse(ValidationErrorResponse(issues))), [])
    case Ok(_) =>
      var user := DomainUser.CreateUser(newUser.firstName, newUser.lastName);
      var called := [CreateUserCall(user)];
      match port.createUser(user)
      case Ok(id) => Traced(Ok((StatusCreated, Dto.InsertedUser(id))), called)
      case Err(UserAlreadyExists) => Traced(Err(Rendered(StatusConflict, UserExistsBody)), called)
      case Err(PortError(e)) => Traced(Err(Generic(e)), called)
  }

  /** `UserService` behind the user port, over the given driven ports. */
  function UserServicePort(allUsers: Result<seq<DomainUser.TodoUser>, Anyhow.Error>,
                           writer: DomainUser.UserWriter, detect: DomainUser.DetectUser): UserPort
  {
    UserPort(DomainUser.UserServiceGetUsers(allUsers),
             user => DomainUser.UserServiceCreateUser(user, writer, detect).result)
  }

  /** End to end through the real service: a valid request whose names are free is
      answered 201 with the writer's id, one whose names are taken 409, and an invalid one
      400, all three without the service writing anything it should not. */
  lemma CreateUserThroughService(newUser: Dto.NewUser, allUsers: Result<seq<DomainUser.TodoUser>, Anyhow.Error>,
                                 writer: DomainUser.UserWriter, detect: DomainUser.DetectUser)
    ensures
      var port := UserServicePort(allUsers, writer, detect);
      var user := DomainUser.CreateUser(newUser.firstName, newUser.lastName);
      var lookup := detect.userWithNameExists(DomainUser.UserDescription(newUser.firstName, newUser.lastName));
      && (Dto.ValidateNewUser(newUser).Err? ==> Status(CreateUser(newUser, port).result.error) == StatusBadRequest)
      && (Dto.ValidateNewUser(newUser).Ok? && lookup == Ok(true) ==>
            Status(CreateUser(newUser, port).result.error) == StatusConflict &&
            DomainUser.CreateUserCall(user) !in DomainUser.UserServiceCreateUser(user, writer, detect).calls)
      && (Dto.ValidateNewUser(newUser).Ok? && lookup == Ok(false) && writer.createUser(user).Ok? ==>
            CreateUser(newUser, port).result == Ok((StatusCreated, Dto.InsertedUser(writer.createUser(user).value))))
  {
    var user := DomainUser.CreateUser(newUser.firstName, newUser.lastName);
    var _ := DomainUser.UserServiceCreateUser(user, writer, detect);
  }

  /** `get_users` through the real service returns the reader's users, in order. */
  lemma GetUsersThroughService(allUsers: Result<seq<DomainUser.TodoUser>, Anyhow.Error>,
                               writer: DomainUser.UserWriter, detect: DomainUser.DetectUser)
    ensures GetUsers(UserServicePort(allUsers, writer, detect)).Ok? <==> allUsers.Ok?
    ensures allUsers.Ok? ==> GetUsers(UserServicePort(allUsers, writer, detect)).value == ToDtoUsers(allUsers.value)
  {
  }

  /** The body of the 404 answer to a missing user. */
  const NoMatchingUserBody: BasicErrorResponse :=
    BasicErrorResponse("no_matching_user", "Could not find a user matching the given information.", None)

  /** `handle_todo_task_err`: a missing user is 404 `no_matching_user`, a port failure
      the generic 500. */
  function HandleTodoTaskErr(err: TaskError): (r: ErrorResponse)
    ensures err.UserDoesNotExist? ==> r == Rendered(StatusNotFound, NoMatchingUserBody)
    ensures err.PortError? ==> r == Generic(err.cause)
    ensures Status(r) == StatusNotFound <==> err.UserDoesNotExist?
    ensures Status(r) == StatusInternalServerError <==> err.PortError?
  {
    match err
    case UserDoesNotExist => Rendered(StatusNotFound, NoMatchingUserBody)
    case PortError(e) => Generic(e)
  }

  /** `get_tasks_for_user`: the user's tasks converted in order, or the task error's answer. */
  function GetTasksForUser(userId: int, port: TaskPort): (r: Result<seq<Dto.TodoTask>, ErrorResponse>)
    ensures r.Ok? <==> port.tasksForUser(userId).Ok?
    ensures r.Ok? ==>
      && |r.value| == |port.tasksForUser(userId).value|
      && forall k :: 0 <= k < |r.value| ==>
           r.value[k] == Dto.TodoTask(port.tasksForUser(userId).value[k].id, port.tasksForUser(userId).value[k].itemDesc)
    ensures r.Err? ==> r.error == HandleTodoTaskErr(port.tasksForUser(userId).error)
  {
    match port.tasksForUser(userId)
    case Ok(tasks) => Ok(ToDtoTasks(tasks))
    case Err(e) => Err(HandleTodoTaskErr(e))
  }

  /** The body of the 404 answer to a missing task. */
  const NoMatchingTaskBody: BasicErrorResponse :=
    BasicErrorResponse("no_matching_task", "The specified task does not exist.", None)

  /** `get_task_for_user`: the task when there is one, 404 `no_matching_task` when there is
      none, or the task error's answer. */
  function GetTaskForUser(userId: int, taskId: int, port: TaskPort): (r: Result<Dto.TodoTask, ErrorResponse>)
    ensures r.Ok? <==> port.userTaskById(userId, taskId).Ok? && port.userTaskById(userId, taskId).value.Some?
    ensures r.Ok? ==>
      var task := port.userTaskById(userId, taskId).value.value;
      r.value.id == task.id && r.value.description == task.itemDesc
    ensures port.userTaskById(userId, taskId) == Ok(None) ==>
      r == Err(Rendered(StatusNotFound, NoMatchingTaskBody)) && ErrorCode(r.error) == "no_matching_task"
    ensures port.userTaskById(userId, taskId).Err? ==> r == Err(HandleTodoTaskErr(port.userTaskById(userId, taskId).error))
  {
    match port.userTaskById(userId, taskId)
    case Ok(Some(task)) => Ok(Dto.TodoTaskFromDomain(task))
    case Ok(None) => Err(Rendered(StatusNotFound, NoMatchingTaskBody))
    case Err(e) => Err(HandleTodoTaskErr(e))
  }

  /** A missing user and a missing task are both 404, but their codes tell them apart. */
  lemma MissingUserAndMissingTaskDistinguished(userId: int, taskId: int, port: TaskPort)
    requires port.userTaskById(userId, taskId) == Ok(None) || port.userTaskById(userId, taskId) == Err(UserDoesNotExist)
    ensures Status(GetTaskForUser(userId, taskId, port).error) == StatusNotFound
    ensures ErrorCode(GetTaskForUser(userId, taskId, port).error) == "no_matching_task" <==>
      port.userTaskById(userId, taskId) == Ok(None)
  {
  }

  /** `add_task_for_user`: validates before calling the service; then 201 with the new id,
      or the task error's answer. */
  function AddTaskForUser(userId: int, newTask: Dto.NewTask, port: TaskPort): (t: Traced<Result<(int, Dto.InsertedTask), ErrorResponse>, TaskCall>)
    ensures Dto.ValidateNewTask(newTask).Err? ==>
      t.calls == [] &&
      t.result == Err(ValidationErrorIntoResponse(ValidationErrorResponse(Dto.ValidateNewTask(newTask).error))) &&
      Status(t.result.error) == StatusBadRequest && ErrorCode(t.result.error) == "invalid_input"
    ensures Dto.ValidateNewTask(newTask).Ok? ==>
      var task := DomainTodo.NewTask(newTask.itemDesc);
      && t.calls == [CreateTaskForUserCall(userId, task)]
      && (port.createTaskForUser(userId, task).Ok? ==>
            t.result == Ok((StatusCreated, Dto.InsertedTask(port.createTaskForUser(userId, task).value))))
      && (port.createTaskForUser(userId, task).Err? ==>
            t.result == Err(HandleTodoTaskErr(port.createTaskForUser(userId, task).error)))
  {
    match Dto.ValidateNewTask(newTask)
    case Err(issues) => Traced(Err(ValidationErrorIntoResponse(ValidationErrorResponse(issues))), [])
    case Ok(_) =>
      var task := Dto.NewTaskIntoDomain(newTask);
      var called := [CreateTaskForUserCall(userId, task)];
      match port.createTaskForUser(userId, task)
      case Ok(id) => Traced(Ok((StatusCreated, Dto.InsertedTask(id))), called)
      case Err(e) => Traced(Err(HandleTodoTaskErr(e)), called)
  }
}
