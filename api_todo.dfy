/** The task update and delete handlers of src/api/todo.rs. */
module ApiTodo {
  import opened Wrappers
  import opened RoutingUtils
  import Dto
  import DomainTodo
  import opened TaskPorts

  const StatusOk: int := 200

  /** `update_task`: validates before calling the service; then 200, or the generic 500
      when the service fails. */
  function UpdateTask(taskId: int, taskData: Dto.UpdateTask, port: TaskPort): (t: Traced<Result<int, ErrorResponse>, TaskCall>)
    ensures Dto.ValidateUpdateTask(taskData).Err? ==>
      t.calls == [] &&
      t.result == Err(ValidationErrorIntoResponse(ValidationErrorResponse(Dto.ValidateUpdateTask(taskData).error))) &&
      Status(t.result.error) == StatusBadRequest && ErrorCode(t.result.error) == "invalid_input"
    ensures Dto.ValidateUpdateTask(taskData).Ok? ==>
      var update := DomainTodo.UpdateTask(taskData.description);
      && t.calls == [UpdateTaskCall(taskId, update)]
      && (port.updateTask(taskId, update).Ok? ==> t.result == Ok(StatusOk))
      && (port.updateTask(taskId, update).Err? ==>
            t.result == Err(Generic(port.updateTask(taskId, update).error)) &&
            Status(t.result.error) == StatusInternalServerError && ErrorCode(t.result.error) == InternalErrorCode)
  {
    match Dto.ValidateUpdateTask(taskData)
    case Err(issues) => Traced(Err(ValidationErrorIntoResponse(ValidationErrorResponse(issues))), [])
    case Ok(_) =>
      var update := Dto.UpdateTaskIntoDomain(taskData);
      var called := [UpdateTaskCall(taskId, update)];
      match port.updateTask(taskId, update)
      case Ok(_) => Traced(Ok(StatusOk), called)
      case Err(e) => Traced(Err(Generic(e)), called)
  }

  /** `delete_task`: one call with the task id; 200, or the generic 500 when the service
      fails. */
  function DeleteTask(taskId: int, port: TaskPort): (t: Traced<Result<int, ErrorResponse>, TaskCall>)
    ensures t.calls == [DeleteTaskCall(taskId)]
    ensures port.deleteTask(taskId).Ok? ==> t.result == Ok(StatusOk)
    ensures port.deleteTask(taskId).Err? ==>
      t.result == Err(Generic(port.deleteTask(taskId).error)) &&
      Status(t.result.error) == StatusInternalServerError && ErrorCode(t.result.error) == InternalErrorCode
  {
    var called := [DeleteTaskCall(taskId)];
    match port.deleteTask(taskId)
    case Ok(_) => Traced(Ok(StatusOk), called)
    case Err(e) => Traced(Err(Generic(e)), called)
  }

  /** The answer to an update is 200 exactly when the input is valid and the service
      succeeds, and the service sees the request's description unchanged. */
  lemma UpdateTaskSucceedsIff(taskId: int, taskData: Dto.UpdateTask, port: TaskPort)
    ensures UpdateTask(taskId, taskData, port).result == Ok(StatusOk) <==>
      |taskData.description| >= 1 && port.updateTask(taskId, DomainTodo.UpdateTask(taskData.description)).Ok?
    ensures forall c :: c in UpdateTask(taskId, taskData, port).calls ==>
      c == UpdateTaskCall(taskId, DomainTodo.UpdateTask(taskData.description))
  {
  }
}
