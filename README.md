# rust-rest core in Dafny

A model of the core of `rust-rest`, a to-do list REST service written in Rust. The service
is organised around ports: handlers call driving ports (services), and services call
driven ports (readers, writers, detectors). The model covers these parts:

- **Transactions** (`ExternalConnections`). `with_transaction` begins a transaction, runs
  the caller's unit of work once on the transaction handle, and commits only when that
  work succeeded. `TxOrSourceError` classifies a failure as exactly one of three cases:
  the work failed (`Source`), begin failed (`TxBegin`), or commit failed after the work
  succeeded (`TxCommit`, which keeps the work's value). Begin, the unit of work and commit
  are parameters: a `Result` for begin, and functions from the handle to a `Result` for
  the other two. `calls` records which of them ran, in order.
  - `FakeExternalConnectivity` is the test double. It is a class with an
    `is_transacting` flag and a commit flag shared with every transaction it starts. In
    Rust that flag is an `Arc<AtomicBool>`; here it is a `CommitFlag` heap object.
- **Users** (`DomainUser`). This covers `verify_user_exists` and the user service. The
  service refuses a user whose first and last names are both taken, and does so before
  it writes. It also covers the in-memory user store, a class with a counter and a
  sequence of users.
- **Tasks** (`DomainTodo`). Reading a user's tasks, and creating a task in a fixed order:
  validate, then check that the user exists, then write. Also the in-memory task writer.
- **Test doubles** (`DomainTestUtil`). The connectivity switch of the in-memory ports,
  and `FakeImplementation`, a mock that records the arguments of each call and returns a
  configured value.
- **DTOs** (`Dto`). The `length` rules of the request bodies, the `NewUser` display
  text, and the conversions between DTOs and domain types.
- **HTTP answers**. Only the status and the error body are modelled.
  - `RoutingUtils`: the axum error tables.
  - `RouteError`: the actix `BasicError` records, including the check that a status is a
    legal HTTP status.
  - `ApiUser` and `ApiTodo`: the handlers, as a map from each service outcome to the
    answer.

### How the model is built

- **Ports.** A driven or driving port is a datatype of functions that gives the port's
  answer for each argument.
- **Calls.** An orchestrating function returns `Traced(result, calls)`. Statements such
  as "the writer is not called" are then statements about `calls`.
- **Errors.** An anyhow error is its message plus the messages of its causes.
  `.context(text)` puts `text` in front.
- **Panics.** A panic is an explicit outcome: `FakePanic`, `MockPanic`, `StatusPanic`.
- **Validation.** The validator crate's `length` rule counts Unicode scalar values,
  which is the length of a Dafny `string`. `ValidationErrors` is a map from field name to
  the failed rule.

### Diverging files

The repository holds diverging versions of some files. Each file is modelled as written:

- `src/routing_utils.rs` and `src/route_error.rs` both match a `DbError` with
  `NoResults` and `QueryFailure`. That is the `RoutingUtils.DbError` used here.
  `src/db.rs` declares only `QueryFailure`.
- `src/dto/user.rs` and `src/dto/task.rs` repeat the declarations of `src/dto.rs` rule
  for rule: same limits, same conversions. The `Dto` module models all three files, and
  the table below cites whichever file a member's property comes from.
- `src/domain/todo.rs` calls `verify_user_exists` with two arguments, while
  `src/domain/user.rs` declares three. The connectivity argument is not modelled, so both
  calls are `DomainUser.VerifyUserExists`.
- The axum layer's description for a failed query has no final full stop; the actix
  layer's has one. `RouteError.FromDbAgreesWithAxumLayer` states that status and code
  agree and that this full stop is the only difference.

## Model

| member | source | states |
|---|---|---|
| ExternalConnections.WithTransaction | src/external_connections.rs:68-100 | The work runs once when begin succeeds, never when it fails, and always on the begun handle. A commit is issued exactly when the work returned `Ok`. A begin failure gives `TxBegin` with that error. A work failure gives `Source` with that error. Work `Ok(v)` gives `Ok(v)` when commit succeeds and `TxCommit(v, c)` when commit fails with `c`. |
| ExternalConnections.FakeExternalConnectivity.constructor | src/external_connections.rs:160-165 | A new fake is not transacting, owns a fresh commit flag, and reports no commit. |
| ExternalConnections.FakeExternalConnectivity.Transacting | src/external_connections.rs:219-224 | The value a transaction start builds: transacting, and sharing the given flag. |
| ExternalConnections.FakeExternalConnectivity.DatabaseCxn | src/external_connections.rs:193-195 | Getting a connection never fails. |
| ExternalConnections.FakeExternalConnectivity.StartTransaction | src/external_connections.rs:218-225 | Starting a transaction gives a new fake that is transacting and shares the source's commit flag. The source is not changed. |
| ExternalConnections.FakeExternalConnectivity.Commit | src/external_connections.rs:202-210 | Commit outside a transaction is the panic outcome and leaves the flag alone. Inside a transaction it succeeds, and the shared flag then reports a commit. |
| ExternalConnections.CommitFlag.constructor | src/external_connections.rs:156-163 | The shared commit flag starts out false. |
| ExternalConnections.FakeExternalConnectivity.IsTransacting | src/external_connections.rs:167-169 | True exactly for a connectivity that is a started transaction. |
| ExternalConnections.FakeExternalConnectivity.DidTransactionCommit | src/external_connections.rs:171-173 | True exactly when the flag shared by the source and its transactions has been set. |
| ExternalConnections.WithFakeTransaction | src/external_connections.rs:113-139 | `WithTransaction` run against the fake, which commits exactly when `WithTransaction` asks for the commit. A successful unit of work returns its value, and the source then reports a commit. A failed one returns `Source` of its error, and the source's flag is unchanged. |
| ExternalConnections.CommitsOnSuccess | src/external_connections.rs:113-124 | A unit of work that succeeds gives an `Ok` result, and the source reports a commit. |
| ExternalConnections.DoesNotCommitOnFailure | src/external_connections.rs:126-139 | A unit of work that fails with `SampleErr` gives `Source(SampleErr)`, and the source reports no commit. |
| ExternalConnections.BeginAndCommitFailures | src/external_connections.rs:81-93 | A begin failure gives `TxBegin` of that error and the work never runs; a commit failure after work `Ok(42)` gives `TxCommit(42, the commit error)`. |
| DomainTestUtil.BlowUpIfDisconnected | src/domain/test_util.rs:12-17 | `Ok` exactly when connected. Otherwise the error "could not connect to service!". |
| DomainTestUtil.FakeImplementation.constructor | src/domain/test_util.rs:65-70 | No calls saved, no return value configured. |
| DomainTestUtil.FakeImplementation.SaveArguments | src/domain/test_util.rs:75-82 | Exactly one entry is appended after the earlier calls, in call order. The return value is unchanged. |
| DomainTestUtil.FakeImplementation.Calls | src/domain/test_util.rs:80-82 | The arguments of every saved call, in call order, exactly as `SaveArguments` appended them. |
| DomainTestUtil.FakeImplementation.SetReturnValue | src/domain/test_util.rs:91-93 | Afterwards the return value read back is the one set. Saved calls are kept. |
| DomainTestUtil.FakeImplementation.ReturnValue | src/domain/test_util.rs:96-101 | The configured value when there is one; the unset panic exactly when there is none. Reading changes nothing. |
| DomainTestUtil.SetReturnedResult | src/domain/test_util.rs:112-117 | An `Ok` or `Err` that was set is read back exactly. Saved calls are kept. |
| DomainTestUtil.ReturnValueResult | src/domain/test_util.rs:120-126 | The configured `Result` unchanged, or the unset panic. |
| DomainTestUtil.SetReturnedAnyhow | src/domain/test_util.rs:136-141 | An `Ok` round-trips exactly. An error comes back with the same display text and no causes. |
| DomainTestUtil.ReturnValueAnyhow | src/domain/test_util.rs:144-150 | The unset panic when nothing was set. An `Ok` is returned as set. An error is rebuilt from its display text only. |
| DomainUser.VerifyUserExists | src/domain/user.rs:148-160 | `Ok` exactly when the detector answers true. A false answer gives `UserDoesNotExist` with the same id. A detector error gives `PortError` with that error. |
| DomainUser.UserServiceGetUsers | src/domain/user.rs:164-175 | Succeeds exactly when the reader does, and returns its list unchanged. An error stays an error: "Failed fetching users", caused by the reader's error. |
| DomainUser.UserServiceCreateUser | src/domain/user.rs:178-202 | It first asks whether the names are taken. The writer is called exactly when the answer is "no". Taken names give `UserAlreadyExists` without a write. A lookup or write failure gives `PortError` with its context. Otherwise the result is the writer's id. |
| DomainUser.Enumerated | src/domain/user.rs:433-441 | The users get ids `offset+1, offset+2, …` in input order, with their names copied. |
| DomainUser.FindById | src/domain/user.rs:501-509 | `None` exactly when no user has the id. Otherwise the user at the first index with that id. |
| DomainUser.AnyWithId | src/domain/user.rs:530 | True exactly when some user has the id. |
| DomainUser.AnyWithName | src/domain/user.rs:542-544 | True exactly when some user has both names. |
| DomainUser.AppendedUserIsFound | src/domain/user.rs:462-468 | When ids increase along the store, `by_id` finds an appended user with a larger id. |
| DomainUser.InMemoryUserPersistence.constructor | src/domain/user.rs:420-426 | Empty, counter 0, connected, and the id invariant holds. |
| DomainUser.InMemoryUserPersistence.WithUsers | src/domain/user.rs:430-444 | The k-th given user is stored with id k+1 and its names. The counter is n. Connected. |
| DomainUser.InMemoryUserPersistence.CreateUser | src/domain/user.rs:454-471 | Disconnected: an error, and nothing changes. Connected: the counter goes up by one, exactly one user with that id and the given names is appended, and that id is returned. Ids stay positive, unique and increasing. |
| DomainUser.InMemoryUserPersistence.All | src/domain/user.rs:475-491 | Disconnected: an error. Connected: the stored users in store order. |
| DomainUser.InMemoryUserPersistence.ById | src/domain/user.rs:493-510 | Disconnected: an error. Connected: `None` exactly when no user has the id, otherwise the first stored user with it. |
| DomainUser.InMemoryUserPersistence.UserExists | src/domain/user.rs:522-531 | Disconnected: an error. Connected: true exactly when some stored user has the id. |
| DomainUser.InMemoryUserPersistence.UserWithNameExists | src/domain/user.rs:534-545 | Disconnected: an error. Connected: true exactly when some stored user matches both names. |
| DomainUser.CreatedUserCanBeFound | src/domain/user.rs:454-510 | After a connected create on a valid store, `by_id` of the returned id finds the new user. |
| DomainUser.FailsIfUserAlreadyExists | src/domain/user.rs:350-379 | With a store that already holds "Evan Rittenhouse" answering the name lookup, creating that user again gives `UserAlreadyExists`, and the writer is never called. |
| DomainTodo.ValidateNewTask | src/domain/todo.rs:13-17 | Valid exactly when the description has at least one character. Otherwise the issue is keyed `description`. |
| DomainTodo.TasksForUser | src/domain/todo.rs:38-53 | The user is checked first. The tasks are read exactly when the check passes. A failed check is returned as is, without a read. A read failure is a port failure while "look up a user's tasks". |
| DomainTodo.TaskForUser | src/domain/todo.rs:55-71 | The same order for one task: no read when the user check fails. A read failure is a port failure while "look up a user's task by id". |
| DomainTodo.CreateTask | src/domain/todo.rs:73-90 | Invalid input gives `Invalid` with no port call. Valid input is checked for the user next. The writer is called exactly when the input is valid and the user exists, and its id is returned. A write failure is a port failure while "create a task for a user". |
| DomainTodo.TaskFromCreate | src/domain/todo.rs:159-165 | The task carries the given task id, owner id and description unchanged. |
| DomainTodo.InMemoryUserTaskWriter.constructor | src/domain/todo.rs:131-137 | Empty, connected, counter 0, and the id invariant holds. |
| DomainTodo.InMemoryUserTaskWriter.CreateTaskForUser | src/domain/todo.rs:142-156 | Disconnected: an error, and the store is unchanged. Connected: the counter goes up by one, exactly one task with that id, owner and description is appended, and the id is returned. Ids stay unique and increasing. |
| DomainTodo.CreatedTaskIsUnique | src/domain/todo.rs:142-156 | On a writer that keeps its id invariant, a connected create stores exactly one task with the returned id, and that task has the given owner and description. |
| DomainTodo.CreateDoesNotAcceptInvalidTasks | src/domain/todo.rs:100-115 | An empty description gives `Invalid` with an issue for `description`, and no port is called. |
| Dto.ValidateNewUser | src/dto.rs:57-62 | Valid exactly when the first name has at most 30 characters and the last name at most 50. Each field is reported exactly when it is over its limit. |
| Dto.NewUserFieldsIndependent | src/dto/user.rs:33-38 | Whether a field is reported depends on that field's value only. |
| Dto.BadUserDataGetsRejected | src/dto.rs:224-236 | Any 35-character first name with a 55-character last name is rejected, and both fields are reported. |
| Dto.DisplayNewUser | src/dto.rs:54-55 | The text is the first name, one space, then the last name. |
| Dto.DisplayNewUserSplitsAtFirstSpace | src/dto/user.rs:30-31 | For first names without spaces, equal display texts mean equal users. |
| Dto.TodoUserFromDomain | src/dto.rs:43-51 | The DTO keeps id, first name and last name. |
| Dto.TodoUserFromDomainInjective | src/dto/user.rs:19-27 | The conversion loses nothing: equal DTOs come from equal users. |
| Dto.ValidateNewTask | src/dto.rs:75-78 | Valid exactly when `item_desc` is non-empty. Otherwise the issue is keyed `item_desc`. |
| Dto.NewTaskIntoDomain | src/dto.rs:80-86 | The domain description is `item_desc`. |
| Dto.NewTaskValidationAgreesWithDomain | src/dto/task.rs:9-20 | The API accepts a task body exactly when the domain accepts its conversion. |
| Dto.TodoTaskFromDomain | src/dto.rs:97-104 | The DTO keeps the id, and its description is `item_desc`. |
| Dto.CreatedTaskRoundTrips | src/dto/task.rs:31-38 | A task stored from a request comes back with its stored id and the request's text. |
| Dto.ValidateUpdateTask | src/dto.rs:109-112 | Valid exactly when `description` is non-empty. Otherwise the issue is keyed `description`. |
| Dto.UpdateTaskIntoDomain | src/dto.rs:114-120 | The domain description equals the DTO's. |
| Dto.UpdateTaskIntoDomainInjective | src/dto/task.rs:48-54 | The update conversion loses nothing. |
| RoutingUtils.DbErrorResponseFrom | src/routing_utils.rs:60-67 | Each database error maps to the response variant of the same name, in both directions. |
| RoutingUtils.DbErrorIntoResponse | src/routing_utils.rs:34-58 | `NoResults` is 404 `not_found`. `QueryFailure` is 500 `internal_error`. Neither has extra info. |
| RoutingUtils.DbErrorStatusClassifies | src/routing_utils.rs:34-67 | A database error is answered 404 exactly when it is a missing row and 500 exactly when a query failed. The cause of the failure does not change the answer. |
| RoutingUtils.ValidationErrorIntoResponse | src/routing_utils.rs:72-84 | 400 `invalid_input`, with extra info carrying the same validation errors. |
| RoutingUtils.JsonErrorFrom | src/routing_utils.rs:109-115 | The parse problem is the rejection's body text. |
| RoutingUtils.JsonErrorIntoResponse | src/routing_utils.rs:117-130 | 400 `invalid_json`, with the parse problem as the extra message. |
| RoutingUtils.JsonRejectionTextReachesClient | src/routing_utils.rs:109-130 | The client sees the rejection's own text: two rejections give the same response exactly when they are the same rejection. |
| RoutingUtils.ResponsesAreErrors | src/routing_utils.rs:37-128 | Every response in these tables has a 4xx or 5xx status. |
| RouteError.StatusCode | src/route_error.rs:24-27 | Succeeds with the status exactly when it is a legal three-digit HTTP status. Otherwise the panic outcome. |
| RouteError.ErrorResponse | src/route_error.rs:29-31 | For a legal status, that status and the JSON body. Otherwise the panic. |
| RouteError.FromDb | src/route_error.rs:35-55 | `NoResults` is 404 `not_found`. `QueryFailure` is 500 `internal_error`. Neither has extra info. |
| RouteError.FromValidate | src/route_error.rs:57-67 | 400 `invalid_input`, with extra info that ends in the validation errors' text. |
| RouteError.JsonErrorHandler | src/route_error.rs:70-81 | 400 `incomplete_json`, with extra info that ends in the payload error's text. |
| RouteError.BuiltErrorsNeverPanic | src/route_error.rs:24-81 | Every error this file builds has status 400, 404 or 500, so turning it into a status code never panics. |
| RouteError.FromDbAgreesWithAxumLayer | src/route_error.rs:35-55 | The actix and axum layers give a database error the same status and code. |
| ApiUser.ToDtoUsers | src/api/user.rs:88-92 | Every user is converted, in the same order, with its fields kept. |
| ApiUser.ToDtoTasks | src/api/user.rs:179-180 | Every task is converted, in the same order, keeping its id and its description. |
| ApiUser.GetUsers | src/api/user.rs:75-95 | Succeeds exactly when the service does, and returns its users in order with their fields. A service failure is 500 `internal_error`. |
| ApiUser.CreateUser | src/api/user.rs:98-141 | Invalid input is 400 `invalid_input`, and the service is not called. Valid input calls the service once with the names. `Ok(id)` is 201 with that id. `UserAlreadyExists` is 409 `user_exists`. `PortError` is 500 `internal_error`. |
| ApiUser.CreateUserThroughService | src/api/user.rs:104-140 | Through the real user service: taken names give 409 with no write, free names give 201 with the writer's id, and invalid input gives 400. |
| ApiUser.GetUsersThroughService | src/api/user.rs:88-94 | Through the real user service, the handler returns the reader's users in order. |
| ApiUser.HandleTodoTaskErr | src/api/user.rs:144-163 | `UserDoesNotExist` is 404 `no_matching_user`. `PortError` is the generic 500. Both directions hold for each status. |
| ApiUser.GetTasksForUser | src/api/user.rs:166-185 | The service's tasks in order, converted. A service error is the task-error answer. |
| ApiUser.GetTaskForUser | src/api/user.rs:194-230 | `Ok(Some(t))` gives `t` converted. `Ok(None)` is 404 `no_matching_task`. An error is the task-error answer. |
| ApiUser.MissingUserAndMissingTaskDistinguished | src/api/user.rs:213-226 | A missing task and a missing user are both 404, and the code says which one it was. |
| ApiUser.AddTaskForUser | src/api/user.rs:233-261 | Invalid input is 400 `invalid_input`, and the service is not called. Otherwise one call with the user id and the converted task. `Ok(id)` is 201 with that id. An error is the task-error answer. |
| ApiTodo.UpdateTask | src/api/todo.rs:44-68 | Invalid input is 400 `invalid_input`, and the service is not called. Otherwise exactly one call, with the task id and the description. Success is 200. A failure is 500 `internal_error`. |
| ApiTodo.DeleteTask | src/api/todo.rs:71-89 | Exactly one service call, with the task id. Success is 200. A failure is 500 `internal_error`. |
| ApiTodo.UpdateTaskSucceedsIff | src/api/todo.rs:51-66 | The answer is 200 exactly when the description is non-empty and the service succeeds. The service only ever sees the request's own description. |

## Left out

- One commit per handle: `commit` consumes the handle in Rust, so one handle commits at most once. That is a type-level guarantee, and the model does not state it.
- Lifetimes that stop a connection or transaction handle from outliving its source are not modelled. Handles are opaque values.
- `MockHandle::borrow_connection` is left out. It always panics, because tests have no real database connection.
- Async execution, `Sync` bounds, `RwLock`, `Mutex`, `Arc` and the atomic flag are left out. Everything runs sequentially, and the shared flag is one heap object.
- The `ExternalConnectivity` arguments that the services and ports pass through are not modelled. None of the modelled logic inspects them.
- `MockUserService` and `MockTaskService` are not modelled as classes. The handlers' ports are given by their answers, which is what those mocks return once configured.
- `TaskPort`, `TaskError`, `TaskService`, `domain::Error`, `DrivenPortError` and its `into_error_trying_to`, and the domain `UpdateTask` are not declared in the modelled `src/domain/todo.rs` and `src/domain/mod.rs`. Their shape is taken from how the code uses them.
- `GenericErrorResponse` is not declared in the modelled `src/routing_utils.rs`. It is modelled as 500 `internal_error`, which is what the handler tests expect of it. Its description text is not modelled.
- `i32` ids are unbounded integers, so overflow of the in-memory counters is not modelled. On the same grounds, `users.len() as i32` truncating for more than 2^31 users is not modelled.
- The `u16` status is an unbounded integer. Only `StatusCode::from_u16`'s range check is modelled.
- The text of formatted errors is a parameter, not computed. This covers the display of `ValidationErrors` and JSON payload errors, `BasicError`'s `Display`, and the anyhow error chain. The rendering of `causes` is left out.
- Logging, tracing spans and the `error!`/`info!` calls are not modelled, as they do not affect results.
- Building the axum and actix responses, status constants and the JSON serialization of bodies are left out. Only the status and the body record are modelled.
- The routers and the `Json` extractor wrapper are left out. `JsonRejection` is given by its body text.
- The SQL persistence, the connection pool, OpenAPI schemas, bootstrapping and the integration-test database are not part of this model.
