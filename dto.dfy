/** Request and response DTOs (src/dto.rs, split identically into src/dto/user.rs and
    src/dto/task.rs): their `length` validation rules, the `NewUser` display text and the
    field-copying conversions to and from the domain types. */
module Dto {
  import opened Wrappers
  import opened Validator
  import DomainUser
  import DomainTodo

  /** A user as the API returns it. */
  datatype TodoUser = TodoUser(id: int, firstName: string, lastName: string)

  /** The body of a user creation request. */
  datatype NewUser = NewUser(firstName: string, lastName: string)

  /** The id of a created user. */
  datatype InsertedUser = InsertedUser(id: int)

  /** The body of a task creation request. */
  datatype NewTask = NewTask(itemDesc: string)

  /** A task as the API returns it. */
  datatype TodoTask = TodoTask(id: int, description: string)

  /** The body of a task update request. */
  datatype UpdateTask = UpdateTask(description: string)

  /** The id of a created task. */
  datatype InsertedTask = InsertedTask(id: int)

  const FirstNameMax: nat := 30
  const LastNameMax: nat := 50
  const DescriptionMin: nat := 1

  /** `NewUser::validate`: `first_name` at most 30, `last_name` at most 50 characters. */
  function ValidateNewUser(user: NewUser): (r: Result<(), ValidationErrors>)
    ensures r.Ok? <==> |user.firstName| <= FirstNameMax && |user.lastName| <= LastNameMax
    ensures r.Err? ==>
      && r.error.Keys <= {"first_name", "last_name"}
      && ("first_name" in r.error <==> |user.firstName| > FirstNameMax)
      && ("last_name" in r.error <==> |user.lastName| > LastNameMax)
  {
    Outcome(LengthRule("first_name", user.firstName, None, Some(FirstNameMax))
          + LengthRule("last_name", user.lastName, None, Some(LastNameMax)))
  }

  /** Each name is judged on its own: the issue reported for one field does not depend on
      the other field's value. */
  lemma NewUserFieldsIndependent(a: NewUser, b: NewUser)
    requires ValidateNewUser(a).Err? && ValidateNewUser(b).Err?
    ensures a.firstName == b.firstName ==>
      ("first_name" in ValidateNewUser(a).error <==> "first_name" in ValidateNewUser(b).error)
    ensures a.lastName == b.lastName ==>
      ("last_name" in ValidateNewUser(a).error <==> "last_name" in ValidateNewUser(b).error)
  {
  }

  /** The test `bad_user_data_gets_rejected`, for every pair of names of 35 and 55 characters. */
  lemma BadUserDataGetsRejected(user: NewUser)
    requires |user.firstName| == 35 && |user.lastName| == 55
    ensures ValidateNewUser(user).Err?
    ensures "first_name" in ValidateNewUser(user).error && "last_name" in ValidateNewUser(user).error
  {
  }

  /** `NewUser`'s `Display`: the first name, one space, the last name. */
  function DisplayNewUser(user: NewUser): (text: string)
    ensures |text| == |user.firstName| + 1 + |user.lastName|
    ensures text[..|user.firstName|] == user.firstName
    ensures text[|user.firstName|] == ' '
    ensures text[|user.firstName| + 1..] == user.lastName
  {
    user.firstName + " " + user.lastName
  }

  /** A first name without spaces can be read back from the display text: it is the text
      up to the first space, and the rest is the last name. So the display text tells such
      users apart. */
  lemma DisplayNewUserSplitsAtFirstSpace(a: NewUser, b: NewUser)
    requires ' ' !in a.firstName && ' ' !in b.firstName
    requires DisplayNewUser(a) == DisplayNewUser(b)
    ensures a == b
  {
  }

  /** `From<domain::user::TodoUser> for TodoUser` */
  function TodoUserFromDomain(user: DomainUser.TodoUser): (dto: TodoUser)
    ensures dto.id == user.id && dto.firstName == user.firstName && dto.lastName == user.lastName
  {
    TodoUser(user.id, user.firstName, user.lastName)
  }

  /** No information is lost: the domain user can be rebuilt from its DTO, so distinct users
      give distinct DTOs. */
  lemma TodoUserFromDomainInjective(a: DomainUser.TodoUser, b: DomainUser.TodoUser)
    requires TodoUserFromDomain(a) == TodoUserFromDomain(b)
    ensures a == b
  {
  }

  /** `NewTask::validate`: `item_desc` has at least one character. */
  function ValidateNewTask(task: NewTask): (r: Result<(), ValidationErrors>)
    ensures r.Ok? <==> |task.itemDesc| >= DescriptionMin
    ensures r.Err? ==> r.error.Keys == {"item_desc"}
  {
    Outcome(LengthRule("item_desc", task.itemDesc, Some(DescriptionMin), None))
  }

  /** `UpdateTask::validate`: `description` has at least one character. */
  function ValidateUpdateTask(task: UpdateTask): (r: Result<(), ValidationErrors>)
    ensures r.Ok? <==> |task.description| >= DescriptionMin
    ensures r.Err? ==> r.error.Keys == {"description"}
  {
    Outcome(LengthRule("description", task.description, Some(DescriptionMin), None))
  }

  /** `From<NewTask> for domain::todo::NewTask` */
  function NewTaskIntoDomain(task: NewTask): (domain: DomainTodo.NewTask)
    ensures domain.description == task.itemDesc
  {
    DomainTodo.NewTask(task.itemDesc)
  }

  /** A task the API accepts is one the domain accepts, and the other way round: both rules
      ask for a non-empty description. */
  lemma NewTaskValidationAgreesWithDomain(task: NewTask)
    ensures ValidateNewTask(task).Ok? <==> DomainTodo.ValidateNewTask(NewTaskIntoDomain(task)).Ok?
  {
  }

  /** `From<domain::todo::TodoTask> for TodoTask`: the owner is dropped. */
  function TodoTaskFromDomain(task: DomainTodo.TodoTask): (dto: TodoTask)
    ensures dto.id == task.id && dto.description == task.itemDesc
  {
    TodoTask(task.id, task.itemDesc)
  }

  /** A task created from a request comes back with the id it was stored under and the
      request's text. */
  lemma CreatedTaskRoundTrips(userId: int, taskId: int, task: NewTask)
    ensures TodoTaskFromDomain(DomainTodo.TaskFromCreate(userId, taskId, NewTaskIntoDomain(task)))
            == TodoTask(taskId, task.itemDesc)
  {
  }

  /** `From<UpdateTask> for domain::todo::UpdateTask` */
  function UpdateTaskIntoDomain(task: UpdateTask): (domain: DomainTodo.UpdateTask)
    ensures domain.description == task.description
  {
    DomainTodo.UpdateTask(task.description)
  }

  /** The update conversion loses nothing: distinct requests give distinct domain updates. */
  lemma UpdateTaskIntoDomainInjective(a: UpdateTask, b: UpdateTask)
    requires UpdateTaskIntoDomain(a) == UpdateTaskIntoDomain(b)
    ensures a == b
  {
  }
}
