/** User business logic (src/domain/user.rs): the existence check shared with the task
    logic, the user service, and the in-memory user store the tests use in place of the
    database. The driven ports (`UserReader`, `UserWriter`, `DetectUser`) are given as
    the answers they return; `ExternalConnectivity` arguments are not modelled. */
module DomainUser {
  import opened Wrappers
  import Anyhow
  import opened DomainTestUtil

  /** A user who can own to-do items. */
  datatype TodoUser = TodoUser(id: int, firstName: string, lastName: string)

  /** What is needed to create a user. */
  datatype CreateUser = CreateUser(firstName: string, lastName: string)

  /** A user's identifying names, as passed to `user_with_name_exists`. */
  datatype UserDescription = UserDescription(firstName: string, lastName: string)

  /** `DetectUser`: whether a user with an id, or with a pair of names, exists. */
  datatype DetectUser = DetectUser(
    userExists: int -> Result<bool, Anyhow.Error>,
    userWithNameExists: UserDescription -> Result<bool, Anyhow.Error>)

  /** `UserWriter`: creating a user gives its id. */
  datatype UserWriter = UserWriter(createUser: CreateUser -> Result<int, Anyhow.Error>)

  /** The port calls `create_user` makes. */
  datatype PortCall = UserWithNameExistsCall(description: UserDescription) | CreateUserCall(user: CreateUser)

  /** `UserExistsErr` */
  datatype UserExistsErr = UserDoesNotExist(id: int) | PortError(cause: Anyhow.Error)

  /** `CreateUserError` */
  datatype CreateUserError = UserAlreadyExists | PortError(cause: Anyhow.Error)

  const FetchUsersContext: string := "Failed fetching users"
  const LookupContext: string := "Looking up user during creation"
  const WriteContext: string := "Trying to create user at service level"

  /** `verify_user_exists`: asks the detector about `id` and turns a negative answer
      into `UserDoesNotExist(id)`. */
  function VerifyUserExists(id: int, detect: DetectUser): (r: Result<(), UserExistsErr>)
    ensures r.Ok? <==> detect.userExists(id) == Ok(true)
    ensures detect.userExists(id) == Ok(false) ==> r == Err(UserDoesNotExist(id))
    ensures detect.userExists(id).Err? ==> r == Err(UserExistsErr.PortError(detect.userExists(id).error))
  {
    match detect.userExists(id)
    case Err(e) => Err(UserExistsErr.PortError(e))
    case Ok(doesUserExist) => if doesUserExist then Ok(()) else Err(UserDoesNotExist(id))
  }

  /** `UserService::get_users`: the reader's list is passed through unchanged; an error
      stays an error, wrapped in a context message. */
  function UserServiceGetUsers(allUsers: Result<seq<TodoUser>, Anyhow.Error>): (r: Result<seq<TodoUser>, Anyhow.Error>)
    ensures r.Ok? <==> allUsers.Ok?
    ensures allUsers.Ok? ==> r.value == allUsers.value
    ensures allUsers.Err? ==>
      Anyhow.Display(r.error) == FetchUsersContext &&
      |r.error.causes| > 0 && r.error.causes[0] == Anyhow.Display(allUsers.error)
  {
    match allUsers
    case Ok(users) => Ok(users)
    case Err(e) => Err(Anyhow.Context(e, FetchUsersContext))
  }

  /** `UserService::create_user`: refuses a user whose first and last names are both
      taken, before any write; otherwise the writer's id. */
  function UserServiceCreateUser(newUser: CreateUser, writer: UserWriter, detect: DetectUser): (t: Traced<Result<int, CreateUserError>, PortCall>)
    ensures
      var description := UserDescription(newUser.firstName, newUser.lastName);
      var lookup := detect.userWithNameExists(description);
      && |t.calls| >= 1 && t.calls[0] == UserWithNameExistsCall(description)
      // the writer is called exactly when the lookup said the names are free
      && (CreateUserCall(newUser) in t.calls <==> lookup == Ok(false))
      && (lookup == Ok(true) ==> t.result == Err(UserAlreadyExists) && t.calls == [UserWithNameExistsCall(description)])
      && (lookup.Err? ==>
            t.result == Err(CreateUserError.PortError(Anyhow.Context(lookup.error, LookupContext))) &&
            t.calls == [UserWithNameExistsCall(description)])
      && (lookup == Ok(false) ==>
            t.calls == [UserWithNameExistsCall(description), CreateUserCall(newUser)] &&
            (writer.createUser(newUser).Ok? ==> t.result == Ok(writer.createUser(newUser).value)) &&
            (writer.createUser(newUser).Err? ==>
               t.result == Err(CreateUserError.PortError(Anyhow.Context(writer.createUser(newUser).error, WriteContext)))))
  {
    var description := UserDescription(newUser.firstName, newUser.lastName);
    var lookedUp := [UserWithNameExistsCall(description)];
    match detect.userWithNameExists(description)
    case Err(e) => Traced(Err(CreateUserError.PortError(Anyhow.Context(e, LookupContext))), lookedUp)
    case Ok(userExists) =>
      if userExists then Traced(Err(UserAlreadyExists), lookedUp)
      else
        var written := lookedUp + [CreateUserCall(newUser)];
        match writer.createUser(newUser)
        case Ok(id) => Traced(Ok(id), written)
        case Err(e) => Traced(Err(CreateUserError.PortError(Anyhow.Context(e, WriteContext))), written)
  }

  /** The users `new_with_users` stores: the `k`-th given user (from 0) gets id
      `offset + k + 1` and keeps its names. */
  function Enumerated(users: seq<CreateUser>, offset: int): (r: seq<TodoUser>)
    ensures |r| == |users|
    ensures forall k :: 0 <= k < |users| ==>
      r[k].id == offset + k + 1 && r[k].firstName == users[k].firstName && r[k].lastName == users[k].lastName
  {
    if users == [] then []
    else [TodoUser(offset + 1, users[0].firstName, users[0].lastName)] + Enumerated(users[1..], offset + 1)
  }

  /** `created_users.iter().find(|user| user.id == id)`: the first user with that id. */
  function FindById(users: seq<TodoUser>, id: int): (found: Option<TodoUser>)
    ensures found.None? <==> forall k :: 0 <= k < |users| ==> users[k].id != id
    ensures found.Some? ==>
      exists k :: 0 <= k < |users| && users[k] == found.value && users[k].id == id &&
                  forall j :: 0 <= j < k ==> users[j].id != id
  {
    if users == [] then None
    else if users[0].id == id then Some(users[0])
    else
      var rest := FindById(users[1..], id);
      assert rest.Some? ==> exists k :: 1 <= k < |users| && users[k] == rest.value && users[k].id == id &&
                                       forall j :: 0 <= j < k ==> users[j].id != id by {
        if rest.Some? {
          var k :| 0 <= k < |users[1..]| && users[1..][k] == rest.value && users[1..][k].id == id &&
                   forall j :: 0 <= j < k ==> users[1..][j].id != id;
          assert users[k + 1] == rest.value && forall j :: 1 <= j < k + 1 ==> users[j].id != id by {
            forall j | 1 <= j < k + 1 ensures users[j].id != id {
              assert users[j] == users[1..][j - 1];
            }
          }
        }
      }
      rest
  }

  /** `created_users.iter().any(|user| user.id == id)` */
  function AnyWithId(users: seq<TodoUser>, id: int): (r: bool)
    ensures r <==> exists k :: 0 <= k < |users| && users[k].id == id
  {
    if users == [] then false
    else users[0].id == id || AnyWithId(users[1..], id)
  }

  /** `created_users.iter().any(..)` over both names */
  function AnyWithName(users: seq<TodoUser>, description: UserDescription): (r: bool)
    ensures r <==> exists k :: 0 <= k < |users| &&
                    users[k].firstName == description.firstName && users[k].lastName == description.lastName
  {
    if users == [] then false
    else (users[0].firstName == description.firstName && users[0].lastName == description.lastName)
         || AnyWithName(users[1..], description)
  }

  /** With ids that increase along the store, the user appended with a larger id is the
      one `by_id` finds for that id. */
  lemma {:induction false} AppendedUserIsFound(users: seq<TodoUser>, user: TodoUser)
    requires forall k :: 0 <= k < |users| ==> users[k].id < user.id
    ensures FindById(users + [user], user.id) == Some(user)
  {
    if users != [] {
      assert (users + [user])[1..] == users[1..] + [user];
      AppendedUserIsFound(users[1..], user);
    }
  }

  /** `InMemoryUserPersistence`, with the driven-port implementations the tests use.
      The `RwLock` around it is not modelled. */
  class InMemoryUserPersistence {
    var highestUserId: int
    var createdUsers: seq<TodoUser>
    var connectivity: Connectivity

    /** Ids are positive, at most `highestUserId` and strictly increasing in store order. */
    ghost predicate Valid()
      reads this
    {
      && highestUserId >= 0
      && (forall k :: 0 <= k < |createdUsers| ==> 1 <= createdUsers[k].id <= highestUserId)
      && (forall j, k :: 0 <= j < k < |createdUsers| ==> createdUsers[j].id < createdUsers[k].id)
    }

    /** `new`: empty, connected. */
    constructor ()
      ensures highestUserId == 0 && createdUsers == [] && connectivity == Connected
      ensures Valid()
    {
      highestUserId := 0;
      createdUsers := [];
      connectivity := Connected;
    }

    /** `new_with_users`: ids 1..n in the given order, names copied, `highestUserId == n`. */
    constructor WithUsers(users: seq<CreateUser>)
      ensures highestUserId == |users| && connectivity == Connected
      ensures |createdUsers| == |users|
      ensures forall k :: 0 <= k < |users| ==>
        createdUsers[k] == TodoUser(k + 1, users[k].firstName, users[k].lastName)
      ensures Valid()
    {
      highestUserId := |users|;
      createdUsers := Enumerated(users, 0);
      connectivity := Connected;
    }

    /** `UserWriter::create_user`. Disconnected: an error, nothing changes. Connected:
        the next id, one appended user with that id and the given names, and the id. */
    method CreateUser(user: CreateUser) returns (r: Result<int, Anyhow.Error>)
      modifies this
      ensures connectivity == old(connectivity)
      ensures old(connectivity).Disconnected? ==>
        r == Err(Anyhow.Msg(DisconnectedMessage)) &&
        createdUsers == old(createdUsers) && highestUserId == old(highestUserId)
      ensures old(connectivity).Connected? ==>
        highestUserId == old(highestUserId) + 1 && r == Ok(highestUserId) &&
        createdUsers == old(createdUsers) + [TodoUser(highestUserId, user.firstName, user.lastName)]
      ensures old(Valid()) ==> Valid()
    {
      var connected := BlowUpIfDisconnected(connectivity);
      if connected.Err? {
        return Err(connected.error);
      }
      highestUserId := highestUserId + 1;
      var id := highestUserId;
      createdUsers := createdUsers + [TodoUser(id, user.firstName, user.lastName)];
      r := Ok(highestUserId);
    }

    /** `UserReader::all`: every stored user, in store order. */
    function All(): (r: Result<seq<TodoUser>, Anyhow.Error>)
      reads this
      ensures connectivity.Disconnected? ==> r == Err(Anyhow.Msg(DisconnectedMessage))
      ensures connectivity.Connected? ==> r == Ok(createdUsers)
    {
      match BlowUpIfDisconnected(connectivity)
      case Err(e) => Err(e)
      case Ok(_) => Ok(createdUsers)
    }

    /** `UserReader::by_id`: the first stored user with the id, if any. */
    function ById(id: int): (r: Result<Option<TodoUser>, Anyhow.Error>)
      reads this
      ensures connectivity.Disconnected? ==> r == Err(Anyhow.Msg(DisconnectedMessage))
      ensures connectivity.Connected? ==> r.Ok? && (r.value.None? <==> !AnyWithId(createdUsers, id))
      ensures connectivity.Connected? && r.value.Some? ==>
        exists k :: 0 <= k < |createdUsers| && createdUsers[k] == r.value.value && createdUsers[k].id == id &&
                    forall j :: 0 <= j < k ==> createdUsers[j].id != id
    {
      match BlowUpIfDisconnected(connectivity)
      case Err(e) => Err(e)
      case Ok(_) => Ok(FindById(createdUsers, id))
    }

    /** `DetectUser::user_exists`: whether some stored user has the id. */
    function UserExists(id: int): (r: Result<bool, Anyhow.Error>)
      reads this
      ensures connectivity.Disconnected? ==> r == Err(Anyhow.Msg(DisconnectedMessage))
      ensures connectivity.Connected? ==>
        r.Ok? && (r.value <==> exists k :: 0 <= k < |createdUsers| && createdUsers[k].id == id)
    {
      match BlowUpIfDisconnected(connectivity)
      case Err(e) => Err(e)
      case Ok(_) => Ok(AnyWithId(createdUsers, id))
    }

    /** `DetectUser::user_with_name_exists`: whether some stored user has both names. */
    function UserWithNameExists(description: UserDescription): (r: Result<bool, Anyhow.Error>)
      reads this
      ensures connectivity.Disconnected? ==> r == Err(Anyhow.Msg(DisconnectedMessage))
      ensures connectivity.Connected? ==>
        r.Ok? && (r.value <==> (exists k :: 0 <= k < |createdUsers| &&
                                  createdUsers[k].firstName == description.firstName &&
                                  createdUsers[k].lastName == description.lastName))
    {
      match BlowUpIfDisconnected(connectivity)
      case Err(e) => Err(e)
      case Ok(_) => Ok(AnyWithName(createdUsers, description))
    }
  }

  /** After a connected `create_user`, `by_id` of the returned id finds the new user. */
  method CreatedUserCanBeFound(store: InMemoryUserPersistence, user: CreateUser) returns (id: int)
    requires store.Valid() && store.connectivity.Connected?
    modifies store
    ensures store.ById(id) == Ok(Some(TodoUser(id, user.firstName, user.lastName)))
  {
    var r := store.CreateUser(user);
    id := r.value;
    AppendedUserIsFound(old(store.createdUsers), TodoUser(id, user.firstName, user.lastName));
  }

  /** The test `fails_if_user_already_exists`, with the store answering as detector:
      the service's result and the port calls it made. */
  method FailsIfUserAlreadyExists() returns (t: Traced<Result<int, CreateUserError>, PortCall>)
    ensures t.result == Err(UserAlreadyExists)
    ensures CreateUserCall(CreateUser("Evan", "Rittenhouse")) !in t.calls
  {
    var evan := CreateUser("Evan", "Rittenhouse");
    var store := new InMemoryUserPersistence.WithUsers([evan]);
    var nameAnswer := store.UserWithNameExists(UserDescription("Evan", "Rittenhouse"));
    assert store.createdUsers[0] == TodoUser(1, "Evan", "Rittenhouse");
    var detect := DetectUser(_ => Ok(false), _ => nameAnswer);
    var writer := UserWriter(_ => Ok(2));
    t := UserServiceCreateUser(evan, writer, detect);
  }
}
