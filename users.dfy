/** The user controller: listing, profile lookup, the authenticated "me"
    lookup, registration, login and the two profile updates. */
module Users {
  import opened Wrappers
  import opened Domain
  import opened Errors
  import opened Auth
  import opened Http

  const NoAccessMessage: string := "Нет доступа"
  const NoUser := TypedError(NotFound, "Нет пользователя с таким id")
  const InvalidId := TypedError(BadRequest, "Невалидный id")
  const AccessDenied := TypedError(Forbidden, "Доступ запрещен")
  const InvalidSignup := TypedError(BadRequest, "Данные не прошли валидацию")
  const EmailTaken := TypedError(Conflict, "Такой емейл уже зарегистрирован")
  const LoginFailed := TypedError(Unauthorized, "Не удалось авторизироваться")
  const InvalidProfile := TypedError(BadRequest, "Невалидные данные")

  /** The stored record under `id`, or null. */
  function Lookup(users: map<UserId, User>, id: UserId): (u: Option<User>)
    ensures u.Some? <==> id in users
    ensures u.Some? ==> u.value == users[id]
  {
    if id in users then Some(users[id]) else None
  }

  /** getUsers: the listing is sent as it was found; a failure is passed on unchanged. */
  function GetUsers(found: Result<seq<User>, DbError>): (acts: seq<Action>)
    ensures |acts| == 1
    ensures found.Ok? ==> acts[0] == Send(200, UserList(found.value))
    ensures found.Err? ==> acts[0] == NextRaw(found.error)
  {
    match found
    case Ok(list) => [Send(200, UserList(list))]
    case Err(e) => [NextRaw(e)]
  }

  /** getProfile's catch block: a CastError becomes BadRequest, anything else
      is rethrown as it is. */
  function ProfileFailure(e: DbError): (a: Action)
    ensures a == Next(InvalidId) <==> IsCast(e)
    ensures !IsCast(e) ==> a == NextRaw(e)
  {
    if IsCast(e) then Next(InvalidId) else NextRaw(e)
  }

  /** getProfile: one action, a 200 with the record exactly when the lookup
      succeeds and finds it; a missing record is NotFound, which the catch
      block rethrows untouched. */
  function GetProfile(users: map<UserId, User>, userId: UserId, fault: Option<DbError>): (acts: seq<Action>)
    ensures |acts| == 1
    ensures acts[0].Send? <==> fault.None? && userId in users
    ensures acts[0].Send? ==> acts[0] == Send(200, UserData(Some(users[userId])))
    ensures fault.None? && userId !in users ==> acts[0] == Next(NoUser)
    ensures fault.Some? ==> acts[0] == ProfileFailure(fault.value)
  {
    match fault
    case Some(e) => [ProfileFailure(e)]
    case None =>
      if userId in users then [Send(200, UserData(Some(users[userId])))]
      else [Next(NoUser)]
  }

  /** The lookup half of getMe, keyed by the identity already attached to
      the request: a missing record is reported with `next` and the 200
      response with a null user is still sent after it. */
  function MeLookup(actor: UserId, users: map<UserId, User>, fault: Option<DbError>): (acts: seq<Action>)
    ensures fault.Some? ==> acts == [NextRaw(fault.value)]
    ensures fault.None? ==> acts != [] && acts[|acts| - 1] == Send(200, UserData(Lookup(users, actor)))
    ensures fault.None? ==>
      acts == (if actor in users then [] else [Next(NoUser)]) + [Send(200, UserData(Lookup(users, actor)))]
    ensures Next(NoUser) in acts <==> fault.None? && actor !in users
    ensures Next(NoUser) in acts ==> acts[0] == Next(NoUser)
    ensures forall a :: a in acts ==> a.Send? ==> a.status == 200
  {
    match fault
    case Some(e) => [NextRaw(e)]
    case None =>
      if actor !in users then [Next(NoUser), Send(200, UserData(None))]
      else [Send(200, UserData(Some(users[actor])))]
  }

  /** getMe: a missing or non-"Bearer " header is answered 401 and nothing
      else happens; a token that fails verification is Forbidden, never 401;
      a verified token leads to the lookup of the attached identity, whatever
      the token's own claim. */
  function GetMe(
    header: Option<string>, env: Env, verify: (string, Option<string>) -> bool,
    actor: UserId, users: map<UserId, User>, fault: Option<DbError>): (acts: seq<Action>)
    ensures !HasBearer(header) <==> acts == [Send(401, Message(NoAccessMessage))]
    ensures HasBearer(header) ==>
      var token := header.value[|BearerPrefix|..];
      && (!verify(token, env.jwtSecret) ==> acts == [Next(AccessDenied)])
      && (verify(token, env.jwtSecret) ==> acts == MeLookup(actor, users, fault))
  {
    match BearerGate(header, env, verify)
    case NoAccess => [Send(401, Message(NoAccessMessage))]
    case Denied => [Next(AccessDenied)]
    case Admitted(_) => MeLookup(actor, users, fault)
  }

  /** The registration form: the five body fields. */
  datatype Signup = Signup(name: string, about: string, avatar: string, email: string, password: string)

  /** createUser's catch block: validation and cast failures are BadRequest;
      an error named MongoError, or whose code is the STRING "11000", is
      Conflict; anything else falls out of the block and is dropped. */
  function SignupFailure(e: DbError): (t: Option<TypedError>)
    ensures t == Some(InvalidSignup) <==> IsValidation(e) || IsCast(e)
    ensures t == Some(EmailTaken) <==>
      !IsValidation(e) && !IsCast(e) && (e.name == "MongoError" || e.code == StrCode("11000"))
    ensures t.None? || t == Some(InvalidSignup) || t == Some(EmailTaken)
  {
    if IsValidation(e) || IsCast(e) then Some(InvalidSignup)
    else if e.name == "MongoError" || e.code == StrCode("11000") then Some(EmailTaken)
    else None
  }

  /** createUser: on success exactly one record is added under the new id,
      holding the hash rather than the plaintext, and only the email is sent
      back; a failure of hashing or of the insert leaves the store as it was. */
  function CreateUserStep(
    users: map<UserId, User>, newId: UserId, form: Signup,
    hashed: Result<string, DbError>, fault: Option<DbError>): (r: Step<map<UserId, User>>)
    requires newId !in users
    ensures UsersKeyed(users) ==> UsersKeyed(r.store)
    ensures r.store != users <==> hashed.Ok? && fault.None?
    ensures hashed.Ok? && fault.None? ==>
      && r.store.Keys == users.Keys + {newId}
      && (forall k :: k in users ==> r.store[k] == users[k])
      && r.store[newId] == User(newId, form.name, form.about, form.avatar, form.email, hashed.value)
      && r.actions == [Send(200, Mail(form.email))]
    ensures hashed.Err? ==> r.actions == Forward(SignupFailure(hashed.error))
    ensures hashed.Ok? && fault.Some? ==> r.actions == Forward(SignupFailure(fault.value))
  {
    match hashed
    case Err(e) => Step(users, Forward(SignupFailure(e)))
    case Ok(hash) =>
      match fault
      case Some(e) => Step(users, Forward(SignupFailure(e)))
      case None =>
        var user := User(newId, form.name, form.about, form.avatar, form.email, hash);
        assert newId in users[newId := user];
        Step(users[newId := user], [Send(200, Mail(user.email))])
  }

  /** login: a found user gets a 7-day token for its id, signed with the
      environment's signing secret, sent as `{jwt}`; every failure, of the
      credential check or of signing, is the same Unauthorized error. */
  function Login(env: Env, found: Result<User, DbError>): (acts: seq<Action>)
    ensures |acts| == 1
    ensures acts[0].Send? <==> found.Ok? && Sign(found.value.id, SigningSecret(env)).Some?
    ensures acts[0].Send? ==>
      acts[0] == Send(200, Jwt(Token(found.value.id, SigningSecret(env).value, Validity)))
    ensures !acts[0].Send? ==> acts[0] == Next(LoginFailed)
  {
    match found
    case Err(_) => [Next(LoginFailed)]
    case Ok(user) =>
      match Sign(user.id, SigningSecret(env))
      case None => [Next(LoginFailed)]
      case Some(token) => [Send(200, Jwt(token))]
  }

  /** updateProfile's catch block: only a CastError is reported; every other
      error, a ValidationError included, is dropped. */
  function ProfileUpdateFailure(e: DbError): (t: Option<TypedError>)
    ensures t.Some? <==> IsCast(e)
    ensures t.Some? ==> t.value == InvalidProfile
  {
    if IsCast(e) then Some(InvalidProfile) else None
  }

  /** updateProfile: only `name` and `about` of the caller's own record
      change; a missing record is reported with `next` and a 200 with a null
      document still follows. */
  function UpdateProfileStep(
    users: map<UserId, User>, actor: UserId, name: string, about: string,
    fault: Option<DbError>): (r: Step<map<UserId, User>>)
    ensures UsersKeyed(users) ==> UsersKeyed(r.store)
    ensures r.store.Keys == users.Keys
    ensures forall k :: k in users && k != actor ==> r.store[k] == users[k]
    ensures actor in users ==>
      r.store[actor] == if fault.None? then users[actor].(name := name, about := about) else users[actor]
    ensures fault.Some? ==> r.actions == Forward(ProfileUpdateFailure(fault.value))
    ensures fault.None? ==>
      r.actions == (if actor in users then [] else [Next(NoUser)]) + [Send(200, UserDoc(Lookup(r.store, actor)))]
  {
    match fault
    case Some(e) => Step(users, Forward(ProfileUpdateFailure(e)))
    case None =>
      if actor !in users then Step(users, [Next(NoUser), Send(200, UserDoc(None))])
      else
        var updated := users[actor].(name := name, about := about);
        Step(users[actor := updated], [Send(200, UserDoc(Some(updated)))])
  }

  /** updateAvatar: only `avatar` of the caller's own record changes; errors
      are passed on unchanged; a missing record is reported with `next` and a
      200 with a null document still follows. */
  function UpdateAvatarStep(
    users: map<UserId, User>, actor: UserId, avatar: string,
    fault: Option<DbError>): (r: Step<map<UserId, User>>)
    ensures UsersKeyed(users) ==> UsersKeyed(r.store)
    ensures r.store.Keys == users.Keys
    ensures forall k :: k in users && k != actor ==> r.store[k] == users[k]
    ensures actor in users ==>
      r.store[actor] == if fault.None? then users[actor].(avatar := avatar) else users[actor]
    ensures fault.Some? ==> r.actions == [NextRaw(fault.value)]
    ensures fault.None? ==>
      r.actions == (if actor in users then [] else [Next(NoUser)]) + [Send(200, UserDoc(Lookup(r.store, actor)))]
  {
    match fault
    case Some(e) => Step(users, [NextRaw(e)])
    case None =>
      if actor !in users then Step(users, [Next(NoUser), Send(200, UserDoc(None))])
      else
        var updated := users[actor].(avatar := avatar);
        Step(users[actor := updated], [Send(200, UserDoc(Some(updated)))])
  }

  /** The user collection the controller writes to. */
  class UserStore {
    var users: map<UserId, User>

    ghost predicate Valid()
      reads this
    {
      UsersKeyed(users)
    }

    constructor ()
      ensures Valid() && users == map[]
    {
      users := map[];
    }

    method CreateUser(newId: UserId, form: Signup, hashed: Result<string, DbError>, fault: Option<DbError>)
      returns (acts: seq<Action>)
      requires Valid() && newId !in users
      modifies this
      ensures Valid()
      ensures Step(users, acts) == CreateUserStep(old(users), newId, form, hashed, fault)
    {
      if hashed.Err? {
        acts := Forward(SignupFailure(hashed.error));
      } else if fault.Some? {
        acts := Forward(SignupFailure(fault.value));
      } else {
        var user := User(newId, form.name, form.about, form.avatar, form.email, hashed.value);
        users := users[newId := user];
        acts := [Send(200, Mail(user.email))];
      }
    }

    method UpdateProfile(actor: UserId, name: string, about: string, fault: Option<DbError>)
      returns (acts: seq<Action>)
      requires Valid()
      modifies this
      ensures Valid()
      ensures Step(users, acts) == UpdateProfileStep(old(users), actor, name, about, fault)
    {
      if fault.Some? {
        acts := Forward(ProfileUpdateFailure(fault.value));
        return;
      }
      if actor !in users {
        acts := [Next(NoUser), Send(200, UserDoc(None))];
      } else {
        var updated := users[actor].(name := name, about := about);
        users := users[actor := updated];
        acts := [Send(200, UserDoc(Some(updated)))];
      }
    }

    method UpdateAvatar(actor: UserId, avatar: string, fault: Option<DbError>)
      returns (acts: seq<Action>)
      requires Valid()
      modifies this
      ensures Valid()
      ensures Step(users, acts) == UpdateAvatarStep(old(users), actor, avatar, fault)
    {
      if fault.Some? {
        acts := [NextRaw(fault.value)];
        return;
      }
      if actor !in users {
        acts := [Next(NoUser), Send(200, UserDoc(None))];
      } else {
        var updated := users[actor].(avatar := avatar);
        users := users[actor := updated];
        acts := [Send(200, UserDoc(Some(updated)))];
      }
    }
  }
}
