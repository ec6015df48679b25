/** The handlers of src/api/route/userRoute.ts. bcrypt's compare and hash and
    the JWT signer enter as functions: `matches(password, hash)`,
    `hash(password)` and `sign(id)`. Lookups that only read are functions of
    the user map; the routes that write are methods on the table. */
module UserRoute {
  import opened Common
  import opened Zod
  import opened Records
  import opened Util
  import opened UserValidator
  import opened UserController
  import opened Http

  const UserNotFound := "User not found"
  const WrongPassword := "Wrong password"
  const NoIdProvided := "No id provided"
  const EmailExists := "Email already exists"
  const PasswordChanged := "Password changed"
  const SomethingWrong := "Something went wrong"
  const NoUserFound := "No user found"
  const UserDeleted := "User deleted"

  /** POST /login, open to everyone: 406 with the issues for a malformed body,
      404 for an unknown e-mail, 401 for a wrong password, otherwise a token for
      the user's id and the user's public fields. */
  function Login(users: map<Id, User>, body: Json, isEmail: string -> bool,
                 matches: (string, string) -> bool, sign: Id -> string): (resp: Response)
    requires KeyedById(users) && EmailsUnique(users)
    ensures !UserLogin(body, isEmail) <==> resp == Response(406, ZodFailure(UserLoginIssues(body, isEmail)))
    ensures UserLogin(body, isEmail) ==>
      var email := Field(body.fields, "email").value.s;
      var password := Field(body.fields, "password").value.s;
      && (!EmailTaken(users, email) <==> resp == Response(404, Text(UserNotFound)))
      && (EmailTaken(users, email) ==>
            exists id | id in users && users[id].email == email ::
              if matches(password, users[id].passwordHash)
              then resp == Response(200, Session(sign(id), Public(users[id])))
              else resp == Response(401, Message(WrongPassword)))
  {
    match ParseUserLogin(body, isEmail)
    case Failure(issues) => Response(406, ZodFailure(issues))
    case Success(data) =>
      match GetUserByEmail(users, data.email)
      case None => Response(404, Text(UserNotFound))
      case Some(user) =>
        if matches(data.password, user.passwordHash)
        then Response(200, Session(sign(user.id), Public(user)))
        else Response(401, Message(WrongPassword))
  }

  /** A login answer never carries a password hash: a successful one holds
      only the public fields of the user the e-mail belongs to. */
  lemma {:induction false} LoginRevealsNoHash(users: map<Id, User>, body: Json, isEmail: string -> bool,
                                              matches: (string, string) -> bool, sign: Id -> string)
    requires KeyedById(users) && EmailsUnique(users)
    requires Login(users, body, isEmail, matches, sign).Response?
    requires Login(users, body, isEmail, matches, sign).status == 200
    ensures var resp := Login(users, body, isEmail, matches, sign);
            && resp.body.Session?
            && exists id | id in users :: resp.body.publicUser == Public(users[id])
                                        && matches(Field(body.fields, "password").value.s, users[id].passwordHash)
  {
    var resp := Login(users, body, isEmail, matches, sign);
    assert UserLogin(body, isEmail);
    var email := Field(body.fields, "email").value.s;
    assert EmailTaken(users, email);
    var id :| id in users && users[id].email == email &&
      if matches(Field(body.fields, "password").value.s, users[id].passwordHash)
      then resp == Response(200, Session(sign(id), Public(users[id])))
      else resp == Response(401, Message(WrongPassword));
  }

  /** The lookup answer of GET / and GET /getUser/:id: the whole stored record
      (getUser drops the projection the route asks for), or 404. */
  function UserAnswer(users: map<Id, User>, id: Id): (resp: Response)
    ensures id in users ==> resp == Response(200, WholeUser(users[id]))
    ensures id !in users <==> resp == Response(404, Message(UserNotFound))
  {
    match GetUser(users, id)
    case None => Response(404, Message(UserNotFound))
    case Some(user) => Response(200, WholeUser(user))
  }

  /** GET /: the caller's own record. */
  function Me(users: map<Id, User>, auth: Option<Principal>): (resp: Response)
    ensures auth.None? ==> resp == Response(401, Text(Unauthorized))
    ensures auth.Some? && auth.value.id in users ==> resp == Response(200, WholeUser(users[auth.value.id]))
    ensures auth.Some? && auth.value.id !in users ==> resp == Response(404, Message(UserNotFound))
  {
    match Guard(auth, [LoggedInGate])
    case Some(rejected) => rejected
    case None => UserAnswer(users, auth.value.id)
  }

  /** GET /getUser/:id: any logged-in caller may read any user's record,
      password hash included. */
  function GetUserById(users: map<Id, User>, auth: Option<Principal>, id: string): (resp: Response)
    ensures auth.None? ==> resp == Response(401, Text(Unauthorized))
    ensures auth.Some? && id == "" ==> resp == Response(400, Message(NoIdProvided))
    ensures auth.Some? && id != "" && id in users ==>
      resp == Response(200, WholeUser(users[id])) && resp.body.user.passwordHash == users[id].passwordHash
    ensures auth.Some? && id != "" && id !in users ==> resp == Response(404, Message(UserNotFound))
  {
    match Guard(auth, [])
    case Some(rejected) => rejected
    case None =>
      if id == "" then Response(400, Message(NoIdProvided)) else UserAnswer(users, id)
  }

  /** GET /getRole: the caller's stored role. */
  function GetRole(users: map<Id, User>, auth: Option<Principal>): (resp: Response)
    ensures auth.None? ==> resp == Response(401, Text(Unauthorized))
    ensures auth.Some? && auth.value.id in users ==> resp == Response(200, RoleOf(users[auth.value.id].role))
    ensures auth.Some? && auth.value.id !in users ==> resp == Response(404, Message(UserNotFound))
  {
    match Guard(auth, [LoggedInGate])
    case Some(rejected) => rejected
    case None =>
      match GetUser(users, auth.value.id)
      case None => Response(404, Message(UserNotFound))
      case Some(user) => Response(200, RoleOf(user.role))
  }

  /** The try/catch of POST /create: 201 with the new user's public fields and
      a token, 400 for a duplicate e-mail; any other error is caught and
      nothing is sent. */
  function CreateOutcome(r: Result<User, StoreError>, sign: Id -> string): (resp: Response)
    ensures r.Ok? <==> resp.Response? && resp.status == 201
    ensures r.Ok? ==> resp == Response(201, Session(sign(r.value.id), Public(r.value)))
    ensures r.Err? && r.error.code == Some(DuplicateKeyCode) <==> resp == Response(400, Message(EmailExists))
    ensures r.Err? && r.error.code != Some(DuplicateKeyCode) <==> resp == NoResponse
  {
    match r
    case Ok(created) => Response(201, Session(sign(created.id), Public(created)))
    case Err(e) => if e.code == Some(DuplicateKeyCode) then Response(400, Message(EmailExists)) else NoResponse
  }

  /** POST /create, for admins and managers: creates a user with the hashed
      password. The role is always the default, whoever creates the user. */
  method Create(table: UserTable, auth: Option<Principal>, body: Json, isEmail: string -> bool,
                hash: string -> string, sign: Id -> string, newId: Id)
    returns (resp: Response)
    requires table.Valid() && newId !in table.users
    modifies table
    ensures table.Valid()
    ensures Guard(auth, [LoggedInGate, ManagerGate]).Some? ==>
      resp == Guard(auth, [LoggedInGate, ManagerGate]).value && table.users == old(table.users)
    ensures Guard(auth, [LoggedInGate, ManagerGate]).None? && !UserCreate(body, isEmail) ==>
      resp == Response(406, ZodFailure(UserCreateIssues(body, isEmail))) && table.users == old(table.users)
    ensures Guard(auth, [LoggedInGate, ManagerGate]).None? && UserCreate(body, isEmail) ==>
      var email := Field(body.fields, "email").value.s;
      var passwordHash := hash(Field(body.fields, "password").value.s);
      && (email == "" || passwordHash == "" ==> resp == NoResponse && table.users == old(table.users))
      && (email != "" && passwordHash != "" && EmailTaken(old(table.users), email) ==>
            resp == Response(400, Message(EmailExists)) && table.users == old(table.users))
      && (email != "" && passwordHash != "" && !EmailTaken(old(table.users), email) ==>
            && newId in table.users
            && table.users == old(table.users)[newId := table.users[newId]]
            && table.users[newId] == NewUser(newId, Field(body.fields, "name").value.s, email, passwordHash)
            && resp == Response(201, Session(sign(newId), Public(table.users[newId]))))
  {
    var gate := Guard(auth, [LoggedInGate, ManagerGate]);
    if gate.Some? {
      return gate.value;
    }
    var schema := ParseUserCreate(body, isEmail);
    if schema.Failure? {
      return Response(406, ZodFailure(schema.issues));
    }
    var data := schema.data;
    var passwordHash := hash(data.password);
    var created := table.CreateUser(data.name, data.email, passwordHash, newId);
    resp := CreateOutcome(created, sign);
  }

  /** POST /changePassword: 400 with the issue map for a malformed body, 404
      for a missing user, 401 when the old password does not match; otherwise
      the stored hash becomes the hash of the new password. */
  method ChangePassword(table: UserTable, auth: Option<Principal>, body: Json,
                        matches: (string, string) -> bool, hash: string -> string)
    returns (resp: Response)
    requires table.Valid()
    modifies table
    ensures table.Valid()
    ensures auth.None? ==> resp == Response(401, Text(Unauthorized)) && table.users == old(table.users)
    ensures auth.Some? && !UserPassSchema(body) ==>
      resp == Response(400, ErrorField(ErrorMap(UserPassIssues(body)))) && table.users == old(table.users)
    ensures auth.Some? && UserPassSchema(body) ==>
      var id := auth.value.id;
      var password := Field(body.fields, "password").value.s;
      var oldpassword := Field(body.fields, "oldpassword").value.s;
      && (id !in old(table.users) ==> resp == Response(404, Message(UserNotFound)) && table.users == old(table.users))
      && (id in old(table.users) && !matches(oldpassword, old(table.users)[id].passwordHash) ==>
            resp == Response(401, Message(WrongPassword)) && table.users == old(table.users))
      && (id in old(table.users) && matches(oldpassword, old(table.users)[id].passwordHash) ==>
            && resp == Response(200, Message(PasswordChanged))
            && table.users == old(table.users)[id := old(table.users)[id].(passwordHash := hash(password))])
  {
    var gate := Guard(auth, [LoggedInGate]);
    if gate.Some? {
      return gate.value;
    }
    var schema := ParseUserPass(body);
    if schema.Failure? {
      var error := GetZodError(schema.issues);
      return Response(400, ErrorField(error));
    }
    var id := auth.value.id;
    var user := GetUser(table.users, id);
    if user.None? {
      return Response(404, Message(UserNotFound));
    }
    if !matches(schema.data.oldpassword, user.value.passwordHash) {
      return Response(401, Message(WrongPassword));
    }
    var newHash := hash(schema.data.password);
    var patch := UserPatch(None, None, None, Some(newHash), None, None);
    var _ := table.EditUser(id, patch);
    resp := Response(200, Message(PasswordChanged));
  }

  /** The answer of /addSocial once the update ran: 500 when no record came
      back, otherwise 200 with that record. */
  function SocialOutcome(updated: Option<SocialView>): (resp: Response)
    ensures updated.None? <==> resp == Response(500, Message(SomethingWrong))
    ensures updated.Some? ==> resp == Response(200, UpdatedUser(updated.value))
  {
    match updated
    case None => Response(500, Message(SomethingWrong))
    case Some(u) => Response(200, UpdatedUser(u))
  }

  /** POST /addSocial: 400 with the issue map for a malformed body, 404 for a
      missing user; otherwise the link for the platform is set and the answer
      holds the id, name and links of the record as it was before the change —
      no e-mail, role or password hash. */
  method AddSocial(table: UserTable, auth: Option<Principal>, body: Json, isUrl: string -> bool)
    returns (resp: Response)
    requires table.Valid()
    modifies table
    ensures table.Valid()
    ensures auth.None? ==> resp == Response(401, Text(Unauthorized)) && table.users == old(table.users)
    ensures auth.Some? && !UserSocialUpdate(body, isUrl) ==>
      resp == Response(400, ErrorField(ErrorMap(UserSocialIssues(body, isUrl)))) && table.users == old(table.users)
    ensures auth.Some? && UserSocialUpdate(body, isUrl) ==>
      var id := auth.value.id;
      var platform := PlatformOf(Field(body.fields, "type").value.s);
      var value := Field(body.fields, "value").value.s;
      && (id !in old(table.users) ==> resp == Response(404, Message(UserNotFound)) && table.users == old(table.users))
      && (id in old(table.users) ==>
            && resp == Response(200, UpdatedUser(View(old(table.users)[id])))
            && table.users == old(table.users)[id := old(table.users)[id].(socialMedia := old(table.users)[id].socialMedia[platform := value])])
  {
    var gate := Guard(auth, [LoggedInGate]);
    if gate.Some? {
      return gate.value;
    }
    var id := auth.value.id;
    var schema := ParseUserSocial(body, isUrl);
    if schema.Failure? {
      var error := GetZodError(schema.issues);
      return Response(400, ErrorField(error));
    }
    if id !in table.users {
      return Response(404, Message(UserNotFound));
    }
    assert PlatformName(schema.data.platform) == Field(body.fields, "type").value.s;
    var updated := table.AddSocialMedia(id, schema.data.platform, schema.data.value);
    resp := SocialOutcome(updated);
  }

  /** The answer of /delete from `deletedCount`. */
  function DeleteOutcome(deletedCount: nat): (resp: Response)
    ensures deletedCount == 1 <==> resp == Response(200, Message(UserDeleted))
    ensures deletedCount != 1 <==> resp == Response(500, Message(SomethingWrong))
  {
    if deletedCount == 1 then Response(200, Message(UserDeleted)) else Response(500, Message(SomethingWrong))
  }

  /** POST /delete: the caller deletes their own account. */
  method Delete(table: UserTable, auth: Option<Principal>) returns (resp: Response)
    requires table.Valid()
    modifies table
    ensures table.Valid()
    ensures auth.None? ==> resp == Response(401, Text(Unauthorized)) && table.users == old(table.users)
    ensures auth.Some? && auth.value.id == "" ==> resp == Response(400, Text(NoIdProvided)) && table.users == old(table.users)
    ensures auth.Some? && auth.value.id != "" && auth.value.id !in old(table.users) ==>
      resp == Response(404, Text(NoUserFound)) && table.users == old(table.users)
    ensures auth.Some? && auth.value.id != "" && auth.value.id in old(table.users) ==>
      resp == Response(200, Message(UserDeleted)) && table.users == old(table.users) - {auth.value.id}
  {
    var gate := Guard(auth, [LoggedInGate]);
    if gate.Some? {
      return gate.value;
    }
    var id := auth.value.id;
    if id == "" {
      return Response(400, Text(NoIdProvided));
    }
    if id !in table.users {
      return Response(404, Text(NoUserFound));
    }
    var deleted := table.DeleteUser(id);
    var deletedCount := if deleted.Some? then 1 else 0;
    resp := DeleteOutcome(deletedCount);
  }
}
