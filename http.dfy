/** What the route handlers see of Express and passport: the authenticated
    user passport attaches to the request, the response a handler sends, and
    the middleware chain in front of a protected route. */
module Http {
  import opened Common
  import opened Zod
  import opened Records
  import opened Authorized
  import opened UserController

  /** `req.user` after `passport.authenticate('jwt')`: the stored user's id and role. */
  datatype Principal = Principal(id: Id, role: Role)

  /** The user fields the login and create routes answer with: no password hash. */
  datatype PublicUser = PublicUser(
    role: Role,
    name: string,
    image: Option<string>,
    email: string,
    socialMedia: SocialMedia)

  function Public(u: User): (p: PublicUser)
    ensures p.role == u.role && p.name == u.name && p.image == u.image
    ensures p.email == u.email && p.socialMedia == u.socialMedia
  {
    PublicUser(u.role, u.name, u.image, u.email, u.socialMedia)
  }

  /** The JSON (or text) bodies the handlers send, one variant per shape. */
  datatype Body =
    | Text(text: string)                          // `send('...')`
    | Message(message: string)                    // `{message}`
    | MessageMap(messages: map<string, string>)   // `{message: getZodError(..)}`
    | ErrorField(error: map<string, string>)      // `{error}`
    | ZodFailure(issues: seq<Issue>)              // `send(schema.error)`
    | Blogs(blogs: seq<Blog>)
    | Categories(categories: seq<string>)
    | OneBlog(blog: Option<Blog>)
    | PublishedFlag                               // `{published: true}`
    | DeletedBlog(deleted: Option<Blog>)
    | EmptyObject                                 // `{}`
    | Session(token: string, publicUser: PublicUser)   // `{token, user}`
    | WholeUser(user: User)
    | RoleOf(role: Role)
    | UpdatedUser(udpated: SocialView)             // `{udpated}`

  /** A sent response, or none: a handler that throws, or that catches an error
      without answering, leaves the request without a response. */
  datatype Response = Response(status: int, body: Body) | NoResponse

  const Unauthorized := "Unauthorized"

  /** The middlewares a protected route lists before its handler. */
  datatype Gate = LoggedInGate | ManagerGate

  function RunGate(g: Gate, p: Principal): GateOutcome {
    match g
    case LoggedInGate => IsLoggedIn(true)
    case ManagerGate => IsManager(true, Some(p.role))
  }

  /** The gates in order: the first rejection answers, otherwise the handler runs (None). */
  function RunGates(p: Principal, gates: seq<Gate>): (r: Option<Response>)
    ensures r.None? <==> forall i | 0 <= i < |gates| :: gates[i] == ManagerGate ==> IsPrivileged(Some(p.role))
    ensures r.Some? ==> r.value == Response(401, Message(NotManagerMessage))
  {
    if gates == [] then None
    else
      match RunGate(gates[0], p)
      case Next => RunGates(p, gates[1..])
      case Reject(status, message) => Some(Response(status, Message(message)))
  }

  /** `passport.authenticate('jwt', {session: false})` followed by the route's
      gates. A request without a valid token is answered 401 by passport before
      any gate runs. */
  function Guard(auth: Option<Principal>, gates: seq<Gate>): (r: Option<Response>)
    ensures auth.None? ==> r == Some(Response(401, Text(Unauthorized)))
    ensures r.None? <==> auth.Some? && (ManagerGate in gates ==> IsPrivileged(Some(auth.value.role)))
  {
    if auth.None? then Some(Response(401, Text(Unauthorized)))
    else RunGates(auth.value, gates)
  }

  /** Behind passport, isLoggedIn never answers: its 401 is unreachable. */
  lemma LoggedInGateNeverRejects(auth: Option<Principal>)
    ensures Guard(auth, [LoggedInGate]) == if auth.None? then Some(Response(401, Text(Unauthorized))) else None
  {
  }

  /** A manager-only route reaches its handler exactly for an admin or a manager. */
  lemma ManagerRouteAdmits(auth: Option<Principal>)
    ensures Guard(auth, [LoggedInGate, ManagerGate]).None? <==> auth.Some? && auth.value.role != Normal
    ensures Guard(auth, [ManagerGate]).None? <==> auth.Some? && auth.value.role != Normal
  {
  }
}
