/** The session router: the admin guard, the GitHub callback that promotes the
    caller to ADMIN, logout, the root redirect and the endpoints that follow
    the Passport strategies. The strategies themselves are opaque: a request
    reaches a handler with `Some(user)` when its strategy succeeded and
    `None` when it failed. */
module Sessions {
  import opened Http

  const Admin := "ADMIN"

  /** A document of the user collection. */
  datatype User = User(email: string, password: string, rol: string)

  /** What `req.session.user` holds. */
  datatype SessionUser = SessionUser(email: string, rol: string)

  /** `{status, data}` bodies, and the `{message, user}` body of `/current`. */
  datatype Body = Message(status: string, data: string) | UserInfo(message: string, user: User)

  const Unauthorized: Reply<Body> := Send(401, Message("ERR", "Usuario no autorizado"))
  const NotAdmin: Reply<Body> := Send(403, Message("ERR", "Usuario no admin"))
  const PrivateData: Reply<Body> := Send(200, Message("OK", "Estos son los datos privados"))

  /** A middleware either passes the request on (`next()`) or answers it. */
  datatype GuardOutcome = Next | Stop(reply: Reply<Body>)

  /** The `auth` middleware: 401 without a session user, 403 for a user whose
      rol is not ADMIN, and `next()` otherwise. */
  function Guard(user: Option<SessionUser>): (o: GuardOutcome)
    ensures o == Stop(Unauthorized) <==> user.None?
    ensures o == Stop(NotAdmin) <==> user.Some? && user.value.rol != Admin
    ensures o == Next <==> user.Some? && user.value.rol == Admin
  {
    match user
    case None => Stop(Unauthorized)
    case Some(u) => if u.rol == Admin then Next else Stop(NotAdmin)
  }

  /** The guard reads nothing of the session but whether a user is there and
      that user's rol. */
  lemma GuardDependsOnlyOnRol(a: Option<SessionUser>, b: Option<SessionUser>)
    requires a.Some? <==> b.Some?
    requires a.Some? ==> a.value.rol == b.value.rol
    ensures Guard(a) == Guard(b)
  {
  }

  /** `GET /admin` behind `auth`: the handler runs, and answers 200 with the
      private data, exactly when the guard lets the request through; otherwise
      the guard's own reply is the answer. */
  function AdminRoute(user: Option<SessionUser>): (r: Reply<Body>)
    ensures r == PrivateData <==> Guard(user) == Next
    ensures user.None? ==> r == Unauthorized
    ensures user.Some? && user.value.rol != Admin ==> r == NotAdmin
  {
    match Guard(user)
    case Next => PrivateData
    case Stop(reply) => reply
  }

  /** Index of the first document with that email: the one `findOneAndUpdate`
      picks when it filters on `{ email }`. */
  function FindByEmail(users: seq<User>, email: string): (k: Option<nat>)
    ensures k.Some? ==> k.value < |users| && users[k.value].email == email
    ensures k.Some? ==> forall j :: 0 <= j < k.value ==> users[j].email != email
    ensures k.None? ==> forall j :: 0 <= j < |users| ==> users[j].email != email
  {
    FirstIndex(users, (u: User) => u.email == email)
  }

  /** The user collection after `{ $set: { rol: 'ADMIN' } }` on the first
      document whose email matches; without a match nothing changes. */
  function Promote(users: seq<User>, email: string): (r: seq<User>)
    ensures FindByEmail(users, email).None? ==> r == users
    ensures FindByEmail(users, email).Some? ==>
      var k := FindByEmail(users, email).value;
      r == users[k := users[k].(rol := Admin)]
  {
    if users == [] then []
    else if users[0].email == email then [users[0].(rol := Admin)] + users[1..]
    else [users[0]] + Promote(users[1..], email)
  }

  /** Two collections with the same emails in the same order have the same first match. */
  lemma FindByEmailOnlyReadsEmails(a: seq<User>, b: seq<User>, email: string)
    requires |a| == |b|
    requires forall j :: 0 <= j < |a| ==> a[j].email == b[j].email
    ensures FindByEmail(a, email) == FindByEmail(b, email)
  {
    var ka, kb := FindByEmail(a, email), FindByEmail(b, email);
    if ka.Some? && kb.Some? {
      assert !(ka.value < kb.value) && !(kb.value < ka.value);
    }
  }

  /** Logging in through GitHub twice leaves the collection as logging in once. */
  lemma PromoteIdempotent(users: seq<User>, email: string)
    ensures Promote(Promote(users, email), email) == Promote(users, email)
  {
    var once := Promote(users, email);
    FindByEmailOnlyReadsEmails(users, once, email);
  }

  /** After the promotion the document the callback matched is an ADMIN, and
      it is still the first one with that email. */
  lemma PromotedUserIsAdmin(users: seq<User>, email: string)
    requires FindByEmail(users, email).Some?
    ensures var after := Promote(users, email);
      FindByEmail(after, email) == FindByEmail(users, email) &&
      after[FindByEmail(after, email).value].rol == Admin
  {
    FindByEmailOnlyReadsEmails(users, Promote(users, email), email);
  }

  /** `GET /current`: the user Passport attached to the request, or a redirect to login. */
  function Current(reqUser: Option<User>): (r: Reply<Body>)
    ensures reqUser.Some? <==> r.Send?
    ensures reqUser.Some? ==> r.code == 200 && r.body.UserInfo? && r.body.user == reqUser.value
    ensures reqUser.None? ==> r == Redirect("/login")
  {
    match reqUser
    case Some(u) => Send(200, UserInfo("Inicio de sesión exitoso", u))
    case None => Redirect("/login")
  }

  /** `POST /login`: the strategy's failure goes to `/failauth`, its success to `/current`. */
  function LoginRoute(auth: Option<User>): (r: Reply<Body>)
    ensures r.Redirect?
    ensures r.location == (if auth.Some? then "/api/sessions/current" else "/api/sessions/failauth")
  {
    if auth.Some? then Redirect("/api/sessions/current") else Redirect("/api/sessions/failauth")
  }

  /** `POST /register`: the strategy's failure goes to `/failregister`, its success answers 200. */
  function RegisterRoute(auth: Option<User>): (r: Reply<Body>)
    ensures auth.None? ==> r == Redirect("/api/sessions/failregister")
    ensures auth.Some? ==> r == Send(200, Message("OK", "Usuario registrado"))
  {
    if auth.Some? then Send(200, Message("OK", "Usuario registrado"))
    else Redirect("/api/sessions/failregister")
  }

  /** `GET /failregister`: always 400. */
  function FailRegister(): (r: Reply<Body>)
    ensures r.Send? && r.code == 400 && r.body.Message? && r.body.status == "ERR"
  {
    Send(400, Message("ERR", "El email ya existe o faltan datos obligatorios"))
  }

  /** `GET /failauth`: always 400. */
  function FailAuth(): (r: Reply<Body>)
    ensures r.Send? && r.code == 400 && r.body.Message? && r.body.status == "ERR"
  {
    Send(400, Message("ERR", "Error en los campos enviados"))
  }

  /** One browser session together with the user collection it is served from. */
  class SessionRoutes {
    /** `req.session.user` */
    var sessionUser: Option<SessionUser>
    /** The user collection. */
    var users: seq<User>

    /** A fresh session, with nobody logged in. */
    constructor (users: seq<User>)
      ensures this.users == users && sessionUser.None?
    {
      this.users := users;
      sessionUser := None;
    }

    /** `GET /`: to registration while nobody is registered, to login after;
        a failing `User.find()` answers 500. */
    method Root(findFails: bool) returns (r: Reply<Body>)
      ensures findFails ==> r == Send(500, Message("ERR", "Error interno del servidor."))
      ensures !findFails && |users| == 0 ==> r == Redirect("/register")
      ensures !findFails && |users| > 0 ==> r == Redirect("/login")
    {
      if findFails {
        return Send(500, Message("ERR", "Error interno del servidor."));
      }
      var registered := users;
      if |registered| == 0 {
        return Redirect("/register");
      }
      r := Redirect("/login");
    }

    /** `GET /logout`: `session.destroy` either fails, answering 500 with its
        message and keeping the session, or clears the session and redirects
        to login; the guard then refuses the session with 401. */
    method Logout(destroyError: Option<string>) returns (r: Reply<Body>)
      modifies this
      ensures users == old(users)
      ensures destroyError.Some? ==>
        r == Send(500, Message("ERR", destroyError.value)) && sessionUser == old(sessionUser)
      ensures destroyError.None? ==>
        r == Redirect("/login") && sessionUser.None? && Guard(sessionUser) == Stop(Unauthorized)
    {
      match destroyError
      case Some(message) =>
        r := Send(500, Message("ERR", message));
      case None =>
        sessionUser := None;
        r := Redirect("/login");
    }

    /** `GET /githubcallback`. A failed GitHub strategy redirects to login.
        Otherwise the first user with the caller's email gets rol ADMIN and the
        session records `{email, rol: 'ADMIN'}`, after which the guard lets the
        session through; if the store update fails, nothing changes and the
        answer is a redirect to login. */
    method GithubCallback(auth: Option<User>, updateFails: bool) returns (r: Reply<Body>)
      modifies this
      ensures auth.None? || updateFails ==>
        r == Redirect("/login") && sessionUser == old(sessionUser) && users == old(users)
      ensures auth.Some? && !updateFails ==>
        r == Redirect("/profile") &&
        users == Promote(old(users), auth.value.email) &&
        sessionUser == Some(SessionUser(auth.value.email, Admin)) &&
        Guard(sessionUser) == Next && AdminRoute(sessionUser) == PrivateData
    {
      if auth.None? {
        return Redirect("/login");
      }
      var email := auth.value.email;
      if updateFails {
        return Redirect("/login");
      }
      users := Promote(users, email);
      sessionUser := Some(SessionUser(email, Admin));
      r := Redirect("/profile");
    }
  }
}
