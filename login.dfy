/** The session gate of the login page (src/pages/Login.jsx): client-side
    validation, the request, the session record kept under the "user" key,
    and the role-to-route rule used both after a login and on mount. */
module Login {
  import opened Js
  import opened Browser

  const LoginUrl := Origin + "/auth/login"

  /** The dashboard for a role: `role === "admin" ? "/admin" : "/student"`.
      Only the exact string "admin" leads to the admin console; any other
      role, a missing one included, leads to the student console. */
  function RouteFor(role: Value): (route: string)
    ensures route == "/admin" <==> role == Str("admin")
    ensures route == "/student" <==> role != Str("admin")
  {
    if role == Str("admin") then "/admin" else "/student"
  }

  /** Where the page sends a visitor on mount, given the parsed stored
      record (`null` when there is none): nowhere when it is falsy, else
      the dashboard of its role. */
  function RestoreRoute(stored: Value): (target: Option<string>)
    ensures target.None? <==> !Truthy(stored)
    ensures stored.Obj? ==> target == Some(RouteFor(Field(stored.fields, "role")))
    ensures Truthy(stored) ==> target == Some(RouteFor(Prop(stored, "role").value))
    ensures Truthy(stored) && !stored.Obj? ==> target == Some("/student")
  {
    if !Truthy(stored) then None
    else
      match Prop(stored, "role")
      case Some(role) => Some(RouteFor(role))
      case None => None
  }

  /** `{ token: data.access_token, role: data.role }` */
  function SessionRecord(token: Value, role: Value): (record: Value)
    ensures record.Obj? && record.fields.Keys == {"token", "role"}
    ensures Field(record.fields, "token") == token && Field(record.fields, "role") == role
    ensures Field(record.fields, "email") == Undefined
  {
    Obj(map["token" := token, "role" := role])
  }

  /** `!email || !password` */
  predicate MissingCredentials(email: string, password: string) {
    email == "" || password == ""
  }

  function LoginRequest(email: string, password: string): (r: Request)
    ensures r.verb == "POST" && r.url == LoginUrl && r.body.Some?
    ensures r.body.value.Keys == {"email", "password"}
    ensures r.body.value["email"] == Str(email) && r.body.value["password"] == Str(password)
  {
    Request("POST", LoginUrl, Some(map["email" := Str(email), "password" := Str(password)]))
  }

  /** How a sent login request ends. */
  datatype Outcome =
    | SignedIn(record: Value, route: string)
    | Refused(message: string)

  /** The outcome of a reply. An OK reply stores exactly the token and the
      role it carries and routes by that role. A refused one shows its
      `detail`, or "Login failed" when there is none. A request that threw,
      a body that is not JSON, and a `null` body (reading a property of it
      throws) all show "Server error". */
  function LoginOutcome(reply: Response): (o: Outcome)
    ensures o.SignedIn? <==> reply.Answered? && reply.ok && !reply.body.Null? && !reply.body.Undefined?
    ensures o.SignedIn? ==>
              var token := Prop(reply.body, "access_token").value;
              var role := Prop(reply.body, "role").value;
              o.record == SessionRecord(token, role) && o.route == RouteFor(role)
    ensures reply.Answered? && !reply.ok && !reply.body.Null? && !reply.body.Undefined? ==>
              o == Refused(ToText(Or(Prop(reply.body, "detail").value, Str("Login failed"))))
    ensures reply.Threw? || reply.body.Null? || reply.body.Undefined? ==> o == Refused("Server error")
  {
    match reply
    case Threw => Refused("Server error")
    case Answered(ok, data) =>
      if !ok then
        match Prop(data, "detail")
        case None => Refused("Server error")
        case Some(detail) => Refused(ToText(Or(detail, Str("Login failed"))))
      else
        match (Prop(data, "access_token"), Prop(data, "role"))
        case (Some(token), Some(role)) => SignedIn(SessionRecord(token, role), RouteFor(role))
        case _ => Refused("Server error")
  }

  /** After a successful login, the mount-time rule sends the visitor to
      the same dashboard as the login itself did. */
  lemma RestoreAgreesWithLogin(reply: Response)
    requires LoginOutcome(reply).SignedIn?
    ensures RestoreRoute(LoginOutcome(reply).record) == Some(LoginOutcome(reply).route)
  {
  }

  class Page {
    var email: string
    var password: string
    var loading: bool
    const env: Env

    constructor (env: Env)
      ensures this.env == env
      ensures email == "" && password == "" && !loading
    {
      this.env := env;
      email, password, loading := "", "", false;
    }

    method SetEmail(value: string)
      modifies this`email
      ensures email == value
    {
      email := value;
    }

    method SetPassword(value: string)
      modifies this`password
      ensures password == value
    {
      password := value;
    }

    /** The mount-time effect: navigate when a record is stored. */
    method OnMount()
      modifies env`route
      ensures RestoreRoute(env.StoredSession()).Some? ==>
                env.route == RestoreRoute(env.StoredSession()).value
      ensures RestoreRoute(env.StoredSession()).None? ==> env.route == old(env.route)
    {
      var storedUser := env.StoredSession();
      if Truthy(storedUser) {
        var role := Prop(storedUser, "role").value;
        env.Navigate(RouteFor(role));
      }
    }

    /** The synchronous part of `handleLogin`, up to the `await`: with an
        empty field it alerts and sends nothing; otherwise it sets `loading`
        and sends the credentials. */
    method Submit() returns (sent: Option<Request>)
      modifies this`loading, env`alerts
      ensures MissingCredentials(email, password) ==>
                && sent == None && loading == old(loading)
                && env.alerts == old(env.alerts) + ["Enter email and password"]
      ensures !MissingCredentials(email, password) ==>
                && sent == Some(LoginRequest(email, password)) && loading
                && env.alerts == old(env.alerts)
    {
      if email == "" || password == "" {
        env.Alert("Enter email and password");
        return None;
      }
      loading := true;
      sent := Some(LoginRequest(email, password));
    }

    /** The rest of `handleLogin`, once the reply has settled; the
        `finally` clause clears `loading` whatever the outcome. */
    method Complete(reply: Response)
      modifies this`loading, env`store, env`appUser, env`route, env`alerts
      ensures !loading
      ensures LoginOutcome(reply).SignedIn? ==>
                && env.store == old(env.store)[SessionKey := LoginOutcome(reply).record]
                && env.appUser == LoginOutcome(reply).record
                && env.route == LoginOutcome(reply).route
                && env.alerts == old(env.alerts)
      ensures LoginOutcome(reply).Refused? ==>
                && env.store == old(env.store) && env.appUser == old(env.appUser)
                && env.route == old(env.route)
                && env.alerts == old(env.alerts) + [LoginOutcome(reply).message]
    {
      var outcome := LoginOutcome(reply);
      match outcome {
        case SignedIn(userData, route) =>
          env.store := env.store[SessionKey := userData];
          env.appUser := userData;
          env.Navigate(route);
        case Refused(message) =>
          env.Alert(message);
      }
      loading := false;
    }

    /** `handleLogin` run to completion with the given reply. */
    method HandleLogin(reply: Response) returns (sent: Option<Request>)
      modifies this`loading, env`store, env`appUser, env`route, env`alerts
      ensures MissingCredentials(email, password) ==>
                && sent == None && loading == old(loading)
                && env.alerts == old(env.alerts) + ["Enter email and password"]
                && env.store == old(env.store) && env.route == old(env.route)
                && env.appUser == old(env.appUser)
      ensures !MissingCredentials(email, password) ==>
                sent == Some(LoginRequest(email, password)) && !loading
      ensures !MissingCredentials(email, password) && LoginOutcome(reply).SignedIn? ==>
                && env.store == old(env.store)[SessionKey := LoginOutcome(reply).record]
                && env.appUser == LoginOutcome(reply).record
                && env.route == LoginOutcome(reply).route
                && env.alerts == old(env.alerts)
      ensures !MissingCredentials(email, password) && LoginOutcome(reply).Refused? ==>
                && env.store == old(env.store) && env.appUser == old(env.appUser)
                && env.route == old(env.route)
                && env.alerts == old(env.alerts) + [LoginOutcome(reply).message]
    {
      sent := Submit();
      if sent.Some? {
        Complete(reply);
      }
    }
  }
}
