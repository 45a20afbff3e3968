/** The registration form (src/pages/Register.jsx): the required-field
    check, the role fixed to "student", the request it sends, and how the
    reply is reported. */
module Register {
  import opened Js
  import opened Browser

  const RegisterUrl := Origin + "/auth/register"

  /** The values the role select offers; the form starts on the first. */
  const RoleOptions: seq<string> := ["student"]

  const SuccessMessage := "Registration successful! You can now log in."

  /** `!name || !email || !password || !role` */
  predicate MissingField(name: string, email: string, password: string, role: string) {
    name == "" || email == "" || password == "" || role == ""
  }

  function RegisterRequest(name: string, email: string, password: string, role: string): (r: Request)
    ensures r.verb == "POST" && r.url == RegisterUrl && r.body.Some?
    ensures r.body.value.Keys == {"name", "email", "password", "role"}
    ensures r.body.value["name"] == Str(name) && r.body.value["email"] == Str(email)
    ensures r.body.value["password"] == Str(password) && r.body.value["role"] == Str(role)
  {
    Request("POST", RegisterUrl,
      Some(map["name" := Str(name), "email" := Str(email), "password" := Str(password), "role" := Str(role)]))
  }

  /** How a sent registration request ends. */
  datatype Outcome =
    | Registered
    | Refused(message: string)

  /** An OK reply whose body parses is a success. A refused one shows its
      `detail`, or "Registration failed" when there is none. A request that
      threw, a body that is not JSON (even on an OK reply: the body is read
      before the status) and a refusal with a `null` body show "Server error". */
  function RegisterOutcome(reply: Response): (o: Outcome)
    ensures o.Registered? <==> reply.Answered? && reply.ok
    ensures reply.Answered? && !reply.ok && !reply.body.Null? && !reply.body.Undefined? ==>
              o == Refused(ToText(Or(Prop(reply.body, "detail").value, Str("Registration failed"))))
    ensures reply.Threw? ==> o == Refused("Server error")
    ensures reply.Answered? && !reply.ok && (reply.body.Null? || reply.body.Undefined?) ==>
              o == Refused("Server error")
  {
    match reply
    case Threw => Refused("Server error")
    case Answered(ok, data) =>
      if ok then Registered
      else
        match Prop(data, "detail")
        case None => Refused("Server error")
        case Some(detail) => Refused(ToText(Or(detail, Str("Registration failed"))))
  }

  class Page {
    var name: string
    var email: string
    var password: string
    var role: string
    var loading: bool
    const env: Env

    /** The role can only ever hold an offered value. */
    ghost predicate Valid()
      reads this
    {
      role in RoleOptions
    }

    constructor (env: Env)
      ensures Valid() && this.env == env
      ensures name == "" && email == "" && password == "" && role == "student" && !loading
    {
      this.env := env;
      name, email, password, role, loading := "", "", "", RoleOptions[0], false;
    }

    method SetName(value: string)
      requires Valid()
      modifies this`name
      ensures Valid() && name == value
    {
      name := value;
    }

    method SetEmail(value: string)
      requires Valid()
      modifies this`email
      ensures Valid() && email == value
    {
      email := value;
    }

    method SetPassword(value: string)
      requires Valid()
      modifies this`password
      ensures Valid() && password == value
    {
      password := value;
    }

    /** Picking entry `choice` of the select. */
    method SelectRole(choice: nat)
      requires Valid() && choice < |RoleOptions|
      modifies this`role
      ensures Valid() && role == RoleOptions[choice] && role == "student"
    {
      role := RoleOptions[choice];
    }

    /** The synchronous part of `handleRegister`, up to the `await`. Since
        the role is always "student", only the three text fields can be
        missing. */
    method Submit() returns (sent: Option<Request>)
      requires Valid()
      modifies this`loading, env`alerts
      ensures sent.None? <==> name == "" || email == "" || password == ""
      ensures sent.None? ==>
                loading == old(loading) && env.alerts == old(env.alerts) + ["Please fill in all fields"]
      ensures sent.Some? ==>
                && sent == Some(RegisterRequest(name, email, password, "student")) && loading
                && env.alerts == old(env.alerts)
    {
      if MissingField(name, email, password, role) {
        env.Alert("Please fill in all fields");
        return None;
      }
      loading := true;
      sent := Some(RegisterRequest(name, email, password, role));
    }

    /** The rest of `handleRegister` once the reply has settled: success
        alerts and goes to the login page, anything else only alerts; the
        `finally` clause clears `loading`. */
    method Complete(reply: Response)
      modifies this`loading, env`alerts, env`route
      ensures !loading
      ensures RegisterOutcome(reply).Registered? ==>
                env.route == "/login" && env.alerts == old(env.alerts) + [SuccessMessage]
      ensures RegisterOutcome(reply).Refused? ==>
                env.route == old(env.route)
                && env.alerts == old(env.alerts) + [RegisterOutcome(reply).message]
    {
      match RegisterOutcome(reply) {
        case Registered =>
          env.Alert(SuccessMessage);
          env.Navigate("/login");
        case Refused(message) =>
          env.Alert(message);
      }
      loading := false;
    }

    /** `handleRegister` run to completion with the given reply. */
    method HandleRegister(reply: Response) returns (sent: Option<Request>)
      requires Valid()
      modifies this`loading, env`alerts, env`route
      ensures sent.None? <==> name == "" || email == "" || password == ""
      ensures sent.None? ==>
                && loading == old(loading) && env.route == old(env.route)
                && env.alerts == old(env.alerts) + ["Please fill in all fields"]
      ensures sent.Some? ==> sent == Some(RegisterRequest(name, email, password, "student")) && !loading
      ensures sent.Some? && RegisterOutcome(reply).Registered? ==>
                env.route == "/login" && env.alerts == old(env.alerts) + [SuccessMessage]
      ensures sent.Some? && RegisterOutcome(reply).Refused? ==>
                env.route == old(env.route)
                && env.alerts == old(env.alerts) + [RegisterOutcome(reply).message]
    {
      sent := Submit();
      if sent.Some? {
        Complete(reply);
      }
    }
  }
}
