/** What the pages reach outside themselves: the backend (each `fetch` is
    an input outcome and each request sent is an output), `localStorage`,
    the router's `navigate`, `window.alert`, and the App-level `setUser`. */
module Browser {
  import opened Js

  /** The backend's origin; every URL the pages build starts with it. */
  const Origin := "https://student-assist.onrender.com"

  /** The settled outcome of one `fetch` and, where the page reads it,
      `res.json()`. `Threw` stands for a network failure or a body that is
      not JSON: both reject the awaited promise. */
  datatype Response =
    | Answered(ok: bool, body: Value)
    | Threw

  /** A request as the page hands it to `fetch`; `body` is the object that
      `JSON.stringify` serialises, if any. */
  datatype Request = Request(verb: string, url: string, body: Option<Record>)

  /** The key under which the session record is kept in `localStorage`. */
  const SessionKey := "user"

  /** `JSON.parse(localStorage.getItem(SessionKey))`: `null` when absent. */
  function SessionIn(store: map<string, Value>): Value {
    if SessionKey in store then store[SessionKey] else Null
  }

  /** The browser-side world the pages share. `store` is `localStorage` with
      each entry already parsed back from JSON; `route` is the last target
      given to `navigate`; `alerts` lists the texts shown by `window.alert`,
      oldest first; `appUser` is the App component's user, set through the
      `setUser` callback. */
  class Env {
    var store: map<string, Value>
    var route: string
    var alerts: seq<string>
    var appUser: Value

    constructor (store: map<string, Value>, route: string)
      ensures this.store == store && this.route == route
      ensures alerts == [] && appUser == Null
    {
      this.store := store;
      this.route := route;
      alerts := [];
      appUser := Null;
    }

    function StoredSession(): Value
      reads this
    {
      SessionIn(store)
    }

    method Alert(message: string)
      modifies this`alerts
      ensures alerts == old(alerts) + [message]
    {
      alerts := alerts + [message];
    }

    method Navigate(target: string)
      modifies this`route
      ensures route == target
    {
      route := target;
    }
  }
}
