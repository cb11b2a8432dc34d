/** The browser state every page shares: the two localStorage slots that make up
    a session (`token`, `userId`) and the router's most recent navigation. */
module Session {
  import opened Wrappers

  const LoginRoute := "/login"
  const SignupRoute := "/signup"
  const DashboardRoute := "/dashboard"

  /** A snapshot of the two storage slots. */
  datatype Slots = Slots(token: Option<string>, userId: Option<string>)

  /** JavaScript truthiness of `localStorage.getItem(k)`: null and "" are both missing. */
  predicate Present(slot: Option<string>)
    ensures Present(slot) ==> slot.Some?
    ensures slot == None || slot == Some("") ==> !Present(slot)
    ensures slot.Some? && |slot.value| > 0 ==> Present(slot)
  {
    slot.Some? && slot.value != ""
  }

  /** Both credentials are present. */
  predicate SignedIn(s: Slots) {
    Present(s.token) && Present(s.userId)
  }

  const Cleared := Slots(None, None)

  /** What `localStorage.setItem(k, v)` stores for a JSON value that may be undefined:
      JavaScript converts undefined to the string "undefined". */
  function StoredText(v: Option<string>): (r: string)
    ensures v.Some? ==> r == v.value
    ensures v.None? ==> r == "undefined"
  {
    v.GetOr("undefined")
  }

  class SessionStore {
    var token: Option<string>
    var userId: Option<string>
    /** Path of the last `router.push`, None when nothing was pushed. */
    var lastNavigation: Option<string>

    constructor (token: Option<string>, userId: Option<string>)
      ensures this.token == token && this.userId == userId
      ensures lastNavigation == None
    {
      this.token := token;
      this.userId := userId;
      lastNavigation := None;
    }

    function Stored(): Slots
      reads this
    {
      Slots(token, userId)
    }

    /** `localStorage.setItem('token', t)`. */
    method SetToken(t: string)
      modifies this`token
      ensures token == Some(t)
    {
      token := Some(t);
    }

    /** `localStorage.setItem('userId', u)`. */
    method SetUserId(u: string)
      modifies this`userId
      ensures userId == Some(u)
    {
      userId := Some(u);
    }

    /** `localStorage.removeItem` of both keys. */
    method Clear()
      modifies this`token, this`userId
      ensures Stored() == Cleared
    {
      token := None;
      userId := None;
    }

    /** `router.push(path)`. */
    method Navigate(path: string)
      modifies this`lastNavigation
      ensures lastNavigation == Some(path)
    {
      lastNavigation := Some(path);
    }
  }
}
