/** The login form: on success it writes the two session slots and goes to the
    dashboard; otherwise it shows the server's message or a fixed one. */
module Login {
  import opened Wrappers
  import opened Domain
  import opened Session
  import Guard

  const LoginFailedMessage := "Erro ao fazer login"

  datatype LoginUser = LoginUser(id: Option<string>)

  /** The JSON the login endpoint answers: `token` and `user.id` on success, `error` on
      failure; each may be absent. */
  datatype LoginBody = LoginBody(token: Option<string>, user: Option<LoginUser>, error: Option<string>)

  datatype Credentials = Credentials(email: string, password: string)

  /** The slots after a successful login whose body carries a `user` object. */
  function SessionAfterLogin(b: LoginBody): (s: Slots)
    requires b.user.Some?
    ensures s.token.Some? && s.userId.Some?
    ensures b.token.Some? ==> s.token.value == b.token.value
    ensures b.user.value.id.Some? ==> s.userId.value == b.user.value.id.value
  {
    Slots(Some(StoredText(b.token)), Some(StoredText(b.user.value.id)))
  }

  /** After a login both slots count as present unless the server sent an empty string:
      a missing field is stored as the truthy text "undefined". The guard then keeps the
      visitor on gated pages and moves them off the auth pages. */
  lemma LoginSessionPassesGuard(b: LoginBody, path: string)
    requires b.user.Some? && b.token != Some("") && b.user.value.id != Some("")
    ensures SignedIn(SessionAfterLogin(b))
    ensures Guard.DecideFor(SessionAfterLogin(b), path) == (if Guard.IsAuthPage(path) then Guard.ToDashboard else Guard.Stay)
  {
  }

  class LoginPage {
    var email: string
    var password: string
    var error: string
    var isLoading: bool

    constructor ()
      ensures email == "" && password == "" && error == "" && !isLoading
    {
      email, password, error, isLoading := "", "", "", false;
    }

    method EditForm(email: string, password: string)
      modifies this`email, this`password
      ensures this.email == email && this.password == password
    {
      this.email, this.password := email, password;
    }

    /** The first half of `handleSubmit`: the spinner is shown and the credentials
        are posted. */
    method BeginSubmit() returns (request: Credentials)
      modifies this`isLoading
      ensures isLoading && request == Credentials(email, password)
    {
      isLoading := true;
      request := Credentials(email, password);
    }

    /** The second half of `handleSubmit`, once the POST has settled. The token is
        written before `data.user.id` is read, so a body without `user` leaves the token
        written and the userId as it was. */
    method FinishSubmit(store: SessionStore, reply: Reply<LoginBody>)
      modifies this`error, this`isLoading, store`token, store`userId, store`lastNavigation
      ensures !isLoading
      ensures reply.Answered? && reply.ok && reply.body.Some? && reply.body.value.user.Some? ==>
        && store.Stored() == SessionAfterLogin(reply.body.value)
        && store.lastNavigation == Some(DashboardRoute) && error == old(error)
      ensures reply.Answered? && reply.ok && reply.body.Some? && reply.body.value.user.None? ==>
        && store.token == Some(StoredText(reply.body.value.token)) && store.userId == old(store.userId)
        && store.lastNavigation == old(store.lastNavigation) && error == LoginFailedMessage
      ensures reply.Answered? && !reply.ok && reply.body.Some? ==>
        && store.Stored() == old(store.Stored()) && store.lastNavigation == old(store.lastNavigation)
        && error == ServerErrorOr(reply.body.value.error, LoginFailedMessage)
      ensures reply.NetworkError? || reply.body.None? ==>
        && store.Stored() == old(store.Stored()) && store.lastNavigation == old(store.lastNavigation)
        && error == LoginFailedMessage
    {
      if reply.NetworkError? || reply.body.None? {
        error := LoginFailedMessage;  // fetch rejects or response.json() throws
      } else if reply.ok {
        var data := reply.body.value;
        store.SetToken(StoredText(data.token));
        if data.user.None? {
          error := LoginFailedMessage;  // reading `data.user.id` throws
        } else {
          store.SetUserId(StoredText(data.user.value.id));
          store.Navigate(DashboardRoute);
        }
      } else {
        error := ServerErrorOr(reply.body.value.error, LoginFailedMessage);
      }
      isLoading := false;
    }
  }
}
