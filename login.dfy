/**
 * The login form's submit handler: the request it sends, how it reads the
 * reply, what it writes to storage and the session, and which toast it shows.
 */
module Login {
  import opened Wrappers
  import opened UserJson
  import opened Session

  const LoginFailedText := "Login Failed"
  const ErrorPrefix := "Error:"

  /** The values of the form's `username` and `password` inputs. */
  datatype LoginForm = LoginForm(username: string, password: string)

  /**
   * A reply body. A successful one is the user record (`userInfo`); a failed
   * one may carry `error` or `message` text.
   */
  datatype ReplyData = ReplyData(user: User, error: Option<string>, message: Option<string>)

  /** How `axios.post` ends: resolved with a status and body, or rejected with an `AxiosError`. */
  datatype Reply =
    | Responded(status: int, data: ReplyData)
    | Rejected(response: Option<ReplyData>, message: string)

  /** What the handler concludes from the reply. */
  datatype Outcome = LoggedIn(user: User) | Failed(message: string)

  datatype Toast = Toast(variant: string, title: string, description: string)

  const SuccessToast := Toast("default", "Login Success", "You have successfully logged in")

  /** The JSON body posted to the login endpoint. */
  function RequestBody(form: LoginForm): (body: map<string, string>)
    ensures body.Keys == {"username", "password"}
    ensures body["username"] == form.username && body["password"] == form.password
  {
    map["username" := form.username, "password" := form.password]
  }

  /**
   * Status 200 logs in with the body as the user. Any other resolved status
   * throws `new Error(errorData.error || 'Login Failed')`, which is not an
   * `AxiosError`, so its own message is shown. A rejected request shows the
   * response's `data.message` when that is truthy, otherwise the error's message.
   */
  function LoginOutcome(reply: Reply): (r: Outcome)
    ensures r.LoggedIn? <==> reply.Responded? && reply.status == 200
    ensures r.LoggedIn? ==> r.user == reply.data.user
  {
    match reply
    case Responded(status, data) =>
      if status == 200 then LoggedIn(data.user)
      else Failed(if Truthy(data.error) then data.error.value else LoginFailedText)
    case Rejected(response, message) =>
      if response.Some? && Truthy(response.value.message) then Failed(response.value.message.value)
      else Failed(message)
  }

  /** The destructive toast for a failed login; no space follows the colon. */
  function FailureToast(message: string): (t: Toast)
    ensures t.variant == "destructive" && t.title == "Login Error"
    ensures ErrorPrefix <= t.description && t.description[|ErrorPrefix|..] == message
  {
    Toast("destructive", "Login Error", ErrorPrefix + message)
  }

  /** The message of a failed login, by case. */
  lemma FailureMessages(reply: Reply)
    ensures LoginOutcome(reply).LoggedIn? <==> reply.Responded? && reply.status == 200
    ensures reply.Responded? && reply.status != 200 ==>
      LoginOutcome(reply).message == if reply.data.error.Some? && reply.data.error.value != ""
                                     then reply.data.error.value else LoginFailedText
    ensures reply.Rejected? && reply.response.Some? && reply.response.value.message.Some?
            && reply.response.value.message.value != "" ==>
      LoginOutcome(reply).message == reply.response.value.message.value
    ensures reply.Rejected? && (reply.response.None? || !Truthy(reply.response.value.message)) ==>
      LoginOutcome(reply).message == reply.message
  {
  }

  /** The handler's own token write is subsumed by the `setUser` it dispatches next. */
  lemma LoginStorage(items: map<string, string>, u: User)
    ensures StoreAfterSetUser(items[TokenKey := u.token], u) == StoreAfterSetUser(items, u)
  {
    var a := StoreAfterSetUser(items[TokenKey := u.token], u);
    var b := StoreAfterSetUser(items, u);
    assert a.Keys == b.Keys;
    forall k | k in a.Keys ensures a[k] == b[k] {
    }
  }

  /** After a successful login, a reload restores the user, logged in when the token is non-empty. */
  lemma LoginSurvivesReload(items: map<string, string>, reply: Reply)
    requires LoginOutcome(reply).LoggedIn?
    ensures var u := LoginOutcome(reply).user;
      InitialState(StoreAfterSetUser(items[TokenKey := u.token], u)) == Some(SessionState(Some(u), u.token != ""))
  {
    var u := LoginOutcome(reply).user;
    LoginStorage(items, u);
    RestoreAfterSetUser(items, u);
  }

  /** `handleSubmit`, given the form values and how the request ended. */
  method HandleSubmit(session: Session, form: LoginForm, reply: Reply)
    returns (body: map<string, string>, toast: Toast, redirect: Option<string>)
    modifies session, session.storage
    ensures body == RequestBody(form)
    ensures LoginOutcome(reply).LoggedIn? ==>
      var u := LoginOutcome(reply).user;
      && toast == SuccessToast
      && session.user == Some(u) && session.loggedIn
      && session.storage.items == StoreAfterSetUser(old(session.storage.items), u)
      && (u.token != "" <==> session.Persisted())
      && redirect == Some("/")
    ensures LoginOutcome(reply).Failed? ==>
      && toast == FailureToast(LoginOutcome(reply).message)
      && session.user == old(session.user) && session.loggedIn == old(session.loggedIn)
      && session.storage.items == old(session.storage.items)
      && redirect == None
  {
    body := RequestBody(form);
    match LoginOutcome(reply)
    case LoggedIn(u) =>
      session.storage.SetItem(TokenKey, u.token);
      toast := SuccessToast;
      session.SetUser(u);
      LoginStorage(old(session.storage.items), u);
      redirect := Some("/");
    case Failed(message) =>
      toast := FailureToast(message);
      redirect := None;
  }
}
