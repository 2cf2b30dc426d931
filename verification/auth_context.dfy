/**
  The session held by the auth provider: the token, the placeholder user,
  and the browser storage the token is persisted to. React's state updates
  and effect scheduling are flattened into explicit steps: `Init` is the
  lazy initial state, `Sync` is the token effect, applied after each token
  change (and once at mount), and `Login`/`Logout` are the operations.
 */
module AuthContext {
  import opened Wrappers
  import opened Http
  import opened Router
  import opened Effects
  import opened Interceptor

  /** The storage key of the token. */
  const TokenKey := "authToken"

  /** The placeholder name given to a user restored from storage at start-up. */
  const RestoredName := "User"

  /** The placeholder name the token effect gives to an authenticated user. */
  const SyncedName := "AuthenticatedUser"

  const LoginUrl := "/api/token"
  const LoginFailedPrefix := "Login failed with status: "
  const NoTokenMessage := "Login successful, but no access token received."

  datatype User = User(username: string)

  /** Browser storage: string keys to string values; only `TokenKey` is ours. */
  type Storage = map<string, string>

  datatype Session = Session(token: Option<string>, user: Option<User>, storage: Storage)

  /** `localStorage.getItem(TokenKey)`: null when the key is absent. */
  function StoredToken(storage: Storage): Option<string> {
    Member(storage, TokenKey)
  }

  /** `isAuthenticated: !!token`: a missing or empty token is unauthenticated. */
  predicate IsAuthenticated(s: Session) {
    Present(s.token)
  }

  /**
    What holds once the token effect has run: a user exactly when
    authenticated, the token in storage when authenticated, and no stored
    token otherwise.
   */
  predicate Synced(s: Session) {
    && (s.user.Some? <==> IsAuthenticated(s))
    && (IsAuthenticated(s) ==> StoredToken(s.storage) == s.token)
    && (!IsAuthenticated(s) ==> TokenKey !in s.storage)
  }

  /** The lazy initial state: the token as stored, and a placeholder user iff that token is truthy. */
  function Init(storage: Storage): (s: Session)
    ensures s.token == StoredToken(storage)
    ensures s.user.Some? <==> IsAuthenticated(s)
    ensures s.storage == storage
  {
    var stored := StoredToken(storage);
    Session(stored, if Present(stored) then Some(User(RestoredName)) else None, storage)
  }

  /**
    The token effect: a truthy token is written to storage and the user is
    set; otherwise the key is removed and the user cleared. Other keys of
    storage, and the token itself, are untouched.
   */
  function Sync(s: Session): (r: Session)
    ensures r.token == s.token
    ensures Synced(r)
    ensures IsAuthenticated(r) ==> r.user == Some(User(SyncedName))
    ensures r.storage - {TokenKey} == s.storage - {TokenKey}
  {
    if Present(s.token)
    then Session(s.token, Some(User(SyncedName)), s.storage[TokenKey := s.token.value])
    else Session(s.token, None, s.storage - {TokenKey})
  }

  /** The provider's first render followed by its mount effect. */
  function Mount(storage: Storage): (s: Session)
    ensures Synced(s)
    ensures IsAuthenticated(s) <==> Present(StoredToken(storage))
    ensures IsAuthenticated(s) ==> s.token == StoredToken(storage)
  {
    Sync(Init(storage))
  }

  /** Running the token effect again changes nothing. */
  lemma SyncIdempotent(s: Session)
    ensures Sync(Sync(s)) == Sync(s)
  {
  }

  /**
    Persistence round trip: restarting from the storage a synced session
    left behind restores the same session when it was authenticated, and an
    unauthenticated one otherwise.
   */
  lemma ReloadRestoresSession(s: Session)
    ensures IsAuthenticated(Mount(Sync(s).storage)) == IsAuthenticated(s)
    ensures IsAuthenticated(s) ==> Mount(Sync(s).storage) == Sync(s)
  {
  }

  /** The context value the provider publishes. */
  datatype ContextValue = ContextValue(user: Option<User>, token: Option<string>, isAuthenticated: bool,
                                       handleUnauthorized: Callback)

  /**
    The context value as the provider builds it: it has no
    `handleUnauthorized` member, although the pages destructure and call one.
   */
  function ValueAsWritten(s: Session): (v: ContextValue)
    ensures v.isAuthenticated <==> IsAuthenticated(s)
    ensures v.token == s.token && v.user == s.user
    ensures v.handleUnauthorized.Missing?
  {
    ContextValue(s.user, s.token, Present(s.token), Missing)
  }

  /**
    The context value with the `handleUnauthorized` callback the pages
    expect; it is the value the rest of the model uses. What the callback
    does is not known and is not modelled.
   */
  function Value(s: Session): (v: ContextValue)
    ensures v.isAuthenticated <==> IsAuthenticated(s)
    ensures v.token == s.token && v.user == s.user
    ensures v.handleUnauthorized.Provided?
    ensures v == ValueAsWritten(s).(handleUnauthorized := Provided)
  {
    ContextValue(s.user, s.token, Present(s.token), Provided)
  }

  /** An empty token in state counts as logged out. */
  lemma EmptyTokenIsUnauthenticated(user: Option<User>, storage: Storage)
    ensures !Value(Session(Some(""), user, storage)).isAuthenticated
  {
  }

  /** The login POST: a form with exactly the username and password fields, no extra headers. */
  function LoginRequest(username: string, password: string): (q: Request)
    ensures q.verb == Post && q.url == LoginUrl && q.headers == []
    ensures q.body.Form? && |q.body.fields| == 2
    ensures q.body.fields[0] == TextField("username", username)
    ensures q.body.fields[1] == TextField("password", password)
  {
    Request(Post, LoginUrl, [], Form([TextField("username", username), TextField("password", password)]))
  }

  /** How `login` reads the server's answer: a token to install, or the message it throws. */
  datatype Verdict = Granted(accessToken: string) | Refused(message: string)

  /**
    The classification of a login answer. A non-ok status throws `detail`
    or `Login failed with status: N` (401 and 403 included: they get no
    special treatment); an ok answer without a truthy `access_token` throws
    the missing-token message; a rejected fetch or an unparsable ok body
    rethrows the rejection's message.
   */
  function Classify(answer: FetchOutcome): (v: Verdict)
    ensures v.Granted? <==> answer.Received? && IsOk(answer.response.status) && answer.response.body.Parsed?
                            && Present(Member(answer.response.body.fields, "access_token"))
    ensures v.Granted? ==> v.accessToken == answer.response.body.fields["access_token"] && v.accessToken != ""
    ensures answer.Received? && !IsOk(answer.response.status) ==>
              v == Refused(match answer.response.body
                           case Parsed(obj) => Or(Member(obj, "detail"), StatusMessage(LoginFailedPrefix, answer.response.status))
                           case Unparsable(_) => StatusMessage(LoginFailedPrefix, answer.response.status))
    ensures (answer.Received? && IsOk(answer.response.status) && answer.response.body.Parsed?
             && !Present(Member(answer.response.body.fields, "access_token"))) ==> v == Refused(NoTokenMessage)
    ensures answer.Received? && IsOk(answer.response.status) && answer.response.body.Unparsable? ==>
              v == Refused(answer.response.body.reason)
    ensures answer.NetworkFailure? ==> v == Refused(answer.message)
  {
    match answer
    case NetworkFailure(m) => Refused(m)
    case Received(Response(status, body)) =>
      if !IsOk(status) then
        var fallback := StatusMessage(LoginFailedPrefix, status);
        match body
        case Parsed(obj) => Refused(Or(Member(obj, "detail"), fallback))
        case Unparsable(_) => Refused(fallback)
      else
        match body
        case Unparsable(reason) => Refused(reason)
        case Parsed(data) =>
          var t := Member(data, "access_token");
          if Present(t) then Granted(t.value) else Refused(NoTokenMessage)
  }

  /** A login refused for a non-ok status names the server's `detail`, or else the status itself. */
  lemma RefusalNamesStatus(answer: FetchOutcome)
    requires answer.Received? && !IsOk(answer.response.status)
    ensures Classify(answer).Refused?
    ensures var m := Classify(answer).message;
            || (answer.response.body.Parsed? && Member(answer.response.body.fields, "detail") == Some(m) && m != "")
            || (|m| > |LoginFailedPrefix| && m[..|LoginFailedPrefix|] == LoginFailedPrefix
                && Decimal.AllDigits(m[|LoginFailedPrefix|..])
                && Decimal.ParseDecimal(m[|LoginFailedPrefix|..]) == answer.response.status)
  {
  }

  /** What `login` resolves to: the minimal user, or the error it throws. */
  datatype LoginOutcome = LoggedIn(user: User) | LoginFailed(message: string)

  /** A transition of the session: the new state, the effects in order, the caller-visible outcome. */
  datatype LoginStep = LoginStep(session: Session, effects: seq<Effect>, outcome: LoginOutcome)

  /** `from || '/'`. */
  function Destination(from: string): (p: string)
    ensures p != ""
    ensures from != "" ==> p == from
  {
    if from != "" then from else "/"
  }

  /**
    `login(username, password, from)` against the server's answer. It
    always sends the login request first. On a granted token it sets the
    token (user and storage follow in `Sync`), navigates to `from || '/'`
    replacing the history entry, and returns `{username}`. On any refusal
    nothing changes and nothing else happens.
   */
  function Login(s: Session, username: string, password: string, from: string, answer: FetchOutcome): (r: LoginStep)
    ensures |r.effects| >= 1 && r.effects[0] == Send(LoginRequest(username, password))
    ensures r.outcome.LoggedIn? <==> Classify(answer).Granted?
    ensures r.outcome.LoggedIn? ==>
              && r.session == s.(token := Some(Classify(answer).accessToken))
              && IsAuthenticated(r.session)
              && r.outcome.user == User(username)
              && r.effects == [Send(LoginRequest(username, password)), Navigate(At(Destination(from)), true)]
    ensures r.outcome.LoginFailed? ==>
              && r.session == s
              && r.effects == [Send(LoginRequest(username, password))]
              && r.outcome.message == Classify(answer).message
  {
    var request := Send(LoginRequest(username, password));
    match Classify(answer)
    case Granted(t) =>
      LoginStep(s.(token := Some(t)), [request, Navigate(At(Destination(from)), true)], LoggedIn(User(username)))
    case Refused(m) =>
      LoginStep(s, [request], LoginFailed(m))
  }

  /** A session change with its effects. */
  datatype Transition = Transition(session: Session, effects: seq<Effect>)

  /** `logout()`: clear the token and go home replacing history; no request is sent. */
  function Logout(s: Session): (r: Transition)
    ensures r.session.token.None? && !IsAuthenticated(r.session)
    ensures r.session.user == s.user && r.session.storage == s.storage
    ensures NoRequest(r.effects)
    ensures r.effects == [Navigate(At("/"), true)]
  {
    Transition(s.(token := None), [Navigate(At("/"), true)])
  }

  /**
    Storage round trip: after a successful login and the token effect the
    stored token is the one the server issued; after logout and the effect
    there is no stored token and no user.
   */
  lemma {:induction false} LoginLogoutStorage(s: Session, username: string, password: string, from: string,
                                              answer: FetchOutcome)
    requires Classify(answer).Granted?
    ensures var after := Sync(Login(s, username, password, from, answer).session);
            && IsAuthenticated(after)
            && StoredToken(after.storage) == Some(answer.response.body.fields["access_token"])
            && after.user == Some(User(SyncedName))
    ensures var out := Sync(Logout(Sync(Login(s, username, password, from, answer).session)).session);
            && StoredToken(out.storage).None? && out.user.None? && !IsAuthenticated(out)
  {
  }
}
