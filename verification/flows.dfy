/**
  Properties that span several components: the guard's login detour and
  its return, the hand-offs from the sign-up and validation pages to the
  login page's toast, and the session across a run of logins and logouts.
 */
module Flows {
  import opened Wrappers
  import opened Http
  import opened Router
  import opened Effects
  import AuthContext
  import ProtectedRoute
  import LoginPage
  import SignUpPage
  import ValidateUserPage

  /**
    A denied visit to a protected location, followed by a successful login
    on the page the guard redirected to, goes back to the denied path
    (replacing history), persists the issued token, and the guard then
    admits the same visit.
   */
  lemma DeniedVisitResumesAfterLogin(s: AuthContext.Session, location: Location,
                                     children: Option<ProtectedRoute.Element>,
                                     username: string, password: string, answer: FetchOutcome)
    requires !AuthContext.IsAuthenticated(s)
    requires location.pathname != ""
    requires AuthContext.Classify(answer).Granted?
    ensures ProtectedRoute.Guard(AuthContext.Value(s), location, children).Denied?
    ensures var landing := ProtectedRoute.Guard(AuthContext.Value(s), location, children).redirect.to;
            var r := LoginPage.Submit(s, landing, username, password, answer);
            var after := AuthContext.Sync(r.session);
            && landing.pathname == ProtectedRoute.LoginPath
            && r.effects[1] == Navigate(At(location.pathname), true)
            && AuthContext.StoredToken(after.storage) == Some(AuthContext.Classify(answer).accessToken)
            && ProtectedRoute.Guard(AuthContext.Value(after), location, children).Allowed?
  {
  }

  /** A successful sign-up lands on the login page showing the sign-up toast. */
  lemma SignUpLandsOnSignUpToast(form: SignUpPage.SignUpForm, prior: SignUpPage.SignUpView, answer: FetchOutcome)
    requires SignUpPage.Check(form).None?
    requires answer.Received? && IsOk(answer.response.status)
    ensures var r := SignUpPage.Submit(form, prior, answer);
            && r.effects[1].Navigate?
            && LoginPage.ToastFor(r.effects[1].to).toast == Some(LoginPage.Toast(LoginPage.SignUpToast, LoginPage.Success))
  {
  }

  /**
    A successful validation lands on the login page showing the validation
    toast, with home as the post-login destination.
   */
  lemma ValidationLandsOnValidationToast(location: Location, answer: FetchOutcome)
    requires Present(QueryGet(location.query, "challenge"))
    requires answer.Received? && IsOk(answer.response.status)
    ensures var r := ValidateUserPage.Run(location, answer);
            && r.effects[1].Navigate?
            && LoginPage.ToastFor(r.effects[1].to).toast
               == Some(LoginPage.Toast(LoginPage.ValidationToast, LoginPage.Success))
            && LoginPage.From(r.effects[1].to.state) == "/"
  {
  }

  /** A user action that changes the session. */
  datatype Event =
    | LoginAttempt(username: string, password: string, from: string, answer: FetchOutcome)
    | LogoutClick

  /** One action, followed by the token effect. */
  function Apply(s: AuthContext.Session, e: Event): (r: AuthContext.Session)
    ensures AuthContext.Synced(r)
  {
    match e
    case LoginAttempt(u, p, from, answer) => AuthContext.Sync(AuthContext.Login(s, u, p, from, answer).session)
    case LogoutClick => AuthContext.Sync(AuthContext.Logout(s).session)
  }

  /** The actions applied in order. */
  function Replay(s: AuthContext.Session, events: seq<Event>): AuthContext.Session
    decreases |events|
  {
    if |events| == 0 then s else Apply(Replay(s, events[..|events| - 1]), events[|events| - 1])
  }

  /**
    The token in force after a run of actions, defined independently: the
    last logout clears it, the last granted login sets it, refused logins
    leave it.
   */
  function Credential(start: Option<string>, events: seq<Event>): Option<string>
    decreases |events|
  {
    if |events| == 0 then start
    else
      match events[|events| - 1]
      case LogoutClick => None
      case LoginAttempt(_, _, _, answer) =>
        match AuthContext.Classify(answer)
        case Granted(t) => Some(t)
        case Refused(_) => Credential(start, events[..|events| - 1])
  }

  /**
    Across any run of logins and logouts from a synced session, the session
    stays synced and its token is the one `Credential` predicts; so storage
    holds exactly that token whenever it is truthy.
   */
  lemma {:induction false} ReplayTracksCredential(s: AuthContext.Session, events: seq<Event>)
    requires AuthContext.Synced(s)
    ensures AuthContext.Synced(Replay(s, events))
    ensures Replay(s, events).token == Credential(s.token, events)
    decreases |events|
  {
    if |events| > 0 {
      ReplayTracksCredential(s, events[..|events| - 1]);
    }
  }

  /** The scenario of a first visit: alice logs in, the server issues `tok123`, then alice logs out. */
  lemma AliceScenario()
    ensures var start := AuthContext.Mount(map[]);
            var answer := Received(Response(200, Parsed(map["access_token" := "tok123", "token_type" := "bearer"])));
            var step := AuthContext.Login(start, "alice", "secret1", "/profile", answer);
            var after := AuthContext.Sync(step.session);
            && step.outcome == AuthContext.LoggedIn(AuthContext.User("alice"))
            && AuthContext.StoredToken(after.storage) == Some("tok123")
            && step.effects[1] == Navigate(At("/profile"), true)
            && AuthContext.StoredToken(AuthContext.Sync(AuthContext.Logout(after).session).storage).None?
  {
  }
}
