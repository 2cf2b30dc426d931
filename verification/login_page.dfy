/**
  The login page: where to go after signing in, which toast to open on
  arrival, and how a submit reports a failed `login`.
 */
module LoginPage {
  import opened Wrappers
  import opened Http
  import opened Router
  import opened Effects
  import AuthContext

  const FallbackMessage := "Login failed. Please check your credentials."
  const ValidationToast := "Thank you for signing up! Please sign in with your new credentials."
  const SignUpToast := "Sign up initiated! Please check your email or sign in if validation complete."

  /** `location.state?.from?.pathname || '/'`: the remembered path, else home. */
  function From(state: NavState): (p: string)
    ensures p != ""
    ensures state.from.Some? && state.from.value.pathname != "" ==> p == state.from.value.pathname
    ensures (state.from.None? || state.from.value.pathname == "") ==> p == "/"
  {
    match state.from
    case Some(loc) => if loc.pathname != "" then loc.pathname else "/"
    case None => "/"
  }

  /** The toast's alert severity; the page only ever uses `success`. */
  datatype Severity = Success

  datatype Toast = Toast(message: string, severity: Severity)

  /** The toast opened on arrival, if any, and the navigation that clears the state. */
  datatype ToastStep = ToastStep(toast: Option<Toast>, effects: seq<Effect>)

  /** `params.get('signup') === 'success'`. */
  predicate SignUpFlag(location: Location) {
    QueryGet(location.query, "signup") == Some("success")
  }

  /**
    The arrival effect. `validationSuccess` in state wins over the
    `signup=success` query, and reading it clears the state with a
    replacing navigation to the same path. With neither flag no toast
    opens; an opened toast is always a success.
   */
  function ToastFor(location: Location): (r: ToastStep)
    ensures location.state.validationSuccess ==>
              r.toast == Some(Toast(ValidationToast, Success))
              && r.effects == [Navigate(At(location.pathname), true)]
    ensures !location.state.validationSuccess && SignUpFlag(location) ==>
              r.toast == Some(Toast(SignUpToast, Success)) && r.effects == []
    ensures r.toast.None? <==> !location.state.validationSuccess && !SignUpFlag(location)
    ensures r.toast.None? ==> r.effects == []
    ensures r.toast.Some? ==> r.toast.value.severity == Success
  {
    var message :=
      if location.state.validationSuccess then ValidationToast
      else if SignUpFlag(location) then SignUpToast
      else "";
    var effects := if location.state.validationSuccess then [Navigate(At(location.pathname), true)] else [];
    ToastStep(if message != "" then Some(Toast(message, Success)) else None, effects)
  }

  /** The validation toast is shown once: the location its clearing navigation reaches opens no toast. */
  lemma ValidationToastShownOnce(location: Location)
    requires location.state.validationSuccess
    ensures ToastFor(location).toast.Some?
    ensures var next := ToastFor(location).effects[0].to;
            ToastFor(next).toast.None? && ToastFor(next).effects == []
  {
  }

  datatype LoginView = LoginView(error: string, loading: bool)

  datatype SubmitStep = SubmitStep(session: AuthContext.Session, view: LoginView, effects: seq<Effect>)

  /**
    `handleSubmit`: calls `login` with the typed credentials and the
    computed `from`; shows the thrown message (or the fixed fallback for an
    empty one) on failure, nothing on success; loading always ends false.
   */
  function Submit(s: AuthContext.Session, location: Location, username: string, password: string,
                  answer: FetchOutcome): (r: SubmitStep)
    ensures var step := AuthContext.Login(s, username, password, From(location.state), answer);
            && r.session == step.session && r.effects == step.effects
            && (step.outcome.LoggedIn? ==> r.view.error == "")
            && (step.outcome.LoginFailed? ==> r.view.error == Or(Some(step.outcome.message), FallbackMessage))
    ensures r.view.error != "" <==> AuthContext.Classify(answer).Refused?
    ensures !r.view.loading
  {
    var step := AuthContext.Login(s, username, password, From(location.state), answer);
    var error := match step.outcome
      case LoggedIn(_) => ""
      case LoginFailed(m) => if m != "" then m else FallbackMessage;
    SubmitStep(step.session, LoginView(error, false), step.effects)
  }
}
