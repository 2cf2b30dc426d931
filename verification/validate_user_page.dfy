/**
  The account-validation page: read the `challenge` query parameter, post
  it, and on success hand `validationSuccess` to the login page.
 */
module ValidateUserPage {
  import opened Wrappers
  import opened Http
  import opened Router
  import opened Effects
  import Pairs

  const ValidateUrl := "/users/"
  const MissingMessage := "Challenge token missing from URL."
  const FailedPrefix := "Validation failed with status: "
  const FallbackMessage := "Validation failed. Please try again or contact support."

  datatype ValidateView = ValidateView(loading: bool, error: string)

  datatype ValidateStep = ValidateStep(view: ValidateView, effects: seq<Effect>)

  /** The POST whose JSON body is exactly `{challenge: <challenge>}`. */
  function ValidateRequest(challenge: string): (q: Request)
    ensures q.verb == Post && q.url == ValidateUrl
    ensures q.body.Json? && |q.body.members| == 1 && Pairs.First(q.body.members, "challenge") == Some(challenge)
  {
    Request(Post, ValidateUrl, [ContentTypeJson, AcceptJson], Json([("challenge", challenge)]))
  }

  /** The login location a successful validation goes to, flagging `validationSuccess` in state. */
  const LoginLanding := Location("/login", [], NavState(None, true))

  /**
    The page's effect. A missing or empty `challenge` shows the missing
    message, sends nothing and stops loading. Otherwise the challenge is
    posted; a failure shows `detail || message || Validation failed with
    status: N` (or the rejection's message) and stops loading; success
    navigates to the login page with `validationSuccess` and keeps the
    spinner.
   */
  function Run(location: Location, answer: FetchOutcome): (r: ValidateStep)
    ensures !Present(QueryGet(location.query, "challenge")) ==>
              r == ValidateStep(ValidateView(false, MissingMessage), [])
    ensures Present(QueryGet(location.query, "challenge")) ==>
              |r.effects| >= 1 && r.effects[0] == Send(ValidateRequest(QueryGet(location.query, "challenge").value))
    ensures Present(QueryGet(location.query, "challenge")) && answer.Received? && IsOk(answer.response.status) ==>
              r.view == ValidateView(true, "") && r.effects == [r.effects[0], Navigate(LoginLanding, false)]
    ensures Present(QueryGet(location.query, "challenge")) && answer.Received? && !IsOk(answer.response.status) ==>
              r.view == ValidateView(false, BodyMessage(answer.response.body,
                                                         StatusMessage(FailedPrefix, answer.response.status)))
              && |r.effects| == 1
    ensures Present(QueryGet(location.query, "challenge")) && answer.NetworkFailure? ==>
              r.view == ValidateView(false, Or(Some(answer.message), FallbackMessage)) && |r.effects| == 1
    ensures r.view.error != "" <==> !r.view.loading
  {
    var challenge := QueryGet(location.query, "challenge");
    if !Present(challenge) then ValidateStep(ValidateView(false, MissingMessage), [])
    else
      var send := Send(ValidateRequest(challenge.value));
      match answer
      case NetworkFailure(m) => ValidateStep(ValidateView(false, Or(Some(m), FallbackMessage)), [send])
      case Received(Response(status, body)) =>
        if IsOk(status) then ValidateStep(ValidateView(true, ""), [send, Navigate(LoginLanding, false)])
        else ValidateStep(ValidateView(false, BodyMessage(body, StatusMessage(FailedPrefix, status))), [send])
  }
}
