/** The profile page's fetch: token guard, Bearer GET, 401/403 interception, shown error. */
module ProfilePage {
  import opened Wrappers
  import opened Http
  import opened Effects
  import opened Interceptor
  import Pairs
  import AuthContext

  const ProfileUrl := "/api/users/me/"
  const NotAuthenticatedMessage := "Not authenticated."
  /** The sentinel thrown after calling `handleUnauthorized`. */
  const Sentinel := "Unauthorized access to profile."
  const FailedPrefix := "Failed to fetch profile: "
  const FallbackMessage := "Could not load profile data."

  datatype ProfileView = ProfileView(profile: Option<JsonObject>, loading: bool, error: string)

  datatype ProfileStep = ProfileStep(view: ProfileView, effects: seq<Effect>)

  /** The GET of the current user's profile, authorized with the given token. */
  function ProfileRequest(token: string): (q: Request)
    ensures q.verb == Get && q.url == ProfileUrl && q.body == NoBody
    ensures Pairs.First(q.headers, "Authorization").Some?
    ensures CredentialOf(Pairs.First(q.headers, "Authorization").value) == Some(token)
  {
    Request(Get, ProfileUrl, [Authorization(token), AcceptJson], NoBody)
  }

  /**
    `fetchProfile`, run when the token changes. Without a truthy token: the
    not-authenticated message and no request. Otherwise the GET goes out; a
    401/403 goes through the interceptor, other failures show their message
    unless it is the sentinel, and success stores the parsed body as the
    profile. The profile is otherwise kept as it was; loading always ends false.
   */
  function Fetch(ctx: AuthContext.ContextValue, prior: Option<JsonObject>, answer: FetchOutcome): (r: ProfileStep)
    ensures !Present(ctx.token) ==> r == ProfileStep(ProfileView(prior, false, NotAuthenticatedMessage), [])
    ensures !r.view.loading
    ensures Present(ctx.token) ==> |r.effects| >= 1 && r.effects[0] == Send(ProfileRequest(ctx.token.value))
    ensures Present(ctx.token) ==>
              var a := Call(ctx.handleUnauthorized, Sentinel, FailedPrefix, answer);
              && (a.Returned? ==> r.view == ProfileView(Some(a.data), false, "") && |r.effects| == 1)
              && (a.Threw? ==> r.view == ProfileView(prior, false, Shown(a.message, Sentinel, FallbackMessage).GetOr(""))
                               && r.effects == [r.effects[0]] + a.effects)
  {
    if !Present(ctx.token) then ProfileStep(ProfileView(prior, false, NotAuthenticatedMessage), [])
    else
      var t := ctx.token.value;
      var send := Send(ProfileRequest(t));
      match Call(ctx.handleUnauthorized, Sentinel, FailedPrefix, answer)
      case Returned(data) => ProfileStep(ProfileView(Some(data), false, ""), [send])
      case Threw(effects, message) =>
        ProfileStep(ProfileView(prior, false, Shown(message, Sentinel, FallbackMessage).GetOr("")), [send] + effects)
  }

  /**
    With the corrected context, a 401/403 answer calls the unauthorized
    callback after the request and shows no error.
   */
  lemma UnauthorizedIsSilent(s: AuthContext.Session, prior: Option<JsonObject>, answer: FetchOutcome)
    requires AuthContext.IsAuthenticated(s)
    requires answer.Received? && IsUnauthorized(answer.response.status)
    ensures var r := Fetch(AuthContext.Value(s), prior, answer);
            && r.effects == [Send(ProfileRequest(s.token.value)), CallUnauthorized]
            && r.view == ProfileView(prior, false, "")
  {
  }

  /**
    With the context as written, the same answer calls nothing and the
    engine's TypeError message is shown.
   */
  lemma UnauthorizedAsWritten(s: AuthContext.Session, prior: Option<JsonObject>, answer: FetchOutcome)
    requires AuthContext.IsAuthenticated(s)
    requires answer.Received? && IsUnauthorized(answer.response.status)
    ensures var r := Fetch(AuthContext.ValueAsWritten(s), prior, answer);
            && r.effects == [Send(ProfileRequest(s.token.value))]
            && r.view.error == NotAFunction
  {
  }

  /** Any other failed status shows `detail || message || Failed to fetch profile: N`, unless that equals the sentinel. */
  lemma OtherStatusShown(s: AuthContext.Session, prior: Option<JsonObject>, answer: FetchOutcome)
    requires AuthContext.IsAuthenticated(s)
    requires answer.Received? && !IsOk(answer.response.status) && !IsUnauthorized(answer.response.status)
    ensures var m := BodyMessage(answer.response.body, StatusMessage(FailedPrefix, answer.response.status));
            var r := Fetch(AuthContext.Value(s), prior, answer);
            && CallUnauthorized !in r.effects
            && (m != Sentinel ==> r.view.error == m && m != "")
  {
  }
}
