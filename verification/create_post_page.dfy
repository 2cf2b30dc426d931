/**
  The create-post page's submit: the token guard, the multipart form, the
  Bearer header, the 401/403 interception and the error shown afterwards.
 */
module CreatePostPage {
  import opened Wrappers
  import opened Http
  import opened Router
  import opened Effects
  import opened Interceptor
  import Pairs
  import AuthContext

  const CreateUrl := "/api/posts/"
  const NotLoggedInMessage := "You must be logged in to create a post."
  /** The sentinel thrown after calling `handleUnauthorized`. */
  const Sentinel := "Authorization failed."
  const FailedPrefix := "Failed to create post: "
  const FallbackMessage := "Failed to create post. Please try again."
  const UnknownAuthor := "Unknown Author"

  /** The form's fields; `date` is whatever the date field holds when submitting. */
  datatype PostForm = PostForm(title: string, snippet: string, content: string, date: string, image: Option<File>)

  datatype PostView = PostView(loading: bool, error: string, success: string)

  datatype PostStep = PostStep(view: PostView, effects: seq<Effect>)

  /** `user?.username || 'Unknown Author'`. */
  function Author(user: Option<AuthContext.User>): (a: string)
    ensures a != ""
    ensures user.Some? && user.value.username != "" ==> a == user.value.username
    ensures (user.None? || user.value.username == "") ==> a == UnknownAuthor
  {
    match user
    case Some(u) => if u.username != "" then u.username else UnknownAuthor
    case None => UnknownAuthor
  }

  /** The multipart fields: five text fields, then the image only when one was picked. */
  function Fields(form: PostForm, user: Option<AuthContext.User>): (fields: seq<FormField>)
    ensures |fields| == if form.image.Some? then 6 else 5
    ensures fields[..5] == [TextField("title", form.title), TextField("snippet", form.snippet),
                            TextField("content", form.content), TextField("date", form.date),
                            TextField("author", Author(user))]
    ensures form.image.Some? ==> fields[5] == FileField("image_file", form.image.value)
  {
    var text := [TextField("title", form.title), TextField("snippet", form.snippet),
                 TextField("content", form.content), TextField("date", form.date),
                 TextField("author", Author(user))];
    match form.image
    case Some(f) => text + [FileField("image_file", f)]
    case None => text
  }

  /** The POST to the posts endpoint, authorized with the given token. */
  function PostRequest(token: string, form: PostForm, user: Option<AuthContext.User>): (q: Request)
    ensures q.verb == Post && q.url == CreateUrl
    ensures Pairs.First(q.headers, "Authorization").Some?
    ensures CredentialOf(Pairs.First(q.headers, "Authorization").value) == Some(token)
    ensures q.body == Form(Fields(form, user))
  {
    Request(Post, CreateUrl, [Authorization(token), AcceptJson], Form(Fields(form, user)))
  }

  /** The success banner: the created post's title, `undefined` when the answer has none. */
  function SuccessMessage(created: JsonObject): (m: string)
    ensures "title" in created ==> m == "Post \"" + created["title"] + "\" created successfully!"
    ensures "title" !in created ==> m == "Post \"undefined\" created successfully!"
  {
    "Post \"" + Member(created, "title").GetOr("undefined") + "\" created successfully!"
  }

  /**
    `handleSubmit`. Without a truthy token: the login message, no request,
    loading false. Otherwise the form is posted with `Bearer <token>`; a
    401/403 goes through the interceptor, other failures show their message
    unless it is the sentinel, success sets the banner and navigates home.
    Loading always ends false.
   */
  function Submit(form: PostForm, ctx: AuthContext.ContextValue, answer: FetchOutcome): (r: PostStep)
    ensures !Present(ctx.token) ==> r == PostStep(PostView(false, NotLoggedInMessage, ""), [])
    ensures !r.view.loading
    ensures Present(ctx.token) ==>
              |r.effects| >= 1 && r.effects[0] == Send(PostRequest(ctx.token.value, form, ctx.user))
    ensures Present(ctx.token) ==>
              var a := Call(ctx.handleUnauthorized, Sentinel, FailedPrefix, answer);
              && (a.Returned? ==> r.view == PostView(false, "", SuccessMessage(a.data))
                                  && r.effects == [r.effects[0], Navigate(At("/"), false)])
              && (a.Threw? ==> r.view == PostView(false, Shown(a.message, Sentinel, FallbackMessage).GetOr(""), "")
                               && r.effects == [r.effects[0]] + a.effects)
  {
    if !Present(ctx.token) then PostStep(PostView(false, NotLoggedInMessage, ""), [])
    else
      var t := ctx.token.value;
      var send := Send(PostRequest(t, form, ctx.user));
      match Call(ctx.handleUnauthorized, Sentinel, FailedPrefix, answer)
      case Returned(created) =>
        PostStep(PostView(false, "", SuccessMessage(created)), [send, Navigate(At("/"), false)])
      case Threw(effects, message) =>
        PostStep(PostView(false, Shown(message, Sentinel, FallbackMessage).GetOr(""), ""), [send] + effects)
  }

  /**
    With the corrected context, a 401/403 answer to a logged-in submit
    calls the unauthorized callback after sending, and shows no error.
   */
  lemma UnauthorizedIsSilent(form: PostForm, s: AuthContext.Session, answer: FetchOutcome)
    requires AuthContext.IsAuthenticated(s)
    requires answer.Received? && IsUnauthorized(answer.response.status)
    ensures var r := Submit(form, AuthContext.Value(s), answer);
            && r.effects == [Send(PostRequest(s.token.value, form, s.user)), CallUnauthorized]
            && r.view == PostView(false, "", "")
  {
  }

  /**
    With the context as written (no `handleUnauthorized`), the same answer
    calls nothing and shows the engine's TypeError message instead.
   */
  lemma UnauthorizedAsWritten(form: PostForm, s: AuthContext.Session, answer: FetchOutcome)
    requires AuthContext.IsAuthenticated(s)
    requires answer.Received? && IsUnauthorized(answer.response.status)
    ensures var r := Submit(form, AuthContext.ValueAsWritten(s), answer);
            && r.effects == [Send(PostRequest(s.token.value, form, s.user))]
            && r.view.error == NotAFunction
  {
  }

  /** Any other failed status shows `detail || message || Failed to create post: N`, unless that equals the sentinel. */
  lemma OtherStatusShown(form: PostForm, s: AuthContext.Session, answer: FetchOutcome)
    requires AuthContext.IsAuthenticated(s)
    requires answer.Received? && !IsOk(answer.response.status) && !IsUnauthorized(answer.response.status)
    ensures var m := BodyMessage(answer.response.body, StatusMessage(FailedPrefix, answer.response.status));
            var r := Submit(form, AuthContext.Value(s), answer);
            && CallUnauthorized !in r.effects
            && (m != Sentinel ==> r.view.error == m && m != "")
  {
  }
}
