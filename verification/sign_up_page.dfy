/**
  The sign-up page's submit: three ordered form checks (the first failure
  wins and nothing is sent), the JSON payload, the error-message chain, and
  the redirect to the login page on success.
 */
module SignUpPage {
  import opened Wrappers
  import opened Http
  import opened Router
  import opened Effects
  import Pairs

  const SignUpUrl := "/api/users/"
  const MismatchMessage := "Passwords do not match."
  const TooShortMessage := "Password must be at least 6 characters long."
  const NamesMessage := "Please fill in your first and last name."
  const FailedPrefix := "Sign up failed with status: "
  const UnparsableSuffix := ". Could not parse error details."
  const FallbackMessage := "Sign up failed. Please try again."

  /** The shortest accepted password, in UTF-16 code units. */
  const MinPasswordLength := 6

  datatype SignUpForm = SignUpForm(username: string, email: string, givenName: string, familyName: string,
                                   password: string, confirmPassword: string)

  datatype SignUpView = SignUpView(error: string, loading: bool)

  datatype SignUpStep = SignUpStep(view: SignUpView, effects: seq<Effect>)

  /**
    JavaScript's `length` of a string: UTF-16 code units, so a character
    outside the Basic Multilingual Plane counts twice.
   */
  function Utf16Length(s: string): (n: nat)
    ensures |s| <= n <= 2 * |s|
    ensures (forall i :: 0 <= i < |s| ==> s[i] as int < 0x10000) ==> n == |s|
    ensures (forall i :: 0 <= i < |s| ==> s[i] as int >= 0x10000) ==> n == 2 * |s|
  {
    if |s| == 0 then 0 else (if s[0] as int >= 0x10000 then 2 else 1) + Utf16Length(s[1..])
  }

  /** The UTF-16 length of a concatenation is the sum of the lengths. */
  lemma {:induction false} Utf16LengthConcat(a: string, b: string)
    ensures Utf16Length(a + b) == Utf16Length(a) + Utf16Length(b)
    decreases |a|
  {
    if |a| > 0 {
      assert (a + b)[0] == a[0];
      assert (a + b)[1..] == a[1..] + b;
      Utf16LengthConcat(a[1..], b);
    } else {
      assert a + b == b;
    }
  }

  /**
    Three characters outside the Basic Multilingual Plane make six UTF-16
    code units, so such a password passes the length check.
   */
  lemma AstralPasswordAccepted(username: string, email: string, givenName: string, familyName: string)
    requires givenName != "" && familyName != ""
    ensures var pw := "\U{1F642}\U{1F642}\U{1F642}";
            |pw| == 3 && Utf16Length(pw) == 6
            && Check(SignUpForm(username, email, givenName, familyName, pw, pw)).None?
  {
  }

  /**
    The checks in order: passwords match, password long enough, both names
    given. The result is the first failing check's message.
   */
  function Check(form: SignUpForm): (r: Option<string>)
    ensures r == Some(MismatchMessage) <==> form.password != form.confirmPassword
    ensures r == Some(TooShortMessage) <==>
              form.password == form.confirmPassword && Utf16Length(form.password) < MinPasswordLength
    ensures r == Some(NamesMessage) <==>
              form.password == form.confirmPassword && Utf16Length(form.password) >= MinPasswordLength
              && (form.givenName == "" || form.familyName == "")
    ensures r.None? <==>
              form.password == form.confirmPassword && Utf16Length(form.password) >= MinPasswordLength
              && form.givenName != "" && form.familyName != ""
  {
    if form.password != form.confirmPassword then Some(MismatchMessage)
    else if Utf16Length(form.password) < MinPasswordLength then Some(TooShortMessage)
    else if form.givenName == "" || form.familyName == "" then Some(NamesMessage)
    else None
  }

  /** The JSON payload of the sign-up request. */
  function Payload(form: SignUpForm): seq<Pairs.Pair> {
    [("username", form.username), ("email", form.email), ("given_name", form.givenName),
     ("family_name", form.familyName), ("password", form.password)]
  }

  /** The payload carries the names under snake-case keys and the other fields verbatim. */
  lemma PayloadFields(form: SignUpForm)
    ensures Pairs.First(Payload(form), "username") == Some(form.username)
    ensures Pairs.First(Payload(form), "email") == Some(form.email)
    ensures Pairs.First(Payload(form), "given_name") == Some(form.givenName)
    ensures Pairs.First(Payload(form), "family_name") == Some(form.familyName)
    ensures Pairs.First(Payload(form), "password") == Some(form.password)
    ensures Pairs.First(Payload(form), "givenName").None? && Pairs.First(Payload(form), "familyName").None?
    ensures Pairs.First(Payload(form), "confirmPassword").None?
  {
    var p := Payload(form);
    Pairs.FirstAt(p, 2);
    Pairs.FirstAt(p, 3);
    Pairs.FirstAt(p, 4);
    Pairs.FirstAbsent(p, "givenName");
    Pairs.FirstAbsent(p, "familyName");
    Pairs.FirstAbsent(p, "confirmPassword");
  }

  /** The POST to the users endpoint with the JSON payload. */
  function SignUpRequest(form: SignUpForm): (q: Request)
    ensures q.verb == Post && q.url == SignUpUrl && q.body == Json(Payload(form))
    ensures q.headers == [ContentTypeJson, AcceptJson]
  {
    Request(Post, SignUpUrl, [ContentTypeJson, AcceptJson], Json(Payload(form)))
  }

  /** Where a successful sign-up goes: `/login?signup=success`. */
  const LoginLanding := Location("/login", [("signup", "success")], NoState)

  /** The message of a non-ok answer: `detail || message || <status>`, noting a body that does not parse. */
  function FailureMessage(response: Response): (m: string)
    requires !IsOk(response.status)
    ensures m != ""
    ensures response.body.Parsed? ==> m == DetailOrMessage(response.body.fields, StatusMessage(FailedPrefix, response.status))
    ensures response.body.Unparsable? ==> m == StatusMessage(FailedPrefix, response.status) + UnparsableSuffix
  {
    var base := StatusMessage(FailedPrefix, response.status);
    match response.body
    case Parsed(obj) => DetailOrMessage(obj, base)
    case Unparsable(_) => base + UnparsableSuffix
  }

  /**
    `handleSubmit`. A failed check shows its message, sends nothing and
    leaves loading as it was. Otherwise the payload is posted; success
    navigates to the login page with `signup=success`, a failure shows its
    message; loading ends false either way.
   */
  function Submit(form: SignUpForm, prior: SignUpView, answer: FetchOutcome): (r: SignUpStep)
    ensures Check(form).Some? ==> r.view == SignUpView(Check(form).value, prior.loading) && r.effects == []
    ensures Check(form).None? ==> |r.effects| >= 1 && r.effects[0] == Send(SignUpRequest(form)) && !r.view.loading
    ensures Check(form).None? && answer.Received? && IsOk(answer.response.status) ==>
              r.effects == [Send(SignUpRequest(form)), Navigate(LoginLanding, false)] && r.view.error == ""
    ensures Check(form).None? && answer.Received? && !IsOk(answer.response.status) ==>
              r.effects == [Send(SignUpRequest(form))] && r.view.error == FailureMessage(answer.response)
    ensures Check(form).None? && answer.NetworkFailure? ==>
              r.effects == [Send(SignUpRequest(form))] && r.view.error == Or(Some(answer.message), FallbackMessage)
    ensures r.view.error == "" <==> Check(form).None? && answer.Received? && IsOk(answer.response.status)
  {
    match Check(form)
    case Some(message) => SignUpStep(SignUpView(message, prior.loading), [])
    case None =>
      var send := Send(SignUpRequest(form));
      match answer
      case NetworkFailure(m) => SignUpStep(SignUpView(Or(Some(m), FallbackMessage), false), [send])
      case Received(response) =>
        if IsOk(response.status) then SignUpStep(SignUpView("", false), [send, Navigate(LoginLanding, false)])
        else SignUpStep(SignUpView(FailureMessage(response), false), [send])
  }

  /** A request is sent exactly when every check passes. */
  lemma SendsOnlyWhenValid(form: SignUpForm, prior: SignUpView, answer: FetchOutcome)
    ensures NoRequest(Submit(form, prior, answer).effects) <==> Check(form).Some?
  {
  }
}
