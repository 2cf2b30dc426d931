/**
  The abstract HTTP layer the pages talk to. `fetch` itself is not modelled:
  every operation receives the server's answer as a `FetchOutcome` value and
  returns the request it would have sent as data.
 */
module Http {
  import opened Wrappers
  import Decimal
  import Pairs

  /** A parsed JSON object body; only string-valued members are represented. */
  type JsonObject = map<string, string>

  /** What `response.json()` yields: an object, or a rejection with its message. */
  datatype Body = Parsed(fields: JsonObject) | Unparsable(reason: string)

  datatype Response = Response(status: nat, body: Body)

  /** The settled `fetch` promise: a response, or a rejection (e.g. the network is down). */
  datatype FetchOutcome = Received(response: Response) | NetworkFailure(message: string)

  datatype Method = Get | Post

  type Header = Pairs.Pair

  /** A file picked in a file input; its contents are opaque. */
  datatype File = File(name: string)

  datatype FormField = TextField(name: string, value: string) | FileField(name: string, file: File)

  datatype RequestBody =
    | NoBody
    | Form(fields: seq<FormField>)
    | Json(members: seq<Pairs.Pair>)

  datatype Request = Request(verb: Method, url: string, headers: seq<Header>, body: RequestBody)

  const AcceptJson: Header := ("Accept", "application/json")
  const ContentTypeJson: Header := ("Content-Type", "application/json")

  /** `response.ok`: the status is in the range 200 to 299. */
  predicate IsOk(status: nat) {
    200 <= status <= 299
  }

  /** The two statuses the pages treat as a rejected credential. */
  predicate IsUnauthorized(status: nat) {
    status == 401 || status == 403
  }

  /** JavaScript truthiness of a string that may be missing: absent and "" are falsy. */
  predicate Present(v: Option<string>) {
    v.Some? && v.value != ""
  }

  /** Property access on a parsed object; a missing member is `undefined`. */
  function Member(obj: JsonObject, key: string): (r: Option<string>)
    ensures r.Some? <==> key in obj
    ensures r.Some? ==> r.value == obj[key]
  {
    if key in obj then Some(obj[key]) else None
  }

  /** `v || fallback` for a string that may be missing. */
  function Or(v: Option<string>, fallback: string): (r: string)
    ensures r == fallback || (Some(r) == v && r != "")
    ensures Present(v) ==> r == v.value
  {
    if Present(v) then v.value else fallback
  }

  /** The chain `errorData.detail || errorData.message || fallback`. */
  function DetailOrMessage(obj: JsonObject, fallback: string): (r: string)
    ensures Present(Member(obj, "detail")) ==> r == obj["detail"]
    ensures !Present(Member(obj, "detail")) && Present(Member(obj, "message")) ==> r == obj["message"]
    ensures r != fallback ==> r != "" && (Member(obj, "detail") == Some(r) || Member(obj, "message") == Some(r))
    ensures fallback != "" ==> r != ""
  {
    Or(Member(obj, "detail"), Or(Member(obj, "message"), fallback))
  }

  /**
    The error message of a failed response when the page tries
    `detail || message` and keeps `fallback` if the body does not parse.
   */
  function BodyMessage(body: Body, fallback: string): (r: string)
    ensures body.Unparsable? ==> r == fallback
    ensures body.Parsed? ==> r == DetailOrMessage(body.fields, fallback)
  {
    match body
    case Parsed(obj) => DetailOrMessage(obj, fallback)
    case Unparsable(_) => fallback
  }

  /**
    A fallback message `prefix` followed by the status in decimal, as the
    template literals `...: ${response.status}` build it. The status can be
    read back from the message.
   */
  function StatusMessage(prefix: string, status: nat): (m: string)
    ensures |m| > |prefix| && m[..|prefix|] == prefix
    ensures Decimal.AllDigits(m[|prefix|..]) && Decimal.ParseDecimal(m[|prefix|..]) == status
    ensures status > 0 ==> m[|prefix|] != '0'
    ensures status == 0 ==> m[|prefix|..] == "0"
  {
    Decimal.ParseNatToString(status);
    var m := prefix + Decimal.NatToString(status);
    assert m[|prefix|..] == Decimal.NatToString(status);
    m
  }

  /** Two statuses yield the same fallback message only if they are equal. */
  lemma StatusMessageInjective(prefix: string, a: nat, b: nat)
    requires StatusMessage(prefix, a) == StatusMessage(prefix, b)
    ensures a == b
  {
  }

  const BearerScheme := "Bearer "

  /** The credential carried by an `Authorization` value of the Bearer scheme. */
  function CredentialOf(value: string): Option<string> {
    if |value| >= |BearerScheme| && value[..|BearerScheme|] == BearerScheme
    then Some(value[|BearerScheme|..])
    else None
  }

  /** The header `Authorization: Bearer <token>`; the token can be read back from it. */
  function Authorization(token: string): (h: Header)
    ensures h.0 == "Authorization"
    ensures CredentialOf(h.1) == Some(token)
  {
    var v := BearerScheme + token;
    assert v[..|BearerScheme|] == BearerScheme && v[|BearerScheme|..] == token;
    ("Authorization", v)
  }
}
