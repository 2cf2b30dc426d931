/** The effects the core hands to the browser, returned as values in source order. */
module Effects {
  import Http
  import Router

  datatype Effect =
    | Send(request: Http.Request)
    | CallUnauthorized
    | Navigate(to: Router.Location, replace: bool)

  /** No request is sent by this list of effects. */
  predicate NoRequest(effects: seq<Effect>) {
    forall i :: 0 <= i < |effects| ==> !effects[i].Send?
  }
}
