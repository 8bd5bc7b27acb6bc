/** Requests as values, replies as inputs, and the effects a step emits.
    The transport itself (axios, base URL, promises) is not modelled: a step
    that would call the network emits `Send(request)` instead, and the
    outcome comes back later as a `Reply`. */
module Http {
  import opened Js
  import opened Entities

  datatype Method = Get | Post | Put

  /** A JSON request body: none, a flat object of string fields, or a whole
      user profile. */
  datatype Body = NoBody | Fields(fields: map<string, string>) | ProfileData(profile: Profile)

  /** A request: verb, path below the API base address, headers and body. */
  datatype Request = Request(verb: Method, path: string, headers: map<string, string>, body: Body)

  /** The part of a rejected request the client inspects: the response
      status and the `message` field of the response body. */
  datatype ErrorResponse = ErrorResponse(status: int, message: Value)

  /** How a request ends: a 2xx reply with its data, or a rejection that
      carries a response (the server answered) or none (transport error). */
  datatype Reply<+T> = Ok(data: T) | Failed(response: Option<ErrorResponse>)

  datatype Level = Success | Error

  /** What a step asks the outside world to do. */
  datatype Effect =
    | Navigate(to: string)
    | Send(request: Request)
    | Alert(text: string)
    | Toast(level: Level, text: string)

  const AuthorizationHeader := "Authorization"

  /** The text that follows "Bearer " in an Authorization header. */
  function Bearer(token: string): string {
    "Bearer " + token
  }

  /** `err.response?.data?.message || fallback`: the server's message when
      the rejection carries a truthy one, the fallback otherwise. */
  function ServerMessageOr(response: Option<ErrorResponse>, fallback: string): (text: string)
    ensures response.Some? && Truthy(response.value.message) ==>
              text == response.value.message.s && text != ""
    ensures response.None? ==> text == fallback
    ensures response.Some? && !Truthy(response.value.message) ==> text == fallback
  {
    if response.Some? then OrElse(response.value.message, fallback) else fallback
  }

  /** Whether an effect list sends any request at all. */
  predicate SendsNothing(effects: seq<Effect>) {
    forall i :: 0 <= i < |effects| ==> !effects[i].Send?
  }
}
