/** What Login.js and Register.js do once the auth request has settled;
    both components follow the same rule and differ only in the fallback
    message. */
module Auth {
  import opened Js
  import opened Http
  import opened Storage

  /** The part of a successful auth reply the client reads: `data.token`. */
  datatype AuthData = AuthData(token: Value)

  /** The outcome of a settled auth request: the store afterwards, the
      form's new error text (if it is set), and the effects. */
  datatype Settled = Settled(session: Session, error: Option<string>, effects: seq<Effect>)

  /** On success `localStorage.setItem("token", data.token)` and navigate to
      /dashboard; on failure set the error to the server's message or the
      fallback, leaving the store alone and staying on the page. */
  function Settle(s: Session, reply: Reply<AuthData>, fallback: string): (r: Settled)
    ensures reply.Ok? ==> r.error.None? && r.effects == [Navigate("/dashboard")]
    ensures reply.Ok? && reply.data.token.Str? ==> r.session == s.(token := Some(reply.data.token.s))
    ensures reply.Ok? ==> r.session == s.(token := Some(ToText(reply.data.token)))
    ensures reply.Ok? && reply.data.token.Undefined? ==> r.session.token == Some("undefined")
    ensures reply.Ok? && reply.data.token.Null? ==> r.session.token == Some("null")
    ensures reply.Failed? ==> r.session == s && r.effects == []
    ensures reply.Failed? ==> r.error == Some(ServerMessageOr(reply.response, fallback))
    ensures r.session.username == s.username
  {
    match reply
    case Ok(data) => Settled(StoreToken(s, data.token), None, [Navigate("/dashboard")])
    case Failed(response) => Settled(s, Some(ServerMessageOr(response, fallback)), [])
  }

  /** After a successful reply the guard admits exactly when the token the
      server sent is not an empty string: a string token is stored as is,
      and a missing or null token is stored as the text "undefined" or
      "null", which is truthy. */
  lemma SuccessAdmits(s: Session, reply: Reply<AuthData>, fallback: string)
    requires reply.Ok?
    ensures HasToken(Settle(s, reply, fallback).session) <==> reply.data.token != Str("")
  {
  }
}
