/** The Login form of client/src/components/Auth/Login.js. */
module Login {
  import opened Js
  import opened Http
  import opened Storage
  import Api
  import Auth

  datatype Form = Form(email: string, password: string, error: string)

  const Fallback := "An error occurred during login"

  /** `handleSubmit`: always posts the credentials, with no local check.
      The call goes to axios directly, so no Authorization header is added;
      the body holds exactly the email and the password. */
  function Submit(f: Form): (effects: seq<Effect>)
    ensures |effects| == 1 && effects[0].Send?
    ensures effects[0].request.verb == Post && effects[0].request.path == "/auth/login"
    ensures effects[0].request.headers == map[]
    ensures effects[0].request.body == Fields(map["email" := f.email, "password" := f.password])
    ensures effects[0].request.body.fields.Keys == {"email", "password"}
    ensures effects[0].request == Api.RequestFor(Api.LoginCall(f.email, f.password))
  {
    [Send(Api.RequestFor(Api.LoginCall(f.email, f.password)))]
  }

  /** The form, the store and the effects after a reply has been handled. */
  datatype Step = Step(form: Form, session: Session, effects: seq<Effect>)

  /** The reply to the login request. Success stores the returned token and
      goes to /dashboard; failure shows the server's message or the login
      fallback, writes no token and navigates nowhere. */
  function OnReply(f: Form, s: Session, reply: Reply<Auth.AuthData>): (r: Step)
    ensures reply.Ok? && reply.data.token.Str? ==> r.session.token == Some(reply.data.token.s)
    ensures reply.Ok? ==> r.session == s.(token := Some(ToText(reply.data.token)))
    ensures reply.Ok? && reply.data.token.Undefined? ==> r.session.token == Some("undefined")
    ensures reply.Ok? && reply.data.token.Null? ==> r.session.token == Some("null")
    ensures reply.Ok? ==> r.form == f && r.effects == [Navigate("/dashboard")]
    ensures reply.Failed? ==> r.session == s && r.effects == []
    ensures reply.Failed? ==> r.form == f.(error := ServerMessageOr(reply.response, Fallback))
    ensures reply.Failed? ==> r.form.error != ""
  {
    var settled := Auth.Settle(s, reply, Fallback);
    var f' := if settled.error.Some? then f.(error := settled.error.value) else f;
    Step(f', settled.session, settled.effects)
  }
}
