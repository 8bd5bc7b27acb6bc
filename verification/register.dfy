/** The Register form of client/src/components/Auth/Register.js. */
module Register {
  import opened Js
  import opened Http
  import opened Storage
  import Api
  import Auth

  datatype Form = Form(name: string, email: string, password: string, confirmPassword: string, error: string)

  const Mismatch := "Passwords do not match"
  const Fallback := "An error occurred during registration"

  /** The form and the effects after a submit. */
  datatype Attempt = Attempt(form: Form, effects: seq<Effect>)

  /** The form, the store and the effects after a reply has been handled. */
  datatype Step = Step(form: Form, session: Session, effects: seq<Effect>)

  /** `handleSubmit`: a password that differs from its confirmation sets the
      error and sends nothing; otherwise it posts name, email and password
      (never the confirmation) and leaves the form as it is. */
  function Submit(f: Form): (r: Attempt)
    ensures f.password != f.confirmPassword <==> r.effects == []
    ensures f.password != f.confirmPassword ==> r.form == f.(error := Mismatch)
    ensures f.password == f.confirmPassword ==> r.form == f && |r.effects| == 1 && r.effects[0].Send?
    ensures f.password == f.confirmPassword ==>
              && r.effects[0].request.verb == Post && r.effects[0].request.path == "/auth/register"
              && r.effects[0].request.headers == map[]
              && r.effects[0].request.body == Fields(map["name" := f.name, "email" := f.email, "password" := f.password])
              && "confirmPassword" !in r.effects[0].request.body.fields
  {
    if f.password != f.confirmPassword then Attempt(f.(error := Mismatch), [])
    else Attempt(f, [Send(Api.RequestFor(Api.RegisterCall(f.name, f.email, f.password)))])
  }

  /** The reply to the register request: the same rule as login, with the
      registration fallback message. */
  function OnReply(f: Form, s: Session, reply: Reply<Auth.AuthData>): (r: Step)
    ensures reply.Ok? && reply.data.token.Str? ==> r.session.token == Some(reply.data.token.s)
    ensures reply.Ok? ==> r.session == s.(token := Some(ToText(reply.data.token)))
    ensures reply.Ok? && reply.data.token.Undefined? ==> r.session.token == Some("undefined")
    ensures reply.Ok? && reply.data.token.Null? ==> r.session.token == Some("null")
    ensures reply.Ok? ==> r.form == f && r.effects == [Navigate("/dashboard")]
    ensures reply.Failed? ==> r.session == s && r.effects == []
    ensures reply.Failed? ==> r.form == f.(error := ServerMessageOr(reply.response, Fallback))
  {
    var settled := Auth.Settle(s, reply, Fallback);
    var f' := if settled.error.Some? then f.(error := settled.error.value) else f;
    Step(f', settled.session, settled.effects)
  }

  /** `handleSubmit` never clears the error: after a mismatch, correcting
      the confirmation and submitting again sends the registration request
      while "Passwords do not match" stays on the form until a reply
      replaces it. */
  lemma MismatchThenCorrected(f: Form)
    requires f.password != f.confirmPassword
    ensures var again := Submit(Submit(f).form.(confirmPassword := f.password));
            && again.effects == [Send(Api.RequestFor(Api.RegisterCall(f.name, f.email, f.password)))]
            && again.form.error == Mismatch
  {
  }
}
