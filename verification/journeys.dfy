/** What the components do together once a sign-in has stored a token:
    the guard in client/src/App.js, the dashboard's hand-built header and
    the opportunity card's apply request all read the same store. */
module Journeys {
  import opened Js
  import opened Entities
  import opened Http
  import opened Storage
  import Auth
  import Login
  import Register
  import App
  import Dashboard
  import OpportunityCard

  /** The store admits the dashboard, the dashboard's first request carries
      "Bearer <token>", and a card rendered from it offers "Apply" and
      authorises its apply request with the same token. */
  predicate SignedInWith(s: Session, token: string, o: Opportunity) {
    && HasToken(s)
    && App.Route("/dashboard", s) == Some(App.Show(App.DashboardPage))
    && Dashboard.Mount(s).effects[0].request.headers[AuthorizationHeader] == Bearer(token)
    && var c := OpportunityCard.Render(o, s);
       && OpportunityCard.ButtonLabel(c) == "Apply"
       && OpportunityCard.Click(c, s)[0].request.headers == map[AuthorizationHeader := Bearer(token)]
  }

  /** Logging in with a non-empty token and following the navigation lands
      on the dashboard, whose hand-built header carries that token; every
      card rendered afterwards offers "Apply", and its apply request is
      authorised with the same token. */
  lemma LoginThenDashboard(f: Login.Form, s: Session, token: string, o: Opportunity)
    requires token != ""
    ensures Login.OnReply(f, s, Ok(Auth.AuthData(Str(token)))).effects == [Navigate("/dashboard")]
    ensures SignedInWith(Login.OnReply(f, s, Ok(Auth.AuthData(Str(token)))).session, token, o)
  {
  }

  /** Registering does the same: the account's token opens the dashboard
      and authorises the apply requests. */
  lemma RegisterThenDashboard(f: Register.Form, s: Session, token: string, o: Opportunity)
    requires token != ""
    ensures Register.OnReply(f, s, Ok(Auth.AuthData(Str(token)))).effects == [Navigate("/dashboard")]
    ensures SignedInWith(Register.OnReply(f, s, Ok(Auth.AuthData(Str(token)))).session, token, o)
  {
  }

  /** A sign-in reply that carries no token still opens the dashboard: the
      text "undefined" is stored, and the dashboard and the card send it as
      the bearer token. */
  lemma MissingTokenStillSignsIn(f: Login.Form, s: Session, o: Opportunity)
    ensures Login.OnReply(f, s, Ok(Auth.AuthData(Undefined))).session.token == Some("undefined")
    ensures SignedInWith(Login.OnReply(f, s, Ok(Auth.AuthData(Undefined))).session, "undefined", o)
  {
  }
}
