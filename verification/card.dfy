/** One posting's card, client/src/components/Opportunities/OpportunityCard.js:
    the formatted fields, the button label and the apply action. */
module OpportunityCard {
  import opened Js
  import opened Entities
  import opened Http
  import opened Storage
  import opened JsText
  import Api

  const PerMonth := "/month"
  const Immediately := "Starts Immediately"
  const Applied := "Successfully applied to the opportunity!"
  const ApplyFailed := "An error occurred while applying to the opportunity"

  /** A card as rendered: the posting, and whether a truthy token was in the
      store when the card rendered (`isLoggedIn`). */
  datatype Card = Card(opportunity: Opportunity, loggedIn: bool)

  /** Rendering a card reads the token once. */
  function Render(o: Opportunity, s: Session): (c: Card)
    ensures c.opportunity == o && (c.loggedIn <==> HasToken(s))
  {
    Card(o, HasToken(s))
  }

  /** `formatStipend`: a string stipend has every whitespace run collapsed
      to one space and then its first "/month" cut out; a number or a
      missing stipend is handed back unchanged. */
  function FormatStipend(st: Stipend): (r: Stipend)
    ensures !st.StipendText? ==> r == st
    ensures st.StipendText? ==> r.StipendText? && |r.text| <= |st.text|
    ensures st.StipendText? ==> r.text == RemoveFirst(CollapseWhitespace(st.text), PerMonth)
  {
    match st
    case StipendText(t) => StipendText(RemoveFirst(CollapseWhitespace(t), PerMonth))
    case _ => st
  }

  /** On a string whose first '/' starts a "/month" at index `i`, the cut
      takes out exactly that occurrence. */
  lemma CutAt(s: string, i: nat)
    requires i + |PerMonth| <= |s| && s[i..i + |PerMonth|] == PerMonth
    requires forall j :: 0 <= j < i ==> s[j] != '/'
    ensures RemoveFirst(s, PerMonth) == s[..i] + s[i + |PerMonth|..]
  {
    assert OccursAt(s, PerMonth, i);
    forall j | 0 <= j < i
      ensures !OccursAt(s, PerMonth, j)
    {
      assert s[j] != '/';
    }
    assert FirstAt(s, PerMonth, i);
  }

  /** Only the first "/month" of a stipend is cut; the second one stays. */
  lemma StipendFirstMonthOnly()
    ensures FormatStipend(StipendText("5000/month/month")) == StipendText("5000/month")
  {
    KeepsPlainExample();
    CutPlainExample();
  }

  lemma KeepsPlainExample()
    ensures CollapseWhitespace("5000/month/month") == "5000/month/month"
  {
    PlainIsCollapsed("5000/month/month");
    CollapseKeepsCollapsed("5000/month/month");
  }

  lemma CutPlainExample()
    ensures RemoveFirst("5000/month/month", PerMonth) == "5000/month"
  {
    var s := "5000/month/month";
    CutAt(s, 4);
    assert s[..4] + s[10..] == "5000/month";
  }

  /** The cut can leave the spaces on both sides of "/month" next to each
      other, so the displayed stipend is not always collapsed. */
  lemma StipendMayKeepDoubleSpace()
    ensures FormatStipend(StipendText("a /month b")) == StipendText("a  b")
  {
    KeepsSpacedExample();
    CutSpacedExample();
  }

  lemma KeepsSpacedExample()
    ensures CollapseWhitespace("a /month b") == "a /month b"
  {
    PlainIsCollapsed("a /month b");
    CollapseKeepsCollapsed("a /month b");
  }

  lemma CutSpacedExample()
    ensures RemoveFirst("a /month b", PerMonth) == "a  b"
  {
    var s := "a /month b";
    CutAt(s, 2);
    assert s[..2] + s[8..] == "a  b";
  }

  /** How `formatStartDate` renders a start date. */
  datatype StartDate = AsGiven(text: string) | LocaleDate(source: string)

  /** `formatStartDate`: the sentinel "Starts Immediately" is shown as
      given; any other value goes through `Date` and locale formatting. */
  function FormatStartDate(d: string): (r: StartDate)
    ensures r.AsGiven? <==> d == Immediately
    ensures r.AsGiven? ==> r.text == d
    ensures r.LocaleDate? ==> r.source == d
  {
    if d == Immediately then AsGiven(d) else LocaleDate(d)
  }

  /** The button text. */
  function ButtonLabel(c: Card): (text: string)
    ensures text == "Apply" <==> c.loggedIn
    ensures text == "Login to Apply" <==> !c.loggedIn
  {
    if c.loggedIn then "Apply" else "Login to Apply"
  }

  /** `handleApply`: a card rendered without a token sends the user to
      /login and posts nothing; otherwise it posts to the apply path through
      the shared client, whose interceptor reads the store at that moment. */
  function Click(c: Card, s: Session): (effects: seq<Effect>)
    ensures !c.loggedIn ==> effects == [Navigate("/login")]
    ensures c.loggedIn ==> |effects| == 1 && effects[0].Send?
    ensures c.loggedIn ==>
              && effects[0].request.verb == Post
              && Api.ParseApplyPath(effects[0].request.path) == Some(c.opportunity.id)
              && effects[0].request.body == NoBody
              && (AuthorizationHeader in effects[0].request.headers <==> HasToken(s))
    ensures c.loggedIn && HasToken(s) ==>
              effects[0].request.headers == map[AuthorizationHeader := Bearer(s.token.value)]
  {
    if !c.loggedIn then [Navigate("/login")]
    else
      Api.ApplyPathRoundTrip(c.opportunity.id);
      [Send(Api.Dispatch(s, Api.ApplyCall(c.opportunity.id)))]
  }

  /** The alert after the apply request settles: confirmation on success;
      on a 400 the server's `message` verbatim (as `alert` would print it);
      the generic text for any other failure, including one with no
      response at all. */
  function OnApplyReply(reply: Reply<()>): (e: Effect)
    ensures e.Alert?
    ensures reply.Ok? ==> e.text == Applied
    ensures reply.Failed? && reply.response.Some? && reply.response.value.status == 400 ==>
              e.text == ToText(reply.response.value.message)
    ensures reply.Failed? && (reply.response.None? || reply.response.value.status != 400) ==>
              e.text == ApplyFailed
  {
    match reply
    case Ok(_) => Alert(Applied)
    case Failed(response) =>
      if response.Some? && response.value.status == 400 then Alert(ToText(response.value.message))
      else Alert(ApplyFailed)
  }

  /** The duplicate-application example: a 400 with message
      "Already applied" shows exactly that; the same message with status
      500 shows the generic text. */
  lemma DuplicateApplication()
    ensures OnApplyReply(Failed(Some(ErrorResponse(400, Str("Already applied"))))) == Alert("Already applied")
    ensures OnApplyReply(Failed(Some(ErrorResponse(500, Str("Already applied"))))) == Alert(ApplyFailed)
  {
  }

  /** The label advertises what the click does: a card labelled "Apply"
      sends the apply request and one labelled "Login to Apply" sends
      nothing, whatever the store holds when the button is pressed. */
  lemma LabelAgreesWithClick(o: Opportunity, s: Session, later: Session)
    ensures ButtonLabel(Render(o, s)) == "Apply" <==> !SendsNothing(Click(Render(o, s), later))
    ensures ButtonLabel(Render(o, s)) == "Login to Apply" <==> Click(Render(o, s), later) == [Navigate("/login")]
  {
    var effects := Click(Render(o, s), later);
    if HasToken(s) {
      assert effects[0].Send?;
    }
  }

  /** The apply alert against the message-or-fallback rule of the auth
      forms. For a 400 with a truthy message both give that message; for a
      400 whose message is missing, null or empty the card alerts its text
      form ("undefined", "null" or nothing), never the fallback the forms
      would show. Any other status alerts the fallback whatever the message. */
  lemma ApplyAlertVersusFallback(r: ErrorResponse)
    ensures r.status == 400 && Truthy(r.message) ==>
              OnApplyReply(Failed(Some(r))).text == ServerMessageOr(Some(r), ApplyFailed)
    ensures r.status == 400 && !Truthy(r.message) ==>
              && OnApplyReply(Failed(Some(r))).text == ToText(r.message)
              && OnApplyReply(Failed(Some(r))).text != ServerMessageOr(Some(r), ApplyFailed)
    ensures r.status != 400 ==> OnApplyReply(Failed(Some(r))).text == ApplyFailed
  {
  }

  /** What a card shows: title, company, stipend, location, duration, start
      date and button label. */
  datatype View = View(
    title: string,
    company: string,
    stipend: Stipend,
    location: string,
    duration: string,
    startDate: StartDate,
    button: string)

  function Show(c: Card): (v: View)
    ensures v.title == c.opportunity.profileName && v.company == c.opportunity.companyName
    ensures v.stipend == FormatStipend(c.opportunity.stipend)
    ensures v.location == c.opportunity.location && v.duration == c.opportunity.duration
    ensures v.startDate == FormatStartDate(c.opportunity.startDate)
    ensures v.button == ButtonLabel(c)
  {
    var o := c.opportunity;
    View(o.profileName, o.companyName, FormatStipend(o.stipend), o.location, o.duration,
         FormatStartDate(o.startDate), ButtonLabel(c))
  }
}
