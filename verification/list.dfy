/** The listing page of client/src/components/Opportunities/OpportunityList.js:
    one fetch on mount, then loading, error or the cards. */
module OpportunityList {
  import opened Entities
  import opened Http
  import opened Storage
  import Api
  import Card = OpportunityCard

  const FetchError := "Error fetching opportunities"
  const NothingListed := "No opportunities available at the moment."

  datatype State = State(opportunities: seq<Opportunity>, loading: bool, error: string)

  /** The state before the fetch settles: loading, no error, no items. */
  const Initial := State([], true, "")

  /** The page state and the effects after mounting. */
  datatype Step = Step(state: State, effects: seq<Effect>)

  /** Mounting issues the one listing request, straight through axios, so
      without an Authorization header. */
  function Mount(): (r: Step)
    ensures r.state.loading && r.state.error == "" && r.state.opportunities == []
    ensures r.effects == [Send(Api.RequestFor(Api.OpportunitiesCall))]
    ensures r.effects[0].request.verb == Get && r.effects[0].request.path == "/opportunities"
    ensures r.effects[0].request.headers == map[]
  {
    Step(Initial, [Send(Api.RequestFor(Api.OpportunitiesCall))])
  }

  /** The fetch settles: on success the list becomes the response data, on
      failure the error is set; loading ends either way. */
  function OnReply(s: State, reply: Reply<seq<Opportunity>>): (r: State)
    requires s.loading
    ensures !r.loading
    ensures reply.Ok? ==> r.opportunities == reply.data && r.error == s.error
    ensures reply.Failed? ==> r.error == FetchError && r.opportunities == s.opportunities
  {
    match reply
    case Ok(items) => s.(opportunities := items, loading := false)
    case Failed(_) => s.(error := FetchError, loading := false)
  }

  datatype Screen =
    | Loading
    | Failure(message: string)
    | Empty(message: string)
    | Cards(cards: seq<Card.Card>)

  /** What the page shows: loading first, then a non-empty error, then the
      empty-list message or one card per opportunity, in order. Each card
      reads the store as it renders. */
  function Render(s: State, session: Session): (v: Screen)
    ensures s.loading <==> v.Loading?
    ensures !s.loading && s.error != "" <==> v.Failure?
    ensures v.Failure? ==> v.message == s.error
    ensures v.Empty? <==> !s.loading && s.error == "" && s.opportunities == []
    ensures v.Empty? ==> v.message == NothingListed
    ensures v.Cards? ==> |v.cards| == |s.opportunities| > 0
    ensures v.Cards? ==> forall i :: 0 <= i < |v.cards| ==>
              v.cards[i].opportunity == s.opportunities[i] && (v.cards[i].loggedIn <==> HasToken(session))
  {
    if s.loading then Loading
    else if s.error != "" then Failure(s.error)
    else if |s.opportunities| == 0 then Empty(NothingListed)
    else Cards(seq(|s.opportunities|, i requires 0 <= i < |s.opportunities| =>
                 Card.Render(s.opportunities[i], session)))
  }

  /** The whole life of the page: after mount and one reply it shows the
      cards, the empty message, or the fetch error, never the spinner. */
  lemma MountThenReply(reply: Reply<seq<Opportunity>>, session: Session)
    ensures var v := Render(OnReply(Mount().state, reply), session);
            && !v.Loading?
            && (reply.Failed? <==> v == Failure(FetchError))
            && (reply.Ok? && reply.data == [] <==> v == Empty(NothingListed))
  {
  }
}
