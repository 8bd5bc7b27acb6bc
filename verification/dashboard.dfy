/** The dashboard of client/src/components/Dashboard/Dashboard.js: the two
    fetches on mount, the render precedence, and the profile update with its
    minimum-age gate. */
module Dashboard {
  import opened Js
  import opened Calendar
  import opened Entities
  import opened Http
  import opened Storage
  import Api

  const FetchError := "Error fetching user data"
  const TooYoung := "Ineligible age. You must be at least 20 years old."
  const Updated := "Profile updated successfully"
  const UpdateError := "Error updating profile"
  const NoneApplied := "No opportunities applied."
  const MinimumAge := 20

  /** The number `calculateAge` returns: whole years, or NaN when the date
      of birth does not make a valid `Date`. */
  datatype Age = Years(n: int) | NotANumber

  /** `calculateAge(user.dateOfBirth)` with today's date as a parameter. */
  function CalculateAge(dob: BirthDate, today: Date): (a: Age)
    ensures a.Years? <==> dob.Known?
    ensures a.Years? ==> OnOrBefore(Anniversary(dob.date, a.n), today)
    ensures a.Years? ==> !OnOrBefore(Anniversary(dob.date, a.n + 1), today)
  {
    if dob.Known? then Years(AgeOn(dob.date, today)) else NotANumber
  }

  /** `age < 20`, which is false for NaN. */
  function Underage(a: Age): (b: bool)
    ensures a.NotANumber? ==> !b
    ensures a.Years? ==> (b <==> a.n < MinimumAge)
  {
    a.Years? && a.n < MinimumAge
  }

  /** The gate refuses exactly the known birth dates whose 20th anniversary
      is still ahead of today; an unknown one is never refused. */
  lemma UnderageBeforeTwentieth(dob: BirthDate, today: Date)
    ensures Underage(CalculateAge(dob, today)) <==>
              dob.Known? && !OnOrBefore(Anniversary(dob.date, MinimumAge), today)
  {
    if dob.Known? {
      var a := AgeOn(dob.date, today);
      if a >= MinimumAge {
        AnniversaryMonotone(dob.date, MinimumAge, a);
        OnOrBeforeTransitive(Anniversary(dob.date, MinimumAge), Anniversary(dob.date, a), today);
      }
    }
  }

  datatype State = State(
    user: Option<Profile>,
    applied: seq<Opportunity>,
    loading: bool,
    error: string,
    dialogOpen: bool)

  const Initial := State(None, [], true, "", false)

  /** The states the component can be in: the error is empty or the fetch
      error, an error means loading has ended, and a fetch that ended without
      error has set the user. */
  predicate Valid(s: State) {
    && (s.error == "" || s.error == FetchError)
    && (s.error != "" ==> !s.loading)
    && (!s.loading && s.error == "" ==> s.user.Some?)
  }

  /** The headers the dashboard builds by hand: `Bearer ${token}` with
      whatever `getItem` returned, so a missing token is sent as
      "Bearer null". */
  function HandHeaders(token: Option<string>): (h: map<string, string>)
    ensures h.Keys == {AuthorizationHeader}
    ensures token.None? ==> h[AuthorizationHeader] == "Bearer null"
    ensures token.Some? ==> h[AuthorizationHeader] == Bearer(token.value)
  {
    map[AuthorizationHeader := Bearer(ToText(Item(token)))]
  }

  /** With a truthy token the hand-built header is the interceptor's; with a
      missing or empty one the dashboard still sends a header, which the
      interceptor would have left out. */
  lemma HandHeadersVersusInterceptor(s: Session)
    ensures HasToken(s) ==> HandHeaders(s.token) == Api.Dispatch(s, Api.ProfileCall).headers
    ensures !HasToken(s) ==> AuthorizationHeader in HandHeaders(s.token)
    ensures !HasToken(s) ==> AuthorizationHeader !in Api.Dispatch(s, Api.ProfileCall).headers
  {
  }

  /** The profile fetch: the shared client's profile request, but sent
      with the hand-built header in place of the interceptor's. */
  function ProfileRequest(token: Option<string>): (r: Request)
    ensures r.verb == Get && r.path == "/users/profile" && r.body == NoBody
    ensures r.headers == HandHeaders(token)
    ensures Api.CallOf(r.(headers := map[])) == Some(Api.ProfileCall)
  {
    Api.CallRoundTrip(Api.ProfileCall);
    Api.RequestFor(Api.ProfileCall).(headers := HandHeaders(token))
  }

  /** The applied-list fetch, with the same hand-built header. */
  function AppliedRequest(token: Option<string>): (r: Request)
    ensures r.verb == Get && r.path == "/users/applied-opportunities" && r.body == NoBody
    ensures r.headers == HandHeaders(token)
    ensures Api.CallOf(r.(headers := map[])) == Some(Api.AppliedOpportunitiesCall)
  {
    Api.CallRoundTrip(Api.AppliedOpportunitiesCall);
    Api.RequestFor(Api.AppliedOpportunitiesCall).(headers := HandHeaders(token))
  }

  /** The component state and the effects after a step. */
  datatype Step = Step(state: State, effects: seq<Effect>)

  /** Mounting reads the token once and asks for the profile. */
  function Mount(s: Session): (r: Step)
    ensures Valid(r.state) && r.state.loading && r.state.error == "" && r.state.user.None?
    ensures r.effects == [Send(ProfileRequest(s.token))]
    ensures r.effects[0].request.verb == Get && r.effects[0].request.path == "/users/profile"
  {
    Step(Initial, [Send(ProfileRequest(s.token))])
  }

  /** The profile reply. A usable profile is stored and only then is the
      applied list requested, with the token read at mount. A failure, or a
      date of birth `toISOString` throws on, ends loading with the fetch
      error and requests nothing more. */
  function OnProfileReply(s: State, token: Option<string>, reply: Reply<Profile>): (r: Step)
    requires s.loading && s.user.None?
    ensures reply.Ok? && !reply.data.dateOfBirth.Unparseable? ==>
              r.state == s.(user := Some(reply.data)) && r.effects == [Send(AppliedRequest(token))]
    ensures !(reply.Ok? && !reply.data.dateOfBirth.Unparseable?) ==>
              r.state == s.(loading := false, error := FetchError) && r.effects == []
    ensures SendsNothing(r.effects) <==> !r.state.loading
  {
    if reply.Ok? && !reply.data.dateOfBirth.Unparseable? then
      var effects := [Send(AppliedRequest(token))];
      assert effects[0].Send?;
      Step(s.(user := Some(reply.data)), effects)
    else
      Step(s.(loading := false, error := FetchError), [])
  }

  /** The applied-list reply: either way loading ends; a failure sets the
      same single error as a failed profile fetch. */
  function OnAppliedReply(s: State, reply: Reply<seq<Opportunity>>): (r: State)
    requires s.loading && s.user.Some?
    ensures !r.loading && r.user == s.user && r.dialogOpen == s.dialogOpen
    ensures reply.Ok? ==> r.applied == reply.data && r.error == s.error
    ensures reply.Failed? ==> r.error == FetchError && r.applied == s.applied
  {
    match reply
    case Ok(items) => s.(applied := items, loading := false)
    case Failed(_) => s.(loading := false, error := FetchError)
  }

  /** `handleProfileUpdate` up to the request: an age under 20 shows the
      ineligibility toast and sends nothing; otherwise exactly one PUT of
      the current user object goes to /users/profile. The state is left as
      it is either way. */
  function Submit(s: State, today: Date, store: Session): (r: Step)
    requires s.user.Some?
    ensures r.state == s && |r.effects| == 1
    ensures Underage(CalculateAge(s.user.value.dateOfBirth, today)) <==> SendsNothing(r.effects)
    ensures SendsNothing(r.effects) ==> r.effects[0] == Toast(Error, TooYoung)
    ensures !SendsNothing(r.effects) ==>
              && r.effects[0].request.verb == Put && r.effects[0].request.path == "/users/profile"
              && r.effects[0].request.body == ProfileData(s.user.value)
              && r.effects[0].request.headers == HandHeaders(store.token)
  {
    var age := CalculateAge(s.user.value.dateOfBirth, today);
    if Underage(age) then Step(s, [Toast(Error, TooYoung)])
    else
      var effects := [Send(Api.RequestFor(Api.UpdateProfileCall(s.user.value)).(headers := HandHeaders(store.token)))];
      assert effects[0].Send?;
      Step(s, effects)
  }

  /** The PUT reply: a usable profile replaces the local user, closes the
      dialog and shows the success toast; a failure, or a date of birth
      `toISOString` throws on, shows the error toast and changes nothing. */
  function OnUpdateReply(s: State, reply: Reply<Profile>): (r: Step)
    ensures reply.Ok? && !reply.data.dateOfBirth.Unparseable? ==>
              r.state == s.(user := Some(reply.data), dialogOpen := false) && r.effects == [Toast(Success, Updated)]
    ensures !(reply.Ok? && !reply.data.dateOfBirth.Unparseable?) ==>
              r.state == s && r.effects == [Toast(Error, UpdateError)]
  {
    if reply.Ok? && !reply.data.dateOfBirth.Unparseable? then
      Step(s.(user := Some(reply.data), dialogOpen := false), [Toast(Success, Updated)])
    else
      Step(s, [Toast(Error, UpdateError)])
  }

  /** Every step keeps the component in a valid state. */
  lemma StepsKeepValid(s: State, token: Option<string>, today: Date, store: Session,
                       profile: Reply<Profile>, list: Reply<seq<Opportunity>>)
    requires Valid(s)
    ensures s.loading && s.user.None? ==> Valid(OnProfileReply(s, token, profile).state)
    ensures s.loading && s.user.Some? ==> Valid(OnAppliedReply(s, list))
    ensures s.user.Some? ==> Valid(Submit(s, today, store).state)
    ensures Valid(OnUpdateReply(s, profile).state)
  {
  }

  datatype Screen =
    | Loading
    | Failure(message: string)
    | NothingApplied(message: string)
    | AppliedCards(companies: seq<string>)

  /** What the dashboard shows: loading first, then the error, then the
      applied cards (each with its company name) or the empty message. */
  function Render(s: State): (v: Screen)
    ensures s.loading <==> v.Loading?
    ensures v.Failure? <==> !s.loading && s.error != ""
    ensures v.Failure? ==> v.message == s.error
    ensures v.NothingApplied? <==> !s.loading && s.error == "" && s.applied == []
    ensures v.NothingApplied? ==> v.message == NoneApplied
    ensures v.AppliedCards? ==> |v.companies| == |s.applied| > 0
    ensures v.AppliedCards? ==> forall i :: 0 <= i < |s.applied| ==> v.companies[i] == s.applied[i].companyName
  {
    if s.loading then Loading
    else if s.error != "" then Failure(s.error)
    else if |s.applied| == 0 then NothingApplied(NoneApplied)
    else AppliedCards(seq(|s.applied|, i requires 0 <= i < |s.applied| => s.applied[i].companyName))
  }

  /** The fetches run one after the other: with both replies successful the
      dashboard shows the server's profile and list; with the first one
      failing the second is never requested and the error is shown. */
  lemma FetchSequence(store: Session, p: Profile, items: seq<Opportunity>, failure: Option<ErrorResponse>)
    requires !p.dateOfBirth.Unparseable?
    ensures var Step(s1, e1) := OnProfileReply(Mount(store).state, store.token, Ok(p));
            && e1 == [Send(AppliedRequest(store.token))]
            && var s2 := OnAppliedReply(s1, Ok(items));
               s2.user == Some(p) && s2.applied == items && Render(s2) != Loading && !Render(s2).Failure?
    ensures var Step(s1, e1) := OnProfileReply(Mount(store).state, store.token, Failed(failure));
            e1 == [] && Render(s1) == Failure(FetchError)
  {
  }

  /** The age gate on the worked example: born 2004-06-16, on 2024-06-15 the
      user is 19 and nothing is sent; born 2004-06-15, the PUT goes out. */
  lemma AgeGateExamples(s: State, store: Session)
    requires s.user.Some?
    ensures var u := s.user.value.(dateOfBirth := Known(Date(2004, 6, 16)));
            Submit(s.(user := Some(u)), Date(2024, 6, 15), store).effects == [Toast(Error, TooYoung)]
    ensures var u := s.user.value.(dateOfBirth := Known(Date(2004, 6, 15)));
            Submit(s.(user := Some(u)), Date(2024, 6, 15), store).effects[0].Send?
  {
    AgeExamples();
  }

  /** A date of birth that is missing or does not parse gives NaN, and
      `NaN < 20` is false: the gate lets the update through. */
  lemma UnknownBirthDatePasses(s: State, today: Date, store: Session)
    requires s.user.Some? && !s.user.value.dateOfBirth.Known?
    ensures Submit(s, today, store).effects[0].Send?
  {
  }

  /** Anyone whose age is at least 20 today stays eligible on every later
      day: the gate never flips back to refusing the same birth date. */
  lemma GateStaysOpen(s: State, today: Date, later: Date, store: Session)
    requires s.user.Some? && OnOrBefore(today, later)
    requires !SendsNothing(Submit(s, today, store).effects)
    ensures !SendsNothing(Submit(s, later, store).effects)
  {
    var dob := s.user.value.dateOfBirth;
    if dob.Known? {
      AgeMonotone(dob.date, today, later);
    }
  }
}
