/** The shared API client of client/src/components/services/api.js: the
    request interceptor, `setAuthToken` and the endpoint helpers. */
module Api {
  import opened Js
  import opened Entities
  import opened Http
  import opened Storage

  /** The request interceptor: with a truthy stored token it sets the
      Authorization header to "Bearer <token>"; otherwise it hands the
      request on as it is. Nothing but that one header ever changes. */
  function Intercept(s: Session, r: Request): (out: Request)
    ensures out.verb == r.verb && out.path == r.path && out.body == r.body
    ensures forall h :: h != AuthorizationHeader ==> (h in out.headers <==> h in r.headers)
    ensures forall h :: h != AuthorizationHeader && h in r.headers ==> out.headers[h] == r.headers[h]
    ensures HasToken(s) ==>
              AuthorizationHeader in out.headers && out.headers[AuthorizationHeader] == Bearer(s.token.value)
    ensures !HasToken(s) ==> out == r
  {
    if HasToken(s) then r.(headers := r.headers[AuthorizationHeader := Bearer(s.token.value)]) else r
  }

  /** Running the interceptor a second time changes nothing. */
  lemma InterceptIdempotent(s: Session, r: Request)
    ensures Intercept(s, Intercept(s, r)) == Intercept(s, r)
  {
  }

  /** An intercepted request carries an Authorization header exactly when
      the store holds a truthy token or the caller had set one already. */
  lemma InterceptAuthorizes(s: Session, r: Request)
    ensures AuthorizationHeader in Intercept(s, r).headers <==>
              HasToken(s) || AuthorizationHeader in r.headers
  {
  }

  /** `setAuthToken`: a truthy argument is stored, anything else removes the
      item. Afterwards the store holds a token exactly when the argument was
      truthy; the username is never touched. */
  function SetAuthToken(s: Session, token: Value): (r: Session)
    ensures Truthy(token) ==> r.token == Some(token.s)
    ensures !Truthy(token) ==> r.token == None
    ensures HasToken(r) <==> Truthy(token)
    ensures r.username == s.username
  {
    if Truthy(token) then StoreToken(s, token) else RemoveToken(s)
  }

  const ApplyPrefix := "/opportunities/"
  const ApplySuffix := "/apply"

  /** The path `applyToOpportunity(id)` posts to. */
  function ApplyPath(id: string): (p: string)
    ensures |p| == |ApplyPrefix| + |id| + |ApplySuffix|
    ensures p[..|ApplyPrefix|] == ApplyPrefix
    ensures p[|ApplyPrefix|..|ApplyPrefix| + |id|] == id
    ensures p[|ApplyPrefix| + |id|..] == ApplySuffix
  {
    ApplyPrefix + id + ApplySuffix
  }

  /** Reads the opportunity id back out of an apply path. */
  function ParseApplyPath(p: string): Option<string> {
    if |p| >= |ApplyPrefix| + |ApplySuffix|
       && p[..|ApplyPrefix|] == ApplyPrefix
       && p[|p| - |ApplySuffix|..] == ApplySuffix
    then Some(p[|ApplyPrefix|..|p| - |ApplySuffix|])
    else None
  }

  /** The apply path of an id gives that id back. */
  lemma ApplyPathRoundTrip(id: string)
    ensures ParseApplyPath(ApplyPath(id)) == Some(id)
  {
    var p := ApplyPath(id);
    assert p[|p| - |ApplySuffix|..] == ApplySuffix;
  }

  /** Every path that parses is the apply path of the id it yields. */
  lemma ParseApplyPathSound(p: string, id: string)
    requires ParseApplyPath(p) == Some(id)
    ensures ApplyPath(id) == p
  {
    assert p == p[..|ApplyPrefix|] + p[|ApplyPrefix|..|p| - |ApplySuffix|] + p[|p| - |ApplySuffix|..];
  }

  /** The endpoint helpers api.js exports, as data. */
  datatype Call =
    | LoginCall(email: string, password: string)
    | RegisterCall(name: string, email: string, password: string)
    | OpportunitiesCall
    | ApplyCall(opportunityId: string)
    | ProfileCall
    | UpdateProfileCall(profile: Profile)
    | AppliedOpportunitiesCall

  /** The request a helper hands to the client, before interception. No
      helper sets a header; the three readers are the GETs, the profile
      update is the only PUT, and only the credential posts and the profile
      update carry a body. */
  function RequestFor(c: Call): (r: Request)
    ensures r.headers == map[]
    ensures r.verb == Get <==> c.OpportunitiesCall? || c.ProfileCall? || c.AppliedOpportunitiesCall?
    ensures r.verb == Put <==> c.UpdateProfileCall?
    ensures r.body == NoBody <==> r.verb == Get || c.ApplyCall?
    ensures c.UpdateProfileCall? ==> r.body == ProfileData(c.profile)
  {
    match c
    case LoginCall(e, p) => Request(Post, "/auth/login", map[], Fields(map["email" := e, "password" := p]))
    case RegisterCall(n, e, p) =>
      Request(Post, "/auth/register", map[], Fields(map["name" := n, "email" := e, "password" := p]))
    case OpportunitiesCall => Request(Get, "/opportunities", map[], NoBody)
    case ApplyCall(id) => Request(Post, ApplyPath(id), map[], NoBody)
    case ProfileCall => Request(Get, "/users/profile", map[], NoBody)
    case UpdateProfileCall(u) => Request(Put, "/users/profile", map[], ProfileData(u))
    case AppliedOpportunitiesCall => Request(Get, "/users/applied-opportunities", map[], NoBody)
  }

  /** Which helper produced a request, if any did. */
  function CallOf(r: Request): Option<Call> {
    if r.headers != map[] then None
    else match r.verb
      case Get =>
        if r.body != NoBody then None
        else if r.path == "/opportunities" then Some(OpportunitiesCall)
        else if r.path == "/users/profile" then Some(ProfileCall)
        else if r.path == "/users/applied-opportunities" then Some(AppliedOpportunitiesCall)
        else None
      case Post =>
        if r.path == "/auth/login" && r.body.Fields? && r.body.fields.Keys == {"email", "password"} then
          Some(LoginCall(r.body.fields["email"], r.body.fields["password"]))
        else if r.path == "/auth/register" && r.body.Fields?
                && r.body.fields.Keys == {"name", "email", "password"} then
          Some(RegisterCall(r.body.fields["name"], r.body.fields["email"], r.body.fields["password"]))
        else if r.body == NoBody && ParseApplyPath(r.path).Some? then
          Some(ApplyCall(ParseApplyPath(r.path).value))
        else None
      case Put =>
        if r.path == "/users/profile" && r.body.ProfileData? then Some(UpdateProfileCall(r.body.profile))
        else None
  }

  /** Different helpers never build the same request: the request names the
      helper and its arguments. */
  lemma CallRoundTrip(c: Call)
    ensures CallOf(RequestFor(c)) == Some(c)
  {
    match c
    case ApplyCall(id) =>
      ApplyPathRoundTrip(id);
      var p := ApplyPath(id);
      assert p[1] == 'o';
      assert p != "/auth/login" && p != "/auth/register";
    case _ =>
  }

  /** Conversely, a request recognised as some helper's is exactly the
      request that helper builds. */
  lemma CallOfSound(r: Request, c: Call)
    requires CallOf(r) == Some(c)
    ensures RequestFor(c) == r
  {
    match c
    case ApplyCall(id) =>
      ParseApplyPathSound(r.path, id);
    case LoginCall(e, p) =>
      assert r.body.fields == map["email" := e, "password" := p];
    case RegisterCall(n, e, p) =>
      assert r.body.fields == map["name" := n, "email" := e, "password" := p];
    case _ =>
  }

  /** What a helper actually puts on the wire: its request, run through the
      interceptor with the store as it is when the request is made. */
  function Dispatch(s: Session, c: Call): (r: Request)
    ensures CallOf(r.(headers := map[])) == Some(c)
    ensures HasToken(s) <==> AuthorizationHeader in r.headers
    ensures HasToken(s) ==> r.headers == map[AuthorizationHeader := Bearer(s.token.value)]
  {
    CallRoundTrip(c);
    Intercept(s, RequestFor(c))
  }
}
