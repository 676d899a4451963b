/**
  The decision logic of `fetchRepo`: parameter validation, credential
  resolution, the collapse of every request failure into one message, and
  the disambiguation of the GraphQL response between a user-owned and an
  organization-owned repository. The request itself (retries, timeout race)
  is an input: the value the race settled with.
 */
module RepoFetcher {
  import opened JsValue

  /** A `string | undefined` argument: `token` is optional, a missing query
      parameter arrives as `undefined`, and an environment variable is a
      string or unset. */
  type Arg = v: Value | v.Undefined? || v.Str? witness Undefined

  datatype Option<T> = None | Some(value: T)

  /** What `fetchRepo` throws. */
  datatype Failure =
    | MissingParamError(missedParams: seq<string>, secondaryMessage: string)
    | Error(message: string)
      /** reading a property (named here) of `undefined` or `null` */
    | TypeError(reading: string)

  datatype Result<T> = Ok(value: T) | Err(failure: Failure)

  /** What `fetchRepo` hands to `retryer` together with `fetcher`: the
      GraphQL variables and the resolved credential. */
  datatype Request = Request(variables: Value, credential: string)

  /** How the race between the retried request and the timeout settled. */
  datatype Settled = Resolved(response: Value) | Rejected(reason: Value)

  /** One call of `fetchRepo`: what it returns or throws, and what it handed
      to `retryer` (`None` when it failed before starting any request). */
  datatype Run = Run(result: Result<Value>, sent: Option<Request>)

  const URL_EXAMPLE := "/api/pin?username=USERNAME&amp;repo=REPO_NAME"
  const TOKEN_REQUIRED := "GitHub token is required to fetch private repo metadata."
  const FETCH_FAILED := "Failed to fetch repo (timeout or GitHub API error)."
  const NOT_FOUND := "Repository not found or inaccessible."
  const USER_REPO_NOT_FOUND := "User Repository Not found"
  const ORG_REPO_NOT_FOUND := "Organization Repository Not found"
  const UNEXPECTED := "Unexpected behavior"

  /** The parameter check: `None` when both identifiers are present, otherwise
      the error naming exactly the missing ones, `username` before `repo`. */
  function CheckParams(username: Arg, reponame: Arg): (e: Option<Failure>)
    ensures e.None? <==> Truthy(username) && Truthy(reponame)
    ensures e.Some? ==> e.value.MissingParamError? && e.value.secondaryMessage == URL_EXAMPLE
    ensures e.Some? ==> forall f :: f in e.value.missedParams <==>
      (f == "username" && !Truthy(username)) || (f == "repo" && !Truthy(reponame))
    ensures e.Some? ==> |e.value.missedParams| == (if Truthy(username) then 0 else 1) + (if Truthy(reponame) then 0 else 1)
    ensures e.Some? ==> e.value.missedParams[0] == (if Truthy(username) then "repo" else "username")
  {
    if !Truthy(username) && !Truthy(reponame) then Some(MissingParamError(["username", "repo"], URL_EXAMPLE))
    else if !Truthy(username) then Some(MissingParamError(["username"], URL_EXAMPLE))
    else if !Truthy(reponame) then Some(MissingParamError(["repo"], URL_EXAMPLE))
    else None
  }

  /** `token || PRIVATE_GH_TOKEN || GH_TOKEN`, kept only when truthy: the
      first non-empty string of the three, in that order. */
  function ResolveToken(token: Arg, privateGhToken: Arg, ghToken: Arg): (r: Option<string>)
    ensures r.Some? <==> Truthy(token) || Truthy(privateGhToken) || Truthy(ghToken)
    ensures r.Some? ==> r.value != ""
    ensures Truthy(token) ==> r == Some(token.s)
    ensures !Truthy(token) && Truthy(privateGhToken) ==> r == Some(privateGhToken.s)
    ensures !Truthy(token) && !Truthy(privateGhToken) && Truthy(ghToken) ==> r == Some(ghToken.s)
  {
    var operands := [token, privateGhToken, ghToken];
    var chosen := OrChain(operands);
    assert NoneTruthy(operands[..0]);
    assert operands[..1] == [token] && operands[..2] == [token, privateGhToken];
    assert Truthy(chosen) ==> exists i :: 0 <= i < 3 && Truthy(operands[i]);
    if Truthy(chosen) then Some(chosen.s) else None
  }

  /** The `Authorization` header value `token <t>` that `fetcher` builds
      from its own `token` parameter. */
  function AuthorizationHeader(t: string): string {
    "token " + t
  }

  /** The credential carried by an `Authorization` header of the `token`
      scheme, if it is one. */
  function TokenOfHeader(h: string): (t: Option<string>)
    ensures t.Some? <==> |h| >= 6 && h[..6] == "token "
    ensures t.Some? ==> AuthorizationHeader(t.value) == h
  {
    if |h| >= 6 && h[..6] == "token " then Some(h[6..]) else None
  }

  /** A header carries credential `t` exactly when it is the header built
      from `t`. */
  lemma HeaderRoundTrip(t: string, h: string)
    ensures TokenOfHeader(h) == Some(t) <==> h == AuthorizationHeader(t)
  {
  }

  /** The repository object with `starCount` set to `stargazers.totalCount`
      (`{...repository, starCount: ...}`). Reading `totalCount` of a nullish
      `stargazers` throws; so does reading it of anything but an object,
      since then `stargazers` itself reads as `undefined`. */
  function WithStarCount(repository: Value): (r: Result<Value>)
    requires Truthy(repository)
    ensures r.Ok? <==>
      repository.Obj? && "stargazers" in repository.props && !Nullish(repository.props["stargazers"])
    ensures r.Err? ==> r.failure == TypeError("totalCount")
    ensures r.Ok? ==>
      && repository.Obj? && r.value.Obj?
      && r.value.props.Keys == repository.props.Keys + {"starCount"}
      && (forall k :: k in repository.props && k != "starCount" ==> r.value.props[k] == repository.props[k])
      && r.value.props["starCount"] == OptionalGet(repository.props["stargazers"], "totalCount")
  {
    var stargazers := Get(repository, "stargazers");
    if Nullish(stargazers) then Err(TypeError("totalCount"))
    else
      assert repository.Obj?;
      Ok(Obj(repository.props["starCount" := Get(stargazers, "totalCount")]))
  }

  /** The branch taken once an owner has been recognised: its `repository`,
      flattened, or the owner-specific not-found error. */
  function OwnedRepository(owner: Value, notFound: string): (r: Result<Value>)
    requires Truthy(owner)
    ensures !Truthy(Get(owner, "repository")) <==> r == Err(Error(notFound))
    ensures Truthy(Get(owner, "repository")) ==> r == WithStarCount(Get(owner, "repository"))
  {
    var repository := Get(owner, "repository");
    if !Truthy(repository) then Err(Error(notFound)) else WithStarCount(repository)
  }

  /** `owner` is the recognised owner: truthy while the other owner is
      strictly `null`. */
  predicate Sole(owner: Value, other: Value) {
    other.Null? && Truthy(owner)
  }

  /** `owner` is the recognised owner and holds a repository the fetcher
      can flatten. */
  predicate ServesRepository(owner: Value, other: Value) {
    && Sole(owner, other)
    && Truthy(OptionalGet(owner, "repository"))
    && !Nullish(OptionalGet(OptionalGet(owner, "repository"), "stargazers"))
  }

  /** The decision table applied to `res?.data?.data`. */
  function Disambiguate(data: Value): (r: Result<Value>)
    ensures var user, org := OptionalGet(data, "user"), OptionalGet(data, "organization");
      && (r == Err(Error(NOT_FOUND)) <==> !Truthy(user) && !Truthy(org))
      && (r.Ok? <==> ServesRepository(user, org) || ServesRepository(org, user))
      && (r == Err(Error(UNEXPECTED)) <==>
            (Truthy(user) || Truthy(org)) && !Sole(user, org) && !Sole(org, user))
      && (Sole(user, org) ==> r == OwnedRepository(user, USER_REPO_NOT_FOUND))
      && (Sole(org, user) ==> r == OwnedRepository(org, ORG_REPO_NOT_FOUND))
  {
    if !Truthy(data) || (!Truthy(Get(data, "user")) && !Truthy(Get(data, "organization"))) then
      Err(Error(NOT_FOUND))
    else
      var user := Get(data, "user");
      var org := Get(data, "organization");
      var isUser := org.Null? && Truthy(user);
      var isOrg := user.Null? && Truthy(org);
      if isUser then OwnedRepository(user, USER_REPO_NOT_FOUND)
      else if isOrg then OwnedRepository(org, ORG_REPO_NOT_FOUND)
      else Err(Error(UNEXPECTED))
  }

  /** One call `fetchRepo(username, reponame, token)` with the two environment
      fallbacks passed explicitly and `settled` the outcome of the request
      race, used only when the request is sent. */
  function FetchRepo(username: Arg, reponame: Arg, token: Arg, privateGhToken: Arg, ghToken: Arg,
                     settled: Settled): (run: Run)
    ensures run.sent.Some? <==>
      Truthy(username) && Truthy(reponame) && (Truthy(token) || Truthy(privateGhToken) || Truthy(ghToken))
    ensures !Truthy(username) || !Truthy(reponame) ==>
      run.result.Err? && run.result.failure == CheckParams(username, reponame).value
    ensures run.sent.None? && Truthy(username) && Truthy(reponame) ==> run.result == Err(Error(TOKEN_REQUIRED))
    ensures run.sent.Some? ==>
      && run.sent.value.variables == Obj(map["login" := username, "repo" := reponame])
      && run.sent.value.credential == ResolveToken(token, privateGhToken, ghToken).value
    ensures run.sent.Some? && settled.Rejected? ==> run.result == Err(Error(FETCH_FAILED))
    ensures run.sent.Some? && settled.Resolved? ==>
      run.result == Disambiguate(OptionalGet(OptionalGet(settled.response, "data"), "data"))
  {
    match CheckParams(username, reponame)
    case Some(missing) => Run(Err(missing), None)
    case None =>
      match ResolveToken(token, privateGhToken, ghToken)
      case None => Run(Err(Error(TOKEN_REQUIRED)), None)
      case Some(t) =>
        var request := Request(Obj(map["login" := username, "repo" := reponame]), t);
        match settled
        case Rejected(_) => Run(Err(Error(FETCH_FAILED)), Some(request))
        case Resolved(res) => Run(Disambiguate(OptionalGet(OptionalGet(res, "data"), "data")), Some(request))
  }

  /** The three literal cases of the parameter check. Each fails before the
      token is resolved and before any request, whatever the token and the
      environment hold. */
  lemma MissingParamCases(username: Arg, reponame: Arg, token: Arg, privateGhToken: Arg, ghToken: Arg,
                          settled: Settled)
    ensures var run := FetchRepo(username, reponame, token, privateGhToken, ghToken, settled);
      && (!Truthy(username) && !Truthy(reponame) ==>
            run == Run(Err(MissingParamError(["username", "repo"], URL_EXAMPLE)), None))
      && (!Truthy(username) && Truthy(reponame) ==>
            run == Run(Err(MissingParamError(["username"], URL_EXAMPLE)), None))
      && (Truthy(username) && !Truthy(reponame) ==>
            run == Run(Err(MissingParamError(["repo"], URL_EXAMPLE)), None))
  {
  }

  /** A truthy `token` argument is the credential handed on, and the environment
      values make no difference to anything the call does. */
  lemma TokenArgumentWins(username: Arg, reponame: Arg, token: Arg,
                          privateGhToken: Arg, ghToken: Arg, privateGhToken': Arg, ghToken': Arg,
                          settled: Settled)
    requires Truthy(token)
    ensures FetchRepo(username, reponame, token, privateGhToken, ghToken, settled)
         == FetchRepo(username, reponame, token, privateGhToken', ghToken', settled)
    ensures var run := FetchRepo(username, reponame, token, privateGhToken, ghToken, settled);
      run.sent.Some? ==> run.sent.value.credential == token.s
  {
  }

  /** With the identifiers present but no truthy credential, the call fails
      with the token error and sends nothing. */
  lemma TokenRequired(username: Arg, reponame: Arg, token: Arg, privateGhToken: Arg, ghToken: Arg,
                      settled: Settled)
    requires Truthy(username) && Truthy(reponame)
    requires !Truthy(token) && !Truthy(privateGhToken) && !Truthy(ghToken)
    ensures FetchRepo(username, reponame, token, privateGhToken, ghToken, settled)
         == Run(Err(Error(TOKEN_REQUIRED)), None)
  {
  }

  /** Every rejection of the request race, whatever its reason, ends in the
      same failure; and that failure arises from nothing else. */
  lemma RejectionCollapses(username: Arg, reponame: Arg, token: Arg, privateGhToken: Arg, ghToken: Arg,
                           settled: Settled, reason: Value)
    ensures var run := FetchRepo(username, reponame, token, privateGhToken, ghToken, settled);
      && (run.result == Err(Error(FETCH_FAILED)) <==> run.sent.Some? && settled.Rejected?)
      && (settled.Rejected? ==> run == FetchRepo(username, reponame, token, privateGhToken, ghToken, Rejected(reason)))
  {
  }

  /** A response without `data`, or whose `data` has neither a truthy `user`
      nor a truthy `organization`, is reported as not found. */
  lemma NoOwnerNotFound(username: Arg, reponame: Arg, token: Arg, privateGhToken: Arg, ghToken: Arg,
                        response: Value)
    requires Truthy(username) && Truthy(reponame)
    requires Truthy(token) || Truthy(privateGhToken) || Truthy(ghToken)
    requires var data := OptionalGet(OptionalGet(response, "data"), "data");
      !Truthy(data) || (!Truthy(OptionalGet(data, "user")) && !Truthy(OptionalGet(data, "organization")))
    ensures FetchRepo(username, reponame, token, privateGhToken, ghToken, Resolved(response)).result
         == Err(Error(NOT_FOUND))
  {
  }

  /** The two shapes the source sends to its defensive terminal case: both
      owners truthy, and one owner truthy while the other is absent rather
      than `null`. */
  lemma UnexpectedShapes(data: Value)
    ensures var user, org := OptionalGet(data, "user"), OptionalGet(data, "organization");
      && (Truthy(user) && Truthy(org) ==> Disambiguate(data) == Err(Error(UNEXPECTED)))
      && (Truthy(user) && org.Undefined? ==> Disambiguate(data) == Err(Error(UNEXPECTED)))
      && (Truthy(org) && user.Undefined? ==> Disambiguate(data) == Err(Error(UNEXPECTED)))
  {
  }
}
