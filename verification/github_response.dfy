/**
  The responses GitHub's GraphQL API gives to the fetcher's query, built from
  a typed description of the answer. They serve as an independent reference
  for the fetcher's disambiguation: for every well-formed answer the fetcher
  must report the matching outcome, and a consumer reading the returned
  object must recover the repository exactly.
 */
module GitHubResponse {
  import opened JsValue
  import opened RepoFetcher

  /** `primaryLanguage { color id name }`; `color` is nullable. */
  datatype Language = Language(color: Option<string>, id: string, name: string)

  /** The fields of the `RepoInfo` fragment, `stargazers { totalCount }`
      written as `stars`. */
  datatype RepoInfo = RepoInfo(
    name: string,
    nameWithOwner: string,
    isPrivate: bool,
    isArchived: bool,
    isTemplate: bool,
    stars: nat,
    description: Option<string>,
    primaryLanguage: Option<Language>,
    forkCount: nat)

  datatype OwnerKind = UserOwner | OrganizationOwner

  /** What the API knows about `login` and `repo`: no account of that login,
      or an account of one kind that may or may not hold the repository. */
  datatype Answer = NoSuchLogin | Owner(kind: OwnerKind, repository: Option<RepoInfo>)

  function NullableString(o: Option<string>): Value {
    match o
    case None => Null
    case Some(s) => Str(s)
  }

  function LanguageJson(l: Language): Value {
    Obj(map["color" := NullableString(l.color), "id" := Str(l.id), "name" := Str(l.name)])
  }

  function NullableLanguage(o: Option<Language>): Value {
    match o
    case None => Null
    case Some(l) => LanguageJson(l)
  }

  /** The JSON object the API returns for the fragment. */
  function RepoJson(info: RepoInfo): Value {
    Obj(map[
      "name" := Str(info.name),
      "nameWithOwner" := Str(info.nameWithOwner),
      "isPrivate" := Bool(info.isPrivate),
      "isArchived" := Bool(info.isArchived),
      "isTemplate" := Bool(info.isTemplate),
      "stargazers" := Obj(map["totalCount" := Num(info.stars as real)]),
      "description" := NullableString(info.description),
      "primaryLanguage" := NullableLanguage(info.primaryLanguage),
      "forkCount" := Num(info.forkCount as real)])
  }

  function OwnerJson(repository: Option<RepoInfo>): Value {
    var repositoryJson := match repository
      case None => Null
      case Some(info) => RepoJson(info);
    Obj(map["repository" := repositoryJson])
  }

  /** The resolved HTTP response: its body is `{data: {user, organization}}`.
      The owner field whose kind the login is not comes back `null` (the API
      reports it under `errors`, which the fetcher does not read). */
  function ResponseFor(a: Answer): Value {
    var data := match a
      case NoSuchLogin => Obj(map["user" := Null, "organization" := Null])
      case Owner(UserOwner, repo) => Obj(map["user" := OwnerJson(repo), "organization" := Null])
      case Owner(OrganizationOwner, repo) => Obj(map["user" := Null, "organization" := OwnerJson(repo)]);
    Obj(map["data" := Obj(map["data" := data])])
  }

  /** A JSON number that is a natural number. */
  function NatOf(v: Value): Option<nat> {
    if v.Num? && v.n >= 0.0 && v.n == v.n.Floor as real then Some(v.n.Floor) else None
  }

  function NullableStringOf(v: Value): Option<Option<string>> {
    match v
    case Null => Some(None)
    case Str(s) => Some(Some(s))
    case _ => None
  }

  function LanguageOf(v: Value): Option<Option<Language>> {
    if v.Null? then Some(None)
    else if !v.Obj? then None
    else
      var color := NullableStringOf(OptionalGet(v, "color"));
      var id := OptionalGet(v, "id");
      var name := OptionalGet(v, "name");
      if color.Some? && id.Str? && name.Str? then Some(Some(Language(color.value, id.s, name.s)))
      else None
  }

  /** A consumer's reading of the object the fetcher returns, taking the
      star count from the flattened `starCount` field; `None` when a field is
      missing or ill-typed. */
  function RepositoryDataOf(v: Value): Option<RepoInfo> {
    var name := OptionalGet(v, "name");
    var nameWithOwner := OptionalGet(v, "nameWithOwner");
    var isPrivate := OptionalGet(v, "isPrivate");
    var isArchived := OptionalGet(v, "isArchived");
    var isTemplate := OptionalGet(v, "isTemplate");
    var stars := NatOf(OptionalGet(v, "starCount"));
    var description := NullableStringOf(OptionalGet(v, "description"));
    var language := LanguageOf(OptionalGet(v, "primaryLanguage"));
    var forkCount := NatOf(OptionalGet(v, "forkCount"));
    if && name.Str? && nameWithOwner.Str? && isPrivate.Bool? && isArchived.Bool? && isTemplate.Bool?
       && stars.Some? && description.Some? && language.Some? && forkCount.Some?
    then Some(RepoInfo(name.s, nameWithOwner.s, isPrivate.b, isArchived.b, isTemplate.b,
                       stars.value, description.value, language.value, forkCount.value))
    else None
  }

  /** The outcome the fetcher promises for each answer. */
  function Expected(a: Answer): Result<RepoInfo> {
    match a
    case NoSuchLogin => Err(Error(NOT_FOUND))
    case Owner(UserOwner, None) => Err(Error(USER_REPO_NOT_FOUND))
    case Owner(OrganizationOwner, None) => Err(Error(ORG_REPO_NOT_FOUND))
    case Owner(_, Some(info)) => Ok(info)
  }

  /** The returned object is the repository's JSON with `starCount` added and
      equal to `stargazers.totalCount`. */
  lemma {:induction false} FlattenedRepository(info: RepoInfo)
    ensures var r := WithStarCount(RepoJson(info));
      && r.Ok?
      && r.value.props.Keys == RepoJson(info).props.Keys + {"starCount"}
      && r.value.props["starCount"] == Num(info.stars as real)
      && r.value.props["starCount"] == Get(r.value.props["stargazers"], "totalCount")
  {
  }

  /** An object holding every field of `info` in the shape the fetcher
      returns reads back as `info`. */
  predicate HoldsRepository(v: Value, info: RepoInfo) {
    && v.Obj?
    && OptionalGet(v, "name") == Str(info.name)
    && OptionalGet(v, "nameWithOwner") == Str(info.nameWithOwner)
    && OptionalGet(v, "isPrivate") == Bool(info.isPrivate)
    && OptionalGet(v, "isArchived") == Bool(info.isArchived)
    && OptionalGet(v, "isTemplate") == Bool(info.isTemplate)
    && OptionalGet(v, "starCount") == Num(info.stars as real)
    && OptionalGet(v, "description") == NullableString(info.description)
    && OptionalGet(v, "primaryLanguage") == NullableLanguage(info.primaryLanguage)
    && OptionalGet(v, "forkCount") == Num(info.forkCount as real)
  }

  lemma {:induction false} ReadHeldRepository(v: Value, info: RepoInfo)
    requires HoldsRepository(v, info)
    ensures RepositoryDataOf(v) == Some(info)
  {
    assert NatOf(Num(info.stars as real)) == Some(info.stars);
    assert NatOf(Num(info.forkCount as real)) == Some(info.forkCount);
    match info.primaryLanguage
    case None =>
    case Some(l) => assert LanguageOf(LanguageJson(l)) == Some(Some(l));
    match info.description
    case None =>
    case Some(d) =>
  }

  lemma {:induction false} FlattenedHoldsRepository(info: RepoInfo)
    ensures WithStarCount(RepoJson(info)).Ok?
    ensures HoldsRepository(WithStarCount(RepoJson(info)).value, info)
  {
    FlattenedRepository(info);
    var j := RepoJson(info).props;
    var v := WithStarCount(RepoJson(info)).value;
    assert v.props == j["starCount" := Num(info.stars as real)];
  }

  /** A consumer reading the flattened object recovers the repository. */
  lemma {:induction false} ReadBack(info: RepoInfo)
    ensures WithStarCount(RepoJson(info)).Ok?
    ensures RepositoryDataOf(WithStarCount(RepoJson(info)).value) == Some(info)
  {
    FlattenedHoldsRepository(info);
    ReadHeldRepository(WithStarCount(RepoJson(info)).value, info);
  }

  /** For every answer GitHub can give, the fetcher reports the matching
      outcome, and on success the object it returns reads back as exactly
      the repository the API described. */
  lemma {:induction false} AnswersResolve(a: Answer, username: Arg, reponame: Arg, token: Arg,
                                          privateGhToken: Arg, ghToken: Arg)
    requires Truthy(username) && Truthy(reponame)
    requires Truthy(token) || Truthy(privateGhToken) || Truthy(ghToken)
    ensures var run := FetchRepo(username, reponame, token, privateGhToken, ghToken, Resolved(ResponseFor(a)));
      && (run.result.Err? <==> Expected(a).Err?)
      && (run.result.Err? ==> run.result.failure == Expected(a).failure)
      && (run.result.Ok? ==> RepositoryDataOf(run.result.value) == Some(Expected(a).value))
  {
    var run := FetchRepo(username, reponame, token, privateGhToken, ghToken, Resolved(ResponseFor(a)));
    var data := OptionalGet(OptionalGet(ResponseFor(a), "data"), "data");
    assert run.result == Disambiguate(data);
    match a
    case NoSuchLogin =>
    case Owner(kind, None) =>
    case Owner(kind, Some(info)) =>
      ReadBack(info);
      var owner := OwnerJson(Some(info));
      assert Get(owner, "repository") == RepoJson(info);
      if kind == UserOwner {
        assert run.result == OwnedRepository(owner, USER_REPO_NOT_FOUND);
      } else {
        assert run.result == OwnedRepository(owner, ORG_REPO_NOT_FOUND);
      }
  }
}
