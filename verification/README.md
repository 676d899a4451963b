# Repository fetcher: decision logic of `fetchRepo`

This project models the part of the GitHub readme-stats repository fetcher that
decides what a call of `fetchRepo(username, reponame, token)` does once the
network is taken out of the picture:

1. **Parameter validation.** A falsy `username` and/or `reponame` (absent or the
   empty string) throws a `MissingParamError` naming exactly the missing
   fields, `"username"` before `"repo"`, with the usage example as secondary
   message.
2. **Credential resolution.** The credential is the value of
   `token || PRIVATE_GH_TOKEN || GH_TOKEN`; when it is falsy the call throws
   "GitHub token is required to fetch private repo metadata." before any
   request. Otherwise `retryer` is started with `fetcher`, the variables
   `{login, repo}` and that credential; `fetcher` itself builds the header
   `Authorization: token <t>` from the token it is given.
3. **Response disambiguation.** Whatever rejects the race between the retried
   request and the 8-second timer becomes "Failed to fetch repo (timeout or
   GitHub API error).". A resolved response is read through
   `res?.data?.data`. Then the owner objects `user` and `organization` are
   tested, some with JavaScript truthiness and some with strict `=== null`.
   The outcome is the repository object with `starCount` added, or one of the
   errors "Repository not found or inaccessible.", "User Repository Not found",
   "Organization Repository Not found" and "Unexpected behavior".

Files:

- `js_value.dfy` (module `JsValue`): JavaScript values (`undefined`, `null`,
  booleans, numbers, strings, arrays, objects), truthiness, property reads,
  optional chaining and the `||` chain.
- `repo_fetcher.dfy` (module `RepoFetcher`): the three stages and the whole
  call `FetchRepo`. It returns a `Run`: the returned value or thrown error,
  together with the variables and credential handed to `retryer` (`None` when
  the call failed before starting any request). The outcome of the request race is a parameter `Settled`
  (`Resolved(response)` or `Rejected(reason)`). The two environment variables
  are explicit parameters.
- `github_response.dfy` (module `GitHubResponse`): a typed description of
  what the GraphQL API answers and the response it sends for each answer. It
  is an independent reference: for every answer the fetcher reports the
  matching outcome, and a consumer reading the returned object recovers the
  repository exactly.

Two consequences of the code's mix of truthiness and strict `=== null` tests:

- A truthy owner beside an other owner that is absent, or any other falsy
  value that is not `null` (`false`, `""`, `0`), ends in "Unexpected
  behavior", just as two truthy owners do.
- Success also needs `repository.stargazers` to be neither `null` nor absent;
  otherwise line 127 reads `totalCount` of it and throws a `TypeError` that
  the function does not catch. A response that follows the GraphQL schema
  always carries `stargazers`.

## Model

| member | source | states |
|---|---|---|
| JsValue.OrChain | src/fetchers/repo-fetcher.js:94-95 | the left-nested chain of JavaScript logical-or operators yields one of its operands; it is truthy exactly when some operand is; it is the first truthy operand, or the last operand when none is truthy |
| RepoFetcher.CheckParams | src/fetchers/repo-fetcher.js:84-92 | passes exactly when both identifiers are truthy; otherwise a `MissingParamError` with the usage example whose fields are exactly the falsy ones, `"username"` first and the missing repository name reported as `"repo"` |
| RepoFetcher.ResolveToken | src/fetchers/repo-fetcher.js:94-99 | a credential exists exactly when one of token, PRIVATE_GH_TOKEN, GH_TOKEN is a non-empty string; it is the first such, so a non-empty argument always wins |
| RepoFetcher.HeaderRoundTrip | src/fetchers/repo-fetcher.js:54 | a header read as the `token` scheme yields credential `t` exactly when it is the header `fetcher` builds from `t` |
| RepoFetcher.TokenOfHeader | src/fetchers/repo-fetcher.js:54 | a header is of the `token` scheme exactly when it starts with `token `; the credential read from it rebuilds the same header |
| RepoFetcher.WithStarCount | src/fetchers/repo-fetcher.js:125-128 | succeeds exactly when the repository is an object whose `stargazers` is present and not null (otherwise the `totalCount` read throws); the result has the repository's keys plus `starCount`, every other field copied unchanged (including `stargazers`), and `starCount` equal to `stargazers.totalCount` |
| RepoFetcher.OwnedRepository | src/fetchers/repo-fetcher.js:121-139 | a falsy `repository` of the recognised owner gives that owner's not-found error, and nothing else does; a truthy one is flattened |
| RepoFetcher.Disambiguate | src/fetchers/repo-fetcher.js:114-141 | "not found" exactly when neither owner is truthy; success exactly when one owner is truthy with a flattenable repository and the other is strictly null; "Unexpected behavior" exactly when some owner is truthy but neither is alone beside a strict null; user branch taken before org branch |
| RepoFetcher.FetchRepo | src/fetchers/repo-fetcher.js:83-142 | a request is started exactly when both identifiers and some credential are truthy; `retryer` is then given exactly the variables `{login: username, repo: reponame}` and the credential `ResolveToken` chooses; missing parameters give the parameter error; no credential gives the token error; a rejected race gives the fetch-failed error; a resolved one is disambiguated through `res?.data?.data` |
| RepoFetcher.MissingParamCases | src/fetchers/repo-fetcher.js:84-92 | the three literal cases (both, only username, only repo missing) give their fields and send no request, whatever the credentials and the network outcome |
| RepoFetcher.TokenArgumentWins | src/fetchers/repo-fetcher.js:94-95 | with a truthy token argument the environment values change nothing, and that argument is the credential handed to `retryer` |
| RepoFetcher.TokenRequired | src/fetchers/repo-fetcher.js:97-99 | identifiers present and all three credentials falsy: the token error and no request |
| RepoFetcher.RejectionCollapses | src/fetchers/repo-fetcher.js:101-110 | the fetch-failed error arises exactly from a started request whose race rejected, and the rejection reason never shows |
| RepoFetcher.NoOwnerNotFound | src/fetchers/repo-fetcher.js:112-116 | a response without `data`, or with neither owner truthy, is reported as not found |
| RepoFetcher.UnexpectedShapes | src/fetchers/repo-fetcher.js:114-141 | both owners truthy, or one truthy beside an absent (not null) other, gives "Unexpected behavior" |
| GitHubResponse.FlattenedRepository | src/fetchers/repo-fetcher.js:125-128 | a schema-conforming repository always flattens, gaining only `starCount`, equal to its `stargazers.totalCount` |
| GitHubResponse.ReadBack | src/fetchers/repo-fetcher.js:125-128 | reading the flattened object field by field, stars from `starCount`, recovers the repository exactly |
| GitHubResponse.AnswersResolve | src/fetchers/repo-fetcher.js:112-141 | for every answer the API can give (no such login; a user or organization with or without the repository) the fetcher reports the matching error or returns an object that reads back as the repository |

## Left out

- The retrying request (`retryer`, `request`): ../common/retryer.js and ../common/utils.js are not part of this model. Their attempt count, backoff and status classification are therefore not stated; the whole request is the input `Settled`.
- The `Promise.race` with the 8000 ms timer and the timer itself: timing and concurrency are folded into `Settled`; a timeout is one kind of `Rejected`.
- `process.env`: the two environment variables are explicit parameters.
- `console.error` logging of the rejection reason: output only, not modelled.
- The GraphQL query text: an opaque constant; `github_response.dfy` describes the response shape it asks for.
- `api/total-repos.js`: an HTTP handler (a fixed-login POST, an environment token, a one-line SVG template, every failure mapped to status 500) with no separable logic.
- JavaScript `NaN` and non-JSON values (functions, symbols, getters) are not modelled. Property reads are faithful only for keys that no prototype defines, which covers every key the fetcher reads.
- The order of keys in the returned object is not modelled; objects are maps.
- The parameter and credential inputs are `string | undefined`: `token` is optional, and a missing query parameter arrives as `undefined`. Other falsy values a caller might pass (`null`, `0`, `false`) are not modelled.
- RepoFetcher.FetchRepo: states what `fetchRepo` hands to `retryer`, not the header on the wire; that the header is `token <credential>` rests on the assumption that `retryer` calls `fetcher` with the variables and the credential it was given, which ../common/retryer.js (not part of this model) decides.
- RepoFetcher.FetchRepo: takes the race outcome as given for the request sent and does not state that the request goes through the retrying fetcher with an 8000 ms deadline, because that code is not modelled.
