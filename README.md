# R2R search tool: session guard and search pipeline

A Dafny model of the core of `mcp_servers/r2r_processor.py`, an MCP tool server that exposes one
tool, `search_chunks`, over an R2R document-chunk index. Two components are modelled:

- **Session guard** (`init_r2r_client`, `verify_jwt_expiration`, `check_login`). One process-wide
  R2R client handle holds an access token and a refresh token. Before every tool call the guard
  decides, in order:
  - to create the client (and log in when credentials are configured), when there is none yet;
  - once a client exists, to do nothing, because no credentials are configured or the access
    token is still valid;
  - to exchange a still-valid refresh token;
  - to log in again.

  Each failed exchange falls through to the next step and is never raised.
- **Search pipeline** (`search_chunks`). It builds the search settings from the optional file ids,
  issues one hybrid search, then retrieves each hit's chunk text in rank order. It drops a hit
  whose retrieval fails and always returns a well-formed record; that record carries `error` only
  when the search call itself failed.

Every call to the R2R service (login, refresh, search, retrieve) is an outcome supplied by the
caller: success with its payload, or failure. The properties below therefore hold for every
possible behaviour of the service. The decoded JWT is the datatype `Jwt.Token`
(`Malformed | Decoded(exp)`), and the clock is an integer `now` in Unix seconds. The environment
(`R2R_BASE_URL`, `R2R_USERNAME`, `R2R_PASSWORD`) is a `Config` value whose fields are `None` when
a variable is unset.

Files:
- `wrappers.dfy`: `Option`.
- `jwt_expiration.dfy`: the token and the expiry check.
- `remote.dfy`: the service's outcomes, the exchange log entries, and the hit and response records.
- `session_guard.dfy` has two parts:
  - the pure step functions `InitStep` and `CheckLoginStep`, which give the new state and the
    exchanges issued;
  - the class `Session`, which holds the client handle. Its methods mutate the handle as the source
    does and are proved equal to the step functions.
- `search_pipeline.dfy`: the settings, the retrieval loop `RunSearch`, and its specification `Kept`.
- `search_tool.dfy`: `SearchChunks`, which runs the guard and then the pipeline.

Three behaviours of `r2r_processor.py` the model keeps:
- A failed initial login leaves the client handle set. Later calls therefore do not initialise
  again; they go through the token checks and log in again.
- `file_ids` is passed to the filter as the list it is, with its order and duplicates, not as a set.
- `limit` is any integer and is passed through unchecked.

## Model

| member | source | states |
|---|---|---|
| Jwt.VerifyExpiration | mcp_servers/r2r_processor.py:33-53 | a token counts as valid only if it is present, decodes, has a non-zero `exp`, and `now` is strictly before that `exp` |
| Jwt.ValidExactlyBeforeExpiry | mcp_servers/r2r_processor.py:43-50 | a decoded token with a non-zero, representable `exp` is valid exactly when `now < exp` (strict) |
| Jwt.UnusableTokensAreRejected | mcp_servers/r2r_processor.py:33-53 | an empty token, one that fails to decode, one without `exp`, one with `exp` 0, and one whose `exp` `datetime.fromtimestamp` rejects are all invalid at every time |
| Jwt.ValidityIsMonotone | mcp_servers/r2r_processor.py:47-50 | a token valid now was valid at every earlier time, and is invalid from its `exp` on |
| Jwt.HourAheadValidSecondAgoExpired | mcp_servers/r2r_processor.py:47-50 | `exp = now + 3600` is valid and `exp = now - 1` is expired |
| SessionGuard.BaseUrl | mcp_servers/r2r_processor.py:16 | the base URL is `R2R_BASE_URL` when set, else `http://localhost:7272` |
| SessionGuard.LoginStep | mcp_servers/r2r_processor.py:80-83 | a login issues exactly one login call with the configured credentials; a successful login installs the returned access and refresh tokens; a failed login leaves the state unchanged and is not raised |
| SessionGuard.InitStep | mcp_servers/r2r_processor.py:13-28 | no-op when a client exists; otherwise it creates the client at the configured base URL, issues exactly one login with `R2R_USERNAME`/`R2R_PASSWORD` when both are non-empty and no call otherwise, and never refreshes; the new client holds the login's access and refresh tokens after a successful login and no tokens otherwise (failed login or no credentials), keeping the handle set |
| SessionGuard.CheckLoginStep | mcp_servers/r2r_processor.py:56-83 | after the call a client exists; it issues only login and refresh calls, at most one of each; a refresh is issued only when the handle exists, credentials are configured, the access token is invalid and the refresh token is valid; a successful refresh means no login; with a client and without configured credentials, nothing is issued and nothing changes; without a client the call is `init_r2r_client`, which creates one and, without credentials, issues nothing |
| SessionGuard.NoClientOnlyInitializes | mcp_servers/r2r_processor.py:58-60 | without a client, the call is exactly `init_r2r_client`: no token check, no refresh, no extra login |
| SessionGuard.ValidAccessTokenIsNoOp | mcp_servers/r2r_processor.py:68-70 | with a client and a valid access token, nothing is issued and nothing changes, whatever the configuration and the service would answer |
| SessionGuard.SuccessfulRefreshSkipsLogin | mcp_servers/r2r_processor.py:72-76 | an invalid access token plus a valid refresh token whose exchange succeeds gives exactly one refresh call, no login, and the refreshed tokens |
| SessionGuard.FallbackIsExactlyOneLogin | mcp_servers/r2r_processor.py:72-83 | an invalid access token plus an unusable refresh token or a failed refresh ends in exactly one login, issued last; a refresh is attempted iff the refresh token was valid, and then the calls are exactly a refresh carrying that refresh token followed by the login; the login outcome alone decides the new tokens |
| SessionGuard.RenewedSessionNeedsNothingMore | mcp_servers/r2r_processor.py:58-83 | when a call must renew (no client, or an unusable access token) and the exchange that renews succeeds, its access token is installed, and a later call at which that token is still valid issues nothing |
| SessionGuard.Session.constructor | mcp_servers/r2r_processor.py:10 | at module load there is no client handle, no token, and no exchange has been issued |
| SessionGuard.Session.Login | mcp_servers/r2r_processor.py:80-83 | the handle's tokens and log change exactly as `LoginStep` says |
| SessionGuard.Session.Init | mcp_servers/r2r_processor.py:13-28 | the handle ends as `InitStep` says, with a client, and its log grows by exactly the exchanges `InitStep` issues |
| SessionGuard.Session.CheckLogin | mcp_servers/r2r_processor.py:56-83 | the handle ends as `CheckLoginStep` says, with a client, and its log grows by exactly the exchanges `CheckLoginStep` issues |
| SearchPipeline.BuildSettings | mcp_servers/r2r_processor.py:101-112 | hybrid search is always on; the limit is passed unchanged; the filter is empty exactly when `file_ids` is None or empty, and otherwise restricts `document_id` to `file_ids` |
| SearchPipeline.Kept | mcp_servers/r2r_processor.py:116-136 | never more results than hits |
| SearchPipeline.KeptIsOrderedSelection | mcp_servers/r2r_processor.py:116-136 | the results are the hits whose retrieval succeeded, in search order, each exactly once and enriched with its own text; a failed retrieval removes that hit only |
| SearchPipeline.AllRetrievalsFailedKeepsNothing | mcp_servers/r2r_processor.py:121-136 | when every retrieval fails the results are empty |
| SearchPipeline.AllRetrievalsSucceededKeepsAll | mcp_servers/r2r_processor.py:121-130 | when every retrieval succeeds the results are every hit, in order, each enriched with its own text |
| SearchPipeline.ScoreOf | mcp_servers/r2r_processor.py:129 | the score is `metadata.search_score` when `metadata` is a dict that has it, 0 when the key is missing, and 0 when `metadata` is not a dict |
| SearchPipeline.Enrich | mcp_servers/r2r_processor.py:118-130 | a kept entry carries the hit's document id and chunk id (empty when missing), the retrieved text (empty when the response has none) and the hit's score |
| SearchPipeline.SecondRetrievalFails | mcp_servers/r2r_processor.py:117-136 | hits `c1`, `c2` with `c1` retrieved as `T1` and `c2` failing give the single result `c1`/`T1` |
| SearchPipeline.RunSearch | mcp_servers/r2r_processor.py:101-151 | the request carries the built settings; `total == len(results)`; a failed search gives empty results, no retrievals and the error message; a successful one gives no error, the kept results, and one retrieval per hit in hit order |
| SearchTool.SearchChunks | mcp_servers/r2r_processor.py:86-151 | `file_ids` and `limit` default to None and 5; the guard runs before the search; the client's log grows by the guard's exchanges, then one search call, then one retrieval per hit; the response is as `RunSearch` states |

## Left out

- FastMCP server construction, tool registration and `mcp.run()` (lines 8, 86, 154-157): framework plumbing. The start-up call to `init_r2r_client` is `Session.Init`.
- The R2R client's internals (`users.login`, `refresh_access_token`, `chunks.search`, `chunks.retrieve`, `model_dump`): each is an outcome supplied by the caller. A successful login or refresh installs both tokens; a failed one leaves them unchanged.
- JWT decoding: replaced by the `Token` datatype. A token string whose `exp` is not a number is `Malformed`, since both make the check answer false.
- Floating-point timestamps and local time: time is integer seconds. The range that `datetime.fromtimestamp` accepts is given in UTC, and the local-time offset is not modelled.
- `CheckLogin` reads the clock once per call. The source reads it once per token check, microseconds apart.
- Environment reading and logging: the environment is the `Config` parameter, and logging is dropped.
- Concurrent tool calls sharing the unsynchronised global: the model assumes one call at a time.
- An exception from the `R2RClient` constructor, which `check_login` would not catch: the model assumes construction succeeds.
- `hasattr` checks on the client: the R2R client always has `access_token` and `_refresh_token`, so only their truthiness is modelled.
- RunSearch: assumes the caller supplies exactly one retrieval outcome per hit. This is a condition on the modelled service, not on the tool's callers.
- Hits and retrieval responses of unexpected shape are not modelled: a hit that is not a dict, an id that is not a string, a `search_score` that is not a number. A retrieval response whose `results` is not a dict raises inside the inner `try`, so it counts as a failed retrieval.
- `example/single_prompt/r2r_search_example.py` is not part of this model: it is chat orchestration and a command-line wrapper, with no logic of its own.
