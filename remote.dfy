/** The R2R service as the processor sees it: each exchange (login, refresh, search, retrieve)
    is an outcome supplied by the caller, success with its payload or failure. */
module Remote {
  import opened Wrappers
  import opened Jwt

  /** `users.login`: on success the client holds a new access and refresh token. */
  datatype LoginOutcome = LoginOk(access: Token, refresh: Token) | LoginFailed

  /** `refresh_access_token`: on success the client holds the tokens the service sent back. */
  datatype RefreshOutcome = RefreshOk(access: Token, refresh: Token) | RefreshFailed

  /** The `filters` entry of the search settings: `{}` or `{"document_id": {"$in": ids}}`. */
  datatype Filter = NoFilter | DocumentIdIn(ids: seq<string>)

  datatype SearchSettings = SearchSettings(useHybridSearch: bool, filters: Filter, searchLimit: int)

  datatype SearchRequest = SearchRequest(query: string, settings: SearchSettings)

  /** The `metadata` of a hit: a dict, whose `search_score` key may be missing, or anything else. */
  datatype Metadata = NotADict | MetadataDict(searchScore: Option<real>)

  /** One entry of the search response's `results`; missing keys are `None`. */
  datatype Hit = Hit(documentId: Option<string>, id: Option<string>, metadata: Metadata)

  /** `chunks.search`: either it raises (with its message) or it yields the hits in rank order. */
  datatype SearchOutcome = SearchFailed(message: string) | SearchOk(hits: seq<Hit>)

  /** `chunks.retrieve`: either it raises, or its `results` may or may not carry a `text`. */
  datatype Retrieval = RetrieveFailed | Retrieved(text: Option<string>)

  /** One entry of the tool's `results`. */
  datatype ChunkResult = ChunkResult(documentId: string, chunkId: string, text: string, score: real)

  /** The record `search_chunks` returns; `error` is present only when the search call failed. */
  datatype SearchResponse = SearchResponse(query: string, results: seq<ChunkResult>, total: int, error: Option<string>)

  /** A call issued to the service, in the order the client issues them. */
  datatype Exchange =
    | LoginCall(username: string, password: string)
    | RefreshCall(refreshToken: Token)
    | SearchCall(request: SearchRequest)
    | RetrieveCall(chunkId: string)

  function Logins(calls: seq<Exchange>): nat {
    if calls == [] then 0 else (if calls[0].LoginCall? then 1 else 0) + Logins(calls[1..])
  }

  function Refreshes(calls: seq<Exchange>): nat {
    if calls == [] then 0 else (if calls[0].RefreshCall? then 1 else 0) + Refreshes(calls[1..])
  }
}
