/** The `search_chunks` tool: the session guard runs first, then the search pipeline; every
    exchange lands in the client's log in the order it is issued. */
module SearchTool {
  import opened Wrappers
  import opened Remote
  import opened SessionGuard
  import opened SearchPipeline

  function RetrieveCalls(chunkIds: seq<string>): seq<Exchange> {
    seq(|chunkIds|, i requires 0 <= i < |chunkIds| => RetrieveCall(chunkIds[i]))
  }

  /** The tool entry point; `fileIds` and `limit` default to None and 5 as in the tool signature. */
  method SearchChunks(
    session: Session, cfg: Config, now: int, login: LoginOutcome, refresh: RefreshOutcome,
    outcome: SearchOutcome, retrievals: seq<Retrieval>,
    query: string, fileIds: Option<seq<string>> := None, limit: int := 5)
    returns (response: SearchResponse)
    requires outcome.SearchOk? ==> |retrievals| == |outcome.hits|
    modifies session
    ensures session.hasClient
    ensures var auth := CheckLoginStep(old(session.State()), cfg, now, login, refresh);
      session.State() == auth.after &&
      session.log == old(session.log) + auth.issued +
        [SearchCall(SearchRequest(query, BuildSettings(fileIds, limit)))] +
        (if outcome.SearchOk? then RetrieveCalls(ChunkIds(outcome.hits)) else [])
    ensures response.query == query && response.total == |response.results|
    ensures outcome.SearchFailed? ==> response.results == [] && response.error == Some(outcome.message)
    ensures outcome.SearchOk? ==> response.error.None? && response.results == Kept(outcome.hits, retrievals)
  {
    session.CheckLogin(cfg, now, login, refresh);
    var request, retrieved;
    request, retrieved, response := RunSearch(query, fileIds, limit, outcome, retrievals);
    session.log := session.log + [SearchCall(request)] + RetrieveCalls(retrieved);
  }
}
