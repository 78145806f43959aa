/** The search pipeline of `search_chunks`: build the settings, issue one search, then retrieve
    each hit's text in rank order, dropping the hits whose retrieval fails. */
module SearchPipeline {
  import opened Wrappers
  import opened Remote

  /** The settings sent with the search: hybrid search always on, the limit passed through
      unvalidated, and a document filter only for a non-empty list of file ids. */
  function BuildSettings(fileIds: Option<seq<string>>, limit: int): (s: SearchSettings)
    ensures s.useHybridSearch && s.searchLimit == limit
    ensures s.filters.NoFilter? <==> fileIds.None? || fileIds.value == []
    ensures s.filters.DocumentIdIn? ==> s.filters.ids == fileIds.value
  {
    var filters := if fileIds.Some? && fileIds.value != [] then DocumentIdIn(fileIds.value) else NoFilter;
    SearchSettings(true, filters, limit)
  }

  /** `str(result.get("id", ""))`: the chunk id a retrieval is issued for. */
  function ChunkIdOf(hit: Hit): string {
    hit.id.GetOr("")
  }

  /** The chunk ids of the hits, in rank order. */
  function ChunkIds(hits: seq<Hit>): seq<string> {
    seq(|hits|, i requires 0 <= i < |hits| => ChunkIdOf(hits[i]))
  }

  /** `search_score` of a dict `metadata`, 0 when the key is missing or `metadata` is not a dict. */
  function ScoreOf(metadata: Metadata): (score: real)
    ensures metadata.NotADict? ==> score == 0.0
    ensures metadata.MetadataDict? && metadata.searchScore.None? ==> score == 0.0
    ensures metadata.MetadataDict? && metadata.searchScore.Some? ==> score == metadata.searchScore.value
  {
    match metadata
    case NotADict => 0.0
    case MetadataDict(score) => score.GetOr(0.0)
  }

  /** The entry a hit becomes once its chunk text has been retrieved: its ids (empty when
      missing), the retrieved text (empty when the response has none) and the hit's score. */
  function Enrich(hit: Hit, text: Option<string>): (r: ChunkResult)
    ensures r.documentId == (if hit.documentId.Some? then hit.documentId.value else "")
    ensures r.chunkId == (if hit.id.Some? then hit.id.value else "")
    ensures r.text == (if text.Some? then text.value else "")
    ensures r.score == ScoreOf(hit.metadata)
  {
    ChunkResult(hit.documentId.GetOr(""), ChunkIdOf(hit), text.GetOr(""), ScoreOf(hit.metadata))
  }

  /** The results kept from the hits, given each hit's retrieval outcome. */
  function Kept(hits: seq<Hit>, retrievals: seq<Retrieval>): (r: seq<ChunkResult>)
    requires |retrievals| == |hits|
    ensures |r| <= |hits|
    decreases |hits|
  {
    if |hits| == 0 then []
    else
      var n := |hits| - 1;
      Kept(hits[..n], retrievals[..n]) +
        match retrievals[n]
        case RetrieveFailed => []
        case Retrieved(text) => [Enrich(hits[n], text)]
  }

  /** The positions of the hits whose retrieval succeeded, in increasing order. */
  function SucceededAt(retrievals: seq<Retrieval>): seq<int>
    decreases |retrievals|
  {
    if |retrievals| == 0 then []
    else
      var n := |retrievals| - 1;
      SucceededAt(retrievals[..n]) + if retrievals[n].Retrieved? then [n] else []
  }

  /** `results` picks, through the strictly increasing positions `at`, exactly the hits whose
      retrieval succeeded, each enriched with its own retrieved text. */
  ghost predicate OrderedSelection(results: seq<ChunkResult>, hits: seq<Hit>, retrievals: seq<Retrieval>, at: seq<int>)
    requires |retrievals| == |hits|
  {
    && |at| == |results|
    && (forall j :: 0 <= j < |at| ==>
          0 <= at[j] < |hits| && retrievals[at[j]].Retrieved? &&
          results[j] == Enrich(hits[at[j]], retrievals[at[j]].text))
    && (forall j, k :: 0 <= j < k < |at| ==> at[j] < at[k])
    && (forall i :: 0 <= i < |hits| && retrievals[i].Retrieved? ==> i in at)
  }

  /** Order preservation: the kept results are the successfully retrieved hits, each once, in
      the order the search ranked them; a failed retrieval removes that hit and only that hit. */
  lemma {:induction false} KeptIsOrderedSelection(hits: seq<Hit>, retrievals: seq<Retrieval>)
    requires |retrievals| == |hits|
    ensures OrderedSelection(Kept(hits, retrievals), hits, retrievals, SucceededAt(retrievals))
    decreases |hits|
  {
    if |hits| > 0 {
      var n := |hits| - 1;
      var hs, rs := hits[..n], retrievals[..n];
      KeptIsOrderedSelection(hs, rs);
      var prev, at := Kept(hs, rs), SucceededAt(rs);
      assert Kept(hits, retrievals) == prev + (if retrievals[n].Retrieved? then [Enrich(hits[n], retrievals[n].text)] else []);
      assert SucceededAt(retrievals) == at + (if retrievals[n].Retrieved? then [n] else []);
      assert forall j :: 0 <= j < |at| ==> at[j] < n;
    }
  }

  /** When every retrieval fails, nothing is kept. */
  lemma {:induction false} AllRetrievalsFailedKeepsNothing(hits: seq<Hit>, retrievals: seq<Retrieval>)
    requires |retrievals| == |hits|
    requires forall i :: 0 <= i < |retrievals| ==> retrievals[i].RetrieveFailed?
    ensures Kept(hits, retrievals) == []
    decreases |hits|
  {
    if |hits| > 0 {
      var n := |hits| - 1;
      AllRetrievalsFailedKeepsNothing(hits[..n], retrievals[..n]);
    }
  }

  /** When every retrieval succeeds, every hit is kept, in order, with its own text. */
  lemma {:induction false} AllRetrievalsSucceededKeepsAll(hits: seq<Hit>, retrievals: seq<Retrieval>)
    requires |retrievals| == |hits|
    requires forall i :: 0 <= i < |retrievals| ==> retrievals[i].Retrieved?
    ensures Kept(hits, retrievals) ==
      seq(|hits|, i requires 0 <= i < |hits| => Enrich(hits[i], retrievals[i].text))
    decreases |hits|
  {
    if |hits| > 0 {
      var n := |hits| - 1;
      AllRetrievalsSucceededKeepsAll(hits[..n], retrievals[..n]);
    }
  }

  /** Two hits c1 and c2, the first retrieved with text T1, the second failing: one result. */
  lemma SecondRetrievalFails(d1: Option<string>, d2: Option<string>, m1: Metadata, m2: Metadata)
    ensures Kept([Hit(d1, Some("c1"), m1), Hit(d2, Some("c2"), m2)], [Retrieved(Some("T1")), RetrieveFailed]) ==
      [ChunkResult(d1.GetOr(""), "c1", "T1", ScoreOf(m1))]
  {
    var hits := [Hit(d1, Some("c1"), m1), Hit(d2, Some("c2"), m2)];
    var outs := [Retrieved(Some("T1")), RetrieveFailed];
    assert hits[..1][..0] == [] && outs[..1][..0] == [];
  }

  /** Everything `search_chunks` does after `check_login`: returns the request it sent, the chunk
      ids it asked to retrieve, in order, and the response record. */
  method RunSearch(query: string, fileIds: Option<seq<string>>, limit: int, outcome: SearchOutcome, retrievals: seq<Retrieval>)
    returns (request: SearchRequest, retrieved: seq<string>, response: SearchResponse)
    requires outcome.SearchOk? ==> |retrievals| == |outcome.hits|
    ensures request == SearchRequest(query, BuildSettings(fileIds, limit))
    ensures response.query == query && response.total == |response.results|
    ensures outcome.SearchFailed? ==>
      response.results == [] && response.error == Some(outcome.message) && retrieved == []
    ensures outcome.SearchOk? ==>
      response.error.None? && response.results == Kept(outcome.hits, retrievals) &&
      retrieved == ChunkIds(outcome.hits)
  {
    request := SearchRequest(query, BuildSettings(fileIds, limit));
    match outcome
    case SearchFailed(message) =>
      retrieved := [];
      response := SearchResponse(query, [], 0, Some(message));
    case SearchOk(hits) =>
      var processed := [];
      retrieved := [];
      for i := 0 to |hits|
        invariant processed == Kept(hits[..i], retrievals[..i])
        invariant |retrieved| == i
        invariant forall k :: 0 <= k < i ==> retrieved[k] == ChunkIdOf(hits[k])
      {
        var chunkId := ChunkIdOf(hits[i]);
        retrieved := retrieved + [chunkId];
        assert hits[..i + 1][..i] == hits[..i] && retrievals[..i + 1][..i] == retrievals[..i];
        match retrievals[i]
        case RetrieveFailed =>
        case Retrieved(text) =>
          processed := processed + [Enrich(hits[i], text)];
      }
      assert hits[..|hits|] == hits && retrievals[..|hits|] == retrievals;
      assert retrieved == ChunkIds(hits);
      response := SearchResponse(query, processed, |processed|, None);
  }
}
