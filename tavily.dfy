/**
 * Tavily web search: the client's response is converted into scored chunks, results
 * without raw content are dropped, and the rest are sorted by descending score.
 * The client is a parameter: the model starts from the results it returns.
 */
module Tavily {
  import opened Wrappers
  import opened Document

  /** One entry of the client's `results` list. */
  datatype SearchResult = SearchResult(
    url: string,
    rawContent: Option<string>,
    content: Option<string>,
    title: string,
    score: real)

  datatype TimeRange = Day | Week | Month | Year

  /** The arguments the client is called with; `include_raw_content` is always true. */
  datatype SearchRequest = SearchRequest(query: string, maxResults: int, includeRawContent: bool, timeRange: TimeRange)

  /** The results the filter keeps: those whose `raw_content` is not None, in response order. */
  function Kept(results: seq<SearchResult>): (r: seq<SearchResult>)
    ensures |r| <= |results|
    ensures forall k :: 0 <= k < |r| ==> r[k].rawContent.Some? && r[k] in results
  {
    if results == [] then []
    else (if results[0].rawContent.Some? then [results[0]] else []) + Kept(results[1..])
  }

  /** The chunk built from one kept result; `uuid` supplies the fresh chunk id. */
  function ToChunk(result: SearchResult, id: Uuid): ScoredChunk {
    ScoredChunk(Chunk(id, result.rawContent.GetOr(""), WebsearchMetadata(result.url)), result.score)
  }

  /** The comprehension over the kept results; the `k`-th chunk gets id `uuid(k)`. */
  function Convert(kept: seq<SearchResult>, uuid: nat -> Uuid): (r: seq<ScoredChunk>)
    ensures |r| == |kept|
    ensures forall k :: 0 <= k < |kept| ==> r[k] == ToChunk(kept[k], uuid(k))
  {
    seq(|kept|, k requires 0 <= k < |kept| => ToChunk(kept[k], uuid(k)))
  }

  const EmptyQuery: string := "Query cannot be empty"

  /** `TavilyWebSearch.search`. */
  function Search(query: string, topK: int, timeRange: TimeRange,
                  client: SearchRequest -> seq<SearchResult>, uuid: nat -> Uuid): (r: Result<seq<ScoredChunk>>)
    ensures query == "" <==> r == Err(ValueError(EmptyQuery))
    ensures r.Ok? ==> multiset(r.value) == multiset(Convert(Kept(client(SearchRequest(query, topK, true, timeRange))), uuid))
  {
    if query == "" then Err(ValueError(EmptyQuery))
    else
      var results := client(SearchRequest(query, topK, true, timeRange));
      SortPermutes(Convert(Kept(results), uuid), true);
      Ok(SortByScore(Convert(Kept(results), uuid), true))
  }

  /** `asearch`: the same search run on an executor, with the default `topk` of 3 and range of a week. */
  function ASearch(query: string, client: SearchRequest -> seq<SearchResult>, uuid: nat -> Uuid): Result<seq<ScoredChunk>> {
    Search(query, 3, Week, client, uuid)
  }

  /** A result is kept exactly when its raw content is present. */
  lemma {:induction false} KeptExactly(results: seq<SearchResult>, x: SearchResult)
    ensures x in Kept(results) <==> x in results && x.rawContent.Some?
  {
    if results != [] {
      KeptExactly(results[1..], x);
    }
  }

  /**
   * A successful search returns the kept results, each as a chunk with its raw content
   * as text, its url as metadata and its score, as a permutation sorted by descending
   * score that keeps equal scores in response order, and no longer than the response.
   */
  lemma SearchResults(query: string, topK: int, timeRange: TimeRange,
                      client: SearchRequest -> seq<SearchResult>, uuid: nat -> Uuid)
    requires query != ""
    ensures var results := client(SearchRequest(query, topK, true, timeRange));
      var chunks := Convert(Kept(results), uuid);
      var r := Search(query, topK, timeRange, client, uuid);
      && r.Ok?
      && SortedByScore(r.value, true)
      && multiset(r.value) == multiset(chunks)
      && (forall v :: WithScore(r.value, v) == WithScore(chunks, v))
      && |r.value| <= |results|
      && (forall c :: c in r.value ==> exists k :: 0 <= k < |Kept(results)| && c == ToChunk(Kept(results)[k], uuid(k)))
  {
    var results := client(SearchRequest(query, topK, true, timeRange));
    var chunks := Convert(Kept(results), uuid);
    var r := SortByScore(chunks, true);
    SortPermutes(chunks, true);
    SortIsSorted(chunks, true);
    forall v ensures WithScore(r, v) == WithScore(chunks, v) {
      SortIsStable(chunks, true, v);
    }
    assert |r| == |multiset(r)| == |multiset(chunks)| == |chunks|;
    forall c | c in r ensures exists k :: 0 <= k < |Kept(results)| && c == ToChunk(Kept(results)[k], uuid(k)) {
      assert c in multiset(r);
      assert c in multiset(chunks);
      var k :| 0 <= k < |chunks| && chunks[k] == c;
    }
  }

  /** The chunk built from a result carries its raw content, its url and its score. */
  lemma ToChunkFields(result: SearchResult, id: Uuid)
    requires result.rawContent.Some?
    ensures ToChunk(result, id).chunk.text == result.rawContent.value
    ensures ToChunk(result, id).chunk.metadata == WebsearchMetadata(result.url)
    ensures ToChunk(result, id).chunk.metadata.Source() == WebsearchSource
    ensures ToChunk(result, id).score == result.score
  {
  }
}
