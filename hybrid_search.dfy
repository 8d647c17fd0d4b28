/**
 * Hybrid search: a semantic search through the vector store followed, when asked,
 * by a web search, concatenated in that order into one fresh `ScoredChunks`.
 * The embedding model, the vector store and the web client are parameters.
 */
module HybridSearch {
  import opened Wrappers
  import opened Document
  import Seqs
  import Tavily

  type Embedding = seq<real>

  /** The collaborators of `HybridSearch`. */
  datatype Backends = Backends(
    embed: seq<string> -> seq<Embedding>,
    vectorSearch: (Embedding, int) -> seq<ScoredChunk>,
    client: Tavily.SearchRequest -> seq<Tavily.SearchResult>,
    uuid: nat -> Uuid)

  const EmptyEmbedding: string := "Query embedding is empty"

  /** `semantic_search`: embed the query, refuse an empty embedding list, return the store's result as is. */
  function SemanticSearch(query: string, topK: int, b: Backends): (r: Result<seq<ScoredChunk>>)
    ensures b.embed([query]) == [] <==> r == Err(ValueError(EmptyEmbedding))
    ensures b.embed([query]) != [] ==> r == Ok(b.vectorSearch(b.embed([query])[0], topK))
  {
    var embeddings := b.embed([query]);
    if |embeddings| == 0 then Err(ValueError(EmptyEmbedding))
    else Ok(b.vectorSearch(embeddings[0], topK))
  }

  /** What `asyncio.gather` hands on when every task succeeded: each task's chunks, in task order. */
  function Gathered(tasks: seq<Result<seq<ScoredChunk>>>): (parts: seq<Option<seq<ScoredChunk>>>)
    requires forall k :: 0 <= k < |tasks| ==> tasks[k].Ok?
    ensures |parts| == |tasks| && forall k :: 0 <= k < |tasks| ==> parts[k] == Some(tasks[k].value)
  {
    seq(|tasks|, k requires 0 <= k < |tasks| => Some(tasks[k].value))
  }

  /** With one or two tasks, the gathered chunks are the first task's followed by the second's. */
  lemma GatheredFlatten(tasks: seq<Result<seq<ScoredChunk>>>)
    requires 1 <= |tasks| <= 2
    requires forall k :: 0 <= k < |tasks| ==> tasks[k].Ok?
    ensures Seqs.Flatten(Values(Gathered(tasks))) == tasks[0].value + (if |tasks| == 2 then tasks[1].value else [])
  {
    var values := Values(Gathered(tasks));
    assert values[0] == tasks[0].value;
    if |tasks| == 2 {
      assert values[1] == tasks[1].value;
      assert values[1..][1..] == [];
      assert Seqs.Flatten(values[1..]) == tasks[1].value + Seqs.Flatten(values[1..][1..]);
    } else {
      assert values[1..] == [];
    }
  }

  /**
   * `asearch`: the list of tasks (semantic first, then the web search with its own
   * defaults when `websearch` is set), gathered in order and extended into an empty
   * `ScoredChunks`. A failing task makes the whole call fail; the first failing task
   * in list order decides the error.
   */
  method ASearch(query: string, topK: int, websearch: bool, b: Backends) returns (r: Result<ScoredChunks>)
    ensures r.Ok? <==> SemanticSearch(query, topK, b).Ok? && (websearch ==> Tavily.ASearch(query, b.client, b.uuid).Ok?)
    ensures SemanticSearch(query, topK, b).Err? ==> r == Err(SemanticSearch(query, topK, b).error)
    ensures SemanticSearch(query, topK, b).Ok? && websearch && Tavily.ASearch(query, b.client, b.uuid).Err? ==>
      r == Err(Tavily.ASearch(query, b.client, b.uuid).error)
    ensures r.Ok? ==> fresh(r.value)
    ensures r.Ok? ==>
      r.value.root == SemanticSearch(query, topK, b).value + (if websearch then Tavily.ASearch(query, b.client, b.uuid).value else [])
  {
    var tasks: seq<Result<seq<ScoredChunk>>> := [SemanticSearch(query, topK, b)];
    if websearch {
      tasks := tasks + [Tavily.ASearch(query, b.client, b.uuid)];
    }
    // `asyncio.gather`: every task's result, in task order, or the first failure
    var retrievalList: seq<ScoredChunks> := [];
    var i := 0;
    while i < |tasks|
      invariant 0 <= i <= |tasks|
      invariant |retrievalList| == i
      invariant forall k :: 0 <= k < i ==> tasks[k].Ok? && fresh(retrievalList[k]) && retrievalList[k].root == tasks[k].value
    {
      if tasks[i].Err? {
        return Err(tasks[i].error);
      }
      var found := new ScoredChunks(tasks[i].value);
      retrievalList := retrievalList + [found];
      i := i + 1;
    }
    var merged := new ScoredChunks([]);
    assert merged.Parts(retrievalList) == Gathered(tasks);
    ExtendAppendsAll([], Gathered(tasks));
    var self := merged.Extend(retrievalList);
    GatheredFlatten(tasks);
    r := Ok(merged);
  }
}
