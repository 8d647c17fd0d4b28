/**
 * The BM25S keyword search engine: its text normalisation (lower-casing, template
 * placeholder removal, whitespace collapsing), the bookkeeping of indexed chunks,
 * and the pairing of retrieved chunks with their scores. Tokenisation, the BM25
 * index itself and its files on disk belong to the bm25s library and are parameters
 * or left out: the model records which texts the index was built from.
 */
module BM25S {
  import opened Wrappers
  import opened Strings
  import opened Document

  // ---------------------------------------------------------------------------
  // re.sub(r"\{\{.*?\}\}", " ", text)
  // ---------------------------------------------------------------------------

  /** The character `c` twice in a row at position `k` of `t`: `{{` or `}}`. */
  predicate DoubleAt(t: string, k: int, c: char) {
    0 <= k && k + 1 < |t| && t[k] == c && t[k + 1] == c
  }

  /**
   * The length of the prefix of `t` up to and including its first `}}`, provided no
   * newline comes before it: how far the lazy `.*?` followed by `\}\}` reaches.
   */
  function CloseLength(t: string): (r: Option<nat>)
    ensures r.Some? ==> 2 <= r.value <= |t|
  {
    if |t| < 2 then None
    else if DoubleAt(t, 0, '}') then Some(2)
    else if t[0] == '\n' then None
    else match CloseLength(t[1..])
      case None => None
      case Some(n) => Some(n + 1)
  }

  /** When the match succeeds it ends at the first `}}`, and no newline comes before it. */
  lemma {:induction false} CloseLengthFirst(t: string)
    ensures CloseLength(t).Some? ==> DoubleAt(t, CloseLength(t).value - 2, '}')
    ensures CloseLength(t).Some? ==> forall k :: 0 <= k < CloseLength(t).value - 2 ==> t[k] != '\n' && !DoubleAt(t, k, '}')
    decreases |t|
  {
    if |t| >= 2 && !DoubleAt(t, 0, '}') && t[0] != '\n' && CloseLength(t[1..]).Some? {
      var u := t[1..];
      var n := CloseLength(u).value;
      CloseLengthFirst(u);
      assert CloseLength(t) == Some(n + 1);
      assert t[n - 1] == u[n - 2] && t[n] == u[n - 1];
      forall k | 0 <= k < n - 1
        ensures t[k] != '\n' && !DoubleAt(t, k, '}')
      {
        if k > 0 {
          assert t[k] == u[k - 1] && t[k + 1] == u[k];
        }
      }
    }
  }

  /** Conversely, a first `}}` with no newline before it is where the match ends. */
  lemma {:induction false} CloseAt(t: string, j: nat)
    requires DoubleAt(t, j, '}')
    requires forall k :: 0 <= k < j ==> t[k] != '\n' && !DoubleAt(t, k, '}')
    ensures CloseLength(t) == Some(j + 2)
    decreases j
  {
    if j > 0 {
      var u := t[1..];
      assert !DoubleAt(t, 0, '}') && t[0] != '\n';
      assert u[j - 1] == t[j] && u[j] == t[j + 1];
      forall k | 0 <= k < j - 1
        ensures u[k] != '\n' && !DoubleAt(u, k, '}')
      {
        assert u[k] == t[k + 1] && u[k + 1] == t[k + 2];
        assert !DoubleAt(t, k + 1, '}');
      }
      CloseAt(u, j - 1);
    }
  }

  /** A newline before any `}}` stops the match: `.` does not match a newline. */
  lemma {:induction false} NewlineBlocksClose(t: string, j: nat)
    requires j < |t| && t[j] == '\n'
    requires forall k :: 0 <= k < j ==> !DoubleAt(t, k, '}')
    ensures CloseLength(t).None?
    decreases j
  {
    if j > 0 && |t| >= 2 && t[0] != '\n' {
      var u := t[1..];
      assert !DoubleAt(t, 0, '}');
      assert u[j - 1] == t[j];
      forall k | 0 <= k < j - 1
        ensures !DoubleAt(u, k, '}')
      {
        assert u[k] == t[k + 1] && u[k + 1] == t[k + 2];
        assert !DoubleAt(t, k + 1, '}');
      }
      NewlineBlocksClose(u, j - 1);
    }
  }

  /**
   * The length of the placeholder `{{…}}` the pattern matches at the start of `s`, if
   * any: it ends with the first `}}` after the opening braces, and no newline comes
   * between them.
   */
  function PlaceholderLength(s: string): (r: Option<nat>)
    ensures r.Some? ==> 4 <= r.value <= |s|
    ensures r.Some? <==> DoubleAt(s, 0, '{') && CloseLength(s[2..]).Some?
    ensures r.Some? ==> r.value == CloseLength(s[2..]).value + 2
    ensures r.Some? ==> DoubleAt(s, r.value - 2, '}')
    ensures r.Some? ==> forall k :: 2 <= k < r.value - 2 ==> s[k] != '\n' && !DoubleAt(s, k, '}')
  {
    if DoubleAt(s, 0, '{') then
      match CloseLength(s[2..])
      case None => None
      case Some(n) =>
        CloseLengthFirst(s[2..]);
        forall k | 2 <= k < n
          ensures s[k] != '\n' && !DoubleAt(s, k, '}')
        {
          assert s[k] == s[2..][k - 2] && s[k + 1] == s[2..][k - 1];
        }
        Some(n + 2)
    else None
  }

  /** Each leftmost placeholder, scanning left to right without overlap, becomes one space. */
  function RemovePlaceholders(s: string): (r: string)
    ensures |r| <= |s|
    decreases |s|
  {
    if s == [] then []
    else match PlaceholderLength(s)
      case Some(n) => " " + RemovePlaceholders(s[n..])
      case None => [s[0]] + RemovePlaceholders(s[1..])
  }

  /** A text in which `{{` does not occur is left as it is. */
  lemma {:induction false} NoPlaceholderUnchanged(s: string)
    requires forall k :: 0 <= k < |s| ==> !DoubleAt(s, k, '{')
    ensures RemovePlaceholders(s) == s
    decreases |s|
  {
    if s != [] {
      var u := s[1..];
      assert !DoubleAt(s, 0, '{');
      forall k | 0 <= k < |u|
        ensures !DoubleAt(u, k, '{')
      {
        assert !DoubleAt(s, k + 1, '{');
        if k + 1 < |u| {
          assert u[k] == s[k + 1] && u[k + 1] == s[k + 2];
        }
      }
      NoPlaceholderUnchanged(u);
      assert s == [s[0]] + u;
    }
  }

  /** A placeholder at the front is replaced by one space, and the scan resumes right after its `}}`. */
  lemma PlaceholderFirst(m: string, rest: string)
    requires forall k :: 0 <= k < |m| ==> m[k] != '\n'
    requires forall k :: 0 <= k < |m| ==> !DoubleAt(m + "}}", k, '}')
    ensures RemovePlaceholders("{{" + m + "}}" + rest) == " " + RemovePlaceholders(rest)
  {
    var s := "{{" + m + "}}" + rest;
    var t := m + "}}" + rest;
    assert s[2..] == t;
    assert t[|m|] == '}' && t[|m| + 1] == '}';
    forall k | 0 <= k < |m|
      ensures t[k] != '\n' && !DoubleAt(t, k, '}')
    {
      assert t[k] == m[k] == (m + "}}")[k];
      assert t[k + 1] == (m + "}}")[k + 1];
      assert !DoubleAt(m + "}}", k, '}');
    }
    CloseAt(t, |m|);
    assert s[|m| + 4..] == rest;
  }

  /** A newline before the closing braces stops the match. */
  lemma NewlineBlocksPlaceholder(m: string, rest: string)
    requires forall k :: 0 <= k < |m| ==> !DoubleAt(m + "\n", k, '}')
    ensures PlaceholderLength("{{" + m + "\n" + rest).None?
  {
    var s := "{{" + m + "\n" + rest;
    var t := m + "\n" + rest;
    assert s[2..] == t;
    assert t[|m|] == '\n';
    forall k | 0 <= k < |m|
      ensures !DoubleAt(t, k, '}')
    {
      assert t[k] == (m + "\n")[k] && t[k + 1] == (m + "\n")[k + 1];
      assert !DoubleAt(m + "\n", k, '}');
    }
    NewlineBlocksClose(t, |m|);
  }

  // ---------------------------------------------------------------------------
  // re.sub(r"\s+", " ", text).strip()
  // ---------------------------------------------------------------------------

  /** `s` without its leading run of whitespace. */
  function DropSpaces(s: string): (r: string)
    ensures |r| <= |s| && r == s[|s| - |r|..]
    ensures r == [] || !IsSpace(r[0])
  {
    if s != [] && IsSpace(s[0]) then DropSpaces(s[1..]) else s
  }

  /** Each maximal run of whitespace becomes a single `' '`. */
  function CollapseWhitespace(s: string): (r: string)
    ensures |r| <= |s|
    decreases |s|
  {
    if s == [] then []
    else if IsSpace(s[0]) then " " + CollapseWhitespace(DropSpaces(s))
    else [s[0]] + CollapseWhitespace(s[1..])
  }

  /** No two whitespace characters next to each other, and every whitespace character is a plain space. */
  predicate Normalised(s: string) {
    && (forall k :: 0 <= k < |s| ==> IsSpace(s[k]) ==> s[k] == ' ')
    && (forall k :: 0 <= k < |s| - 1 ==> !(IsSpace(s[k]) && IsSpace(s[k + 1])))
  }

  lemma {:induction false} CollapseNormalises(s: string)
    ensures Normalised(CollapseWhitespace(s))
    ensures s != [] && !IsSpace(s[0]) ==> CollapseWhitespace(s) != [] && !IsSpace(CollapseWhitespace(s)[0])
    decreases |s|
  {
    if s != [] {
      if IsSpace(s[0]) {
        var t := DropSpaces(s);
        CollapseNormalises(t);
        assert CollapseWhitespace(s) == [' '] + CollapseWhitespace(t);
        NormalisedCons(' ', CollapseWhitespace(t));
      } else {
        CollapseNormalises(s[1..]);
        assert CollapseWhitespace(s) == [s[0]] + CollapseWhitespace(s[1..]);
        NormalisedCons(s[0], CollapseWhitespace(s[1..]));
      }
    }
  }

  /** A character in front of a normalised text keeps it normalised unless it adds a second whitespace. */
  lemma NormalisedCons(c: char, r: string)
    requires Normalised(r)
    requires IsSpace(c) ==> c == ' ' && (r == [] || !IsSpace(r[0]))
    ensures Normalised([c] + r)
  {
    var s := [c] + r;
    assert forall k :: 1 <= k < |s| ==> s[k] == r[k - 1];
  }

  /** A text without whitespace is left as it is. */
  lemma {:induction false} CollapseWithoutSpaces(s: string)
    requires forall k :: 0 <= k < |s| ==> !IsSpace(s[k])
    ensures CollapseWhitespace(s) == s
    decreases |s|
  {
    if s != [] {
      assert forall k :: 0 <= k < |s[1..]| ==> s[1..][k] == s[k + 1];
      CollapseWithoutSpaces(s[1..]);
    }
  }

  lemma NormalisedSlice(s: string, i: nat, j: nat)
    requires i <= j <= |s| && Normalised(s)
    ensures Normalised(s[i..j])
  {
    assert forall k :: 0 <= k < j - i ==> s[i..j][k] == s[i + k];
  }

  /** `strip` keeps a contiguous piece, so it keeps a text normalised. */
  lemma StripKeepsNormalised(s: string)
    requires Normalised(s)
    ensures Normalised(Strip(s))
  {
    var t := TrimStart(s);
    NormalisedSlice(s, |s| - |t|, |s|);
    NormalisedSlice(t, 0, |Strip(s)|);
  }

  // ---------------------------------------------------------------------------
  // BM25SConfig
  // ---------------------------------------------------------------------------

  datatype BM25SConfig = BM25SConfig(lowercase: bool, removePlaceholders: bool, maxWorkers: int)

  /** The defaults: lower-case, remove placeholders, four workers. */
  const DefaultConfig := BM25SConfig(true, true, 4)

  /** `preprocess_text`. */
  function PreprocessText(config: BM25SConfig, text: string): string {
    var lowered := if config.lowercase then Lower(text) else text;
    var cleaned := if config.removePlaceholders then RemovePlaceholders(lowered) else lowered;
    Strip(CollapseWhitespace(cleaned))
  }

  /** The output has no whitespace at either end, no two adjacent whitespace characters, and only `' '` as whitespace. */
  lemma PreprocessNormalises(config: BM25SConfig, text: string)
    ensures var r := PreprocessText(config, text);
      && Normalised(r)
      && (r == [] || (!IsSpace(r[0]) && !IsSpace(r[|r| - 1])))
  {
    var lowered := if config.lowercase then Lower(text) else text;
    var cleaned := if config.removePlaceholders then RemovePlaceholders(lowered) else lowered;
    var collapsed := CollapseWhitespace(cleaned);
    assert PreprocessText(config, text) == Strip(collapsed);
    CollapseNormalises(cleaned);
    StripKeepsNormalised(collapsed);
  }

  /** Lower-casing is the first step and is done only when `lowercase` is set. */
  lemma LowercaseFirst(config: BM25SConfig, text: string)
    ensures config.lowercase ==>
      PreprocessText(config, text) == PreprocessText(config.(lowercase := false), Lower(text))
    ensures !config.lowercase && !config.removePlaceholders ==>
      PreprocessText(config, text) == Strip(CollapseWhitespace(text))
  {
  }

  /** A word without whitespace or placeholders comes out unchanged when lower-casing is off. */
  lemma PreprocessWord(config: BM25SConfig, text: string)
    requires !config.lowercase
    requires forall k :: 0 <= k < |text| ==> !IsSpace(text[k])
    requires forall k :: 0 <= k < |text| ==> !DoubleAt(text, k, '{')
    ensures PreprocessText(config, text) == text
  {
    NoPlaceholderUnchanged(text);
    CollapseWithoutSpaces(text);
    if text != [] {
      assert !IsSpace(text[0]) && !IsSpace(text[|text| - 1]);
    }
  }

  // ---------------------------------------------------------------------------
  // sync_search
  // ---------------------------------------------------------------------------

  /** What the retriever returns for a processed query and `k`: result sets and score sets. */
  type Retrieve = (string, int) -> (seq<seq<Chunk>>, seq<seq<real>>)

  /** `zip(results, scores)` turned into scored chunks. */
  function Pair(results: seq<Chunk>, scores: seq<real>): (r: seq<ScoredChunk>)
    ensures |r| == if |results| < |scores| then |results| else |scores|
    ensures forall i :: 0 <= i < |r| ==> r[i] == ScoredChunk(results[i], scores[i])
  {
    var n := if |results| < |scores| then |results| else |scores|;
    seq(n, i requires 0 <= i < n => ScoredChunk(results[i], scores[i]))
  }

  /** `sync_search`: exactly one result set and one score set are required, then paired position by position. */
  function SyncSearch(query: string, retrieve: Retrieve, topK: int, config: BM25SConfig): (r: Result<seq<ScoredChunk>>)
    ensures var (resultsList, scoresList) := retrieve(PreprocessText(config, query), topK);
      && (|resultsList| != 1 ==> r == Err(ValueError("BM25S search should return exactly one result set")))
      && (|resultsList| == 1 && |scoresList| != 1 ==> r == Err(ValueError("BM25S search should return exactly one score set")))
      && (|resultsList| == 1 && |scoresList| == 1 ==> r.Ok? && r.value == Pair(resultsList[0], scoresList[0]))
  {
    var (resultsList, scoresList) := retrieve(PreprocessText(config, query), topK);
    if |resultsList| != 1 then Err(ValueError("BM25S search should return exactly one result set"))
    else if |scoresList| != 1 then Err(ValueError("BM25S search should return exactly one score set"))
    else Ok(Pair(resultsList[0], scoresList[0]))
  }

  // ---------------------------------------------------------------------------
  // BM25SSearchEngine
  // ---------------------------------------------------------------------------

  /** The processed texts of `chunks`, in order: what the index is built from. */
  function IndexTexts(config: BM25SConfig, chunks: seq<Chunk>): (r: seq<string>)
    ensures |r| == |chunks|
  {
    if chunks == [] then []
    else IndexTexts(config, chunks[..|chunks| - 1]) + [PreprocessText(config, chunks[|chunks| - 1].text)]
  }

  /** The index is built from each chunk's processed text, in order. */
  lemma {:induction false} IndexTextsAt(config: BM25SConfig, chunks: seq<Chunk>, i: nat)
    requires i < |chunks|
    ensures IndexTexts(config, chunks)[i] == PreprocessText(config, chunks[i].text)
    decreases |chunks|
  {
    if i < |chunks| - 1 {
      IndexTextsAt(config, chunks[..|chunks| - 1], i);
    }
  }

  /** One more chunk adds its processed text at the end. */
  lemma IndexTextsStep(config: BM25SConfig, chunks: seq<Chunk>, i: nat)
    requires i < |chunks|
    ensures IndexTexts(config, chunks[..i + 1]) == IndexTexts(config, chunks[..i]) + [PreprocessText(config, chunks[i].text)]
  {
    assert chunks[..i + 1][..i] == chunks[..i];
  }

  class BM25SSearchEngine {
    const config: BM25SConfig
    /** The chunks added through this object, in order. */
    var chunks: seq<Chunk>
    /** The texts the retriever's index was built from, in order. */
    var indexed: seq<string>
    /** The retriever's corpus, which is also what was saved to the index path. */
    var corpus: seq<Chunk>

    /**
     * The constructor, including `load_index`: `stored` is the corpus at the index path,
     * `None` when the path is missing or loading fails (a fresh retriever then).
     */
    constructor (config: Option<BM25SConfig>, stored: Option<seq<Chunk>>)
      ensures this.config == config.GetOr(DefaultConfig)
      ensures chunks == []
      ensures corpus == stored.GetOr([])
      ensures indexed == IndexTexts(this.config, corpus)
    {
      this.config := config.GetOr(DefaultConfig);
      chunks := [];
      corpus := stored.GetOr([]);
      indexed := IndexTexts(config.GetOr(DefaultConfig), stored.GetOr([]));
    }

    /** `sync_add`: append the new chunks, then rebuild and save the index over all chunks held. */
    method SyncAdd(newChunks: seq<Chunk>)
      modifies this
      ensures newChunks == [] ==> chunks == old(chunks) && indexed == old(indexed) && corpus == old(corpus)
      ensures newChunks != [] ==> chunks == old(chunks) + newChunks
      ensures newChunks != [] ==> corpus == chunks && indexed == IndexTexts(config, chunks)
    {
      if |newChunks| == 0 {
        return;
      }
      chunks := chunks + newChunks;
      var corpusTexts: seq<string> := [];
      var i := 0;
      while i < |chunks|
        invariant 0 <= i <= |chunks|
        invariant chunks == old(chunks) + newChunks
        invariant corpusTexts == IndexTexts(config, chunks[..i])
      {
        IndexTextsStep(config, chunks, i);
        corpusTexts := corpusTexts + [PreprocessText(config, chunks[i].text)];
        i := i + 1;
      }
      assert chunks[..i] == chunks;
      indexed := corpusTexts;
      corpus := chunks;
    }

    /**
     * `load_index` followed by restoring the chunk list from the loaded corpus, so that
     * the next `sync_add` rebuilds the index over the stored chunks and the new ones.
     */
    method RestoreChunks()
      modifies this
      ensures chunks == old(corpus) && corpus == old(corpus) && indexed == old(indexed)
    {
      chunks := corpus;
    }
  }

  /**
   * As written, a search engine that loads a stored corpus and then adds chunks
   * rebuilds its index over the added chunks alone, and the saved corpus loses every
   * stored chunk that was not added again: a stored [c1] followed by adding [c2] saves [c2].
   */
  method ReloadThenAddLosesStored(config: BM25SConfig, stored: seq<Chunk>, added: seq<Chunk>)
    returns (e: BM25SSearchEngine)
    requires added != []
    ensures e.corpus == added
    ensures forall c :: c in stored && c !in added ==> c !in e.corpus
  {
    e := new BM25SSearchEngine(Some(config), Some(stored));
    e.SyncAdd(added);
    assert e.corpus == [] + added;
  }

  /** With the chunk list restored from the stored corpus, adding keeps the stored chunks in front. */
  method ReloadRestoreThenAddKeepsStored(config: BM25SConfig, stored: seq<Chunk>, added: seq<Chunk>)
    returns (e: BM25SSearchEngine)
    requires added != []
    ensures e.corpus == stored + added
    ensures e.indexed == IndexTexts(e.config, stored + added)
  {
    e := new BM25SSearchEngine(Some(config), Some(stored));
    e.RestoreChunks();
    e.SyncAdd(added);
  }
}
