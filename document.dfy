/**
 * Retrieved chunks and the `ScoredChunks` container: a list of chunks with a
 * relevance score that is sorted (stably, descending by default), truncated,
 * extended in place, and rendered as numbered reference blocks with duplicate
 * texts skipped.
 */
module Document {
  import opened Wrappers
  import Strings
  import Seqs

  /** Where a chunk came from; the `StrEnum` values are the lower-cased member names. */
  datatype Source = DocumentSource | WebsearchSource {
    function Value(): string {
      if DocumentSource? then "document" else "websearch"
    }
  }

  /** The two metadata records, discriminated by their `source` field. */
  datatype Metadata =
    | DocumentMetadata(filename: string, pageIdx: int, renderedPagePath: string)
    | WebsearchMetadata(url: string)
  {
    function Source(): Source {
      if DocumentMetadata? then DocumentSource else WebsearchSource
    }
  }

  /** A chunk identifier; the source draws a fresh `uuid4()` for every chunk it builds. */
  type Uuid = string

  datatype Chunk = Chunk(chunkId: Uuid, text: string, metadata: Metadata)

  /** A chunk with its relevance score; scores are only ever compared. */
  datatype ScoredChunk = ScoredChunk(chunk: Chunk, score: real) {
    function Text(): string {
      chunk.text
    }
  }

  // ---------------------------------------------------------------------------
  // sort: `sorted(root, key=score, reverse=reverse)`, a stable sort
  // ---------------------------------------------------------------------------

  /** `a` may precede `b` in the sorted order: by descending score when `reverse`, ascending otherwise. */
  predicate InOrder(a: ScoredChunk, b: ScoredChunk, reverse: bool) {
    if reverse then a.score >= b.score else a.score <= b.score
  }

  ghost predicate SortedByScore(s: seq<ScoredChunk>, reverse: bool) {
    forall i, j :: 0 <= i < j < |s| ==> InOrder(s[i], s[j], reverse)
  }

  /** The chunks of `s` whose score is `v`, in the order of `s`. */
  function WithScore(s: seq<ScoredChunk>, v: real): seq<ScoredChunk> {
    if s == [] then []
    else (if s[0].score == v then [s[0]] else []) + WithScore(s[1..], v)
  }

  /** Put `x` in front of the first chunk of `t` it may precede, so `x` stays ahead of chunks with its own score. */
  function Insert(x: ScoredChunk, t: seq<ScoredChunk>, reverse: bool): (r: seq<ScoredChunk>)
    ensures |r| == |t| + 1
  {
    if t == [] || InOrder(x, t[0], reverse) then [x] + t
    else [t[0]] + Insert(x, t[1..], reverse)
  }

  /** Inserting adds `x` and loses nothing. */
  lemma {:induction false} InsertPermutes(x: ScoredChunk, t: seq<ScoredChunk>, reverse: bool)
    ensures multiset(Insert(x, t, reverse)) == multiset(t) + multiset{x}
  {
    if t != [] && !InOrder(x, t[0], reverse) {
      InsertPermutes(x, t[1..], reverse);
      assert t == [t[0]] + t[1..];
    }
  }

  /** What Python's stable `sorted` by score returns. */
  function SortByScore(s: seq<ScoredChunk>, reverse: bool): (r: seq<ScoredChunk>)
    ensures |r| == |s|
  {
    if s == [] then []
    else Insert(s[0], SortByScore(s[1..], reverse), reverse)
  }

  /** The sorted list is a permutation of the input. */
  lemma {:induction false} SortPermutes(s: seq<ScoredChunk>, reverse: bool)
    ensures multiset(SortByScore(s, reverse)) == multiset(s)
  {
    if s != [] {
      SortPermutes(s[1..], reverse);
      InsertPermutes(s[0], SortByScore(s[1..], reverse), reverse);
      assert s == [s[0]] + s[1..];
    }
  }

  lemma {:induction false} InsertSorted(x: ScoredChunk, t: seq<ScoredChunk>, reverse: bool)
    requires SortedByScore(t, reverse)
    ensures SortedByScore(Insert(x, t, reverse), reverse)
  {
    if t == [] || InOrder(x, t[0], reverse) {
    } else {
      InsertSorted(x, t[1..], reverse);
      InsertPermutes(x, t[1..], reverse);
      var rest := Insert(x, t[1..], reverse);
      forall k | 0 <= k < |rest|
        ensures InOrder(t[0], rest[k], reverse)
      {
        assert rest[k] in multiset(rest);
        if rest[k] != x {
          assert rest[k] in multiset(t[1..]);
          var m :| 0 <= m < |t[1..]| && t[1..][m] == rest[k];
          assert t[1..][m] == t[m + 1];
        }
      }
    }
  }

  /** After `sort`, every chunk may precede every later one: scores are non-increasing when `reverse`. */
  lemma {:induction false} SortIsSorted(s: seq<ScoredChunk>, reverse: bool)
    ensures SortedByScore(SortByScore(s, reverse), reverse)
  {
    if s != [] {
      SortIsSorted(s[1..], reverse);
      InsertSorted(s[0], SortByScore(s[1..], reverse), reverse);
    }
  }

  lemma {:induction false} InsertWithScore(x: ScoredChunk, t: seq<ScoredChunk>, reverse: bool, v: real)
    ensures WithScore(Insert(x, t, reverse), v) == (if x.score == v then [x] else []) + WithScore(t, v)
  {
    if t == [] || InOrder(x, t[0], reverse) {
      WithScoreCons(x, t, v);
    } else {
      var rest := Insert(x, t[1..], reverse);
      InsertWithScore(x, t[1..], reverse, v);
      WithScoreCons(t[0], rest, v);
      if x.score == v {
        assert t[0].score != v;
      }
    }
  }

  /** Filtering a sequence with one more chunk in front. */
  lemma WithScoreCons(x: ScoredChunk, t: seq<ScoredChunk>, v: real)
    ensures WithScore([x] + t, v) == (if x.score == v then [x] else []) + WithScore(t, v)
  {
    assert ([x] + t)[1..] == t;
  }

  /** `sort` is stable: the chunks sharing any one score keep their input order. */
  lemma {:induction false} SortIsStable(s: seq<ScoredChunk>, reverse: bool, v: real)
    ensures WithScore(SortByScore(s, reverse), v) == WithScore(s, v)
  {
    if s != [] {
      SortIsStable(s[1..], reverse, v);
      InsertWithScore(s[0], SortByScore(s[1..], reverse), reverse, v);
    }
  }

  lemma {:induction false} WithScoreMembers(s: seq<ScoredChunk>, v: real, c: ScoredChunk)
    ensures c in WithScore(s, v) <==> c in s && c.score == v
  {
    if s != [] {
      WithScoreMembers(s[1..], v, c);
    }
  }

  lemma FirstScoreKept(s: seq<ScoredChunk>)
    ensures s != [] ==> WithScore(s, s[0].score) != []
  {
  }

  /**
   * Sortedness and stability pin the result down: any ordering of the same chunks
   * that is sorted and keeps each score's chunks in input order is `SortByScore`.
   */
  lemma {:induction false} StableSortIsUnique(s: seq<ScoredChunk>, r: seq<ScoredChunk>, reverse: bool)
    requires SortedByScore(r, reverse)
    requires forall v :: WithScore(r, v) == WithScore(s, v)
    ensures r == SortByScore(s, reverse)
  {
    var q := SortByScore(s, reverse);
    SortIsSorted(s, reverse);
    forall v ensures WithScore(r, v) == WithScore(q, v) {
      SortIsStable(s, reverse, v);
    }
    SameFiltersSameSorted(r, q, reverse);
  }

  lemma {:induction false} SameFiltersSameSorted(a: seq<ScoredChunk>, b: seq<ScoredChunk>, reverse: bool)
    requires SortedByScore(a, reverse) && SortedByScore(b, reverse)
    requires forall v :: WithScore(a, v) == WithScore(b, v)
    ensures a == b
    decreases |a| + |b|
  {
    if a == [] && b == [] {
    } else if a == [] || b == [] {
      FirstScoreKept(a);
      FirstScoreKept(b);
      assert false;
    } else {
      SameHeadScore(a, b, reverse);
      SameHead(a, b);
      forall v ensures WithScore(a[1..], v) == WithScore(b[1..], v) {
        SameTailFilter(a, b, v);
      }
      SortedTail(a, reverse);
      SortedTail(b, reverse);
      SameFiltersSameSorted(a[1..], b[1..], reverse);
      assert a == [a[0]] + a[1..] && b == [b[0]] + b[1..];
    }
  }

  /** The first chunk of `a` occurs in `b` and vice versa, so sortedness forces the same first score. */
  lemma SameHeadScore(a: seq<ScoredChunk>, b: seq<ScoredChunk>, reverse: bool)
    requires a != [] && b != []
    requires SortedByScore(a, reverse) && SortedByScore(b, reverse)
    requires forall v :: WithScore(a, v) == WithScore(b, v)
    ensures a[0].score == b[0].score
  {
    WithScoreMembers(b, b[0].score, b[0]);
    assert WithScore(a, b[0].score) == WithScore(b, b[0].score);
    WithScoreMembers(a, b[0].score, b[0]);
    var i :| 0 <= i < |a| && a[i] == b[0];
    assert InOrder(a[0], b[0], reverse) by {
      if i > 0 { assert InOrder(a[0], a[i], reverse); }
    }
    WithScoreMembers(a, a[0].score, a[0]);
    assert WithScore(b, a[0].score) == WithScore(a, a[0].score);
    WithScoreMembers(b, a[0].score, a[0]);
    var j :| 0 <= j < |b| && b[j] == a[0];
    assert InOrder(b[0], a[0], reverse) by {
      if j > 0 { assert InOrder(b[0], b[j], reverse); }
    }
  }

  /** With the same first score, the same filters start with the same chunk. */
  lemma SameHead(a: seq<ScoredChunk>, b: seq<ScoredChunk>)
    requires a != [] && b != [] && a[0].score == b[0].score
    requires forall v :: WithScore(a, v) == WithScore(b, v)
    ensures a[0] == b[0]
  {
    var v0 := a[0].score;
    assert WithScore(a, v0) == [a[0]] + WithScore(a[1..], v0);
    assert WithScore(b, v0) == [b[0]] + WithScore(b[1..], v0);
    assert WithScore(a, v0) == WithScore(b, v0);
    assert a[0] == WithScore(a, v0)[0];
  }

  /** With the same first chunk, the same filters stay the same after dropping it. */
  lemma SameTailFilter(a: seq<ScoredChunk>, b: seq<ScoredChunk>, v: real)
    requires a != [] && b != [] && a[0] == b[0]
    requires WithScore(a, v) == WithScore(b, v)
    ensures WithScore(a[1..], v) == WithScore(b[1..], v)
  {
    var head := if a[0].score == v then [a[0]] else [];
    assert WithScore(a, v) == head + WithScore(a[1..], v);
    assert WithScore(b, v) == head + WithScore(b[1..], v);
    assert WithScore(a[1..], v) == WithScore(a, v)[|head|..];
    assert WithScore(b[1..], v) == WithScore(b, v)[|head|..];
  }

  lemma SortedTail(a: seq<ScoredChunk>, reverse: bool)
    requires a != [] && SortedByScore(a, reverse)
    ensures SortedByScore(a[1..], reverse)
  {
    forall i, j | 0 <= i < j < |a[1..]| ensures InOrder(a[1..][i], a[1..][j], reverse) {
      assert a[1..][i] == a[i + 1] && a[1..][j] == a[j + 1];
    }
  }

  // ---------------------------------------------------------------------------
  // limit: `root[:top_k]`, Python slicing (a negative bound counts from the end)
  // ---------------------------------------------------------------------------

  /** `s[:k]` in Python: a prefix of `s`, of length `min(k, |s|)` for `k >= 0` and `max(0, |s| + k)` otherwise. */
  function SliceTo<T>(s: seq<T>, k: int): (r: seq<T>)
    ensures |r| <= |s| && r == s[..|r|]
    ensures k >= 0 ==> |r| == if k < |s| then k else |s|
    ensures k < 0 ==> |r| == if |s| + k > 0 then |s| + k else 0
  {
    if k >= 0 then (if k < |s| then s[..k] else s)
    else (if |s| + k > 0 then s[..|s| + k] else [])
  }

  /** Limiting twice to the same non-negative bound is limiting once; a negative bound drops more each time. */
  lemma SliceToTwice<T>(s: seq<T>, k: int)
    ensures k >= 0 ==> SliceTo(SliceTo(s, k), k) == SliceTo(s, k)
    ensures k < 0 && |s| + k > 0 ==> |SliceTo(SliceTo(s, k), k)| < |SliceTo(s, k)|
  {
  }

  // ---------------------------------------------------------------------------
  // context: numbered reference blocks, duplicates by exact text skipped
  // ---------------------------------------------------------------------------

  function Texts(s: seq<ScoredChunk>): (ts: seq<string>)
    ensures |ts| == |s| && forall i :: 0 <= i < |s| ==> ts[i] == s[i].chunk.text
  {
    seq(|s|, i requires 0 <= i < |s| => s[i].chunk.text)
  }

  /** One rendered block: `f"Reference [{idx}]\n{text}"`. */
  function Reference(idx: nat, text: string): string {
    "Reference [" + Strings.NatToString(idx) + "]\n" + text
  }

  /** The blocks the `context` loop appends, given the texts already `seen` and the next number `idx`. */
  function Blocks(s: seq<ScoredChunk>, seen: set<string>, idx: nat): seq<string> {
    if s == [] then []
    else if s[0].chunk.text in seen then Blocks(s[1..], seen, idx)
    else [Reference(idx, s[0].chunk.text)] + Blocks(s[1..], seen + {s[0].chunk.text}, idx + 1)
  }

  /** The `context` property of a list of chunks. */
  function RenderContext(s: seq<ScoredChunk>): string {
    Strings.Join(Blocks(s, {}, 1), "\n\n")
  }

  /** The texts of `ts` not in `seen`, each kept at its first occurrence. */
  function Distinct(ts: seq<string>, seen: set<string>): seq<string> {
    if ts == [] then []
    else if ts[0] in seen then Distinct(ts[1..], seen)
    else [ts[0]] + Distinct(ts[1..], seen + {ts[0]})
  }

  /** Block `i` is numbered `idx + i` and holds the `i`-th distinct text: numbers run without gaps. */
  lemma {:induction false} BlocksNumbered(s: seq<ScoredChunk>, seen: set<string>, idx: nat)
    ensures |Blocks(s, seen, idx)| == |Distinct(Texts(s), seen)|
    ensures forall i :: 0 <= i < |Blocks(s, seen, idx)| ==>
      Blocks(s, seen, idx)[i] == Reference(idx + i, Distinct(Texts(s), seen)[i])
  {
    if s != [] {
      assert Texts(s)[1..] == Texts(s[1..]);
      if s[0].chunk.text in seen {
        BlocksNumbered(s[1..], seen, idx);
      } else {
        BlocksNumbered(s[1..], seen + {s[0].chunk.text}, idx + 1);
      }
    }
  }

  /** The distinct texts contain no repetition, none of `seen`, and every text of `ts` not in `seen`. */
  lemma {:induction false} DistinctProperties(ts: seq<string>, seen: set<string>)
    ensures forall i, j :: 0 <= i < j < |Distinct(ts, seen)| ==> Distinct(ts, seen)[i] != Distinct(ts, seen)[j]
    ensures forall t :: t in Distinct(ts, seen) <==> t in ts && t !in seen
  {
    if ts != [] {
      if ts[0] in seen {
        DistinctProperties(ts[1..], seen);
      } else {
        DistinctProperties(ts[1..], seen + {ts[0]});
      }
    }
  }

  /** The index of the first occurrence of `t` in `ts`. */
  function FirstIndex(ts: seq<string>, t: string): (k: nat)
    requires t in ts
    ensures k < |ts| && ts[k] == t && t !in ts[..k]
  {
    if ts[0] == t then 0
    else
      assert t in ts[1..];
      var k := 1 + FirstIndex(ts[1..], t);
      assert ts[..k] == [ts[0]] + ts[1..][..k - 1];
      k
  }

  /** The distinct texts appear in the order of their first occurrences. */
  lemma {:induction false} DistinctInFirstOccurrenceOrder(ts: seq<string>, seen: set<string>)
    ensures forall t :: t in Distinct(ts, seen) ==> t in ts
    ensures forall i, j :: 0 <= i < j < |Distinct(ts, seen)| ==>
      FirstIndex(ts, Distinct(ts, seen)[i]) < FirstIndex(ts, Distinct(ts, seen)[j])
  {
    DistinctProperties(ts, seen);
    if ts != [] {
      var seen' := if ts[0] in seen then seen else seen + {ts[0]};
      var d' := Distinct(ts[1..], seen');
      DistinctInFirstOccurrenceOrder(ts[1..], seen');
      DistinctProperties(ts[1..], seen');
      var d := Distinct(ts, seen);
      if ts[0] in seen {
        assert d == d';
        forall i, j | 0 <= i < j < |d| ensures FirstIndex(ts, d[i]) < FirstIndex(ts, d[j]) {
          FirstIndexTail(ts, d'[i]);
          FirstIndexTail(ts, d'[j]);
        }
      } else {
        assert d == [ts[0]] + d';
        forall i, j | 0 <= i < j < |d| ensures FirstIndex(ts, d[i]) < FirstIndex(ts, d[j]) {
          assert d[j] == d'[j - 1];
          FirstIndexTail(ts, d'[j - 1]);
          if i > 0 {
            assert d[i] == d'[i - 1];
            FirstIndexTail(ts, d'[i - 1]);
          }
        }
      }
    }
  }

  /** A text of the tail other than the head has its first index one further on. */
  lemma FirstIndexTail(ts: seq<string>, t: string)
    requires ts != [] && t in ts[1..] && t != ts[0]
    ensures t in ts && FirstIndex(ts, t) == 1 + FirstIndex(ts[1..], t)
  {
  }

  lemma {:induction false} DistinctCardinality(ts: seq<string>)
    requires forall i, j :: 0 <= i < j < |ts| ==> ts[i] != ts[j]
    ensures |set t | t in ts| == |ts|
  {
    if ts != [] {
      DistinctCardinality(ts[1..]);
      assert (set t | t in ts) == (set t | t in ts[1..]) + {ts[0]};
      assert ts[0] !in ts[1..];
    }
  }

  /**
   * `context` renders `d` blocks, where `d` is the number of distinct texts: block `i`
   * is "Reference [i+1]\n" followed by the `i`-th distinct text in first-occurrence
   * order, and the blocks are joined by a blank line.
   */
  lemma ContextBlocks(s: seq<ScoredChunk>)
    ensures |Blocks(s, {}, 1)| == |Distinct(Texts(s), {})| == |set t | t in Texts(s)|
    ensures forall i :: 0 <= i < |Blocks(s, {}, 1)| ==>
      Blocks(s, {}, 1)[i] == Reference(i + 1, Distinct(Texts(s), {})[i])
    ensures RenderContext(s) == Strings.Join(Blocks(s, {}, 1), "\n\n")
    ensures s == [] ==> RenderContext(s) == ""
  {
    BlocksNumbered(s, {}, 1);
    var d := Distinct(Texts(s), {});
    DistinctProperties(Texts(s), {});
    DistinctCardinality(d);
    assert (set t | t in d) == (set t | t in Texts(s));
  }

  // ---------------------------------------------------------------------------
  // extend: `for other in others: root.extend(other.root)`
  // ---------------------------------------------------------------------------

  /**
   * The list after extending `r` by each part in turn; a part that is `None` is the
   * receiver itself, whose current list is appended to itself (`x.extend([x])` doubles `x`).
   */
  function ExtendedWith(r: seq<ScoredChunk>, parts: seq<Option<seq<ScoredChunk>>>): seq<ScoredChunk>
    decreases |parts|
  {
    if parts == [] then r
    else ExtendedWith(r + (if parts[0].None? then r else parts[0].value), parts[1..])
  }

  function Values(parts: seq<Option<seq<ScoredChunk>>>): seq<seq<ScoredChunk>>
    requires forall j :: 0 <= j < |parts| ==> parts[j].Some?
  {
    seq(|parts|, j requires 0 <= j < |parts| && parts[j].Some? => parts[j].value)
  }

  /** When the receiver is not among `others`, `extend` appends all their chunks after the existing ones, in order. */
  lemma {:induction false} ExtendAppendsAll(r: seq<ScoredChunk>, parts: seq<Option<seq<ScoredChunk>>>)
    requires forall j :: 0 <= j < |parts| ==> parts[j].Some?
    ensures ExtendedWith(r, parts) == r + Seqs.Flatten(Values(parts))
    ensures |ExtendedWith(r, parts)| == |r| + Seqs.TotalLength(Values(parts))
    decreases |parts|
  {
    if parts != [] {
      ExtendAppendsAll(r + parts[0].value, parts[1..]);
      assert Values(parts)[1..] == Values(parts[1..]);
    }
    Seqs.FlattenLength(Values(parts));
  }

  /** The old chunks stay in front, unchanged, whatever `others` holds. */
  lemma {:induction false} ExtendKeepsPrefix(r: seq<ScoredChunk>, parts: seq<Option<seq<ScoredChunk>>>)
    ensures |r| <= |ExtendedWith(r, parts)| && ExtendedWith(r, parts)[..|r|] == r
    decreases |parts|
  {
    if parts != [] {
      var r' := r + (if parts[0].None? then r else parts[0].value);
      ExtendKeepsPrefix(r', parts[1..]);
      assert r'[..|r|] == r;
    }
  }

  /** The retrieval container; `sort`, `limit` and `extend` change `root` in place and return the receiver. */
  class ScoredChunks {
    var root: seq<ScoredChunk>

    constructor (root: seq<ScoredChunk>)
      ensures this.root == root
    {
      this.root := root;
    }

    /** `__len__`. */
    method Len() returns (n: nat)
      ensures n == |root|
    {
      n := |root|;
    }

    method Sort(reverse: bool) returns (self: ScoredChunks)
      modifies this
      ensures self == this
      ensures root == SortByScore(old(root), reverse)
    {
      root := SortByScore(root, reverse);
      self := this;
    }

    method Limit(topK: int) returns (self: ScoredChunks)
      modifies this
      ensures self == this
      ensures root == SliceTo(old(root), topK)
    {
      root := SliceTo(root, topK);
      self := this;
    }

    /** The `context` property: the loop over `root` with the `traveled` dictionary and the `idx` counter. */
    method Context() returns (context: string)
      ensures context == RenderContext(root)
    {
      var contexts: seq<string> := [];
      var traveled: map<string, bool> := map[];
      var idx: nat := 1;
      var i := 0;
      assert root[0..] == root && traveled.Keys == {};
      while i < |root|
        invariant 0 <= i <= |root|
        invariant contexts + Blocks(root[i..], traveled.Keys, idx) == Blocks(root, {}, 1)
      {
        var text := root[i].chunk.text;
        assert root[i..][0] == root[i] && root[i..][1..] == root[i + 1..];
        if text in traveled {
          i := i + 1;
          continue;
        }
        contexts := contexts + [Reference(idx, text)];
        assert traveled[text := true].Keys == traveled.Keys + {text};
        traveled := traveled[text := true];
        idx := idx + 1;
        i := i + 1;
      }
      assert root[i..] == [];
      assert contexts == Blocks(root, {}, 1);
      context := Strings.Join(contexts, "\n\n");
    }

    /** What `extend` appends for each of `others`: its list, or `None` when it is the receiver. */
    ghost function Parts(others: seq<ScoredChunks>): seq<Option<seq<ScoredChunk>>>
      reads others
    {
      seq(|others|, j requires 0 <= j < |others| reads others =>
        if others[j] == this then None else Some(others[j].root))
    }

    method Extend(others: seq<ScoredChunks>) returns (self: ScoredChunks)
      modifies this
      ensures self == this
      ensures root == ExtendedWith(old(root), old(Parts(others)))
    {
      ghost var parts := Parts(others);
      ghost var start := root;
      var i := 0;
      while i < |others|
        invariant 0 <= i <= |others|
        invariant ExtendedWith(root, parts[i..]) == ExtendedWith(start, parts)
      {
        assert parts[i..][1..] == parts[i + 1..];
        root := root + others[i].root;
        i := i + 1;
      }
      self := this;
    }
  }
}
