/** Retrieval for generation: an index searched by vector, a hybrid retriever and a reranker, each of
    which ranks and cuts, and how the staged cuts compare with ranking every matching chunk. */
module Retrieval {

  datatype Chunk = Chunk(id: string, document: string, content: string, metadata: map<string, string>)

  type Vector = seq<real>

  datatype Entry = Entry(chunk: Chunk, vector: Vector)

  datatype Hit = Hit(chunk: Chunk, score: real)

  datatype Citation = Citation(source: string, connector: string, excerpt: string, reference: string)

  /** The parts the pipeline is put together from.  `multiplier` widens the candidate pool. */
  datatype Parts = Parts(
    embed: string -> Vector, similarity: (Vector, Vector) -> real, tokens: string -> set<string>,
    lower: string -> string, strip: string -> string, weight: real, multiplier: int, bonus: real)

  // ---------- sorting and cutting ----------

  /** Puts a hit behind every hit that scores as well. */
  function Insert(h: Hit, s: seq<Hit>): seq<Hit> {
    if s == [] || s[|s| - 1].score >= h.score then s + [h]
    else Insert(h, s[..|s| - 1]) + [s[|s| - 1]]
  }

  /** The stable sort by falling score. */
  function Ranked(s: seq<Hit>): seq<Hit> {
    if s == [] then [] else Insert(s[|s| - 1], Ranked(s[..|s| - 1]))
  }

  /** The slice up to `k`; a negative `k` counts from the end. */
  function Cut<T>(s: seq<T>, k: int): seq<T> {
    if k >= 0 then (if k < |s| then s[..k] else s) else (if -k <= |s| then s[..|s| + k] else [])
  }

  function Map(f: Hit -> Hit, s: seq<Hit>): (r: seq<Hit>)
    ensures |r| == |s|
  {
    seq(|s|, i requires 0 <= i < |s| => f(s[i]))
  }

  ghost predicate Falling(s: seq<Hit>) {
    forall i, j :: 0 <= i < j < |s| ==> s[i].score >= s[j].score
  }

  /** The hits of one score, in order. */
  ghost function WithScore(s: seq<Hit>, score: real): seq<Hit> {
    if s == [] then []
    else WithScore(s[..|s| - 1], score) + if s[|s| - 1].score == score then [s[|s| - 1]] else []
  }

  lemma {:induction false} InsertContents(h: Hit, s: seq<Hit>)
    ensures multiset(Insert(h, s)) == multiset(s) + multiset{h}
  {
    if s != [] && s[|s| - 1].score < h.score {
      InsertContents(h, s[..|s| - 1]);
      assert s == s[..|s| - 1] + [s[|s| - 1]];
    }
  }

  lemma {:induction false} InsertFalling(h: Hit, s: seq<Hit>)
    requires Falling(s)
    ensures Falling(Insert(h, s))
    ensures forall i :: 0 <= i < |Insert(h, s)| ==>
              Insert(h, s)[i].score >= if s == [] || h.score <= s[|s| - 1].score then h.score else s[|s| - 1].score
  {
    if s != [] && s[|s| - 1].score < h.score {
      InsertFalling(h, s[..|s| - 1]);
    }
  }

  lemma {:induction false} WithScoreSnoc(s: seq<Hit>, h: Hit, score: real)
    ensures WithScore(s + [h], score) == WithScore(s, score) + if h.score == score then [h] else []
  {
    assert (s + [h])[..|s|] == s;
  }

  lemma {:induction false} InsertStable(h: Hit, s: seq<Hit>, score: real)
    requires Falling(s)
    ensures WithScore(Insert(h, s), score) == WithScore(s, score) + if h.score == score then [h] else []
  {
    hide WithScore;
    if s == [] || s[|s| - 1].score >= h.score {
      WithScoreSnoc(s, h, score);
    } else {
      var n := |s| - 1;
      InsertStable(h, s[..n], score);
      hide Falling;
      WithScoreSnoc(Insert(h, s[..n]), s[n], score);
      WithScoreSnoc(s[..n], s[n], score);
      assert s == s[..n] + [s[n]];
    }
  }

  lemma {:induction false} RankedOk(s: seq<Hit>)
    ensures Falling(Ranked(s)) && multiset(Ranked(s)) == multiset(s) && |Ranked(s)| == |s|
  {
    if s != [] {
      var n := |s| - 1;
      RankedOk(s[..n]);
      InsertContents(s[n], Ranked(s[..n]));
      InsertFalling(s[n], Ranked(s[..n]));
      assert s == s[..n] + [s[n]];
      assert |multiset(Ranked(s))| == |multiset(s)|;
    }
  }

  lemma {:induction false} RankedStable(s: seq<Hit>, score: real)
    ensures WithScore(Ranked(s), score) == WithScore(s, score)
  {
    if s != [] {
      var n := |s| - 1;
      RankedOk(s[..n]);
      RankedStable(s[..n], score);
      InsertStable(s[n], Ranked(s[..n]), score);
    }
  }

  lemma {:induction false} WithScoreMember(s: seq<Hit>, score: real)
    ensures WithScore(s, score) != [] ==> exists i :: 0 <= i < |s| && s[i].score == score
  {
    if s != [] { WithScoreMember(s[..|s| - 1], score); }
  }

  lemma {:induction false} LastScoreAtMost(s: seq<Hit>, t: seq<Hit>)
    requires Falling(s) && t != [] && forall r :: WithScore(s, r) == WithScore(t, r)
    ensures s != [] && s[|s| - 1].score <= t[|t| - 1].score
  {
    assert WithScore(t, t[|t| - 1].score) != [];
    WithScoreMember(s, t[|t| - 1].score);
  }

  lemma {:induction false} WithoutLast(s: seq<Hit>, t: seq<Hit>, r: real)
    requires s != [] && t != [] && s[|s| - 1] == t[|t| - 1] && WithScore(s, r) == WithScore(t, r)
    ensures WithScore(s[..|s| - 1], r) == WithScore(t[..|t| - 1], r)
  {
    var a, b := WithScore(s[..|s| - 1], r), WithScore(t[..|t| - 1], r);
    if s[|s| - 1].score == r {
      assert (a + [s[|s| - 1]])[..|a|] == a && (b + [s[|s| - 1]])[..|b|] == b;
    } else {
      assert a + [] == a && b + [] == b;
    }
  }

  /** Order by score and stability leave one arrangement only. */
  lemma {:induction false} RankingIsUnique(s: seq<Hit>, t: seq<Hit>)
    requires Falling(s) && Falling(t) && forall r :: WithScore(s, r) == WithScore(t, r)
    ensures s == t
  {
    if s != [] || t != [] {
      if t != [] { LastScoreAtMost(s, t); } else { LastScoreAtMost(t, s); }
      LastScoreAtMost(t, s);
      var r := s[|s| - 1].score;
      assert WithScore(s, r)[|WithScore(s, r)| - 1] == s[|s| - 1];
      assert WithScore(t, r)[|WithScore(t, r)| - 1] == t[|t| - 1];
      var s', t' := s[..|s| - 1], t[..|t| - 1];
      forall q ensures WithScore(s', q) == WithScore(t', q) { WithoutLast(s, t, q); }
      RankingIsUnique(s', t');
      assert s == s[..|s| - 1] + [s[|s| - 1]] && t == t[..|t| - 1] + [t[|t| - 1]];
    }
  }

  lemma {:induction false} RankedOfFalling(s: seq<Hit>)
    requires Falling(s)
    ensures Ranked(s) == s
  {
    RankedOk(s);
    forall r ensures WithScore(Ranked(s), r) == WithScore(s, r) { RankedStable(s, r); }
    RankingIsUnique(Ranked(s), s);
  }

  // ---------- the best of a list ----------

  /** The `k` best of `all`, best first: nothing left out scores above anything taken. */
  ghost predicate IsTopK(taken: seq<Hit>, all: seq<Hit>, k: nat) {
    && Falling(taken) && multiset(taken) <= multiset(all)
    && |taken| == (if k <= |all| then k else |all|)
    && forall x, y :: x in multiset(all) - multiset(taken) && y in taken ==> x.score <= y.score
  }

  lemma {:induction false} CutParts(s: seq<Hit>, k: nat)
    requires k <= |s|
    ensures multiset(s) == multiset(s[..k]) + multiset(s[k..])
  {
    assert s == s[..k] + s[k..];
  }

  lemma {:induction false} RestIsLower(s: seq<Hit>, k: nat, x: Hit, y: Hit)
    requires Falling(s) && k <= |s| && x in s[k..] && y in s[..k]
    ensures x.score <= y.score
  {
    var i :| 0 <= i < |s| - k && s[k..][i] == x;
    var j :| 0 <= j < k && s[..k][j] == y;
  }

  lemma {:induction false} FallingCut(s: seq<Hit>, k: nat)
    requires Falling(s)
    ensures IsTopK(Cut(s, k), s, k)
  {
    if k < |s| {
      CutParts(s, k);
      assert Falling(s[..k]);
      hide Falling;
      assert multiset(s) - multiset(s[..k]) == multiset(s[k..]);
      forall x, y | x in multiset(s) - multiset(s[..k]) && y in s[..k] ensures x.score <= y.score {
        assert x in multiset(s[k..]);
        RestIsLower(s, k, x, y);
      }
    }
  }

  lemma {:induction false} RankedCut(s: seq<Hit>, all: seq<Hit>, k: nat)
    requires multiset(s) == multiset(all)
    ensures IsTopK(Cut(Ranked(s), k), all, k)
  {
    RankedOk(s);
    FallingCut(Ranked(s), k);
    hide IsTopK;
  }

  // ---------- contents under a map ----------

  lemma {:induction false} MapInsert(f: Hit -> Hit, h: Hit, s: seq<Hit>)
    ensures multiset(Map(f, Insert(h, s))) == multiset(Map(f, s)) + multiset{f(h)}
  {
    if s == [] || s[|s| - 1].score >= h.score {
      assert Map(f, s + [h]) == Map(f, s) + [f(h)];
    } else {
      var n := |s| - 1;
      MapInsert(f, h, s[..n]);
      MapSnoc(f, Insert(h, s[..n]), s[n]);
      MapSnoc(f, s[..n], s[n]);
      assert s == s[..n] + [s[n]];
    }
  }

  lemma {:induction false} MapSnoc(f: Hit -> Hit, s: seq<Hit>, h: Hit)
    ensures Map(f, s + [h]) == Map(f, s) + [f(h)]
  {
  }

  lemma {:induction false} MapRanked(f: Hit -> Hit, s: seq<Hit>)
    ensures multiset(Map(f, Ranked(s))) == multiset(Map(f, s))
  {
    if s != [] {
      var n := |s| - 1;
      MapRanked(f, s[..n]);
      MapInsert(f, s[n], Ranked(s[..n]));
      MapSnoc(f, s[..n], s[n]);
      assert s == s[..n] + [s[n]];
    }
  }

  lemma {:induction false} CutContents(s: seq<Hit>, k: int)
    ensures multiset(Cut(s, k)) <= multiset(s)
  {
    var n := |Cut(s, k)|;
    assert Cut(s, k) == s[..n];
    CutParts(s, n);
  }

  // ---------- the stages ----------

  class InMemoryVectorIndex {
    var entries: seq<Entry>

    constructor ()
      ensures entries == []
    {
      entries := [];
    }

    /** Refuses chunks and vectors of different number, and otherwise adds each chunk with its vector. */
    method Upsert(chunks: seq<Chunk>, vectors: seq<Vector>) returns (ok: bool)
      modifies this
      ensures ok <==> |chunks| == |vectors|
      ensures !ok ==> entries == old(entries)
      ensures ok ==> |entries| == |old(entries)| + |chunks| && old(entries) <= entries
                     && forall i :: 0 <= i < |chunks| ==> entries[|old(entries)| + i] == Entry(chunks[i], vectors[i])
    {
      if |chunks| != |vectors| {
        return false;
      }
      entries := entries + seq(|chunks|, i requires 0 <= i < |chunks| && |chunks| == |vectors| =>
        Entry(chunks[i], vectors[i]));
      ok := true;
    }

    method Search(p: Parts, vector: Vector, topK: int, filters: map<string, string>) returns (hits: seq<Hit>)
      ensures hits == Searched(p, entries, vector, topK, filters)
    {
      var candidates := if filters != map[] then Kept(entries, filters) else entries;
      if filters == map[] { KeepsAll(entries); }
      var scored: seq<Hit> := [];
      for i := 0 to |candidates|
        invariant scored == Scored(p, candidates[..i], vector)
      {
        scored := scored + [Hit(candidates[i].chunk, p.similarity(vector, candidates[i].vector))];
      }
      assert candidates[..|candidates|] == candidates;
      hits := Cut(Ranked(scored), topK);
    }
  }

  predicate Matches(chunk: Chunk, filters: map<string, string>) {
    forall key :: key in filters ==> key in chunk.metadata && chunk.metadata[key] == filters[key]
  }

  function Kept(entries: seq<Entry>, filters: map<string, string>): seq<Entry> {
    if entries == [] then []
    else
      var n := |entries| - 1;
      Kept(entries[..n], filters) + if Matches(entries[n].chunk, filters) then [entries[n]] else []
  }

  function Scored(p: Parts, entries: seq<Entry>, vector: Vector): (r: seq<Hit>)
    ensures |r| == |entries|
  {
    seq(|entries|, i requires 0 <= i < |entries| => Hit(entries[i].chunk, p.similarity(vector, entries[i].vector)))
  }

  function Searched(p: Parts, entries: seq<Entry>, vector: Vector, topK: int, filters: map<string, string>): seq<Hit> {
    Cut(Ranked(Scored(p, Kept(entries, filters), vector)), topK)
  }

  lemma {:induction false} KeepsAll(entries: seq<Entry>)
    ensures Kept(entries, map[]) == entries
  {
    if entries != [] {
      KeepsAll(entries[..|entries| - 1]);
      assert entries == entries[..|entries| - 1] + [entries[|entries| - 1]];
    }
  }

  function LexicalOverlap(p: Parts, queryTokens: set<string>, content: string): real {
    if queryTokens == {} then 0.0
    else
      var contentTokens := p.tokens(content);
      if contentTokens == {} then 0.0 else |queryTokens * contentTokens| as real / |queryTokens| as real
  }

  function Weighted(weight: real, similarity: real, lexical: real): real {
    weight * similarity + (1.0 - weight) * lexical
  }

  function Combined(p: Parts, query: string, hit: Hit): Hit {
    hit.(score := Weighted(p.weight, hit.score, LexicalOverlap(p, p.tokens(query), hit.chunk.content)))
  }

  function Combining(p: Parts, query: string): Hit -> Hit {
    h => Combined(p, query, h)
  }

  predicate Contains(text: string, needle: string) {
    |needle| <= |text| && (text[..|needle|] == needle || (text != "" && Contains(text[1..], needle)))
  }

  predicate Phrase(p: Parts, query: string, chunk: Chunk) {
    var needle := p.strip(p.lower(query));
    needle != "" && Contains(p.lower(chunk.content), needle)
  }

  function Boosted(p: Parts, query: string, hit: Hit): Hit {
    if Phrase(p, query, hit.chunk) then hit.(score := hit.score + p.bonus) else hit
  }

  function Boosting(p: Parts, query: string): Hit -> Hit {
    h => Boosted(p, query, h)
  }

  function Retrieved(p: Parts, entries: seq<Entry>, query: string, topK: int, filters: map<string, string>): seq<Hit> {
    var candidates := Searched(p, entries, p.embed(query), topK * p.multiplier, filters);
    Cut(Ranked(Map(Combining(p, query), candidates)), topK)
  }

  function Rerank(p: Parts, query: string, hits: seq<Hit>): seq<Hit> {
    Ranked(Map(Boosting(p, query), hits))
  }

  function Staged(p: Parts, entries: seq<Entry>, query: string, topK: int, filters: map<string, string>): seq<Hit> {
    Cut(Rerank(p, query, Retrieved(p, entries, query, topK * 2, filters)), topK)
  }

  function Cited(hits: seq<Hit>): (r: seq<Citation>)
    ensures |r| == |hits|
  {
    seq(|hits|, i requires 0 <= i < |hits| =>
      Citation(hits[i].chunk.id, "rag", hits[i].chunk.content, hits[i].chunk.document))
  }

  class RagPipeline {
    const parts: Parts
    const index: InMemoryVectorIndex

    constructor (parts: Parts, index: InMemoryVectorIndex)
      ensures this.parts == parts && this.index == index
    {
      this.parts, this.index := parts, index;
    }

    method Retrieve(query: string, topK: int, filters: map<string, string>) returns (hits: seq<Hit>)
      ensures hits == Retrieved(parts, index.entries, query, topK, filters)
    {
      hide Map, Cut, Ranked, Searched, LexicalOverlap, Weighted;
      var candidates := index.Search(parts, parts.embed(query), topK * parts.multiplier, filters);
      var queryTokens := parts.tokens(query);
      var hybrid: seq<Hit> := [];
      for i := 0 to |candidates|
        invariant hybrid == Map(Combining(parts, query), candidates[..i])
      {
        var lexical := LexicalOverlap(parts, queryTokens, candidates[i].chunk.content);
        var combined := Weighted(parts.weight, candidates[i].score, lexical);
        MapSnoc(Combining(parts, query), candidates[..i], candidates[i]);
        assert candidates[..i + 1] == candidates[..i] + [candidates[i]];
        assert Hit(candidates[i].chunk, combined) == Combining(parts, query)(candidates[i]);
        hybrid := hybrid + [Hit(candidates[i].chunk, combined)];
      }
      assert candidates[..|candidates|] == candidates;
      hits := Cut(Ranked(hybrid), topK);
      assert hits == Retrieved(parts, index.entries, query, topK, filters);
    }

    method Query(query: string, topK: int, filters: map<string, string>) returns (citations: seq<Citation>)
      ensures var hits := Staged(parts, index.entries, query, topK, filters);
              |citations| == |hits| && forall i :: 0 <= i < |hits| ==>
                citations[i].source == hits[i].chunk.id && citations[i].connector == "rag"
                && citations[i].excerpt == hits[i].chunk.content && citations[i].reference == hits[i].chunk.document
    {
      var candidates := Retrieve(query, topK * 2, filters);
      citations := Cited(Cut(Rerank(parts, query, candidates), topK));
    }
  }

  // ---------- against ranking everything ----------

  function Scoring(p: Parts, query: string): Hit -> Hit {
    h => Boosted(p, query, Combined(p, query, h))
  }

  /** Every matching chunk with its final score. */
  ghost function Brute(p: Parts, entries: seq<Entry>, query: string, filters: map<string, string>): seq<Hit> {
    Map(Scoring(p, query), Scored(p, Kept(entries, filters), p.embed(query)))
  }

  lemma {:induction false} KeptMembers(entries: seq<Entry>, filters: map<string, string>)
    ensures forall e :: e in Kept(entries, filters) <==> e in entries && Matches(e.chunk, filters)
  {
    if entries != [] {
      KeptMembers(entries[..|entries| - 1], filters);
      assert entries == entries[..|entries| - 1] + [entries[|entries| - 1]];
    }
  }

  lemma {:induction false} KeptTimes(entries: seq<Entry>, filters: map<string, string>, e: Entry)
    ensures multiset(Kept(entries, filters))[e] == if Matches(e.chunk, filters) then multiset(entries)[e] else 0
  {
    hide Matches;
    if entries != [] {
      var n := |entries| - 1;
      KeptTimes(entries[..n], filters, e);
      assert entries == entries[..n] + [entries[n]];
      assert multiset(entries) == multiset(entries[..n]) + multiset{entries[n]};
    }
  }

  /** Kept are the entries whose chunks have what the filters ask for, each as often as it is indexed. */
  lemma {:induction false} KeptCount(entries: seq<Entry>, filters: map<string, string>, e: Entry)
    ensures multiset(Kept(entries, filters))[e] ==
            if forall key :: key in filters ==> key in e.chunk.metadata && e.chunk.metadata[key] == filters[key]
            then multiset(entries)[e] else 0
  {
    KeptTimes(entries, filters, e);
    hide Kept;
  }

  lemma {:induction false} MapMap(f: Hit -> Hit, g: Hit -> Hit, both: Hit -> Hit, s: seq<Hit>)
    requires forall h :: both(h) == g(f(h))
    ensures Map(g, Map(f, s)) == Map(both, s)
  {
  }

  /** Ranking, cutting and mapping keep to the hits there were. */
  lemma {:induction false} StageContents(f: Hit -> Hit, s: seq<Hit>, k: int)
    ensures multiset(Map(f, Cut(Ranked(s), k))) <= multiset(Map(f, s))
    ensures |s| <= k ==> multiset(Map(f, Cut(Ranked(s), k))) == multiset(Map(f, s))
  {
    RankedOk(s);
    MapRanked(f, s);
    assert Map(f, Cut(Ranked(s), k)) == Cut(Map(f, Ranked(s)), k);
    CutContents(Map(f, Ranked(s)), k);
  }

  /** The boosted candidates are matching chunks with their final scores, and all of them when the
      first cuts leave room. */
  lemma {:induction false} CandidateContents(p: Parts, entries: seq<Entry>, query: string, topK: int,
                                             filters: map<string, string>)
    ensures var c := Map(Boosting(p, query), Retrieved(p, entries, query, topK, filters));
            var b := Brute(p, entries, query, filters);
            && multiset(c) <= multiset(b)
            && (|b| <= topK && p.multiplier >= 1 ==> multiset(c) == multiset(b))
  {
    var boost, combine, final := Boosting(p, query), Combining(p, query), Scoring(p, query);
    var scored := Scored(p, Kept(entries, filters), p.embed(query));
    var pool := Cut(Ranked(scored), topK * p.multiplier);
    MapMap(combine, boost, final, pool);
    hide Boosting, Combining, Scoring, Map, Cut, Ranked, Scored, Kept;
    StageContents(final, scored, topK * p.multiplier);
    StageContents(boost, Map(combine, pool), topK);
    if |scored| <= topK && p.multiplier >= 1 {
      WiderPool(topK, p.multiplier);
      RankedLength(scored, topK * p.multiplier);
    }
  }

  lemma {:induction false} WiderPool(topK: int, multiplier: int)
    requires topK >= 0 && multiplier >= 1
    ensures topK * multiplier >= topK
  {
  }

  lemma {:induction false} RankedLength(s: seq<Hit>, k: int)
    requires |s| <= k
    ensures |Cut(Ranked(s), k)| == |s|
  {
    RankedOk(s);
  }

  /** A negative `k` takes the last ones away. */
  lemma {:induction false} CutLength(s: seq<Hit>, k: int)
    ensures Cut(s, k) <= s
    ensures |Cut(s, k)| == if k > |s| then |s| else if k >= 0 then k else if |s| + k >= 0 then |s| + k else 0
  {
  }

  /** How many hits a query gives: as many as asked for, or all that match. */
  lemma {:induction false} StagedLength(p: Parts, entries: seq<Entry>, query: string, topK: nat,
                                        filters: map<string, string>)
    requires p.multiplier >= 1
    ensures var n := |Kept(entries, filters)|;
            |Staged(p, entries, query, topK, filters)| == if topK <= n then topK else n
  {
    hide Cut, Ranked, Combining, Boosting, Kept;
    var scored := Scored(p, Kept(entries, filters), p.embed(query));
    var pool := Cut(Ranked(scored), topK * 2 * p.multiplier);
    var combined := Map(Combining(p, query), pool);
    var boosted := Map(Boosting(p, query), Cut(Ranked(combined), topK * 2));
    RankedOk(scored);
    RankedOk(combined);
    RankedOk(boosted);
    WiderPool(topK * 2, p.multiplier);
    CutLength(Ranked(scored), topK * 2 * p.multiplier);
    CutLength(Ranked(combined), topK * 2);
    CutLength(Ranked(boosted), topK);
  }

  /** A query gives at most `topK` hits by falling final score, none twice, each a matching chunk with its
      final score. */
  lemma {:induction false} StagedOk(p: Parts, entries: seq<Entry>, query: string, topK: nat,
                                    filters: map<string, string>)
    ensures var taken := Staged(p, entries, query, topK, filters);
            |taken| <= topK && Falling(taken) && multiset(taken) <= multiset(Brute(p, entries, query, filters))
  {
    hide Falling, Brute, Map;
    var boosted := Map(Boosting(p, query), Retrieved(p, entries, query, topK * 2, filters));
    hide Retrieved;
    CandidateContents(p, entries, query, topK * 2, filters);
    RankedOk(boosted);
    CutContents(Ranked(boosted), topK);
    CutLength(Ranked(boosted), topK);
    FallingCut(Ranked(boosted), topK);
  }

  /** Each hit is an indexed chunk that has what the filters ask for.  Its score weighs the similarity of its
      vector against the part of the query's words it contains, plus the bonus if it contains the query. */
  lemma {:induction false} HitsAreIndexed(p: Parts, entries: seq<Entry>, query: string, topK: nat,
                                          filters: map<string, string>, h: Hit)
    requires h in Staged(p, entries, query, topK, filters)
    ensures exists e ::
            && e in entries && h.chunk == e.chunk
            && (forall key :: key in filters ==> key in e.chunk.metadata && e.chunk.metadata[key] == filters[key])
            && IsFinalScore(p, query, e, h.score)
  {
    hide Staged, Kept, IsFinalScore, Brute;
    StagedOk(p, entries, query, topK, filters);
    KeptMembers(entries, filters);
    var b := Brute(p, entries, query, filters);
    assert h in multiset(Staged(p, entries, query, topK, filters));
    assert h in multiset(b);
    var i :| 0 <= i < |b| && b[i] == h;
    BruteScores(p, entries, query, filters);
    assert Kept(entries, filters)[i] in Kept(entries, filters);
  }

  ghost predicate IsFinalScore(p: Parts, query: string, e: Entry, score: real) {
    var asked, found := p.tokens(query), p.tokens(query) * p.tokens(e.chunk.content);
    var needle, text := p.strip(p.lower(query)), p.lower(e.chunk.content);
    var phrase := needle != "" && exists i: nat :: At(text, needle, i);
    score == p.weight * p.similarity(p.embed(query), e.vector)
             + (1.0 - p.weight) * (if asked == {} then 0.0 else |found| as real / |asked| as real)
             + (if phrase then p.bonus else 0.0)
  }

  ghost predicate At(text: string, needle: string, i: nat) {
    i + |needle| <= |text| && text[i..i + |needle|] == needle
  }

  lemma {:induction false} ContainsIff(text: string, needle: string)
    ensures Contains(text, needle) <==> exists i: nat :: At(text, needle, i)
  {
    if At(text, needle, 0) {
    } else if text != "" {
      ContainsIff(text[1..], needle);
      forall i: nat ensures At(text[1..], needle, i) <==> At(text, needle, i + 1) {
        if i + 1 + |needle| <= |text| { assert text[1..][i..i + |needle|] == text[i + 1..i + 1 + |needle|]; }
      }
      if i: nat :| At(text, needle, i) { assert At(text[1..], needle, i - 1); }
    }
  }

  /** The matching chunks in their order, each with its final score. */
  lemma {:induction false} BruteScores(p: Parts, entries: seq<Entry>, query: string, filters: map<string, string>)
    ensures var kept, b := Kept(entries, filters), Brute(p, entries, query, filters);
            |b| == |kept| && forall i :: 0 <= i < |b| ==>
                               b[i].chunk == kept[i].chunk && IsFinalScore(p, query, kept[i], b[i].score)
  {
    var kept, b := Kept(entries, filters), Brute(p, entries, query, filters);
    hide IsFinalScore, Combined, Boosted, Kept;
    forall i | 0 <= i < |b| ensures b[i].chunk == kept[i].chunk && IsFinalScore(p, query, kept[i], b[i].score) {
      FinalScore(p, query, kept[i]);
    }
  }

  lemma {:induction false} FinalScore(p: Parts, query: string, e: Entry)
    ensures var h := Boosted(p, query, Combined(p, query, Hit(e.chunk, p.similarity(p.embed(query), e.vector))));
            h.chunk == e.chunk && IsFinalScore(p, query, e, h.score)
  {
    ContainsIff(p.lower(e.chunk.content), p.strip(p.lower(query)));
    OverlapIsShare(p, p.tokens(query), e.chunk.content);
    hide Contains, At, LexicalOverlap;
    var h := Combined(p, query, Hit(e.chunk, p.similarity(p.embed(query), e.vector)));
    assert h.score + 0.0 == h.score;
  }

  // ---------- the words of a query ----------

  lemma {:induction false} OverlapIsShare(p: Parts, asked: set<string>, content: string)
    ensures LexicalOverlap(p, asked, content) ==
            if asked == {} then 0.0 else |asked * p.tokens(content)| as real / |asked| as real
  {
    if p.tokens(content) == {} { assert asked * p.tokens(content) == {}; }
  }

  lemma {:induction false} PartOf(a: set<string>, b: set<string>)
    ensures |a * b| <= |a| && (|a * b| == |a| <==> a <= b) && (|a * b| == 0 <==> a !! b)
  {
    assert a == a * b + (a - b);
    assert |a| == |a * b| + |a - b|;
    assert |a - b| == 0 ==> a - b == {};
  }

  lemma {:induction false} ShareOrder(m: int, n: int, whole: int)
    requires whole > 0
    ensures m as real / whole as real < n as real / whole as real <==> m < n
  {
  }

  lemma {:induction false} ShareBounds(m: int, whole: int)
    requires whole > 0 && 0 <= m <= whole
    ensures 0.0 <= m as real / whole as real <= 1.0
    ensures (m as real / whole as real == 1.0 <==> m == whole) && (m as real / whole as real == 0.0 <==> m == 0)
  {
    ShareOrder(m, whole, whole);
    ShareOrder(0, m, whole);
  }

  /** The overlap is whole exactly if there are words and the content has them all, and zero exactly if it has
      none of them. */
  lemma {:induction false} OverlapExtremes(p: Parts, asked: set<string>, content: string)
    ensures 0.0 <= LexicalOverlap(p, asked, content) <= 1.0
    ensures LexicalOverlap(p, asked, content) == 1.0 <==> asked != {} && asked <= p.tokens(content)
    ensures LexicalOverlap(p, asked, content) == 0.0 <==> asked !! p.tokens(content)
  {
    OverlapIsShare(p, asked, content);
    PartOf(asked, p.tokens(content));
    hide LexicalOverlap;
    if asked != {} { ShareBounds(|asked * p.tokens(content)|, |asked|); }
  }

  /** Contents rank by how many of the query's words they have; more words never do harm. */
  lemma {:induction false} OverlapOrder(p: Parts, asked: set<string>, c: string, d: string)
    ensures LexicalOverlap(p, asked, c) < LexicalOverlap(p, asked, d) <==>
            |asked * p.tokens(c)| < |asked * p.tokens(d)|
    ensures p.tokens(c) <= p.tokens(d) ==> LexicalOverlap(p, asked, c) <= LexicalOverlap(p, asked, d)
  {
    OverlapIsShare(p, asked, c);
    OverlapIsShare(p, asked, d);
    hide LexicalOverlap;
    var m, n := asked * p.tokens(c), asked * p.tokens(d);
    if asked != {} {
      ShareOrder(|m|, |n|, |asked|);
      ShareOrder(|n|, |m|, |asked|);
    }
    if p.tokens(c) <= p.tokens(d) {
      assert n * m == m;
      PartOf(n, m);
    }
  }

  /** Of two hits one outranks the other exactly if its lead in similarity outweighs what it lacks in words. */
  lemma {:induction false} CombinedOrder(p: Parts, query: string, x: Hit, y: Hit)
    requires p.tokens(query) != {}
    ensures var asked := p.tokens(query);
            Combined(p, query, x).score > Combined(p, query, y).score <==>
            p.weight * (x.score - y.score) * |asked| as real >
            (1.0 - p.weight) * (|asked * p.tokens(y.chunk.content)| - |asked * p.tokens(x.chunk.content)|) as real
  {
    var asked := p.tokens(query);
    OverlapIsShare(p, asked, x.chunk.content);
    OverlapIsShare(p, asked, y.chunk.content);
    hide LexicalOverlap;
    Weighed(p.weight, x.score, y.score, |asked * p.tokens(x.chunk.content)|, |asked * p.tokens(y.chunk.content)|,
            |asked|);
  }

  lemma {:induction false} Weighed(w: real, a: real, b: real, m: int, n: int, whole: int)
    requires whole > 0
    ensures w * a + (1.0 - w) * (m as real / whole as real) > w * b + (1.0 - w) * (n as real / whole as real) <==>
            w * (a - b) * whole as real > (1.0 - w) * (n - m) as real
  {
    var u, v, t := m as real / whole as real, n as real / whole as real, whole as real;
    var lead := w * a + (1.0 - w) * u - (w * b + (1.0 - w) * v);
    assert u * t == m as real && v * t == n as real;
    assert lead == w * (a - b) - (1.0 - w) * (v - u);
    assert lead * t == w * (a - b) * t - (1.0 - w) * ((v - u) * t);
    assert (v - u) * t == (n - m) as real;
    Positive(lead, t);
  }

  lemma {:induction false} Positive(x: real, t: real)
    requires t > 0.0
    ensures x > 0.0 <==> x * t > 0.0
  {
  }

  /** Of two candidates of equal similarity, the one with more of the query's words comes first. */
  lemma {:induction false} MoreWordsFirst(p: Parts, entries: seq<Entry>, query: string, topK: nat,
                                          filters: map<string, string>, x: Hit, y: Hit, j: nat)
    requires p.weight < 1.0
    requires var pool := Searched(p, entries, p.embed(query), topK * p.multiplier, filters); x in pool && y in pool
    requires x.score == y.score
    requires |p.tokens(query) * p.tokens(x.chunk.content)| > |p.tokens(query) * p.tokens(y.chunk.content)|
    requires var hits, asked := Retrieved(p, entries, query, topK, filters), p.tokens(query);
             j < |hits| && hits[j].chunk == y.chunk
             && hits[j].score == p.weight * y.score
                                 + (1.0 - p.weight)
                                   * (|asked * p.tokens(y.chunk.content)| as real / |asked| as real)
    ensures exists i :: 0 <= i < j && Retrieved(p, entries, query, topK, filters)[i].chunk == x.chunk
  {
    hide LexicalOverlap, Searched, Ranked, Map, Falling, Cut, Combined;
    var pool := Searched(p, entries, p.embed(query), topK * p.multiplier, filters);
    MoreWordsScore(p, query, x, y);
    MapMember(Combining(p, query), pool, x);
    assert Combining(p, query)(x) == Combined(p, query, x);
    RankedFirst(Map(Combining(p, query), pool), topK, Combined(p, query, x), j);
  }

  lemma {:induction false} MoreWordsScore(p: Parts, query: string, x: Hit, y: Hit)
    requires p.weight < 1.0 && x.score == y.score
    requires |p.tokens(query) * p.tokens(x.chunk.content)| > |p.tokens(query) * p.tokens(y.chunk.content)|
    ensures var asked := p.tokens(query);
            && asked != {} && Combined(p, query, x).chunk == x.chunk
            && Combined(p, query, x).score >
               p.weight * y.score + (1.0 - p.weight) * (|asked * p.tokens(y.chunk.content)| as real / |asked| as real)
  {
    var asked := p.tokens(query);
    PartOf(asked, p.tokens(x.chunk.content));
    OverlapOrder(p, asked, y.chunk.content, x.chunk.content);
    OverlapIsShare(p, asked, y.chunk.content);
    hide LexicalOverlap;
    Outweighs(1.0 - p.weight, LexicalOverlap(p, asked, x.chunk.content), LexicalOverlap(p, asked, y.chunk.content));
  }

  lemma {:induction false} MapMember(f: Hit -> Hit, s: seq<Hit>, h: Hit)
    requires h in s
    ensures f(h) in Map(f, s)
  {
    var n :| 0 <= n < |s| && s[n] == h;
    assert Map(f, s)[n] == f(h);
  }

  /** What scores more than a hit that was taken was taken before it. */
  lemma {:induction false} RankedFirst(s: seq<Hit>, k: nat, h: Hit, j: nat)
    requires h in s && j < |Cut(Ranked(s), k)| && h.score > Cut(Ranked(s), k)[j].score
    ensures exists i :: 0 <= i < j && Cut(Ranked(s), k)[i] == h
  {
    RankedOk(s);
    hide Ranked;
    assert h in multiset(Ranked(s));
    var i :| 0 <= i < |Ranked(s)| && Ranked(s)[i] == h;
  }

  lemma {:induction false} Outweighs(w: real, a: real, b: real)
    requires w > 0.0 && a > b
    ensures w * a > w * b
  {
  }

  /** When at most `2 * topK` chunks match, the staged cuts give the best of all matching chunks. */
  lemma {:induction false} StagedIsTopK(p: Parts, entries: seq<Entry>, query: string, topK: nat,
                                        filters: map<string, string>)
    requires p.multiplier >= 1 && |Kept(entries, filters)| <= 2 * topK
    ensures IsTopK(Staged(p, entries, query, topK, filters), Brute(p, entries, query, filters), topK)
  {
    hide Ranked, Cut, IsTopK, Retrieved, Kept;
    CandidateContents(p, entries, query, topK * 2, filters);
    assert |Brute(p, entries, query, filters)| <= topK * 2;
    hide Map, Brute;
    RankedCut(Map(Boosting(p, query), Retrieved(p, entries, query, topK * 2, filters)),
              Brute(p, entries, query, filters), topK);
  }

  // ---------- queries that no chunk contains as a phrase ----------

  ghost predicate NoBoost(p: Parts, query: string, hits: seq<Hit>) {
    forall h :: h in hits ==> p.bonus == 0.0 || !Phrase(p, query, h.chunk)
  }

  lemma {:induction false} NoBoostKeeps(p: Parts, query: string, hits: seq<Hit>)
    requires NoBoost(p, query, hits)
    ensures Map(Boosting(p, query), hits) == hits
  {
    hide Phrase;
    forall i | 0 <= i < |hits| ensures Map(Boosting(p, query), hits)[i] == hits[i] {
      assert hits[i] in hits;
    }
  }

  lemma {:induction false} CutMembers(s: seq<Hit>, k: int)
    ensures forall h :: h in Cut(Ranked(s), k) ==> h in s
  {
    RankedOk(s);
    CutContents(Ranked(s), k);
    forall h | h in Cut(Ranked(s), k) ensures h in s {
      assert h in multiset(Cut(Ranked(s), k));
      assert h in multiset(s);
    }
  }

  lemma {:induction false} CutTwice(s: seq<Hit>, k: nat, l: nat)
    requires l <= k
    ensures Cut(Cut(s, k), l) == Cut(s, l)
  {
  }

  /** Reranking without boosts leaves the retriever's order alone. */
  lemma {:induction false} RerankIdle(p: Parts, query: string, s: seq<Hit>, topK: nat)
    requires NoBoost(p, query, s)
    ensures Cut(Rerank(p, query, Cut(Ranked(s), topK * 2)), topK) == Cut(Ranked(s), topK)
  {
    var cut := Cut(Ranked(s), topK * 2);
    CutMembers(s, topK * 2);
    assert NoBoost(p, query, cut) by { hide Phrase, Cut, Ranked; }
    hide NoBoost, Map;
    NoBoostKeeps(p, query, cut);
    RankedOk(s);
    FallingCut(Ranked(s), topK * 2);
    RankedOfFalling(cut);
    CutTwice(Ranked(s), topK * 2, topK);
  }

  lemma {:induction false} UnboostedHits(p: Parts, entries: seq<Entry>, query: string, topK: int)
    requires forall e :: e in entries ==> p.bonus == 0.0 || !Phrase(p, query, e.chunk)
    ensures var scored := Scored(p, entries, p.embed(query));
            NoBoost(p, query, Map(Combining(p, query), Cut(Ranked(scored), topK)))
            && NoBoost(p, query, Map(Combining(p, query), scored))
  {
    hide Phrase, Ranked, Cut, LexicalOverlap;
    var scored := Scored(p, entries, p.embed(query));
    CutMembers(scored, topK);
    var pool := Cut(Ranked(scored), topK);
    forall h | h in Map(Combining(p, query), scored) || h in Map(Combining(p, query), pool)
      ensures p.bonus == 0.0 || !Phrase(p, query, h.chunk)
    {
      var from := if h in Map(Combining(p, query), scored) then scored else pool;
      var i :| 0 <= i < |from| && Map(Combining(p, query), from)[i] == h;
      assert from[i] in scored;
      var j :| 0 <= j < |scored| && scored[j] == from[i];
      assert entries[j] in entries;
    }
  }

  /** When no matching chunk contains the query as a phrase, the staged cuts give the best of all matching
      chunks as long as these fit the candidate pool. */
  lemma {:induction false} UnboostedIsTopK(p: Parts, entries: seq<Entry>, query: string, topK: nat,
                                           filters: map<string, string>)
    requires |Kept(entries, filters)| <= topK * 2 * p.multiplier
    requires forall e :: e in entries && Matches(e.chunk, filters) ==> p.bonus == 0.0 || !Phrase(p, query, e.chunk)
    ensures IsTopK(Staged(p, entries, query, topK, filters), Brute(p, entries, query, filters), topK)
  {
    var combine := Combining(p, query);
    hide IsTopK, Matches, Phrase;
    KeptMembers(entries, filters);
    var kept := Kept(entries, filters);
    var scored := Scored(p, kept, p.embed(query));
    var pool := Cut(Ranked(scored), topK * 2 * p.multiplier);
    assert forall e :: e in kept ==> p.bonus == 0.0 || !Phrase(p, query, e.chunk);
    UnboostedHits(p, kept, query, topK * 2 * p.multiplier);
    hide Kept;
    assert Map(Scoring(p, query), scored) == Map(Combining(p, query), scored);
    hide Scored, Boosting, Combining, Scoring, Map, NoBoost, Cut, Ranked, Rerank;
    RerankIdle(p, query, Map(combine, pool), topK);
    StageContents(combine, scored, topK * 2 * p.multiplier);
    RankedCut(Map(combine, pool), Map(combine, scored), topK);
  }

  // ---------- queries that a cut chunk contains as a phrase ----------

  /** A text of punctuation: no words, so an embedding of length zero that is similar to nothing; and its
      own lower-case, stripped form. */
  ghost predicate Wordless(p: Parts, text: string) {
    && p.tokens(text) == {} && p.lower(text) == text && p.strip(text) == text
    && forall v :: p.similarity(p.embed(text), v) == 0.0
  }

  /** What tokens, embedding, similarity and case folding of the pipeline do with two marks. */
  ghost predicate MarksAreWordless(p: Parts) {
    Wordless(p, "!") && Wordless(p, "?")
  }

  /** The entries hold the embeddings of their chunks, as ingestion leaves them. */
  ghost predicate Ingested(p: Parts, entries: seq<Entry>) {
    forall e :: e in entries ==> e.vector == p.embed(e.chunk.content)
  }

  /** Whatever is ingested and asked, `n` matching chunks are ranked as if at once. */
  ghost predicate ExactFor(p: Parts, topK: nat, n: nat) {
    forall entries, query, filters :: Ingested(p, entries) && |Kept(entries, filters)| == n ==>
      IsTopK(Staged(p, entries, query, topK, filters), Brute(p, entries, query, filters), topK)
  }

  /** The `i`-th of `n` chunks: question marks, and an exclamation mark at the end. */
  ghost function Mark(n: nat, i: nat): Chunk {
    Chunk(seq(i, _ => 'c'), "d", if i + 1 < n then "?" else "!", map[])
  }

  ghost function MarkLast(p: Parts, n: nat): (r: seq<Entry>)
    ensures |r| == n
  {
    seq(n, i requires 0 <= i < n => Entry(Mark(n, i), p.embed(Mark(n, i).content)))
  }

  ghost function Even(n: nat): (r: seq<Hit>)
    ensures |r| == n
  {
    seq(n, i requires 0 <= i < n => Hit(Mark(n, i), 0.0))
  }

  lemma {:induction false} CombinedMark(p: Parts, h: Hit)
    requires Wordless(p, "!") && h.score == 0.0
    ensures Combined(p, "!", h) == h
  {
  }

  lemma {:induction false} EvenRanked(p: Parts, n: nat, k: nat)
    requires MarksAreWordless(p)
    ensures Ranked(Cut(Even(n), k)) == Cut(Even(n), k)
    ensures Map(Combining(p, "!"), Cut(Even(n), k)) == Cut(Even(n), k)
  {
    hide Mark, Ranked, Wordless, Combined;
    RankedOfFalling(Cut(Even(n), k));
    forall i | 0 <= i < |Cut(Even(n), k)| ensures Map(Combining(p, "!"), Cut(Even(n), k))[i] == Cut(Even(n), k)[i] {
      CombinedMark(p, Cut(Even(n), k)[i]);
    }
  }

  lemma {:induction false} MarksDiffer()
    ensures !Contains("?", "!")
  {
    var text, needle := "?", "!";
    assert text[0] != needle[0];
    assert text[..|needle|] == text && text[1..] == "";
  }

  lemma {:induction false} EvenUnboosted(p: Parts, n: nat, k: nat)
    requires MarksAreWordless(p) && k < n
    ensures Map(Boosting(p, "!"), Cut(Even(n), k)) == Cut(Even(n), k)
  {
    MarksDiffer();
    hide Contains;
    forall i | 0 <= i < k ensures Map(Boosting(p, "!"), Cut(Even(n), k))[i] == Cut(Even(n), k)[i] {
      assert Cut(Even(n), k)[i] == Hit(Mark(n, i), 0.0) && Mark(n, i).content == "?";
    }
  }

  /** With one match too many the phrase is cut before it is looked for. */
  lemma {:induction false} PhraseIsCut(p: Parts, topK: nat, n: nat)
    requires MarksAreWordless(p) && p.multiplier >= 1 && n > 2 * topK
    ensures Staged(p, MarkLast(p, n), "!", topK, map[]) == Cut(Even(n), topK)
  {
    var e := MarkLast(p, n);
    KeepsAll(e);
    assert Scored(p, e, p.embed("!")) == Even(n);
    hide Even, MarkLast, Mark, Combining, Boosting, Map, Ranked, Wordless;
    WiderPool(topK * 2, p.multiplier);
    var pool := topK * 2 * p.multiplier;
    assert Cut(Even(n), n) == Even(n);
    EvenRanked(p, n, n);
    EvenRanked(p, n, pool);
    CutTwice(Even(n), pool, topK * 2);
    EvenUnboosted(p, n, topK * 2);
    EvenRanked(p, n, topK * 2);
    CutTwice(Even(n), topK * 2, topK);
  }

  lemma {:induction false} PhraseIsBest(p: Parts, n: nat)
    requires MarksAreWordless(p) && n > 0
    ensures var b := Brute(p, MarkLast(p, n), "!", map[]); |b| == n && b[n - 1].score == p.bonus
  {
    KeepsAll(MarkLast(p, n));
    assert Contains("!", "!");
    assert Mark(n, n - 1).content == "!";
  }

  lemma {:induction false} EvenScores(n: nat, k: nat)
    requires 0 < k <= n
    ensures Cut(Even(n), k) != [] && forall h :: h in Cut(Even(n), k) ==> h.score == 0.0
  {
  }

  lemma {:induction false} MarksIngested(p: Parts, n: nat)
    ensures Ingested(p, MarkLast(p, n)) && |Kept(MarkLast(p, n), map[])| == n
  {
    KeepsAll(MarkLast(p, n));
  }

  /** In an index of question marks with an exclamation mark at its end, a search for the exclamation mark
      does not find it. */
  lemma {:induction false} PhraseIsMissed(p: Parts, topK: nat, n: nat)
    requires MarksAreWordless(p) && p.multiplier >= 1 && p.bonus > 0.0 && 0 < topK && 2 * topK < n
    ensures Ingested(p, MarkLast(p, n)) && |Kept(MarkLast(p, n), map[])| == n
    ensures !IsTopK(Staged(p, MarkLast(p, n), "!", topK, map[]), Brute(p, MarkLast(p, n), "!", map[]), topK)
  {
    hide MarksAreWordless, Ingested, Kept, Staged, Brute, Even, MarkLast, IsTopK, Cut;
    MarksIngested(p, n);
    PhraseIsCut(p, topK, n);
    PhraseIsBest(p, n);
    EvenScores(n, topK);
    MissedIsNotTop(Cut(Even(n), topK), Brute(p, MarkLast(p, n), "!", map[]), topK, n - 1);
  }

  lemma {:induction false} MissedIsNotTop(taken: seq<Hit>, all: seq<Hit>, k: nat, missed: nat)
    requires taken != [] && missed < |all| && forall h :: h in taken ==> h.score < all[missed].score
    ensures !IsTopK(taken, all, k)
  {
    var x := all[missed];
    assert x !in taken;
    assert x in multiset(all) && x !in multiset(taken);
    assert x in multiset(all) - multiset(taken) && taken[0] in taken;
  }

  /** For the pipeline with any weight, pool multiplier and positive bonus, `2 * topK` matches is exactly
      how far the staged cuts can be relied on. */
  lemma {:induction false} ExactIff(p: Parts, topK: nat, n: nat)
    requires MarksAreWordless(p) && p.multiplier >= 1 && p.bonus > 0.0 && topK > 0
    ensures ExactFor(p, topK, n) <==> n <= 2 * topK
  {
    hide Kept, IsTopK, Staged, Brute, MarkLast, Wordless;
    if n <= 2 * topK {
      forall entries, query, filters | Ingested(p, entries) && |Kept(entries, filters)| == n
        ensures IsTopK(Staged(p, entries, query, topK, filters), Brute(p, entries, query, filters), topK)
      {
        StagedIsTopK(p, entries, query, topK, filters);
      }
    } else {
      PhraseIsMissed(p, topK, n);
    }
  }
}
