/** Consensus of several positions on one topic: pairwise word overlap, averages per author, the best
    supported position, and the positions left behind. */
module Consensus {

  datatype Position = Position(name: string, text: string, words: set<string>, rank: real)

  datatype Outcome = Outcome(agreement: real, synthesis: string, divergences: seq<string>)

  const THRESHOLD := 0.4

  function Jaccard(a: set<string>, b: set<string>): real {
    if a == {} && b == {} then 1.0
    else if a == {} || b == {} then 0.0
    else |a * b| as real / |a + b| as real
  }

  /** The part of all words that both have. */
  lemma {:induction false} JaccardIsShare(a: set<string>, b: set<string>)
    ensures a + b == {} ==> Jaccard(a, b) == 1.0
    ensures a + b != {} ==> Jaccard(a, b) * |a + b| as real == |a * b| as real
  {
    if a == {} || b == {} { assert a * b == {}; }
  }

  /** A similarity: symmetric, between 0 and 1, 1 only for equal word sets, 0 only for sets without a common word. */
  lemma {:induction false} JaccardIsSimilarity(a: set<string>, b: set<string>)
    ensures Jaccard(a, b) == Jaccard(b, a) && 0.0 <= Jaccard(a, b) <= 1.0
    ensures Jaccard(a, b) == 1.0 <==> a == b
  {
    assert a * b == b * a && a + b == b + a;
    var rest := (a + b) - (a * b);
    assert a + b == a * b + rest;
    assert |a + b| == |a * b| + |rest|;
    assert rest == {} <==> a == b;
    if a != {} && b != {} {
      var x, y := |a * b| as real, |a + b| as real;
      assert y > 0.0 && x <= y;
      Quotient(x, y);
    }
  }

  lemma {:induction false} Quotient(x: real, y: real)
    requires 0.0 <= x <= y && y > 0.0
    ensures 0.0 <= x / y <= 1.0 && (x / y == 1.0 <==> x == y)
  {
    var q := x / y;
    assert q * y == x;
    assert q > 1.0 ==> q * y > y;
    assert q < 0.0 ==> q * y < 0.0;
  }

  // ---------- sums over unordered pairs ----------

  type Weight = (Position, Position) -> real

  ghost function RowSum(p: Position, rest: seq<Position>, w: Weight): real {
    if rest == [] then 0.0 else w(p, rest[0]) + RowSum(p, rest[1..], w)
  }

  /** The sum of `w` over all pairs of positions, each taken once. */
  ghost function PairSum(ps: seq<Position>, w: Weight): real {
    if ps == [] then 0.0 else RowSum(ps[0], ps[1..], w) + PairSum(ps[1..], w)
  }

  lemma {:induction false} RowSumCompare(p: Position, rest: seq<Position>, v: Weight, w: Weight)
    requires forall q :: q in rest ==> v(p, q) <= w(p, q)
    ensures RowSum(p, rest, v) <= RowSum(p, rest, w)
  {
    if rest != [] {
      assert rest == [rest[0]] + rest[1..];
      RowSumCompare(p, rest[1..], v, w);
    }
  }

  lemma {:induction false} PairSumCompare(ps: seq<Position>, v: Weight, w: Weight)
    requires forall p, q :: p in ps && q in ps ==> v(p, q) <= w(p, q)
    ensures PairSum(ps, v) <= PairSum(ps, w)
  {
    if ps != [] {
      assert ps == [ps[0]] + ps[1..];
      RowSumCompare(ps[0], ps[1..], v, w);
      PairSumCompare(ps[1..], v, w);
    }
  }

  lemma {:induction false} RowSumAdd(p: Position, rest: seq<Position>, u: Weight, v: Weight, w: Weight)
    requires forall q :: w(p, q) == u(p, q) + v(p, q)
    ensures RowSum(p, rest, w) == RowSum(p, rest, u) + RowSum(p, rest, v)
  {
    if rest != [] { RowSumAdd(p, rest[1..], u, v, w); }
  }

  lemma {:induction false} PairSumAdd(ps: seq<Position>, u: Weight, v: Weight, w: Weight)
    requires forall p, q :: w(p, q) == u(p, q) + v(p, q)
    ensures PairSum(ps, w) == PairSum(ps, u) + PairSum(ps, v)
  {
    if ps != [] {
      RowSumAdd(ps[0], ps[1..], u, v, w);
      PairSumAdd(ps[1..], u, v, w);
    }
  }

  // ---------- the order of the positions does not matter ----------

  lemma {:induction false} RowSumExtract(p: Position, a: seq<Position>, x: Position, b: seq<Position>, w: Weight)
    ensures RowSum(p, a + [x] + b, w) == w(p, x) + RowSum(p, a + b, w)
  {
    if a == [] {
      assert a + [x] + b == [x] + b && a + b == b;
    } else {
      assert (a + [x] + b)[1..] == a[1..] + [x] + b && (a + b)[1..] == a[1..] + b;
      RowSumExtract(p, a[1..], x, b, w);
    }
  }

  lemma {:induction false} PairSumExtract(a: seq<Position>, x: Position, b: seq<Position>, w: Weight)
    requires forall p, q :: w(p, q) == w(q, p)
    ensures PairSum(a + [x] + b, w) == RowSum(x, a + b, w) + PairSum(a + b, w)
  {
    if a == [] {
      assert a + [x] + b == [x] + b && a + b == b;
    } else {
      assert (a + [x] + b)[1..] == a[1..] + [x] + b && (a + b)[1..] == a[1..] + b;
      RowSumExtract(a[0], a[1..], x, b, w);
      PairSumExtract(a[1..], x, b, w);
    }
  }

  lemma {:induction false} MultisetMiddle(a: seq<Position>, x: Position, b: seq<Position>)
    ensures multiset(a + [x] + b) == multiset(a + b) + multiset{x}
  {
  }

  lemma {:induction false} Locate(ps: seq<Position>, qs: seq<Position>) returns (a: seq<Position>, b: seq<Position>)
    requires ps != [] && multiset(ps) == multiset(qs)
    ensures qs == a + [ps[0]] + b && multiset(ps[1..]) == multiset(a + b)
  {
    HeadOff(ps);
    a, b := SplitAt(ps[0], qs);
    MultisetMiddle(a, ps[0], b);
    MultisetCancel(multiset(ps[1..]), multiset(a + b), ps[0]);
  }

  lemma {:induction false} HeadOff(ps: seq<Position>)
    requires ps != []
    ensures multiset(ps) == multiset(ps[1..]) + multiset{ps[0]} && ps[0] in multiset(ps)
  {
    assert ps == [ps[0]] + ps[1..];
  }

  lemma {:induction false} SplitAt(x: Position, qs: seq<Position>) returns (a: seq<Position>, b: seq<Position>)
    requires x in multiset(qs)
    ensures qs == a + [x] + b
  {
    var k :| 0 <= k < |qs| && qs[k] == x;
    a, b := qs[..k], qs[k + 1..];
  }

  lemma {:induction false} MultisetCancel(m: multiset<Position>, n: multiset<Position>, x: Position)
    requires m + multiset{x} == n + multiset{x}
    ensures m == n
  {
    assert m == m + multiset{x} - multiset{x} && n == n + multiset{x} - multiset{x};
  }

  lemma {:induction false} RowSumReordered(p: Position, ps: seq<Position>, qs: seq<Position>, w: Weight)
    requires multiset(ps) == multiset(qs)
    ensures RowSum(p, ps, w) == RowSum(p, qs, w)
  {
    if ps == [] {
      assert |multiset(qs)| == 0;
    } else {
      var a, b := Locate(ps, qs);
      RowSumExtract(p, a, ps[0], b, w);
      RowSumReordered(p, ps[1..], a + b, w);
    }
  }

  lemma {:induction false} PairSumReordered(ps: seq<Position>, qs: seq<Position>, w: Weight)
    requires multiset(ps) == multiset(qs) && forall p, q :: w(p, q) == w(q, p)
    ensures PairSum(ps, w) == PairSum(qs, w)
  {
    if ps == [] {
      assert |multiset(qs)| == 0;
    } else {
      var a, b := Locate(ps, qs);
      PairSumExtract(a, ps[0], b, w);
      RowSumReordered(ps[0], ps[1..], a + b, w);
      PairSumReordered(ps[1..], a + b, w);
    }
  }

  // ---------- averages ----------

  ghost function Similarity(): Weight {
    (p: Position, q: Position) => Jaccard(p.words, q.words)
  }

  function Hits(p: Position, q: Position, name: string): real {
    (if p.name == name then 1.0 else 0.0) + (if q.name == name then 1.0 else 0.0)
  }

  /** How often, and with which scores, the pairs enter the list of `name`. */
  ghost function HitWeight(name: string): Weight {
    (p: Position, q: Position) => Hits(p, q, name)
  }

  ghost function ScoreWeight(name: string): Weight {
    (p: Position, q: Position) => Hits(p, q, name) * Jaccard(p.words, q.words)
  }

  ghost function Average(ps: seq<Position>, name: string): real {
    var n := PairSum(ps, HitWeight(name));
    if n == 0.0 then 0.0 else PairSum(ps, ScoreWeight(name)) / n
  }

  ghost predicate Distinct(names: seq<string>) {
    forall i, j :: 0 <= i < j < |names| ==> names[i] != names[j]
  }

  function NamesOf(ps: seq<Position>): (names: seq<string>)
    ensures |names| == |ps| && forall i :: 0 <= i < |ps| ==> names[i] == ps[i].name
  {
    seq(|ps|, i requires 0 <= i < |ps| => ps[i].name)
  }

  ghost function MeanSimilarity(ps: seq<Position>): real
    requires |ps| >= 2
  {
    PairSum(ps, Similarity()) / ((|ps| * (|ps| - 1)) as real / 2.0)
  }

  lemma {:induction false} AverageInUnit(ps: seq<Position>, name: string)
    ensures 0.0 <= Average(ps, name) <= 1.0
  {
    var zero := (p: Position, q: Position) => 0.0;
    forall p, q ensures 0.0 <= ScoreWeight(name)(p, q) <= HitWeight(name)(p, q) {
      JaccardIsSimilarity(p.words, q.words);
      Scaled(Hits(p, q, name), Jaccard(p.words, q.words));
    }
    PairSumCompare(ps, zero, ScoreWeight(name));
    PairSumCompare(ps, ScoreWeight(name), HitWeight(name));
    ZeroSum(ps, zero);
    var n := PairSum(ps, HitWeight(name));
    if n != 0.0 { Quotient(PairSum(ps, ScoreWeight(name)), n); }
  }

  lemma {:induction false} Scaled(h: real, s: real)
    requires 0.0 <= h && 0.0 <= s <= 1.0
    ensures 0.0 <= h * s <= h
  {
  }

  lemma {:induction false} ZeroSum(ps: seq<Position>, zero: Weight)
    requires forall p, q :: zero(p, q) == 0.0
    ensures PairSum(ps, zero) == 0.0
  {
    if ps != [] {
      ZeroRow(ps[0], ps[1..], zero);
      ZeroSum(ps[1..], zero);
    }
  }

  lemma {:induction false} ZeroRow(p: Position, rest: seq<Position>, zero: Weight)
    requires forall p, q :: zero(p, q) == 0.0
    ensures RowSum(p, rest, zero) == 0.0
  {
    if rest != [] { ZeroRow(p, rest[1..], zero); }
  }

  // ---------- distinct authors: the agreement is the mean over all pairs ----------

  lemma {:induction false} HitsInRow(p: Position, rest: seq<Position>, name: string)
    requires Distinct(NamesOf([p] + rest))
    ensures RowSum(p, rest, HitWeight(name)) ==
            if p.name == name then |rest| as real else if name in NamesOf(rest) then 1.0 else 0.0
  {
    if rest != [] {
      var all, tail := NamesOf([p] + rest), NamesOf([p] + rest[1..]);
      forall i, j | 0 <= i < j < |tail| ensures tail[i] != tail[j] {
        assert tail[i] == (if i == 0 then all[0] else all[i + 1]) && tail[j] == all[j + 1];
      }
      HitsInRow(p, rest[1..], name);
      assert all[0] != all[1];
      assert NamesOf(rest) == [rest[0].name] + NamesOf(rest[1..]);
      assert forall i :: 0 <= i < |rest[1..]| ==> NamesOf(rest[1..])[i] == all[i + 2];
    }
  }

  lemma {:induction false} HitsInPairs(ps: seq<Position>, name: string)
    requires Distinct(NamesOf(ps))
    ensures PairSum(ps, HitWeight(name)) == if name in NamesOf(ps) then (|ps| - 1) as real else 0.0
  {
    if ps != [] {
      var names, rest := NamesOf(ps), NamesOf(ps[1..]);
      assert ps == [ps[0]] + ps[1..] && names == [names[0]] + rest;
      assert forall i :: 0 <= i < |rest| ==> rest[i] == names[i + 1];
      HitsInRow(ps[0], ps[1..], name);
      HitsInPairs(ps[1..], name);
    }
  }

  function Occurs(name: string, names: seq<string>): real {
    if names == [] then 0.0 else (if names[0] == name then 1.0 else 0.0) + Occurs(name, names[1..])
  }

  lemma {:induction false} OccursOnce(name: string, names: seq<string>)
    requires Distinct(names)
    ensures Occurs(name, names) == if name in names then 1.0 else 0.0
  {
    if names != [] {
      assert names == [names[0]] + names[1..];
      OccursOnce(name, names[1..]);
    }
  }

  ghost function ManyWeight(names: seq<string>): Weight {
    (p: Position, q: Position) => (Occurs(p.name, names) + Occurs(q.name, names)) * Jaccard(p.words, q.words)
  }

  ghost function SumScores(ps: seq<Position>, names: seq<string>): real {
    if names == [] then 0.0 else PairSum(ps, ScoreWeight(names[0])) + SumScores(ps, names[1..])
  }

  lemma {:induction false} SumScoresIsPairSum(ps: seq<Position>, names: seq<string>)
    ensures SumScores(ps, names) == PairSum(ps, ManyWeight(names))
  {
    if names == [] {
      ZeroSum(ps, ManyWeight(names));
    } else {
      SumScoresIsPairSum(ps, names[1..]);
      var n, rest := names[0], names[1..];
      forall p, q ensures ManyWeight(names)(p, q) == ScoreWeight(n)(p, q) + ManyWeight(rest)(p, q) {
        Distribute(Hits(p, q, n), Occurs(p.name, rest) + Occurs(q.name, rest), Jaccard(p.words, q.words));
      }
      PairSumAdd(ps, ScoreWeight(n), ManyWeight(rest), ManyWeight(names));
    }
  }

  lemma {:induction false} Distribute(a: real, b: real, x: real)
    ensures (a + b) * x == a * x + b * x
  {
  }

  /** Over a list that names every author once, each pair is counted twice. */
  lemma {:induction false} SumScoresTwice(ps: seq<Position>, names: seq<string>)
    requires Distinct(names) && forall p :: p in ps ==> p.name in names
    ensures SumScores(ps, names) == 2.0 * PairSum(ps, Similarity())
  {
    SumScoresIsPairSum(ps, names);
    var twice := (p: Position, q: Position) => Jaccard(p.words, q.words) + Jaccard(p.words, q.words);
    PairSumAdd(ps, Similarity(), Similarity(), twice);
    forall p, q | p in ps && q in ps ensures ManyWeight(names)(p, q) == twice(p, q) {
      OccursOnce(p.name, names);
      OccursOnce(q.name, names);
    }
    PairSumCompare(ps, twice, ManyWeight(names));
    PairSumCompare(ps, ManyWeight(names), twice);
  }

  ghost function SumAverages(ps: seq<Position>, names: seq<string>): real {
    if names == [] then 0.0 else Average(ps, names[0]) + SumAverages(ps, names[1..])
  }

  lemma {:induction false} AverageScaled(ps: seq<Position>, name: string, n: real)
    requires n > 0.0 && PairSum(ps, HitWeight(name)) == n
    ensures Average(ps, name) * n == PairSum(ps, ScoreWeight(name))
  {
    hide PairSum, HitWeight, ScoreWeight;
    var t := PairSum(ps, ScoreWeight(name));
    assert Average(ps, name) == t / n;
    assert t / n * n == t;
  }

  lemma {:induction false} SumAveragesScaled(ps: seq<Position>, names: seq<string>, n: real)
    requires n > 0.0 && forall k :: k in names ==> PairSum(ps, HitWeight(k)) == n
    ensures SumAverages(ps, names) * n == SumScores(ps, names)
  {
    hide Average, PairSum, HitWeight, ScoreWeight;
    if names != [] {
      assert names == [names[0]] + names[1..];
      SumAveragesScaled(ps, names[1..], n);
      AverageScaled(ps, names[0], n);
      Distribute(Average(ps, names[0]), SumAverages(ps, names[1..]), n);
    }
  }

  lemma {:induction false} DistinctTotals(ps: seq<Position>)
    requires |ps| >= 2 && Distinct(NamesOf(ps))
    ensures SumAverages(ps, NamesOf(ps)) * (|ps| - 1) as real == 2.0 * PairSum(ps, Similarity())
  {
    hide SumAverages, SumScores, PairSum, HitWeight, Similarity, Distinct, NamesOf;
    EveryNameHits(ps);
    SumAveragesScaled(ps, NamesOf(ps), (|ps| - 1) as real);
    EveryPositionNamed(ps);
    SumScoresTwice(ps, NamesOf(ps));
  }

  lemma {:induction false} AgreementIsMean(ps: seq<Position>)
    requires |ps| >= 2 && Distinct(NamesOf(ps))
    ensures SumAverages(ps, NamesOf(ps)) / |ps| as real == MeanSimilarity(ps)
  {
    hide SumAverages, PairSum, Similarity, Distinct, NamesOf;
    DistinctTotals(ps);
    MeanArithmetic(SumAverages(ps, NamesOf(ps)), PairSum(ps, Similarity()), |ps|);
  }

  lemma {:induction false} EveryNameHits(ps: seq<Position>)
    requires Distinct(NamesOf(ps))
    ensures forall k :: k in NamesOf(ps) ==> PairSum(ps, HitWeight(k)) == (|ps| - 1) as real
  {
    forall k | k in NamesOf(ps) ensures PairSum(ps, HitWeight(k)) == (|ps| - 1) as real {
      HitsInPairs(ps, k);
    }
  }

  lemma {:induction false} EveryPositionNamed(ps: seq<Position>)
    ensures forall p :: p in ps ==> p.name in NamesOf(ps)
  {
    forall p | p in ps ensures p.name in NamesOf(ps) {
      var i :| 0 <= i < |ps| && ps[i] == p;
      assert NamesOf(ps)[i] == p.name;
    }
  }

  lemma {:induction false} MeanArithmetic(a: real, s: real, k: nat)
    requires k >= 2 && a * (k - 1) as real == 2.0 * s
    ensures a / k as real == s / ((k * (k - 1)) as real / 2.0)
  {
    var n := k as real;
    assert (k - 1) as real == n - 1.0;
    RealProduct(k);
    var d := n * (n - 1.0) / 2.0;
    assert d >= 1.0;
    var q := a / n;
    assert a == q * n;
    assert s == q * d;
  }

  lemma {:induction false} RealProduct(k: nat)
    ensures (k * (k - 1)) as real == k as real * (k as real - 1.0)
  {
  }

  lemma {:induction false} WeightsAreSymmetric(name: string)
    ensures forall p, q :: HitWeight(name)(p, q) == HitWeight(name)(q, p)
    ensures forall p, q :: ScoreWeight(name)(p, q) == ScoreWeight(name)(q, p)
    ensures forall p, q :: Similarity()(p, q) == Similarity()(q, p)
  {
    hide Jaccard;
    forall p: Position, q: Position ensures Jaccard(p.words, q.words) == Jaccard(q.words, p.words) {
      JaccardIsSimilarity(p.words, q.words);
    }
  }

  /** Averages and mean do not depend on the order in which the positions are listed. */
  lemma {:induction false} OrderIrrelevant(ps: seq<Position>, qs: seq<Position>, name: string)
    requires multiset(ps) == multiset(qs)
    ensures Average(ps, name) == Average(qs, name)
    ensures |ps| == |qs| && (|ps| >= 2 ==> MeanSimilarity(ps) == MeanSimilarity(qs))
  {
    assert |ps| == |multiset(ps)| == |multiset(qs)| == |qs|;
    WeightsAreSymmetric(name);
    hide PairSum, HitWeight, ScoreWeight, Similarity;
    PairSumReordered(ps, qs, HitWeight(name));
    PairSumReordered(ps, qs, ScoreWeight(name));
    PairSumReordered(ps, qs, Similarity());
  }

  // ---------- building the consensus ----------

  function SumOf(scores: seq<real>): real {
    if scores == [] then 0.0 else SumOf(scores[..|scores| - 1]) + scores[|scores| - 1]
  }

  lemma {:induction false} SumOfAppended(scores: seq<real>, x: real)
    ensures SumOf(scores + [x]) == SumOf(scores) + x
  {
    assert (scores + [x])[..|scores|] == scores;
  }

  /** The lists hold what the pairs seen so far contribute; still to come are the pairs of `p` with
      `rest` and those within `after`. */
  ghost predicate Collected(scores: map<string, seq<real>>, ps: seq<Position>, p: Position, rest: seq<Position>,
                            after: seq<Position>) {
    forall name :: name in scores ==>
      && SumOf(scores[name]) + RowSum(p, rest, ScoreWeight(name)) + PairSum(after, ScoreWeight(name))
          == PairSum(ps, ScoreWeight(name))
      && |scores[name]| as real + RowSum(p, rest, HitWeight(name)) + PairSum(after, HitWeight(name))
          == PairSum(ps, HitWeight(name))
  }

  function Appended(scores: map<string, seq<real>>, name: string, x: real): map<string, seq<real>>
    requires name in scores
  {
    scores[name := scores[name] + [x]]
  }

  lemma {:induction false} HitsTimes(p: Position, q: Position, name: string, x: real)
    ensures Hits(p, q, name) * x == (if p.name == name then x else 0.0) + (if q.name == name then x else 0.0)
  {
  }

  /** One pair adds its score to the list of either author, twice if they are the same. */
  lemma {:induction false} PairAppended(scores: map<string, seq<real>>, p: Position, q: Position, name: string)
    requires p.name in scores && q.name in scores && name in scores
    ensures var x := Jaccard(p.words, q.words);
            var two := Appended(Appended(scores, p.name, x), q.name, x);
            && SumOf(two[name]) == SumOf(scores[name]) + ScoreWeight(name)(p, q)
            && |two[name]| as real == |scores[name]| as real + HitWeight(name)(p, q)
  {
    var x := Jaccard(p.words, q.words);
    hide Jaccard, SumOf;
    HitsTimes(p, q, name, x);
    SumOfAppended(scores[name], x);
    SumOfAppended(scores[name] + [x], x);
  }

  lemma {:induction false} CollectPair(scores: map<string, seq<real>>, ps: seq<Position>, p: Position,
                                       rest: seq<Position>, after: seq<Position>)
    requires rest != [] && p.name in scores && rest[0].name in scores && Collected(scores, ps, p, rest, after)
    ensures var x := Jaccard(p.words, rest[0].words);
            Collected(Appended(Appended(scores, p.name, x), rest[0].name, x), ps, p, rest[1..], after)
  {
    var q, x := rest[0], Jaccard(p.words, rest[0].words);
    var two := Appended(Appended(scores, p.name, x), q.name, x);
    forall name | name in two
      ensures SumOf(two[name]) + RowSum(p, rest[1..], ScoreWeight(name))
              == SumOf(scores[name]) + RowSum(p, rest, ScoreWeight(name))
      ensures |two[name]| as real + RowSum(p, rest[1..], HitWeight(name))
              == |scores[name]| as real + RowSum(p, rest, HitWeight(name))
    {
      PairAppended(scores, p, q, name);
      hide PairSum, Jaccard, SumOf, Hits, Collected, ScoreWeight, HitWeight;
    }
    hide PairSum, RowSum, Jaccard, SumOf, ScoreWeight, HitWeight;
  }

  /** The same before and after the pairs of one position. */
  ghost predicate Gathered(scores: map<string, seq<real>>, ps: seq<Position>, after: seq<Position>) {
    forall name :: name in scores ==>
      && SumOf(scores[name]) + PairSum(after, ScoreWeight(name)) == PairSum(ps, ScoreWeight(name))
      && |scores[name]| as real + PairSum(after, HitWeight(name)) == PairSum(ps, HitWeight(name))
  }

  lemma {:induction false} OpenRow(scores: map<string, seq<real>>, ps: seq<Position>, after: seq<Position>)
    requires after != [] && Gathered(scores, ps, after)
    ensures Collected(scores, ps, after[0], after[1..], after[1..])
  {
    hide SumOf, ScoreWeight, HitWeight, RowSum;
  }

  lemma {:induction false} CloseRow(scores: map<string, seq<real>>, ps: seq<Position>, p: Position,
                                    after: seq<Position>)
    requires Collected(scores, ps, p, [], after)
    ensures Gathered(scores, ps, after)
  {
    hide SumOf, ScoreWeight, HitWeight, PairSum;
  }

  ghost predicate Supported(ps: seq<Position>, a: Position, b: Position) {
    Average(ps, a.name) > Average(ps, b.name) || (Average(ps, a.name) == Average(ps, b.name) && a.rank > b.rank)
  }

  /** The first of the best supported positions. */
  ghost predicate IsBest(ps: seq<Position>, b: Position) {
    exists k :: 0 <= k < |ps| && ps[k] == b
                && (forall j :: 0 <= j < |ps| ==> !Supported(ps, ps[j], b))
                && (forall j :: 0 <= j < k ==> Supported(ps, b, ps[j]))
  }

  /** The other positions that average under the threshold, in the order given. */
  ghost function Divergent(ps: seq<Position>, all: seq<Position>, best: Position): seq<string> {
    if ps == [] then []
    else
      var p := ps[|ps| - 1];
      Divergent(ps[..|ps| - 1], all, best)
      + if Average(all, p.name) < THRESHOLD && p.name != best.name then [p.name + " : " + p.text] else []
  }

  ghost function DivergentAuthors(ps: seq<Position>, all: seq<Position>, best: Position): seq<string> {
    if ps == [] then []
    else
      var p := ps[|ps| - 1];
      DivergentAuthors(ps[..|ps| - 1], all, best)
      + if Average(all, p.name) < THRESHOLD && p.name != best.name then [p.name] else []
  }

  /** What it takes to be best: a higher average than any other, or the same and a higher rank, or both the same
      and an earlier place. */
  lemma {:induction false} BestMeans(ps: seq<Position>, b: Position)
    ensures IsBest(ps, b) <==>
            exists k :: 0 <= k < |ps| && ps[k] == b && forall j :: 0 <= j < |ps| && j != k ==> Precedes(ps, k, j)
  {
    hide Average;
    if k :| 0 <= k < |ps| && ps[k] == b && forall j :: 0 <= j < |ps| && j != k ==> Precedes(ps, k, j) {
      forall j | 0 <= j < |ps| ensures !Supported(ps, ps[j], b) && (j < k ==> Supported(ps, b, ps[j])) {
        if j != k { assert Precedes(ps, k, j); }
      }
    }
    if k :| 0 <= k < |ps| && ps[k] == b && (forall j :: 0 <= j < |ps| ==> !Supported(ps, ps[j], b))
            && (forall j :: 0 <= j < k ==> Supported(ps, b, ps[j])) {
      forall j | 0 <= j < |ps| && j != k ensures Precedes(ps, k, j) {}
    }
  }

  ghost predicate Precedes(ps: seq<Position>, k: int, j: int)
    requires 0 <= k < |ps| && 0 <= j < |ps|
  {
    var a, b := Average(ps, ps[k].name), Average(ps, ps[j].name);
    a > b || (a == b && ps[k].rank > ps[j].rank) || (a == b && ps[k].rank == ps[j].rank && k < j)
  }

  /** Divergent is who averages under two fifths and is not the best author. */
  lemma {:induction false} DivergentMeans(ps: seq<Position>, all: seq<Position>, best: Position, d: string)
    ensures d in Divergent(ps, all, best) <==>
            exists p :: p in ps && Average(all, p.name) < 0.4 && p.name != best.name && d == p.name + " : " + p.text
    ensures d in DivergentAuthors(ps, all, best) <==>
            exists p :: p in ps && Average(all, p.name) < 0.4 && p.name != best.name && d == p.name
  {
    hide Average;
    if ps != [] {
      DivergentMeans(ps[..|ps| - 1], all, best, d);
      assert ps == ps[..|ps| - 1] + [ps[|ps| - 1]];
    }
  }

  // ---------- distinct authors: the average is over the others ----------

  lemma {:induction false} RowSumEqual(p: Position, rest: seq<Position>, v: Weight, w: Weight)
    requires forall q :: q in rest ==> v(p, q) == w(p, q)
    ensures RowSum(p, rest, v) == RowSum(p, rest, w)
  {
    RowSumCompare(p, rest, v, w);
    RowSumCompare(p, rest, w, v);
  }

  lemma {:induction false} NobodyScores(ps: seq<Position>, name: string)
    requires forall p :: p in ps ==> p.name != name
    ensures PairSum(ps, ScoreWeight(name)) == 0.0
  {
    hide Jaccard;
    var zero := (p: Position, q: Position) => 0.0;
    ZeroSum(ps, zero);
    PairSumCompare(ps, zero, ScoreWeight(name));
    PairSumCompare(ps, ScoreWeight(name), zero);
  }

  lemma {:induction false} ScoresOverOthers(a: seq<Position>, x: Position, b: seq<Position>)
    requires forall p :: p in a + b ==> p.name != x.name
    ensures PairSum(a + [x] + b, ScoreWeight(x.name)) == RowSum(x, a + b, Similarity())
  {
    WeightsAreSymmetric(x.name);
    PairSumExtract(a, x, b, ScoreWeight(x.name));
    NobodyScores(a + b, x.name);
    hide Jaccard, PairSum, RowSum;
    RowSumEqual(x, a + b, ScoreWeight(x.name), Similarity());
  }

  lemma {:induction false} OthersDiffer(ps: seq<Position>, i: nat)
    requires Distinct(NamesOf(ps)) && i < |ps|
    ensures forall p :: p in ps[..i] + ps[i + 1..] ==> p.name != ps[i].name
  {
    var others := ps[..i] + ps[i + 1..];
    forall p | p in others ensures p.name != ps[i].name {
      var j :| 0 <= j < |others| && others[j] == p;
      var k := if j < i then j else j + 1;
      assert NamesOf(ps)[k] == p.name && NamesOf(ps)[i] == ps[i].name;
    }
  }

  /** With distinct authors, an author's average is the mean similarity to the positions of the others. */
  lemma {:induction false} AverageIsOverOthers(ps: seq<Position>, i: nat)
    requires Distinct(NamesOf(ps)) && i < |ps| && |ps| >= 2
    ensures Average(ps, ps[i].name) == RowSum(ps[i], ps[..i] + ps[i + 1..], Similarity()) / (|ps| - 1) as real
  {
    hide PairSum, RowSum, ScoreWeight, HitWeight, Similarity, Distinct;
    OthersDiffer(ps, i);
    ScoresOverOthers(ps[..i], ps[i], ps[i + 1..]);
    assert ps[..i] + [ps[i]] + ps[i + 1..] == ps;
    HitsInPairs(ps, ps[i].name);
    assert NamesOf(ps)[i] == ps[i].name;
  }

  /** The authors in the order of their first position. */
  method Authors(ps: seq<Position>) returns (names: seq<string>)
    ensures Distinct(names) && forall n :: n in names <==> n in NamesOf(ps)
    ensures Distinct(NamesOf(ps)) ==> names == NamesOf(ps)
  {
    names := [];
    var all := NamesOf(ps);
    for i := 0 to |ps|
      invariant Distinct(names) && forall n :: n in names <==> n in all[..i]
      invariant Distinct(all) ==> names == all[..i]
    {
      assert all[..i + 1] == all[..i] + [ps[i].name];
      if ps[i].name !in names {
        names := names + [ps[i].name];
      }
    }
    assert all[..|ps|] == all;
  }

  method CollectScores(ps: seq<Position>) returns (scores: map<string, seq<real>>)
    ensures forall p :: p in ps ==> p.name in scores
    ensures Gathered(scores, ps, [])
  {
    hide Jaccard, SumOf, ScoreWeight, HitWeight, RowSum, PairSum, Collected, Gathered, Appended;
    scores := map p <- ps :: p.name := [];
    NothingGathered(scores, ps);
    for i := 0 to |ps|
      invariant forall p :: p in ps ==> p.name in scores
      invariant Gathered(scores, ps, ps[i..])
    {
      var a := ps[i];
      var rest := ps[i + 1..];
      assert ps[i..][0] == a && ps[i..][1..] == rest;
      OpenRow(scores, ps, ps[i..]);
      assert rest[0..] == rest;
      for j := 0 to |rest|
        invariant forall p :: p in ps ==> p.name in scores
        invariant Collected(scores, ps, a, rest[j..], rest)
      {
        assert rest[j..][0] == rest[j] && rest[j..][1..] == rest[j + 1..] && rest[j] == ps[i + 1 + j];
        CollectPair(scores, ps, a, rest[j..], rest);
        ghost var before := scores;
        var x := Jaccard(a.words, rest[j].words);
        AppendedKeys(scores, a.name, x);
        scores := Appended(scores, a.name, x);
        AppendedKeys(scores, rest[j].name, x);
        scores := Appended(scores, rest[j].name, x);
      }
      assert rest[|rest|..] == [];
      CloseRow(scores, ps, a, rest);
    }
    assert ps[|ps|..] == [];
  }

  lemma {:induction false} AppendedKeys(scores: map<string, seq<real>>, name: string, x: real)
    requires name in scores
    ensures Appended(scores, name, x).Keys == scores.Keys
  {
  }

  lemma {:induction false} NothingGathered(scores: map<string, seq<real>>, ps: seq<Position>)
    requires forall name :: name in scores ==> scores[name] == []
    ensures Gathered(scores, ps, ps[0..])
  {
    assert ps[0..] == ps;
    hide PairSum, ScoreWeight, HitWeight;
  }

  function AverageOf(scores: seq<real>): real {
    if scores == [] then 0.0 else SumOf(scores) / |scores| as real
  }

  lemma {:induction false} AverageGathered(scores: map<string, seq<real>>, ps: seq<Position>, name: string)
    requires Gathered(scores, ps, []) && name in scores
    ensures AverageOf(scores[name]) == Average(ps, name)
  {
    hide ScoreWeight, HitWeight;
    assert PairSum([], ScoreWeight(name)) == 0.0 && PairSum([], HitWeight(name)) == 0.0;
    hide PairSum;
    assert SumOf(scores[name]) == PairSum(ps, ScoreWeight(name))
           && |scores[name]| as real == PairSum(ps, HitWeight(name));
  }

  lemma {:induction false} SumAveragesBounds(ps: seq<Position>, names: seq<string>, max: real)
    requires forall n :: n in names ==> Average(ps, n) <= max
    ensures 0.0 <= SumAverages(ps, names) <= |names| as real * max
    ensures SumAverages(ps, names) <= |names| as real
  {
    hide Average;
    if names != [] {
      assert names == [names[0]] + names[1..];
      AverageInUnit(ps, names[0]);
      SumAveragesBounds(ps, names[1..], max);
      Distribute((|names| - 1) as real, 1.0, max);
    }
  }

  lemma {:induction false} DivideBounds(t: real, n: real, max: real)
    requires n >= 1.0 && 0.0 <= t <= n * max && t <= n
    ensures 0.0 <= t / n <= 1.0 && t / n <= max
  {
    Quotient(t, n);
    var q := t / n;
    assert q * n == t;
    assert q > max ==> q * n > max * n;
  }

  method BestOf(ps: seq<Position>, averages: map<string, real>) returns (best: Position)
    requires ps != [] && forall p :: p in ps ==> p.name in averages && averages[p.name] == Average(ps, p.name)
    ensures IsBest(ps, best)
  {
    hide Average;
    best := ps[0];
    ghost var k := 0;
    for i := 1 to |ps|
      invariant 0 <= k < i && ps[k] == best && best in ps
      invariant forall j :: 0 <= j < i ==> !Supported(ps, ps[j], best)
      invariant forall j :: 0 <= j < k ==> Supported(ps, best, ps[j])
    {
      var p := ps[i];
      if averages[p.name] > averages[best.name] || (averages[p.name] == averages[best.name] && p.rank > best.rank) {
        best := p;
        k := i;
      }
    }
  }

  method AverageScores(ps: seq<Position>) returns (averages: map<string, real>)
    ensures forall p :: p in ps ==> p.name in averages
    ensures forall n :: n in averages ==> averages[n] == Average(ps, n)
  {
    hide Average, Gathered, AverageOf;
    var scores := CollectScores(ps);
    averages := map name | name in scores :: AverageOf(scores[name]);
    forall n | n in averages ensures averages[n] == Average(ps, n) {
      AverageGathered(scores, ps, n);
    }
  }

  method MeanOf(ps: seq<Position>, names: seq<string>, averages: map<string, real>) returns (mean: real)
    requires ps != [] && forall n :: n in names <==> n in NamesOf(ps)
    requires forall p :: p in ps ==> p.name in averages
    requires forall n :: n in averages ==> averages[n] == Average(ps, n)
    ensures names != [] && mean == SumAverages(ps, names) / |names| as real
  {
    hide Average;
    assert NamesOf(ps)[0] in names;
    forall n | n in names ensures n in averages {
      var i :| 0 <= i < |ps| && NamesOf(ps)[i] == n;
      assert ps[i] in ps;
    }
    var total := 0.0;
    assert names[0..] == names;
    for i := 0 to |names|
      invariant total + SumAverages(ps, names[i..]) == SumAverages(ps, names)
    {
      total := total + averages[names[i]];
      assert names[i..][0] == names[i] && names[i..][1..] == names[i + 1..];
    }
    mean := total / |names| as real;
  }

  method DivergencesFrom(ps: seq<Position>, averages: map<string, real>, best: Position)
    returns (divergences: seq<string>)
    requires forall p :: p in ps ==> p.name in averages && averages[p.name] == Average(ps, p.name)
    ensures divergences == Divergent(ps, ps, best)
  {
    hide Average;
    divergences := [];
    for i := 0 to |ps|
      invariant divergences == Divergent(ps[..i], ps, best)
    {
      assert ps[..i + 1][..i] == ps[..i];
      if averages[ps[i].name] < THRESHOLD && ps[i].name != best.name {
        divergences := divergences + [ps[i].name + " : " + ps[i].text];
      }
    }
    assert ps[..|ps|] == ps;
  }

  /** The consensus: of nothing, of one position, and of several.  With several positions the agreement
      lies between 0 and 1, the chosen position averages at least that much, and the divergences are the
      others under the threshold; with distinct authors the agreement is the mean over all pairs. */
  method BuildConsensus(ps: seq<Position>) returns (o: Outcome, ghost best: Position)
    ensures |ps| == 0 ==> o == Outcome(1.0, "", [])
    ensures |ps| == 1 ==> o == Outcome(1.0, ps[0].text, [])
    ensures |ps| >= 2 ==>
              && IsBest(ps, best) && o.synthesis == best.text && o.divergences == Divergent(ps, ps, best)
              && 0.0 <= o.agreement <= 1.0 && o.agreement <= Average(ps, best.name)
              && (Distinct(NamesOf(ps)) ==> o.agreement == MeanSimilarity(ps))
  {
    best := Position("", "", {}, 0.0);
    if |ps| == 0 {
      return Outcome(1.0, "", []), best;
    }
    if |ps| == 1 {
      return Outcome(1.0, ps[0].text, []), ps[0];
    }
    hide Average, MeanSimilarity, SumAverages, IsBest, Divergent, Distinct;
    var averages := AverageScores(ps);
    var names := Authors(ps);
    var agreement := MeanOf(ps, names, averages);
    var chosen := BestOf(ps, averages);
    best := chosen;
    var divergences := DivergencesFrom(ps, averages, chosen);
    o := Outcome(agreement, chosen.text, divergences);
    AgreementBounds(ps, names, best);
    if Distinct(NamesOf(ps)) { AgreementIsMean(ps); }
  }

  /** The same over the positions of a team's agents: the text is that of the best author's first
      position, which is the best position itself if the authors are distinct, and the disagreements are
      the authors of the divergent positions. */
  method BuildTeamConsensus(ps: seq<Position>) returns (o: Outcome, ghost best: Position)
    ensures |ps| == 0 ==> o == Outcome(1.0, "", [])
    ensures |ps| == 1 ==> o == Outcome(1.0, ps[0].text, [])
    ensures |ps| >= 2 ==>
              && IsBest(ps, best) && IsFirstText(ps, best.name, o.synthesis)
                  && o.divergences == DivergentAuthors(ps, ps, best)
              && 0.0 <= o.agreement <= 1.0 && o.agreement <= Average(ps, best.name)
              && (Distinct(NamesOf(ps)) ==> o.agreement == MeanSimilarity(ps) && o.synthesis == best.text)
  {
    best := Position("", "", {}, 0.0);
    if |ps| == 0 {
      return Outcome(1.0, "", []), best;
    }
    if |ps| == 1 {
      return Outcome(1.0, ps[0].text, []), ps[0];
    }
    hide Average, MeanSimilarity, SumAverages, IsBest, DivergentAuthors, Distinct, IsFirstText;
    var averages := AverageScores(ps);
    var names := Authors(ps);
    var agreement := MeanOf(ps, names, averages);
    var chosen := BestOf(ps, averages);
    best := chosen;
    var text := FirstText(ps, chosen);
    var disagreements := AuthorsDivergingFrom(ps, averages, chosen);
    o := Outcome(agreement, text, disagreements);
    AgreementBounds(ps, names, best);
    if Distinct(NamesOf(ps)) { AgreementIsMean(ps); }
  }

  ghost predicate IsFirstText(ps: seq<Position>, name: string, text: string) {
    exists k :: 0 <= k < |ps| && ps[k].name == name && ps[k].text == text
                && forall j :: 0 <= j < k ==> ps[j].name != name
  }

  method FirstText(ps: seq<Position>, best: Position) returns (text: string)
    requires IsBest(ps, best)
    ensures IsFirstText(ps, best.name, text)
    ensures Distinct(NamesOf(ps)) ==> text == best.text
  {
    ghost var b :| 0 <= b < |ps| && ps[b] == best;
    for i := 0 to |ps|
      invariant forall j :: 0 <= j < i ==> ps[j].name != best.name
    {
      if ps[i].name == best.name {
        assert Distinct(NamesOf(ps)) ==> i == b by { assert NamesOf(ps)[i] == NamesOf(ps)[b]; }
        return ps[i].text;
      }
    }
    assert false;
  }

  method AuthorsDivergingFrom(ps: seq<Position>, averages: map<string, real>, best: Position)
    returns (authors: seq<string>)
    requires forall p :: p in ps ==> p.name in averages && averages[p.name] == Average(ps, p.name)
    ensures authors == DivergentAuthors(ps, ps, best)
  {
    hide Average;
    authors := [];
    for i := 0 to |ps|
      invariant authors == DivergentAuthors(ps[..i], ps, best)
    {
      assert ps[..i + 1][..i] == ps[..i];
      if averages[ps[i].name] < THRESHOLD && ps[i].name != best.name {
        authors := authors + [ps[i].name];
      }
    }
    assert ps[..|ps|] == ps;
  }

  lemma {:induction false} AgreementBounds(ps: seq<Position>, names: seq<string>, best: Position)
    requires ps != [] && IsBest(ps, best) && forall n :: n in names <==> n in NamesOf(ps)
    ensures names != []
    ensures 0.0 <= SumAverages(ps, names) / |names| as real <= 1.0
    ensures SumAverages(ps, names) / |names| as real <= Average(ps, best.name)
  {
    hide Average;
    assert NamesOf(ps)[0] in names;
    forall n | n in names ensures Average(ps, n) <= Average(ps, best.name) {
      var i :| 0 <= i < |ps| && NamesOf(ps)[i] == n;
      assert !Supported(ps, ps[i], best);
    }
    SumAveragesBounds(ps, names, Average(ps, best.name));
    DivideBounds(SumAverages(ps, names), |names| as real, Average(ps, best.name));
  }
}
