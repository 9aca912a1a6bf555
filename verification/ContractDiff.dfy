/** The paragraph diff of two contract texts, built from a list of edit operations that tile both. */
module ContractDiff {

  datatype Paragraph = Paragraph(text: string)

  datatype Tag = Equal | Insert | Delete | Replace

  /** Paragraphs `i1..i2` of the old text correspond to `j1..j2` of the new one. */
  datatype Op = Op(tag: Tag, i1: nat, i2: nat, j1: nat, j2: nat)

  datatype Diff = Diff(added: seq<Paragraph>, removed: seq<Paragraph>, changed: seq<(Paragraph, Paragraph)>)

  function Min(a: int, b: int): int {
    if a <= b then a else b
  }

  ghost predicate OpOk(o: Op, a: seq<Paragraph>, b: seq<Paragraph>) {
    && o.i1 <= o.i2 <= |a| && o.j1 <= o.j2 <= |b|
    && (match o.tag
        case Equal => a[o.i1..o.i2] == b[o.j1..o.j2]
        case Insert => o.i1 == o.i2
        case Delete => o.j1 == o.j2
        case Replace => o.i1 < o.i2 && o.j1 < o.j2)
  }

  /** The unchanged paragraphs of one operation. */
  ghost function Same(o: Op, a: seq<Paragraph>): seq<Paragraph> {
    if o.tag == Equal && o.i1 <= o.i2 <= |a| then a[o.i1..o.i2] else []
  }

  /** What the matcher promises: the operations cover both texts without gaps, in order. */
  ghost predicate Tiles(ops: seq<Op>, a: seq<Paragraph>, b: seq<Paragraph>, i: nat, j: nat) {
    if ops == [] then i == 0 && j == 0
    else
      var o := ops[|ops| - 1];
      OpOk(o, a, b) && o.i2 == i && o.j2 == j && Tiles(ops[..|ops| - 1], a, b, o.i1, o.j1)
  }

  function Befores(changed: seq<(Paragraph, Paragraph)>): (s: seq<Paragraph>)
    ensures |s| == |changed|
  {
    seq(|changed|, i requires 0 <= i < |changed| => changed[i].0)
  }

  function Afters(changed: seq<(Paragraph, Paragraph)>): (s: seq<Paragraph>)
    ensures |s| == |changed|
  {
    seq(|changed|, i requires 0 <= i < |changed| => changed[i].1)
  }

  function Zip(a: seq<Paragraph>, b: seq<Paragraph>): (s: seq<(Paragraph, Paragraph)>)
    requires |a| == |b|
    ensures |s| == |a|
  {
    seq(|a|, i requires 0 <= i < |a| => (a[i], b[i]))
  }

  /** The paragraphs of the equal stretches. */
  ghost function Unchanged(ops: seq<Op>, a: seq<Paragraph>): seq<Paragraph> {
    if ops == [] then [] else Unchanged(ops[..|ops| - 1], a) + Same(ops[|ops| - 1], a)
  }

  ghost predicate Subsequence(s: seq<Paragraph>, t: seq<Paragraph>) {
    s == [] || (t != []
                && (Subsequence(s, t[..|t| - 1])
                    || (s[|s| - 1] == t[|t| - 1] && Subsequence(s[..|s| - 1], t[..|t| - 1]))))
  }

  lemma {:induction false} SubsequenceSelf(s: seq<Paragraph>)
    ensures Subsequence(s, s)
  {
    if s != [] { SubsequenceSelf(s[..|s| - 1]); }
  }

  lemma {:induction false} SubsequenceMore(s: seq<Paragraph>, t: seq<Paragraph>, u: seq<Paragraph>)
    requires Subsequence(s, t)
    ensures Subsequence(s, t + u)
  {
    if u == [] {
      assert t + u == t;
    } else {
      SubsequenceMore(s, t, u[..|u| - 1]);
      assert (t + u)[..|t + u| - 1] == t + u[..|u| - 1];
    }
  }

  lemma {:induction false} SubsequenceJoin(s: seq<Paragraph>, t: seq<Paragraph>, u: seq<Paragraph>, v: seq<Paragraph>)
    requires Subsequence(s, t) && Subsequence(u, v)
    ensures Subsequence(s + u, t + v)
  {
    if u == [] {
      assert s + u == s;
      SubsequenceMore(s, t, v);
    } else {
      var n := |v| - 1;
      assert (t + v)[..|t + v| - 1] == t + v[..n];
      if Subsequence(u, v[..n]) {
        SubsequenceJoin(s, t, u, v[..n]);
      } else {
        SubsequenceJoin(s, t, u[..|u| - 1], v[..n]);
        assert (s + u)[..|s + u| - 1] == s + u[..|u| - 1];
      }
    }
  }

  /** Nothing gained, nothing lost: every paragraph of either text is accounted for once. */
  ghost predicate Conserves(d: Diff, same: seq<Paragraph>, a: seq<Paragraph>, b: seq<Paragraph>) {
    && multiset(a) == multiset(same) + multiset(d.removed) + multiset(Befores(d.changed))
    && multiset(b) == multiset(same) + multiset(d.added) + multiset(Afters(d.changed))
  }

  ghost predicate InOrder(d: Diff, a: seq<Paragraph>, b: seq<Paragraph>) {
    && Subsequence(d.removed, a) && Subsequence(Befores(d.changed), a)
    && Subsequence(d.added, b) && Subsequence(Afters(d.changed), b)
  }

  /** What one operation adds to the diff. */
  function Piece(o: Op, a: seq<Paragraph>, b: seq<Paragraph>): Diff
    requires o.i1 <= o.i2 <= |a| && o.j1 <= o.j2 <= |b|
  {
    match o.tag
    case Equal => Diff([], [], [])
    case Insert => Diff(b[o.j1..o.j2], [], [])
    case Delete => Diff([], a[o.i1..o.i2], [])
    case Replace =>
      var common := Min(o.i2 - o.i1, o.j2 - o.j1);
      Diff(b[o.j1 + common..o.j2], a[o.i1 + common..o.i2], Zip(a[o.i1..o.i1 + common], b[o.j1..o.j1 + common]))
  }

  lemma {:induction false} SplitMultiset(s: seq<Paragraph>, i: nat, j: nat, k: nat)
    requires i <= j <= k <= |s|
    ensures multiset(s[i..k]) == multiset(s[i..j]) + multiset(s[j..k])
  {
    assert s[i..k] == s[i..j] + s[j..k];
  }

  lemma {:induction false} SubsequenceOfPart(s: seq<Paragraph>, i: nat, k: nat, p: nat, q: nat)
    requires i <= p <= q <= k <= |s|
    ensures Subsequence(s[p..q], s[i..k])
  {
    hide Subsequence;
    SubsequenceAfter(s[p..q], s[i..p]);
    assert s[i..p] + s[p..q] == s[i..q];
    SubsequenceMore(s[p..q], s[i..q], s[q..k]);
    assert s[i..q] + s[q..k] == s[i..k];
  }

  lemma {:induction false} SubsequenceAfter(s: seq<Paragraph>, t: seq<Paragraph>)
    ensures Subsequence(s, t + s)
  {
    SubsequenceSelf(s);
    assert Subsequence([], t);
    hide Subsequence;
    SubsequenceJoin([], t, s, s);
    assert [] + s == s;
  }

  lemma {:induction false} ZipSides(a: seq<Paragraph>, b: seq<Paragraph>)
    requires |a| == |b|
    ensures Befores(Zip(a, b)) == a && Afters(Zip(a, b)) == b
  {
  }

  /** A stretch cut after `c` paragraphs: nothing unchanged, the rest, and the first `c`. */
  lemma {:induction false} CutBalance(s: seq<Paragraph>, e: seq<Paragraph>, i: nat, c: nat, k: nat)
    requires e == [] && i + c <= k <= |s|
    ensures multiset(s[i..k]) == multiset(e) + multiset(s[i + c..k]) + multiset(s[i..i + c])
  {
    SplitMultiset(s, i, i + c, k);
  }

  lemma {:induction false} BalancedConserves(d: Diff, e: seq<Paragraph>, x: seq<Paragraph>, y: seq<Paragraph>,
                                             a: seq<Paragraph>, b: seq<Paragraph>)
    requires x == Befores(d.changed) && y == Afters(d.changed)
    requires multiset(a) == multiset(e) + multiset(d.removed) + multiset(x)
    requires multiset(b) == multiset(e) + multiset(d.added) + multiset(y)
    ensures Conserves(d, e, a, b)
  {
    hide Befores, Afters;
  }

  lemma {:induction false} CutConserves(a: seq<Paragraph>, b: seq<Paragraph>, i: nat, k: nat, j: nat, l: nat, c: nat)
    requires i + c <= k <= |a| && j + c <= l <= |b|
    ensures Conserves(Diff(b[j + c..l], a[i + c..k], Zip(a[i..i + c], b[j..j + c])), [], a[i..k], b[j..l])
  {
    hide Conserves, Befores, Afters, Zip;
    ZipSides(a[i..i + c], b[j..j + c]);
    CutBalance(a, [], i, c, k);
    CutBalance(b, [], j, c, l);
    BalancedConserves(Diff(b[j + c..l], a[i + c..k], Zip(a[i..i + c], b[j..j + c])), [], a[i..i + c], b[j..j + c],
                      a[i..k], b[j..l]);
  }

  lemma {:induction false} ReplaceConserves(o: Op, a: seq<Paragraph>, b: seq<Paragraph>)
    requires OpOk(o, a, b) && o.tag == Replace
    ensures Conserves(Piece(o, a, b), [], a[o.i1..o.i2], b[o.j1..o.j2])
  {
    hide Conserves, Zip;
    CutConserves(a, b, o.i1, o.i2, o.j1, o.j2, Min(o.i2 - o.i1, o.j2 - o.j1));
  }

  lemma {:induction false} ReplaceInOrder(o: Op, a: seq<Paragraph>, b: seq<Paragraph>)
    requires OpOk(o, a, b) && o.tag == Replace
    ensures InOrder(Piece(o, a, b), a[o.i1..o.i2], b[o.j1..o.j2])
  {
    hide Subsequence, Befores, Afters, Zip;
    var common := Min(o.i2 - o.i1, o.j2 - o.j1);
    ZipSides(a[o.i1..o.i1 + common], b[o.j1..o.j1 + common]);
    SubsequenceOfPart(a, o.i1, o.i2, o.i1 + common, o.i2);
    SubsequenceOfPart(a, o.i1, o.i2, o.i1, o.i1 + common);
    SubsequenceOfPart(b, o.j1, o.j2, o.j1 + common, o.j2);
    SubsequenceOfPart(b, o.j1, o.j2, o.j1, o.j1 + common);
  }

  /** One operation conserves its own stretch of the two texts, in order. */
  lemma {:induction false} PieceOk(o: Op, a: seq<Paragraph>, b: seq<Paragraph>)
    requires OpOk(o, a, b)
    ensures Conserves(Piece(o, a, b), Same(o, a), a[o.i1..o.i2], b[o.j1..o.j2])
    ensures InOrder(Piece(o, a, b), a[o.i1..o.i2], b[o.j1..o.j2])
    ensures Piece(o, a, b) == Diff([], [], []) ==> a[o.i1..o.i2] == b[o.j1..o.j2]
  {
    hide Min, Zip;
    match o.tag
    case Equal =>
    case Insert => SubsequenceSelf(b[o.j1..o.j2]);
    case Delete => SubsequenceSelf(a[o.i1..o.i2]);
    case Replace =>
      ReplaceNotEmpty(o, a, b);
      hide Conserves, InOrder, Piece;
      ReplaceConserves(o, a, b);
      ReplaceInOrder(o, a, b);
  }

  lemma {:induction false} ReplaceNotEmpty(o: Op, a: seq<Paragraph>, b: seq<Paragraph>)
    requires OpOk(o, a, b) && o.tag == Replace
    ensures Piece(o, a, b) != Diff([], [], [])
  {
    assert |Piece(o, a, b).changed| > 0;
  }

  function Join(d: Diff, e: Diff): Diff {
    Diff(d.added + e.added, d.removed + e.removed, d.changed + e.changed)
  }

  lemma {:induction false} JoinBalance(a: seq<Paragraph>, u: seq<Paragraph>, x: seq<Paragraph>, y: seq<Paragraph>,
                                       a': seq<Paragraph>, u': seq<Paragraph>, x': seq<Paragraph>, y': seq<Paragraph>)
    requires multiset(a) == multiset(u) + multiset(x) + multiset(y)
    requires multiset(a') == multiset(u') + multiset(x') + multiset(y')
    ensures multiset(a + a') == multiset(u + u') + multiset(x + x') + multiset(y + y')
  {
  }

  lemma {:induction false} ChangedJoin(c: seq<(Paragraph, Paragraph)>, e: seq<(Paragraph, Paragraph)>)
    ensures Befores(c + e) == Befores(c) + Befores(e) && Afters(c + e) == Afters(c) + Afters(e)
  {
  }

  lemma {:induction false} JoinConserves(d: Diff, e: Diff, u: seq<Paragraph>, v: seq<Paragraph>,
                                         a: seq<Paragraph>, b: seq<Paragraph>, a': seq<Paragraph>, b': seq<Paragraph>)
    requires Conserves(d, u, a, b) && Conserves(e, v, a', b')
    ensures Conserves(Join(d, e), u + v, a + a', b + b')
  {
    hide Befores, Afters;
    ChangedJoin(d.changed, e.changed);
    JoinBalance(a, u, d.removed, Befores(d.changed), a', v, e.removed, Befores(e.changed));
    JoinBalance(b, u, d.added, Afters(d.changed), b', v, e.added, Afters(e.changed));
  }

  lemma {:induction false} JoinInOrder(d: Diff, e: Diff, a: seq<Paragraph>, b: seq<Paragraph>, a': seq<Paragraph>,
                                       b': seq<Paragraph>)
    requires InOrder(d, a, b) && InOrder(e, a', b')
    ensures InOrder(Join(d, e), a + a', b + b')
  {
    hide Befores, Afters, Subsequence;
    ChangedJoin(d.changed, e.changed);
    SubsequenceJoin(d.removed, a, e.removed, a');
    SubsequenceJoin(Befores(d.changed), a, Befores(e.changed), a');
    SubsequenceJoin(d.added, b, e.added, b');
    SubsequenceJoin(Afters(d.changed), b, Afters(e.changed), b');
  }

  lemma {:induction false} JoinEmpty(d: Diff, e: Diff)
    requires Join(d, e) == Diff([], [], [])
    ensures d == Diff([], [], []) && e == Diff([], [], [])
  {
  }

  /** The diff after the first `n` operations, which reach `i` in the old text and `j` in the new one. */
  ghost predicate DiffSoFar(d: Diff, ops: seq<Op>, n: nat, a: seq<Paragraph>, b: seq<Paragraph>, i: nat, j: nat) {
    && n <= |ops| && i <= |a| && j <= |b|
    && Conserves(d, Unchanged(ops[..n], a), a[..i], b[..j])
    && InOrder(d, a[..i], b[..j])
    && (d == Diff([], [], []) ==> a[..i] == b[..j])
  }

  lemma {:induction false} OpBounds(o: Op, a: seq<Paragraph>, b: seq<Paragraph>)
    requires OpOk(o, a, b)
    ensures o.i1 <= o.i2 <= |a| && o.j1 <= o.j2 <= |b|
  {
  }

  lemma {:induction false} PrefixGrows(s: seq<Paragraph>, i: nat, k: nat)
    requires i <= k <= |s|
    ensures s[..k] == s[..i] + s[i..k]
  {
  }

  lemma {:induction false} UnchangedNext(ops: seq<Op>, n: nat, a: seq<Paragraph>)
    requires n < |ops|
    ensures Unchanged(ops[..n + 1], a) == Unchanged(ops[..n], a) + Same(ops[n], a)
  {
    assert ops[..n + 1][..n] == ops[..n];
  }

  lemma {:induction false} NextOp(d: Diff, ops: seq<Op>, n: nat, a: seq<Paragraph>, b: seq<Paragraph>)
    requires n < |ops| && OpOk(ops[n], a, b) && DiffSoFar(d, ops, n, a, b, ops[n].i1, ops[n].j1)
    ensures DiffSoFar(Join(d, Piece(ops[n], a, b)), ops, n + 1, a, b, ops[n].i2, ops[n].j2)
  {
    var o := ops[n];
    hide Conserves, InOrder, Piece, Same, Join, Unchanged, OpOk;
    OpBounds(o, a, b);
    PieceOk(o, a, b);
    UnchangedNext(ops, n, a);
    PrefixGrows(a, o.i1, o.i2);
    PrefixGrows(b, o.j1, o.j2);
    JoinConserves(d, Piece(o, a, b), Unchanged(ops[..n], a), Same(o, a), a[..o.i1], b[..o.j1], a[o.i1..o.i2],
                  b[o.j1..o.j2]);
    JoinInOrder(d, Piece(o, a, b), a[..o.i1], b[..o.j1], a[o.i1..o.i2], b[o.j1..o.j2]);
    if Join(d, Piece(o, a, b)) == Diff([], [], []) { JoinEmpty(d, Piece(o, a, b)); }
  }

  /** Where operation `n` starts, or the ends of the texts. */
  ghost function OldStart(ops: seq<Op>, n: nat, a: seq<Paragraph>): nat {
    if n < |ops| then ops[n].i1 else |a|
  }

  ghost function NewStart(ops: seq<Op>, n: nat, b: seq<Paragraph>): nat {
    if n < |ops| then ops[n].j1 else |b|
  }

  // ---------- what counts as changed ----------

  /** As many pairs as the shorter side of each replacement has paragraphs. */
  ghost function Paired(ops: seq<Op>): int {
    if ops == [] then 0
    else
      var o := ops[|ops| - 1];
      Paired(ops[..|ops| - 1])
      + if o.tag != Replace then 0 else if o.i2 - o.i1 <= o.j2 - o.j1 then o.i2 - o.i1 else o.j2 - o.j1
  }

  /** The `k`-th paragraphs of both sides of a replacement. */
  ghost predicate PairAt(ops: seq<Op>, m: nat, k: nat, a: seq<Paragraph>, b: seq<Paragraph>,
                         c: (Paragraph, Paragraph)) {
    && m < |ops| && ops[m].tag == Replace && ops[m].i2 <= |a| && ops[m].j2 <= |b|
    && ops[m].i1 + k < ops[m].i2 && ops[m].j1 + k < ops[m].j2
    && c == (a[ops[m].i1 + k], b[ops[m].j1 + k])
  }

  ghost predicate PairsUpTo(changed: seq<(Paragraph, Paragraph)>, ops: seq<Op>, n: nat, a: seq<Paragraph>,
                            b: seq<Paragraph>) {
    && n <= |ops| && |changed| == Paired(ops[..n])
    && forall c :: c in changed <==> exists m: nat, k: nat :: m < n && PairAt(ops, m, k, a, b, c)
  }

  lemma {:induction false} PairedNext(ops: seq<Op>, n: nat)
    requires n < |ops|
    ensures var o := ops[n];
            Paired(ops[..n + 1]) == Paired(ops[..n])
              + if o.tag != Replace then 0 else if o.i2 - o.i1 <= o.j2 - o.j1 then o.i2 - o.i1 else o.j2 - o.j1
  {
    assert ops[..n + 1][..n] == ops[..n];
  }

  lemma {:induction false} PairsOfPiece(ops: seq<Op>, n: nat, a: seq<Paragraph>, b: seq<Paragraph>,
                                        c: (Paragraph, Paragraph))
    requires n < |ops| && OpOk(ops[n], a, b)
    ensures c in Piece(ops[n], a, b).changed <==> exists k: nat :: PairAt(ops, n, k, a, b, c)
  {
    var o, p := ops[n], Piece(ops[n], a, b).changed;
    if c in p {
      var k: nat :| k < |p| && p[k] == c;
      assert PairAt(ops, n, k, a, b, c);
    }
    if k: nat :| PairAt(ops, n, k, a, b, c) { assert p[k] == c; }
  }

  lemma {:induction false} NextPairs(changed: seq<(Paragraph, Paragraph)>, ops: seq<Op>, n: nat, a: seq<Paragraph>,
                                     b: seq<Paragraph>)
    requires n < |ops| && OpOk(ops[n], a, b) && PairsUpTo(changed, ops, n, a, b)
    ensures PairsUpTo(changed + Piece(ops[n], a, b).changed, ops, n + 1, a, b)
  {
    PairedNext(ops, n);
    var piece := Piece(ops[n], a, b).changed;
    assert |changed + piece| == Paired(ops[..n + 1]);
    forall c ensures c in piece <==> exists k: nat :: PairAt(ops, n, k, a, b, c) { PairsOfPiece(ops, n, a, b, c); }
    hide PairAt, Piece, OpOk, Paired;
    forall c ensures c in changed + piece <==> exists m: nat, k: nat :: m < n + 1 && PairAt(ops, m, k, a, b, c) {
      if c in piece {
        var k: nat :| PairAt(ops, n, k, a, b, c);
        assert n < n + 1 && PairAt(ops, n, k, a, b, c);
      }
    }
  }

  /** For any operations that tile the two texts, the diff conserves the paragraphs of both and lists
      them in the order of the texts; a diff without entries means equal texts. */
  method DiffParagraphs(a: seq<Paragraph>, b: seq<Paragraph>, ops: seq<Op>) returns (d: Diff)
    requires Tiles(ops, a, b, |a|, |b|)
    ensures Conserves(d, Unchanged(ops, a), a, b) && InOrder(d, a, b)
    ensures d == Diff([], [], []) ==> a == b
    ensures |d.changed| == Paired(ops)
    ensures forall c :: c in d.changed <==> exists m: nat, k: nat :: PairAt(ops, m, k, a, b, c)
  {
    hide Tiles, Conserves, InOrder, Unchanged, OpOk, DiffSoFar, PairAt, Paired, PairsUpTo;
    var added: seq<Paragraph>, removed: seq<Paragraph>, changed: seq<(Paragraph, Paragraph)> := [], [], [];
    TilesPrefix(ops, a, b, 0);
    NothingYet(ops, a, b);
    NoPairsYet(ops, a, b);
    for n := 0 to |ops|
      invariant DiffSoFar(Diff(added, removed, changed), ops, n, a, b, OldStart(ops, n, a), NewStart(ops, n, b))
      invariant PairsUpTo(changed, ops, n, a, b)
    {
      var o := ops[n];
      ghost var before := Diff(added, removed, changed);
      TilesPrefix(ops, a, b, n);
      OpBounds(o, a, b);
      match o.tag {
        case Equal =>
        case Insert => added := added + b[o.j1..o.j2];
        case Delete => removed := removed + a[o.i1..o.i2];
        case Replace =>
          var common := Min(o.i2 - o.i1, o.j2 - o.j1);
          changed := changed + Zip(a[o.i1..o.i1 + common], b[o.j1..o.j1 + common]);
          removed := removed + a[o.i1 + common..o.i2];
          added := added + b[o.j1 + common..o.j2];
      }
      assert Diff(added, removed, changed) == Join(before, Piece(o, a, b));
      NextOp(before, ops, n, a, b);
      NextPairs(before.changed, ops, n, a, b);
    }
    AllPairs(changed, ops, a, b);
    d := Diff(added, removed, changed);
    AllDone(d, ops, a, b);
  }

  lemma {:induction false} NoPairsYet(ops: seq<Op>, a: seq<Paragraph>, b: seq<Paragraph>)
    ensures PairsUpTo([], ops, 0, a, b)
  {
  }

  lemma {:induction false} AllPairs(changed: seq<(Paragraph, Paragraph)>, ops: seq<Op>, a: seq<Paragraph>,
                                    b: seq<Paragraph>)
    requires PairsUpTo(changed, ops, |ops|, a, b)
    ensures |changed| == Paired(ops)
    ensures forall c :: c in changed <==> exists m: nat, k: nat :: PairAt(ops, m, k, a, b, c)
  {
    assert ops[..|ops|] == ops;
    forall c, m: nat, k: nat | PairAt(ops, m, k, a, b, c) ensures m < |ops| {}
    hide PairAt;
  }

  lemma {:induction false} AllDone(d: Diff, ops: seq<Op>, a: seq<Paragraph>, b: seq<Paragraph>)
    requires DiffSoFar(d, ops, |ops|, a, b, |a|, |b|)
    ensures Conserves(d, Unchanged(ops, a), a, b) && InOrder(d, a, b) && (d == Diff([], [], []) ==> a == b)
  {
    hide Conserves, InOrder;
    assert ops[..|ops|] == ops && a[..|a|] == a && b[..|b|] == b;
  }

  lemma {:induction false} NothingYet(ops: seq<Op>, a: seq<Paragraph>, b: seq<Paragraph>)
    requires Tiles(ops, a, b, |a|, |b|)
    ensures OldStart(ops, 0, a) == 0 && NewStart(ops, 0, b) == 0
    ensures DiffSoFar(Diff([], [], []), ops, 0, a, b, 0, 0)
  {
    TilesPrefix(ops, a, b, 0);
  }

  /** The first `n` operations tile the texts up to where the next one starts, and that one ends where
      its successor starts. */
  lemma {:induction false} TilesPrefix(ops: seq<Op>, a: seq<Paragraph>, b: seq<Paragraph>, n: nat)
    requires Tiles(ops, a, b, |a|, |b|) && n <= |ops|
    ensures Tiles(ops[..n], a, b, OldStart(ops, n, a), NewStart(ops, n, b))
    ensures n < |ops|
            ==> OpOk(ops[n], a, b) && ops[n].i2 == OldStart(ops, n + 1, a) && ops[n].j2 == NewStart(ops, n + 1, b)
    decreases |ops| - n
  {
    if n == |ops| {
      assert ops[..n] == ops;
    } else {
      TilesPrefix(ops, a, b, n + 1);
      assert ops[..n + 1][..n] == ops[..n] && ops[..n + 1][n] == ops[n];
    }
  }
}
