/**
 * The search the arrangement engine performs, stated without its loops,
 * over any scoring of voicings. Each position of the melody admits some
 * voicings, each with a voicing score; moving from one voicing to the
 * next adds a transition score. A chain picks one admitted voicing per
 * position from the first on; its score adds up the voicing and the
 * transition scores, and it survives the pruning only while every running
 * total from the second position on stays at or above the floor of -100.
 *
 * The engine keeps one layer per position: the best score of every
 * voicing reachable there, and its backpointers. `LayerSpec` says what
 * one layer holds; `ChainBounded` and `BestChainOf` show that the stored
 * best of a voicing is the best score of a surviving chain ending in it,
 * and `TightChainIsOptimal` that following best backpointers from a best
 * final voicing yields an optimal surviving chain.
 */
module Trellis {
  import opened Notes

  /** Four notes: tenor, lead, baritone and bass. */
  type Voicing = v: seq<Note> | |v| == 4 witness [Note(0, 0), Note(0, 0), Note(0, 0), Note(0, 0)]

  /** The scoring the engine searches: which voicings each position
      admits, their voicing scores and the transition scores. */
  datatype Problem = Problem(
    admitted: (nat, Voicing) -> bool,
    lex: (nat, Voicing) -> int,
    trans: (Voicing, Voicing) -> int)

  /** Edges and later positions are kept only at or above this total. */
  const Floor: int := -100

  /** A backpointer: the null of the first position, or the previous item
      and the total score through it. */
  datatype Backpointer = Lexical | Edge(previousItem: Voicing, score: int)

  /** The total of reaching `v` at `pos` from the stored best of `u`. */
  function Total(p: Problem, pos: nat, prevBest: map<Voicing, int>, u: Voicing, v: Voicing): int
    requires u in prevBest
  {
    p.lex(pos, v) + p.trans(u, v) + prevBest[u]
  }

  /** `v` enters the layer: it is admitted, and at later positions some
      stored predecessor reaches it at or above the floor. */
  predicate Entered(p: Problem, pos: nat, prevBest: map<Voicing, int>, v: Voicing) {
    p.admitted(pos, v) &&
    (pos == 0 || exists u :: u in prevBest && Total(p, pos, prevBest, u, v) >= Floor)
  }

  /** The stored best: the voicing score at position 0, later the largest
      total over the predecessors that clear the floor. */
  predicate BestOf(p: Problem, pos: nat, prevBest: map<Voicing, int>, v: Voicing, best: int) {
    if pos == 0 then best == p.lex(0, v)
    else
      Floor <= best &&
      (exists u :: u in prevBest && Total(p, pos, prevBest, u, v) == best) &&
      (forall u :: u in prevBest && Total(p, pos, prevBest, u, v) >= Floor ==> Total(p, pos, prevBest, u, v) <= best)
  }

  /** The backpointers: one null at position 0; later one edge for every
      predecessor that clears the floor, carrying its total, and no other. */
  predicate ColumnOf(p: Problem, pos: nat, prevBest: map<Voicing, int>, v: Voicing, edges: seq<Backpointer>) {
    if pos == 0 then edges == [Lexical]
    else
      0 < |edges| &&
      (forall e :: e in edges ==>
         e.Edge? && e.previousItem in prevBest && e.score == Total(p, pos, prevBest, e.previousItem, v) &&
         e.score >= Floor) &&
      (forall u :: u in prevBest && Total(p, pos, prevBest, u, v) >= Floor ==>
         Edge(u, Total(p, pos, prevBest, u, v)) in edges)
  }

  /** The cell of a stored voicing: its best and its backpointers. */
  predicate CellOk(p: Problem, pos: nat, prevBest: map<Voicing, int>, v: Voicing,
                   best: map<Voicing, int>, col: map<Voicing, seq<Backpointer>>) {
    v in best && v in col && BestOf(p, pos, prevBest, v, best[v]) && ColumnOf(p, pos, prevBest, v, col[v])
  }

  /** A layer built from the voicings in `considered`: exactly the entered
      ones are stored, each with its cell. */
  predicate LayerOn(p: Problem, pos: nat, prevBest: map<Voicing, int>, considered: set<Voicing>,
                    best: map<Voicing, int>, col: map<Voicing, seq<Backpointer>>) {
    (forall v :: v in best ==> v in considered && Entered(p, pos, prevBest, v)) &&
    (forall v :: v in considered && Entered(p, pos, prevBest, v) ==> v in best) &&
    (forall v :: v in col ==> v in best) &&
    (forall v :: v in best ==> CellOk(p, pos, prevBest, v, best, col))
  }

  /** The complete layer of a position: every entered voicing is stored. */
  ghost predicate LayerSpec(p: Problem, pos: nat, prevBest: map<Voicing, int>,
                            best: map<Voicing, int>, col: map<Voicing, seq<Backpointer>>) {
    (forall v :: v in best ==> Entered(p, pos, prevBest, v)) &&
    (forall v :: Entered(p, pos, prevBest, v) ==> v in best) &&
    (forall v :: v in col ==> v in best) &&
    (forall v :: v in best ==> CellOk(p, pos, prevBest, v, best, col))
  }

  /** A layer built from a set holding every admitted voicing is complete. */
  lemma LayerOnAll(p: Problem, pos: nat, prevBest: map<Voicing, int>, considered: set<Voicing>,
                   best: map<Voicing, int>, col: map<Voicing, seq<Backpointer>>)
    requires LayerOn(p, pos, prevBest, considered, best, col)
    requires forall v :: p.admitted(pos, v) ==> v in considered
    ensures LayerSpec(p, pos, prevBest, best, col)
  {
  }

  /** Storing a voicing not considered before, with its complete cell
      exactly when it enters, extends the layer by that voicing. */
  lemma LayerOnInsert(p: Problem, pos: nat, prevBest: map<Voicing, int>, considered: set<Voicing>,
                      best0: map<Voicing, int>, col0: map<Voicing, seq<Backpointer>>, v: Voicing,
                      best: map<Voicing, int>, col: map<Voicing, seq<Backpointer>>)
    requires LayerOn(p, pos, prevBest, considered, best0, col0) && v !in considered
    requires Entered(p, pos, prevBest, v) <==> v in best
    requires v in best ==> CellOk(p, pos, prevBest, v, best, col) &&
                           best == best0[v := best[v]] && col == col0[v := col[v]]
    requires v !in best ==> best == best0 && col == col0
    ensures LayerOn(p, pos, prevBest, considered + {v}, best, col)
  {
  }

  /** Voicings that are not admitted can be considered without storing them. */
  lemma LayerOnSkip(p: Problem, pos: nat, prevBest: map<Voicing, int>, considered: set<Voicing>,
                    skipped: set<Voicing>, best: map<Voicing, int>, col: map<Voicing, seq<Backpointer>>)
    requires LayerOn(p, pos, prevBest, considered, best, col)
    requires forall v :: v in skipped ==> !p.admitted(pos, v)
    ensures LayerOn(p, pos, prevBest, considered + skipped, best, col)
  {
  }

  /** The layer a position builds on: none before the first. */
  function PrevLayer(bests: seq<map<Voicing, int>>, pos: nat): map<Voicing, int>
    requires pos <= |bests|
  {
    if pos == 0 then map[] else bests[pos - 1]
  }

  /** Layer `pos` of the list is complete, built on the one before it. */
  ghost predicate LayerAt(p: Problem, bests: seq<map<Voicing, int>>, cols: seq<map<Voicing, seq<Backpointer>>>, pos: nat)
    requires pos < |bests| == |cols|
  {
    LayerSpec(p, pos, PrevLayer(bests, pos), bests[pos], cols[pos])
  }

  /** The layers of the first |bests| positions. */
  ghost predicate Layers(p: Problem, bests: seq<map<Voicing, int>>, cols: seq<map<Voicing, seq<Backpointer>>>) {
    |bests| == |cols| &&
    forall pos: nat :: pos < |bests| ==> LayerAt(p, bests, cols, pos)
  }

  lemma LayersSnoc(p: Problem, bests: seq<map<Voicing, int>>, cols: seq<map<Voicing, seq<Backpointer>>>,
                   best: map<Voicing, int>, col: map<Voicing, seq<Backpointer>>)
    requires Layers(p, bests, cols)
    requires LayerSpec(p, |bests|, PrevLayer(bests, |bests|), best, col)
    ensures Layers(p, bests + [best], cols + [col])
  {
    var bs, cs := bests + [best], cols + [col];
    forall pos: nat | pos < |bs|
      ensures LayerAt(p, bs, cs, pos)
    {
      assert PrevLayer(bs, pos) == PrevLayer(bests, pos);
      if pos < |bests| {
        assert LayerAt(p, bests, cols, pos);
      }
    }
  }

  // ---------------------------------------------------------------------
  // Chains

  /** The score of a chain: the voicing scores plus the transition scores. */
  function ChainScore(p: Problem, c: seq<Voicing>): int
    requires 0 < |c|
    decreases |c|
  {
    var last := |c| - 1;
    if last == 0 then p.lex(0, c[0])
    else ChainScore(p, c[..last]) + p.lex(last, c[last]) + p.trans(c[last - 1], c[last])
  }

  /** A chain that survives the pruning: an admitted voicing at every
      position, and every running total from the second position on at or
      above the floor. */
  predicate ValidChain(p: Problem, c: seq<Voicing>) {
    0 < |c| &&
    (forall i :: 0 <= i < |c| ==> p.admitted(i, c[i])) &&
    forall k :: 2 <= k <= |c| ==> ChainScore(p, c[..k]) >= Floor
  }

  lemma ValidPrefix(p: Problem, c: seq<Voicing>, k: int)
    requires ValidChain(p, c) && 0 < k <= |c|
    ensures ValidChain(p, c[..k])
  {
    var d := c[..k];
    forall j | 2 <= j <= k
      ensures ChainScore(p, d[..j]) >= Floor
    {
      assert d[..j] == c[..j];
    }
  }

  lemma ExtendValid(p: Problem, d: seq<Voicing>, v: Voicing, score: int)
    requires ValidChain(p, d) && p.admitted(|d|, v)
    requires score == ChainScore(p, d) + p.lex(|d|, v) + p.trans(d[|d| - 1], v)
    requires score >= Floor
    ensures ValidChain(p, d + [v]) && ChainScore(p, d + [v]) == score
  {
    var c := d + [v];
    assert c[..|d|] == d;
    forall j | 2 <= j <= |c|
      ensures ChainScore(p, c[..j]) >= Floor
    {
      if j <= |d| {
        assert c[..j] == d[..j];
      } else {
        assert c[..j] == c;
      }
    }
  }

  /** Every surviving chain of length pos + 1 ends in a voicing stored at
      position pos, and its score is at most that voicing's stored best. */
  lemma {:induction false} ChainBounded(p: Problem, bests: seq<map<Voicing, int>>,
                                        cols: seq<map<Voicing, seq<Backpointer>>>, c: seq<Voicing>)
    requires Layers(p, bests, cols)
    requires ValidChain(p, c) && |c| <= |bests|
    ensures c[|c| - 1] in bests[|c| - 1]
    ensures ChainScore(p, c) <= bests[|c| - 1][c[|c| - 1]]
    decreases |c|
  {
    var pos := |c| - 1;
    var v := c[pos];
    assert LayerAt(p, bests, cols, pos);
    if pos == 0 {
      assert Entered(p, 0, map[], v);
      assert CellOk(p, 0, map[], v, bests[0], cols[0]);
    } else {
      var prefix := c[..pos];
      ValidPrefix(p, c, pos);
      ChainBounded(p, bests, cols, prefix);
      var u := c[pos - 1];
      assert prefix[pos - 1] == u;
      var prev := bests[pos - 1];
      assert PrevLayer(bests, pos) == prev;
      assert c[..pos + 1] == c;
      assert ChainScore(p, c) == ChainScore(p, prefix) + p.lex(pos, v) + p.trans(u, v);
      assert ChainScore(p, c) <= Total(p, pos, prev, u, v);
      assert Entered(p, pos, prev, v);
      assert CellOk(p, pos, prev, v, bests[pos], cols[pos]);
    }
  }

  /** A voicing stored after the first position has a stored predecessor
      that attains its best. */
  lemma BestPredecessor(p: Problem, bests: seq<map<Voicing, int>>,
                        cols: seq<map<Voicing, seq<Backpointer>>>, pos: nat, v: Voicing)
    returns (u: Voicing)
    requires Layers(p, bests, cols)
    requires 0 < pos < |bests| && v in bests[pos]
    ensures p.admitted(pos, v) && bests[pos][v] >= Floor
    ensures u in bests[pos - 1] && Total(p, pos, bests[pos - 1], u, v) == bests[pos][v]
  {
    assert LayerAt(p, bests, cols, pos);
    assert PrevLayer(bests, pos) == bests[pos - 1];
    assert CellOk(p, pos, bests[pos - 1], v, bests[pos], cols[pos]);
    u :| u in bests[pos - 1] && Total(p, pos, bests[pos - 1], u, v) == bests[pos][v];
  }

  /** Every stored voicing is the end of a surviving chain whose score is
      its stored best. */
  lemma {:induction false} BestChainOf(p: Problem, bests: seq<map<Voicing, int>>,
                                       cols: seq<map<Voicing, seq<Backpointer>>>, pos: nat, v: Voicing)
    returns (c: seq<Voicing>)
    requires Layers(p, bests, cols)
    requires pos < |bests| && v in bests[pos]
    ensures |c| == pos + 1 && c[pos] == v
    ensures ValidChain(p, c) && ChainScore(p, c) == bests[pos][v]
    decreases pos
  {
    if pos == 0 {
      assert LayerAt(p, bests, cols, 0);
      assert CellOk(p, 0, PrevLayer(bests, 0), v, bests[0], cols[0]);
      c := [v];
    } else {
      var u := BestPredecessor(p, bests, cols, pos, v);
      var d := BestChainOf(p, bests, cols, pos - 1, u);
      ExtendValid(p, d, v, bests[pos][v]);
      c := d + [v];
    }
  }

  /** The last layer is empty exactly when no chain over all positions
      survives the pruning. */
  lemma FrontierEmptyMeansNoChain(p: Problem, bests: seq<map<Voicing, int>>,
                                  cols: seq<map<Voicing, seq<Backpointer>>>)
    requires Layers(p, bests, cols) && 0 < |bests|
    ensures bests[|bests| - 1] == map[] <==> forall c :: ValidChain(p, c) ==> |c| != |bests|
  {
    var n := |bests|;
    if bests[n - 1] != map[] {
      var v :| v in bests[n - 1];
      var c := BestChainOf(p, bests, cols, n - 1, v);
    } else {
      forall c | ValidChain(p, c) && |c| == n
        ensures false
      {
        ChainBounded(p, bests, cols, c);
      }
    }
  }

  // ---------------------------------------------------------------------
  // Following backpointers

  /** `chain` occupies positions q .. q+|chain|-1 up to the last layer,
      every voicing is stored, and each step is tight: the stored best of a
      voicing is the stored best of its predecessor plus the voicing and
      transition scores. */
  predicate TightFrom(p: Problem, bests: seq<map<Voicing, int>>, q: nat, chain: seq<Voicing>) {
    0 < |chain| && q + |chain| == |bests| &&
    (forall k :: 0 <= k < |chain| ==> chain[k] in bests[q + k]) &&
    (forall k :: 0 <= k < |chain| - 1 ==>
       bests[q + k + 1][chain[k + 1]] ==
       bests[q + k][chain[k]] + p.lex(q + k + 1, chain[k + 1]) + p.trans(chain[k], chain[k + 1]))
  }

  /** A tight chain from the first position scores exactly the stored
      bests along it. */
  lemma {:induction false} TightPrefixScores(p: Problem, bests: seq<map<Voicing, int>>,
                                             cols: seq<map<Voicing, seq<Backpointer>>>, chain: seq<Voicing>, i: nat)
    requires Layers(p, bests, cols) && TightFrom(p, bests, 0, chain)
    requires i < |chain|
    ensures ChainScore(p, chain[..i + 1]) == bests[i][chain[i]]
    decreases i
  {
    var c := chain[..i + 1];
    if i == 0 {
      assert LayerAt(p, bests, cols, 0);
      assert CellOk(p, 0, PrevLayer(bests, 0), chain[0], bests[0], cols[0]);
    } else {
      TightPrefixScores(p, bests, cols, chain, i - 1);
      assert c[..i] == chain[..i];
      assert c[i] == chain[i] && c[i - 1] == chain[i - 1];
    }
  }

  /** Each voicing of a tight chain from the first position is admitted
      and each running total from the second position on clears the floor. */
  lemma TightStepOk(p: Problem, bests: seq<map<Voicing, int>>,
                    cols: seq<map<Voicing, seq<Backpointer>>>, chain: seq<Voicing>, i: nat)
    requires Layers(p, bests, cols) && TightFrom(p, bests, 0, chain)
    requires i < |chain|
    ensures p.admitted(i, chain[i])
    ensures 0 < i ==> ChainScore(p, chain[..i + 1]) >= Floor
  {
    assert LayerAt(p, bests, cols, i);
    assert CellOk(p, i, PrevLayer(bests, i), chain[i], bests[i], cols[i]);
    if 0 < i {
      TightPrefixScores(p, bests, cols, chain, i);
    }
  }

  lemma TightAllAdmitted(p: Problem, bests: seq<map<Voicing, int>>,
                          cols: seq<map<Voicing, seq<Backpointer>>>, chain: seq<Voicing>)
    requires Layers(p, bests, cols) && TightFrom(p, bests, 0, chain)
    ensures forall i :: 0 <= i < |chain| ==> p.admitted(i, chain[i])
  {
    forall i | 0 <= i < |chain|
      ensures p.admitted(i, chain[i])
    {
      TightStepOk(p, bests, cols, chain, i);
    }
  }

  lemma TightAllClear(p: Problem, bests: seq<map<Voicing, int>>,
                      cols: seq<map<Voicing, seq<Backpointer>>>, chain: seq<Voicing>)
    requires Layers(p, bests, cols) && TightFrom(p, bests, 0, chain)
    ensures forall k :: 2 <= k <= |chain| ==> ChainScore(p, chain[..k]) >= Floor
  {
    forall k | 2 <= k <= |chain|
      ensures ChainScore(p, chain[..k]) >= Floor
    {
      TightStepOk(p, bests, cols, chain, k - 1);
    }
  }

  /** A tight chain over all positions survives the pruning and scores its
      last voicing's stored best. */
  lemma TightChainIsValid(p: Problem, bests: seq<map<Voicing, int>>,
                          cols: seq<map<Voicing, seq<Backpointer>>>, chain: seq<Voicing>)
    requires Layers(p, bests, cols) && TightFrom(p, bests, 0, chain)
    ensures ValidChain(p, chain)
    ensures ChainScore(p, chain) == bests[|chain| - 1][chain[|chain| - 1]]
  {
    TightAllAdmitted(p, bests, cols, chain);
    TightAllClear(p, bests, cols, chain);
    TightPrefixScores(p, bests, cols, chain, |chain| - 1);
    assert chain[..|chain|] == chain;
  }

  /** `v` is stored in `m` with a score no other stored voicing exceeds. */
  predicate MaximalIn(m: map<Voicing, int>, v: Voicing) {
    v in m && forall u :: u in m ==> m[u] <= m[v]
  }

  /** A tight chain over all positions that ends in a best final voicing
      is optimal: it survives the pruning and no surviving chain over all
      positions scores more. */
  lemma TightChainIsOptimal(p: Problem, bests: seq<map<Voicing, int>>,
                            cols: seq<map<Voicing, seq<Backpointer>>>, chain: seq<Voicing>)
    requires Layers(p, bests, cols) && TightFrom(p, bests, 0, chain)
    requires MaximalIn(bests[|chain| - 1], chain[|chain| - 1])
    ensures ValidChain(p, chain) && |chain| == |bests|
    ensures forall c :: ValidChain(p, c) && |c| == |bests| ==> ChainScore(p, c) <= ChainScore(p, chain)
  {
    TightChainIsValid(p, bests, cols, chain);
    forall c | ValidChain(p, c) && |c| == |bests|
      ensures ChainScore(p, c) <= ChainScore(p, chain)
    {
      ChainBounded(p, bests, cols, c);
    }
  }
}
