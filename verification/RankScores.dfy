/** What the constant and the positions make of a fused order, in the terms of the two input lists. */
module RankScores {
  import opened Sorting
  import opened RankFusion

  /** `id` occurs in `list` first with this rank, counted from one. */
  predicate RankedAt(list: seq<Id>, id: Id, rank: nat) {
    1 <= rank <= |list| && list[rank - 1] == id && id !in list[..rank - 1]
  }

  lemma {:induction false} RankIs(list: seq<Id>, id: Id, rank: nat)
    requires RankedAt(list, id, rank)
    ensures FirstRank(list, id) == rank
  {
    FirstOccurrence(list, id);
    var r := FirstRank(list, id);
    assert forall q :: 0 <= q < rank - 1 ==> list[q] in list[..rank - 1];
    assert forall q :: 0 <= q < r - 1 ==> list[q] in list[..r - 1];
  }

  /** What one arm contributes to a score. */
  ghost predicate Adds(list: seq<Id>, id: Id, k: nat, amount: real) {
    && (id !in list ==> amount == 0.0)
    && forall rank :: RankedAt(list, id, rank) ==> amount == 1.0 / (k + rank) as real
  }

  lemma {:induction false} ArmAdds(list: seq<Id>, id: Id, k: nat) returns (amount: real)
    ensures Adds(list, id, k, amount) && amount == Weight(k, FirstRank(list, id))
  {
    amount := Weight(k, FirstRank(list, id));
    forall rank | RankedAt(list, id, rank) ensures amount == 1.0 / (k + rank) as real {
      RankIs(list, id, rank);
    }
  }

  lemma {:induction false} EntryIs(out: seq<Item>, dense: seq<Id>, sparse: seq<Id>, k: nat, i: nat)
    requires IsFusion(out, dense, sparse, k) && i < |out|
    ensures out[i].entry == Fused(k, FirstRank(dense, out[i].id), FirstRank(sparse, out[i].id))
    ensures out[i].id in dense || out[i].id in sparse
  {
    assert out[i] in out;
  }

  /** The score of every output item is the sum, over the arms that hold its id, of one over the constant
      plus the rank of the first occurrence; and its two ranks are those, or zero where it is missing. */
  lemma {:induction false} ScoreIsSum(out: seq<Item>, dense: seq<Id>, sparse: seq<Id>, k: nat, i: nat)
    returns (d: real, s: real)
    requires IsFusion(out, dense, sparse, k) && i < |out|
    ensures out[i].entry.score == d + s && Adds(dense, out[i].id, k, d) && Adds(sparse, out[i].id, k, s)
    ensures if out[i].id in dense then RankedAt(dense, out[i].id, out[i].entry.denseRank) else out[i].entry.denseRank == 0
    ensures if out[i].id in sparse then RankedAt(sparse, out[i].id, out[i].entry.sparseRank) else out[i].entry.sparseRank == 0
  {
    var id := out[i].id;
    EntryIs(out, dense, sparse, k, i);
    d := ArmAdds(dense, id, k);
    s := ArmAdds(sparse, id, k);
    if id in dense {
      FirstOccurrence(dense, id);
    }
    if id in sparse {
      FirstOccurrence(sparse, id);
    }
  }

  /** One of an item's ranks. */
  predicate HasRank(x: Item, r: nat) { r > 0 && (x.entry.denseRank == r || x.entry.sparseRank == r) }

  /** The order of the output: a higher score first; between equal scores the one with the smaller best
      rank; between equal best ranks the smaller id. */
  lemma {:induction false} OutputOrder(out: seq<Item>, dense: seq<Id>, sparse: seq<Id>, k: nat, i: nat, j: nat)
    returns (best: nat, best': nat)
    requires IsFusion(out, dense, sparse, k) && i < j < |out|
    ensures HasRank(out[i], best) && forall r :: HasRank(out[i], r) ==> best <= r
    ensures HasRank(out[j], best') && forall r :: HasRank(out[j], r) ==> best' <= r
    ensures || out[i].entry.score > out[j].entry.score
            || (out[i].entry.score == out[j].entry.score && best < best')
            || (out[i].entry.score == out[j].entry.score && best == best' && exists p :: PartsAt(out[i].id, out[j].id, p))
  {
    EntryIs(out, dense, sparse, k, i);
    EntryIs(out, dense, sparse, k, j);
    best, best' := BestRank(out[i].entry), BestRank(out[j].entry);
    assert Before(out[i], out[j]);
    LessExactly(out[i].id, out[j].id);
  }

  // ------------------------------------------------------------------
  // Two ranks against one
  // ------------------------------------------------------------------

  lemma {:induction false} SumOfTwo(x: real, y: real)
    requires x > 0.0 && y > 0.0
    ensures 1.0 / x + 1.0 / y == (x + y) / (x * y)
  {
    assert x * y > 0.0;
    assert 1.0 / x == y / (x * y);
    assert 1.0 / y == x / (x * y);
  }

  lemma {:induction false} CompareQuotients(n: real, d: real, z: real)
    requires d > 0.0 && z > 0.0
    ensures n * z > d ==> n / d > 1.0 / z
    ensures n * z < d ==> n / d < 1.0 / z
  {
    assert d * z > 0.0;
    assert n / d - 1.0 / z == (n * z - d) / (d * z);
  }

  lemma {:induction false} TwoAgainstOne(k: nat, r: nat, s: nat, t: nat)
    requires r > 0 && s > 0 && t > 0
    ensures (2 * k + r + s) * (k + t) > (k + r) * (k + s) ==>
              1.0 / (k + r) as real + 1.0 / (k + s) as real > 1.0 / (k + t) as real
    ensures (2 * k + r + s) * (k + t) < (k + r) * (k + s) ==>
              1.0 / (k + r) as real + 1.0 / (k + s) as real < 1.0 / (k + t) as real
  {
    var x, y, z := (k + r) as real, (k + s) as real, (k + t) as real;
    SumOfTwo(x, y);
    ProductIsReal(k + r, k + s);
    ProductIsReal(2 * k + r + s, k + t);
    assert (2 * k + r + s) as real == x + y;
    CompareQuotients(x + y, x * y, z);
  }

  lemma {:induction false} ProductIsReal(a: nat, b: nat)
    ensures (a * b) as real == a as real * b as real
    decreases a
  {
    if a > 0 {
      ProductIsReal(a - 1, b);
      assert a * b == (a - 1) * b + b;
      assert a as real * b as real == (a - 1) as real * b as real + b as real;
    }
  }

  /** An id in one arm only, with this rank there. */
  predicate SingleRank(dense: seq<Id>, sparse: seq<Id>, id: Id, t: nat) {
    (RankedAt(dense, id, t) && id !in sparse) || (RankedAt(sparse, id, t) && id !in dense)
  }

  lemma {:induction false} ScoreOfTwo(out: seq<Item>, dense: seq<Id>, sparse: seq<Id>, k: nat, i: nat, r: nat, s: nat)
    requires IsFusion(out, dense, sparse, k) && i < |out|
    requires RankedAt(dense, out[i].id, r) && RankedAt(sparse, out[i].id, s)
    ensures out[i].entry.score == 1.0 / (k + r) as real + 1.0 / (k + s) as real
  {
    var d, e := ScoreIsSum(out, dense, sparse, k, i);
  }

  lemma {:induction false} ScoreOfOne(out: seq<Item>, dense: seq<Id>, sparse: seq<Id>, k: nat, j: nat, t: nat)
    requires IsFusion(out, dense, sparse, k) && j < |out| && SingleRank(dense, sparse, out[j].id, t)
    ensures out[j].entry.score == 1.0 / (k + t) as real
  {
    var d, e := ScoreIsSum(out, dense, sparse, k, j);
  }

  lemma {:induction false} HigherFirst(out: seq<Item>, dense: seq<Id>, sparse: seq<Id>, k: nat, i: nat, j: nat)
    requires IsFusion(out, dense, sparse, k) && i < |out| && j < |out| && out[i].entry.score > out[j].entry.score
    ensures i < j
  {
    if j < i {
      assert false;
    }
  }

  /** What the constant does: an id with ranks `r` and `s` in the two arms comes before an id with the one
      rank `t` whenever `(2k + r + s)(k + t) > (k + r)(k + s)`, and after it when the inequality is
      reversed. */
  lemma {:induction false} TwoRanksAgainstOne(
    out: seq<Item>, dense: seq<Id>, sparse: seq<Id>, k: nat, i: nat, j: nat, r: nat, s: nat, t: nat)
    requires IsFusion(out, dense, sparse, k) && i < |out| && j < |out|
    requires RankedAt(dense, out[i].id, r) && RankedAt(sparse, out[i].id, s)
    requires SingleRank(dense, sparse, out[j].id, t)
    ensures (2 * k + r + s) * (k + t) > (k + r) * (k + s) ==> i < j
    ensures (2 * k + r + s) * (k + t) < (k + r) * (k + s) ==> j < i
  {
    ScoreOfTwo(out, dense, sparse, k, i, r, s);
    ScoreOfOne(out, dense, sparse, k, j, t);
    TwoAgainstOne(k, r, s, t);
    if (2 * k + r + s) * (k + t) > (k + r) * (k + s) {
      HigherFirst(out, dense, sparse, k, i, j);
    } else if (2 * k + r + s) * (k + t) < (k + r) * (k + s) {
      HigherFirst(out, dense, sparse, k, j, i);
    }
  }

  lemma {:induction false} EarlyPair(k: nat, r: nat, s: nat, t: nat)
    requires 1 <= r <= k + 1 && 1 <= s <= k + 1 && t >= 1
    ensures (2 * k + r + s) * (k + t) > (k + r) * (k + s)
  {
    var x, y := k + r, k + s;
    Multiply(x, y, 2 * k + 1);
    Multiply(y, x, 2 * k + 1);
    assert (x + y) * (k + t) >= (x + y) * (k + 1) by { MoreTimes(x + y, k + 1, k + t); }
    assert 2 * ((x + y) * (k + 1)) == (x + y) * (2 * k + 2);
    assert (x + y) * (2 * k + 2) == (x + y) * (2 * k + 1) + (x + y);
    assert (x + y) * (2 * k + 1) == x * (2 * k + 1) + y * (2 * k + 1);
  }

  lemma {:induction false} Multiply(x: nat, y: nat, bound: nat)
    requires y <= bound
    ensures x * bound >= x * y
  {
    MoreTimes(x, y, bound);
  }

  lemma {:induction false} MoreTimes(x: nat, a: nat, b: nat)
    requires a <= b
    ensures x * a <= x * b
  {
    assert x * b == x * a + x * (b - a);
  }

  /** Two ranks of at most `k + 1` beat any single rank. */
  lemma {:induction false} EarlyPairWins(
    out: seq<Item>, dense: seq<Id>, sparse: seq<Id>, k: nat, i: nat, j: nat, r: nat, s: nat, t: nat)
    requires IsFusion(out, dense, sparse, k) && i < |out| && j < |out|
    requires RankedAt(dense, out[i].id, r) && RankedAt(sparse, out[i].id, s) && r <= k + 1 && s <= k + 1
    requires SingleRank(dense, sparse, out[j].id, t)
    ensures i < j
  {
    EarlyPair(k, r, s, t);
    TwoRanksAgainstOne(out, dense, sparse, k, i, j, r, s, t);
  }
}
