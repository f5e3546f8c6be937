/** Reciprocal rank fusion of two ranked lists. Scores are exact reals. */
module RankFusion {

  import opened Sorting

  type Id = string

  /** A rank counts from one; zero stands for a missing rank. */
  datatype Entry = Entry(score: real, denseRank: nat, sparseRank: nat)

  datatype Item = Item(id: Id, entry: Entry)

  /** The position, from one, of the first occurrence. */
  function FirstRank(list: seq<Id>, id: Id): (r: nat)
    ensures r == 0 <==> id !in list
  {
    if list == [] then 0
    else
      var init := list[..|list| - 1];
      assert list == init + [list[|list| - 1]];
      if FirstRank(init, id) > 0 then FirstRank(init, id) else if list[|list| - 1] == id then |list| else 0
  }

  lemma {:induction false} FirstOccurrence(list: seq<Id>, id: Id)
    requires id in list
    ensures var r := FirstRank(list, id); 0 < r <= |list| && list[r - 1] == id && id !in list[..r - 1]
  {
    var init := list[..|list| - 1];
    assert list == init + [list[|list| - 1]];
    if id in init {
      FirstOccurrence(init, id);
      assert list[..FirstRank(init, id) - 1] == init[..FirstRank(init, id) - 1];
    }
  }

  function Weight(k: nat, rank: nat): real {
    if rank == 0 then 0.0 else 1.0 / (k + rank) as real
  }

  function Fused(k: nat, dense: nat, sparse: nat): Entry {
    Entry(Weight(k, dense) + Weight(k, sparse), dense, sparse)
  }

  function Table(dense: seq<Id>, sparse: seq<Id>, k: nat): map<Id, Entry> {
    map id | id in dense + sparse :: Fused(k, FirstRank(dense, id), FirstRank(sparse, id))
  }

  // ------------------------------------------------------------------
  // The sort key
  // ------------------------------------------------------------------

  function BestRank(e: Entry): nat {
    if e.denseRank == 0 then e.sparseRank
    else if e.sparseRank == 0 || e.denseRank <= e.sparseRank then e.denseRank
    else e.sparseRank
  }

  /** Higher score first, then better best rank, then smaller identifier. */
  predicate Before(a: Item, b: Item) {
    || a.entry.score > b.entry.score
    || (a.entry.score == b.entry.score
        && (BestRank(a.entry) < BestRank(b.entry) || (BestRank(a.entry) == BestRank(b.entry) && Less(a.id, b.id))))
  }

  lemma {:induction false} BeforeTotal(a: Item, b: Item)
    ensures !(Before(a, b) && Before(b, a))
    ensures a.id != b.id ==> Before(a, b) || Before(b, a)
  {
    LessTotal(a.id, b.id);
  }

  lemma {:induction false} BeforeTransitive(a: Item, b: Item, c: Item)
    requires Before(a, b) && Before(b, c)
    ensures Before(a, c)
  {
    if Less(a.id, b.id) && Less(b.id, c.id) {
      LessTransitive(a.id, b.id, c.id);
    }
  }

  // ------------------------------------------------------------------
  // What a fusion is
  // ------------------------------------------------------------------

  /** In the order of the key, with every identifier of either list exactly once, and the entry its
      first occurrences give. */
  ghost predicate IsFusion(out: seq<Item>, dense: seq<Id>, sparse: seq<Id>, k: nat) {
    && Ordered(Before, out)
    && (forall x :: x in out <==>
          (x.id in dense || x.id in sparse) && x.entry == Fused(k, FirstRank(dense, x.id), FirstRank(sparse, x.id)))
  }

  lemma {:induction false} BeforeAsymmetric()
    ensures Asymmetric(Before)
  {
    forall a, b | Before(a, b) ensures !Before(b, a) {
      BeforeTotal(a, b);
    }
  }

  lemma {:induction false} EachOnce(out: seq<Item>, dense: seq<Id>, sparse: seq<Id>, k: nat)
    requires IsFusion(out, dense, sparse, k)
    ensures forall i, j :: 0 <= i < j < |out| ==> out[i].id != out[j].id
    ensures forall id :: id in dense || id in sparse <==> exists i :: 0 <= i < |out| && out[i].id == id
  {
    forall i, j | 0 <= i < j < |out| ensures out[i].id != out[j].id {
      assert out[i] in out && out[j] in out && Before(out[i], out[j]);
      BeforeTotal(out[i], out[j]);
    }
    forall id | id in dense || id in sparse ensures exists i :: 0 <= i < |out| && out[i].id == id {
      assert Item(id, Fused(k, FirstRank(dense, id), FirstRank(sparse, id))) in out;
    }
    forall i | 0 <= i < |out| ensures out[i].id in dense || out[i].id in sparse {
      assert out[i] in out;
    }
  }

  /** The output depends only on the first-occurrence ranks: two pairs of lists that rank every
      identifier alike have the same fusion, so the order in which a dictionary yields its items, and
      repeated candidates, cannot matter. */
  lemma {:induction false} RanksDetermine(
    a: seq<Item>, dense: seq<Id>, sparse: seq<Id>, b: seq<Item>, dense': seq<Id>, sparse': seq<Id>, k: nat)
    requires IsFusion(a, dense, sparse, k) && IsFusion(b, dense', sparse', k)
    requires forall id :: FirstRank(dense, id) == FirstRank(dense', id) && FirstRank(sparse, id) == FirstRank(sparse', id)
    ensures a == b
  {
    BeforeAsymmetric();
    forall x ensures x in a <==> x in b {
      assert FirstRank(dense, x.id) == FirstRank(dense', x.id);
      assert FirstRank(sparse, x.id) == FirstRank(sparse', x.id);
    }
    OrderedUnique(Before, a, b);
  }

  function Swap(x: Item): Item { x.(entry := Entry(x.entry.score, x.entry.sparseRank, x.entry.denseRank)) }

  function SwapAll(out: seq<Item>): (r: seq<Item>)
    ensures |r| == |out| && forall i :: 0 <= i < |out| ==> r[i] == Swap(out[i])
  {
    seq(|out|, i requires 0 <= i < |out| => Swap(out[i]))
  }

  lemma {:induction false} SwapKeepsOrder(a: Item, b: Item)
    ensures Before(Swap(a), Swap(b)) <==> Before(a, b)
  {
  }

  lemma {:induction false} SwapIsFusion(out: seq<Item>, dense: seq<Id>, sparse: seq<Id>, k: nat)
    requires IsFusion(out, dense, sparse, k)
    ensures IsFusion(SwapAll(out), sparse, dense, k)
  {
    var r := SwapAll(out);
    forall i, j | 0 <= i < j < |r| ensures Before(r[i], r[j]) {
      SwapKeepsOrder(out[i], out[j]);
    }
    forall x ensures x in r <==>
      (x.id in sparse || x.id in dense) && x.entry == Fused(k, FirstRank(sparse, x.id), FirstRank(dense, x.id))
    {
      if x in r {
        var i :| 0 <= i < |r| && r[i] == x;
        assert out[i] in out;
      }
      if Swap(x) in out {
        var i :| 0 <= i < |out| && out[i] == Swap(x);
        assert r[i] == x;
      }
    }
  }

  /** Swapping the arms swaps the two ranks of every item and leaves the order alone. */
  lemma {:induction false} ArmsAreSymmetric(a: seq<Item>, b: seq<Item>, dense: seq<Id>, sparse: seq<Id>, k: nat)
    requires IsFusion(a, dense, sparse, k) && IsFusion(b, sparse, dense, k)
    ensures b == SwapAll(a)
  {
    SwapIsFusion(a, dense, sparse, k);
    RanksDetermine(b, sparse, dense, SwapAll(a), sparse, dense, k);
  }

  // ------------------------------------------------------------------
  // Dominance
  // ------------------------------------------------------------------

  /** A missing rank is worst. */
  predicate AtLeastAsGood(r: nat, than: nat) { than == 0 || (r != 0 && r <= than) }

  predicate Better(r: nat, than: nat) { r != 0 && (than == 0 || r < than) }

  lemma {:induction false} Reciprocal(x: real, y: real)
    requires 0.0 < x < y
    ensures 0.0 < 1.0 / y < 1.0 / x
  {
    assert 1.0 / x - 1.0 / y == (y - x) / (x * y);
  }

  lemma {:induction false} WeightMonotone(k: nat, r: nat, than: nat)
    ensures AtLeastAsGood(r, than) ==> Weight(k, r) >= Weight(k, than)
    ensures Better(r, than) ==> Weight(k, r) > Weight(k, than)
  {
    if 0 < r < than {
      Reciprocal((k + r) as real, (k + than) as real);
    }
  }

  predicate Dominates(dense: seq<Id>, sparse: seq<Id>, a: Id, b: Id) {
    && AtLeastAsGood(FirstRank(dense, a), FirstRank(dense, b))
    && AtLeastAsGood(FirstRank(sparse, a), FirstRank(sparse, b))
    && (Better(FirstRank(dense, a), FirstRank(dense, b)) || Better(FirstRank(sparse, a), FirstRank(sparse, b)))
  }

  lemma {:induction false} DominanceScores(dense: seq<Id>, sparse: seq<Id>, k: nat, a: Id, b: Id)
    requires Dominates(dense, sparse, a, b)
    ensures Fused(k, FirstRank(dense, a), FirstRank(sparse, a)).score > Fused(k, FirstRank(dense, b), FirstRank(sparse, b)).score
  {
    WeightMonotone(k, FirstRank(dense, a), FirstRank(dense, b));
    WeightMonotone(k, FirstRank(sparse, a), FirstRank(sparse, b));
  }

  /** An identifier ranked at least as well in both arms, and strictly better in one, comes first. */
  lemma {:induction false} DominancePrecedes(out: seq<Item>, dense: seq<Id>, sparse: seq<Id>, k: nat)
    requires IsFusion(out, dense, sparse, k)
    ensures forall i, j :: 0 <= i < |out| && 0 <= j < |out| && Dominates(dense, sparse, out[i].id, out[j].id) ==> i < j
  {
    forall i, j | 0 <= i < |out| && 0 <= j < |out| && Dominates(dense, sparse, out[i].id, out[j].id) ensures i < j {
      assert out[i] in out && out[j] in out;
      DominanceScores(dense, sparse, k, out[i].id, out[j].id);
      BeforeTotal(out[i], out[j]);
    }
  }

  // ------------------------------------------------------------------
  // The code
  // ------------------------------------------------------------------

  datatype Arm = Dense | Sparse

  /** One candidate of an arm: only the first occurrence of an identifier counts. */
  function Add(fused: map<Id, Entry>, arm: Arm, id: Id, rank: nat, k: nat): map<Id, Entry>
    requires rank > 0
  {
    var entry := if id in fused then fused[id] else Entry(0.0, 0, 0);
    var score := entry.score + Weight(k, rank);
    fused[id :=
      if arm.Dense? && entry.denseRank == 0 then entry.(denseRank := rank, score := score)
      else if arm.Sparse? && entry.sparseRank == 0 then entry.(sparseRank := rank, score := score)
      else entry]
  }

  lemma {:induction false} RankExtends(list: seq<Id>, last: Id, id: Id)
    ensures FirstRank(list + [last], id) ==
            if FirstRank(list, id) > 0 then FirstRank(list, id) else if last == id then |list| + 1 else 0
  {
    assert (list + [last])[..|list|] == list;
  }

  lemma {:induction false} AddDense(dense: seq<Id>, sparse: seq<Id>, id: Id, k: nat)
    ensures Add(Table(dense, sparse, k), Dense, id, |dense| + 1, k) == Table(dense + [id], sparse, k)
  {
    var left, right := Add(Table(dense, sparse, k), Dense, id, |dense| + 1, k), Table(dense + [id], sparse, k);
    assert left.Keys == right.Keys;
    forall x | x in right ensures left[x] == right[x] {
      RankExtends(dense, id, x);
    }
  }

  lemma {:induction false} AddSparse(dense: seq<Id>, sparse: seq<Id>, id: Id, k: nat)
    ensures Add(Table(dense, sparse, k), Sparse, id, |sparse| + 1, k) == Table(dense, sparse + [id], k)
  {
    var left, right := Add(Table(dense, sparse, k), Sparse, id, |sparse| + 1, k), Table(dense, sparse + [id], k);
    assert left.Keys == right.Keys;
    forall x | x in right ensures left[x] == right[x] {
      RankExtends(sparse, id, x);
    }
  }

  /** The table after the first n candidates of an arm, the dense arm being first. */
  function Partial(dense: seq<Id>, sparse: seq<Id>, arm: Arm, n: nat, k: nat): map<Id, Entry>
    requires n <= |if arm.Dense? then dense else sparse|
  {
    if arm.Dense? then Table(dense[..n], [], k) else Table(dense, sparse[..n], k)
  }

  lemma {:induction false} AddOne(dense: seq<Id>, sparse: seq<Id>, arm: Arm, n: nat, k: nat)
    requires n < |if arm.Dense? then dense else sparse|
    ensures var id := if arm.Dense? then dense[n] else sparse[n];
            Add(Partial(dense, sparse, arm, n, k), arm, id, n + 1, k) == Partial(dense, sparse, arm, n + 1, k)
  {
    if arm.Dense? {
      assert dense[..n + 1] == dense[..n] + [dense[n]];
      AddDense(dense[..n], [], dense[n], k);
    } else {
      assert sparse[..n + 1] == sparse[..n] + [sparse[n]];
      AddSparse(dense, sparse[..n], sparse[n], k);
    }
  }

  lemma {:induction false} NextArm(dense: seq<Id>, sparse: seq<Id>, k: nat)
    ensures Partial(dense, sparse, Dense, 0, k) == map[]
    ensures Partial(dense, sparse, Dense, |dense|, k) == Partial(dense, sparse, Sparse, 0, k)
    ensures Partial(dense, sparse, Sparse, |sparse|, k) == Table(dense, sparse, k)
  {
    assert dense[..|dense|] == dense && sparse[..|sparse|] == sparse && sparse[..0] == [];
  }

  /** The inner loop: the candidates of one arm. */
  method AddArm(start: map<Id, Entry>, arm: Arm, candidates: seq<Id>, k: nat, ghost dense: seq<Id>, ghost sparse: seq<Id>)
    returns (fused: map<Id, Entry>)
    requires candidates == if arm.Dense? then dense else sparse
    requires start == Partial(dense, sparse, arm, 0, k)
    ensures fused == Partial(dense, sparse, arm, |candidates|, k)
  {
    fused := start;
    var n := 0;
    while n < |candidates|
      invariant 0 <= n <= |candidates|
      invariant fused == Partial(dense, sparse, arm, n, k)
    {
      AddOne(dense, sparse, arm, n, k);
      fused := Add(fused, arm, candidates[n], n + 1, k);
      n := n + 1;
    }
  }

  /** The dictionary of fused entries: the dense arm, then the sparse one. */
  method FuseArms(dense: seq<Id>, sparse: seq<Id>, k: nat) returns (fused: map<Id, Entry>)
    ensures fused == Table(dense, sparse, k)
  {
    NextArm(dense, sparse, k);
    fused := AddArm(map[], Dense, dense, k, dense, sparse);
    fused := AddArm(fused, Sparse, sparse, k, dense, sparse);
  }

  lemma {:induction false} FirstExists(table: map<Id, Entry>, among: set<Id>)
    requires among != {} && among <= table.Keys
    ensures exists id :: id in among && forall x :: x in among && x != id ==> Before(Item(id, table[id]), Item(x, table[x]))
    decreases |among|
  {
    var id :| id in among;
    if among != {id} {
      assert among - {id} != {};
      FirstExists(table, among - {id});
      var m :| m in among - {id}
               && forall x :: x in among - {id} && x != m ==> Before(Item(m, table[m]), Item(x, table[x]));
      BeforeTotal(Item(id, table[id]), Item(m, table[m]));
      if Before(Item(id, table[id]), Item(m, table[m])) {
        forall x | x in among && x != id ensures Before(Item(id, table[id]), Item(x, table[x])) {
          if x != m {
            BeforeTransitive(Item(id, table[id]), Item(m, table[m]), Item(x, table[x]));
          }
        }
      } else {
        assert forall x :: x in among && x != m ==> Before(Item(m, table[m]), Item(x, table[x]));
      }
    }
  }

  /** The items in the order of the key, as the library sort gives them. */
  method SortItems(table: map<Id, Entry>) returns (out: seq<Item>)
    ensures Ordered(Before, out)
    ensures forall x :: x in out <==> x.id in table && x.entry == table[x.id]
  {
    out := [];
    var left := table.Keys;
    while left != {}
      invariant left <= table.Keys
      invariant Ordered(Before, out)
      invariant forall x :: x in out <==> x.id in table && x.id !in left && x.entry == table[x.id]
      invariant forall i, id :: 0 <= i < |out| && id in left ==> Before(out[i], Item(id, table[id]))
      decreases |left|
    {
      FirstExists(table, left);
      var id :| id in left && forall x :: x in left && x != id ==> Before(Item(id, table[id]), Item(x, table[x]));
      out := out + [Item(id, table[id])];
      left := left - {id};
    }
  }

  /** `client_rrf`. */
  method ClientRrf(dense: seq<Id>, sparse: seq<Id>, k: nat) returns (out: seq<Item>)
    ensures IsFusion(out, dense, sparse, k)
  {
    var fused := FuseArms(dense, sparse, k);
    out := SortItems(fused);
  }
}
