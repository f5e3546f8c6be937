/** Division facts shared by the job batches and the audit pages. */
module Arithmetic {

  lemma {:induction false} DivStep(a: nat, size: nat)
    requires size > 0
    ensures (a + size) / size == a / size + 1
  {
    var q, r := a / size, a % size;
    assert a == q * size + r;
    assert a + size == (q + 1) * size + r;
    DivUnique(a + size, size, q + 1, r);
  }

  lemma {:induction false} DivUnique(a: nat, size: nat, q: nat, r: nat)
    requires size > 0 && r < size && a == q * size + r
    ensures a / size == q
  {
    var q', r' := a / size, a % size;
    assert a == q' * size + r' && 0 <= r' < size;
    if q' < q {
      assert (q - q') * size == r' - r;
      assert (q - q') * size >= size by { MulAtLeast(q - q', size); }
    } else if q' > q {
      assert (q' - q) * size == r - r';
      assert (q' - q) * size >= size by { MulAtLeast(q' - q, size); }
    }
  }

  lemma {:induction false} MulAtLeast(a: int, size: nat)
    requires a >= 1
    ensures a * size >= size
  {
    assert a * size == (a - 1) * size + size;
    assert (a - 1) * size >= 0;
  }
}
