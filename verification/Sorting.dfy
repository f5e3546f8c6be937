/** Orders shared by the audit pages and the rank fusion. */
module Sorting {

  /** Strings compare character by character. */
  predicate Less(a: string, b: string) {
    b != [] && (a == [] || a[0] < b[0] || (a[0] == b[0] && Less(a[1..], b[1..])))
  }

  lemma {:induction false} LessTotal(a: string, b: string)
    ensures a == b ==> !Less(a, b)
    ensures a != b ==> (Less(a, b) <==> !Less(b, a))
  {
    if a != [] && b != [] {
      LessTotal(a[1..], b[1..]);
      assert a == [a[0]] + a[1..] && b == [b[0]] + b[1..];
    }
  }

  lemma {:induction false} LessTransitive(a: string, b: string, c: string)
    requires Less(a, b) && Less(b, c)
    ensures Less(a, c)
  {
    if a != [] && a[0] == b[0] && b[0] == c[0] {
      LessTransitive(a[1..], b[1..], c[1..]);
    }
  }

  /** `a` comes first at position `p`, where the two strings part. */
  predicate PartsAt(a: string, b: string, p: nat) {
    && p <= |a| && p <= |b| && a[..p] == b[..p]
    && ((p == |a| && p < |b|) || (p < |a| && p < |b| && a[p] < b[p]))
  }

  /** The order of strings: a proper beginning, or the smaller character at the first difference. */
  lemma {:induction false} LessExactly(a: string, b: string)
    ensures Less(a, b) <==> exists p :: PartsAt(a, b, p)
  {
    if Less(a, b) {
      var p := WherePart(a, b);
    }
    if p :| PartsAt(a, b, p) {
      PartedLess(a, b, p);
    }
  }

  lemma {:induction false} WherePart(a: string, b: string) returns (p: nat)
    requires Less(a, b)
    ensures PartsAt(a, b, p)
  {
    if a == [] || a[0] < b[0] {
      p := 0;
    } else {
      var q := WherePart(a[1..], b[1..]);
      p := q + 1;
      assert a[..p] == [a[0]] + a[1..][..q] && b[..p] == [b[0]] + b[1..][..q];
    }
  }

  lemma {:induction false} PartedLess(a: string, b: string, p: nat)
    requires PartsAt(a, b, p)
    ensures Less(a, b)
    decreases p
  {
    if p > 0 {
      assert a[0] == a[..p][0] && b[0] == b[..p][0];
      assert a[1..][..p - 1] == a[..p][1..] && b[1..][..p - 1] == b[..p][1..];
      PartedLess(a[1..], b[1..], p - 1);
    }
  }

  predicate Ordered<T>(before: (T, T) -> bool, s: seq<T>) {
    forall i, j :: 0 <= i < j < |s| ==> before(s[i], s[j])
  }

  ghost predicate Asymmetric<T(!new)>(before: (T, T) -> bool) {
    forall x, y :: before(x, y) ==> !before(y, x)
  }

  ghost predicate SameElements<T(!new)>(a: seq<T>, b: seq<T>) {
    forall x :: x in a <==> x in b
  }

  lemma {:induction false} BothEmpty<T(!new)>(a: seq<T>, b: seq<T>)
    requires SameElements(a, b)
    ensures a == [] <==> b == []
  {
    if a != [] {
      assert a[0] in b;
    }
    if b != [] {
      assert b[0] in a;
    }
  }

  lemma {:induction false} SameHead<T(!new)>(before: (T, T) -> bool, a: seq<T>, b: seq<T>)
    requires Asymmetric(before) && Ordered(before, a) && Ordered(before, b)
    requires SameElements(a, b) && a != [] && b != []
    ensures a[0] == b[0]
  {
    assert a[0] in b && b[0] in a;
    var i :| 0 <= i < |b| && b[i] == a[0];
    var j :| 0 <= j < |a| && a[j] == b[0];
  }

  lemma {:induction false} TailElements<T(!new)>(before: (T, T) -> bool, s: seq<T>, x: T)
    requires Asymmetric(before) && Ordered(before, s) && s != []
    ensures x in s[1..] <==> x in s && x != s[0]
  {
    assert s == [s[0]] + s[1..];
    if x in s[1..] {
      var i :| 0 <= i < |s[1..]| && s[1..][i] == x;
      assert before(s[0], s[i + 1]);
    }
  }

  /** A list in strict order is determined by its elements. */
  lemma {:induction false} OrderedUnique<T(!new)>(before: (T, T) -> bool, a: seq<T>, b: seq<T>)
    requires Asymmetric(before) && Ordered(before, a) && Ordered(before, b) && SameElements(a, b)
    ensures a == b
    decreases |a|
  {
    BothEmpty(a, b);
    if a != [] {
      SameHead(before, a, b);
      forall x ensures x in a[1..] <==> x in b[1..] {
        TailElements(before, a, x);
        TailElements(before, b, x);
      }
      OrderedUnique(before, a[1..], b[1..]);
      assert a == [a[0]] + a[1..] && b == [b[0]] + b[1..];
    }
  }
}
