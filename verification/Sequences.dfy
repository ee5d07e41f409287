/** Sequences without repetition, and how sequences join. */
module Sequences {

  ghost predicate Distinct<T>(q: seq<T>) {
    forall i, j :: 0 <= i < j < |q| ==> q[i] != q[j]
  }

  lemma Assoc<T>(a: seq<T>, b: seq<T>, c: seq<T>)
    ensures (a + b) + c == a + (b + c) && [] + b == b == b + []
  {
  }

  /** Two lists are distinct as one if they are distinct and share nothing. */
  lemma DistinctJoin<T>(p: seq<T>, q: seq<T>)
    ensures Distinct(p + q) <==> Distinct(p) && Distinct(q) && forall x <- q :: x !in p
  {
    var r := p + q;
    if Distinct(r) {
      forall i, j | 0 <= i < j < |p| ensures p[i] != p[j] { assert r[i] != r[j]; }
      forall i, j | 0 <= i < j < |q| ensures q[i] != q[j] { assert r[|p| + i] != r[|p| + j]; }
      forall i, j | 0 <= i < |p| && 0 <= j < |q| ensures p[i] != q[j] { assert r[i] != r[|p| + j]; }
    } else if Distinct(p) && Distinct(q) {
      var i, j :| 0 <= i < j < |r| && r[i] == r[j];
      assert i < |p| <= j && q[j - |p|] in q;
    }
  }
}
