/** Collecting the base classes of a class, transitively, from a graph that may be cyclic. */
module BaseClasses {
  import opened Sequences

  datatype Base = Base(base: nat, isVirtual: bool)

  /** The direct bases of every class, classes being numbered. */
  type Graph = seq<seq<Base>>

  ghost predicate WellFormed(g: Graph) {
    forall c :: 0 <= c < |g| ==> OneEach(g[c]) && forall b <- g[c] :: b.base < |g|
  }

  /** No class is named twice among the direct bases of one class. */
  predicate OneEach(bs: seq<Base>) {
    forall i, j :: 0 <= i < j < |bs| ==> bs[i].base != bs[j].base
  }

  ghost predicate Within(g: Graph, q: seq<nat>) {
    forall i :: 0 <= i < |q| ==> q[i] < |g|
  }

  /** The bases in bs that `known` does not hold. */
  function New(known: seq<nat>, bs: seq<Base>): (r: seq<nat>)
    ensures |r| <= |bs|
  {
    if bs == [] then []
    else
      var (b, init) := (bs[|bs| - 1].base, bs[..|bs| - 1]);
      New(known, init) + if b in known then [] else [b]
  }

  lemma {:induction false} NewIs(known: seq<nat>, bs: seq<Base>)
    ensures forall x :: x in New(known, bs) <==> x !in known && exists b <- bs :: b.base == x
    decreases |bs|
  {
    if bs != [] {
      var (last, init) := (bs[|bs| - 1], bs[..|bs| - 1]);
      NewIs(known, init);
      assert bs == init + [last];
    }
  }

  lemma {:induction false} NewDistinct(known: seq<nat>, bs: seq<Base>)
    requires OneEach(bs)
    ensures Distinct(New(known, bs))
    decreases |bs|
  {
    if bs != [] {
      NewDistinct(known, bs[..|bs| - 1]);
      NewIs(known, bs[..|bs| - 1]);
    }
  }

  lemma WithoutOne(q: seq<nat>, i: nat, n: nat)
    requires Distinct(q) && i < |q| && q[i] == n && forall k :: 0 <= k < |q| ==> q[k] <= n
    ensures
      var r := q[..i] + q[i + 1..];
      Distinct(r) && forall k :: 0 <= k < |r| ==> r[k] < n
  {
    var r := q[..i] + q[i + 1..];
    forall k | 0 <= k < |r| ensures r[k] < n {
      var m := if k < i then k else k + 1;
      assert r[k] == q[m] && q[m] in q;
    }
  }

  lemma {:induction false} Bounded(q: seq<nat>, n: nat)
    requires Distinct(q) && forall i :: 0 <= i < |q| ==> q[i] < n
    ensures |q| <= n
    decreases n
  {
    assert |q| > 0 ==> q[|q| - 1] in q;
    if n > 0 && n - 1 in q {
      var i :| 0 <= i < |q| && q[i] == n - 1;
      WithoutOne(q, i, n - 1);
      Bounded(q[..i] + q[i + 1..], n - 1);
    } else if n > 0 {
      Bounded(q, n - 1);
    }
  }

  /** A list that can be worked on. */
  ghost predicate Fit(g: Graph, q: seq<nat>) {
    WellFormed(g) && Distinct(q) && Within(g, q)
  }

  lemma NewFits(g: Graph, known: seq<nat>, c: nat)
    requires Fit(g, known) && c < |g|
    ensures Fit(g, known + New(known, g[c]))
  {
    NewIs(known, g[c]);
    NewDistinct(known, g[c]);
    DistinctJoin(known, New(known, g[c]));
    var r := New(known, g[c]);
    forall k | 0 <= k < |r| ensures r[k] < |g| {
      assert r[k] in r;
    }
  }

  /** The worklist: the classes before i have been looked at. */
  function Work(g: Graph, all: seq<nat>, i: nat): (r: seq<nat>)
    requires Fit(g, all) && i <= |all|
    decreases |g| - i
  {
    Bounded(all, |g|);
    if i == |all| then all
    else
      assert all[i] in all;
      NewFits(g, all, all[i]);
      Work(g, all + New(all, g[all[i]]), i + 1)
  }

  /** start, then the bases of t and of everything in the list, in the order they are found. */
  function Closure(g: Graph, t: nat, start: seq<nat>): (r: seq<nat>)
    requires Fit(g, start) && t < |g|
  {
    NewFits(g, start, t);
    Work(g, start + New(start, g[t]), 0)
  }

  // ---------------------------------------------------------------- ancestors

  predicate Edge(g: Graph, c: nat, x: nat) {
    c < |g| && exists b <- g[c] :: b.base == x
  }

  /** A chain of at least one inheritance step from c to x. */
  ghost predicate Path(g: Graph, path: seq<nat>, c: nat, x: nat) {
    && |path| >= 2 && path[0] == c && path[|path| - 1] == x
    && forall i :: 0 <= i < |path| - 1 ==> Edge(g, path[i], path[i + 1])
  }

  ghost predicate Ancestor(g: Graph, c: nat, x: nat) {
    exists path :: Path(g, path, c, x)
  }

  lemma OneStep(g: Graph, c: nat, x: nat)
    requires Edge(g, c, x)
    ensures Ancestor(g, c, x)
  {
    assert Path(g, [c, x], c, x);
  }

  lemma StepOn(g: Graph, c: nat, m: nat, x: nat)
    requires Ancestor(g, c, m) && Edge(g, m, x)
    ensures Ancestor(g, c, x)
  {
    var path :| Path(g, path, c, m);
    assert Path(g, path + [x], c, x);
  }

  /** What the full mode is to find. */
  ghost predicate Wanted(g: Graph, t: nat, start: seq<nat>, x: nat) {
    x in start || Ancestor(g, t, x) || exists s <- start :: Ancestor(g, s, x)
  }

  lemma WantedOn(g: Graph, t: nat, start: seq<nat>, m: nat, x: nat)
    requires (Wanted(g, t, start, m) || m == t) && Edge(g, m, x)
    ensures Wanted(g, t, start, x)
  {
    if m == t || m in start {
      OneStep(g, m, x);
    } else if Ancestor(g, t, m) {
      StepOn(g, t, m, x);
    } else {
      var s :| s in start && Ancestor(g, s, m);
      StepOn(g, s, m, x);
    }
  }

  /** Looking at c adds only what is wanted. */
  lemma NewWanted(g: Graph, t: nat, start: seq<nat>, all: seq<nat>, c: nat)
    requires c < |g| && (c == t || c in all)
    requires forall x <- all :: Wanted(g, t, start, x)
    ensures forall x <- all + New(all, g[c]) :: Wanted(g, t, start, x)
  {
    forall x | x in New(all, g[c]) ensures Wanted(g, t, start, x) {
      NewIs(all, g[c]);
      WantedOn(g, t, start, c, x);
    }
  }

  /** Everything is closed that has been looked at. */
  ghost predicate Closed(g: Graph, t: nat, all: seq<nat>, i: nat)
    requires i <= |all|
  {
    && (forall x :: Edge(g, t, x) ==> x in all)
    && forall k, x :: 0 <= k < i && Edge(g, all[k], x) ==> x in all
  }

  /** Every base of c is in the list once c has been looked at. */
  lemma BaseInNext(g: Graph, all: seq<nat>, c: nat, x: nat)
    requires Edge(g, c, x)
    ensures x in all + New(all, g[c])
  {
    NewIs(all, g[c]);
  }

  lemma ClosedNext(g: Graph, t: nat, all: seq<nat>, i: nat)
    requires i < |all| && all[i] < |g| && Closed(g, t, all, i)
    ensures Closed(g, t, all + New(all, g[all[i]]), i + 1)
  {
    var next := all + New(all, g[all[i]]);
    forall k, x | 0 <= k < i + 1 && Edge(g, next[k], x) ensures x in next {
      if k == i {
        BaseInNext(g, all, all[i], x);
      } else {
        assert next[k] == all[k];
      }
    }
  }

  lemma {:induction false} WorkIs(g: Graph, t: nat, start: seq<nat>, all: seq<nat>, i: nat)
    requires Fit(g, all) && i <= |all| && start <= all && Closed(g, t, all, i)
    requires forall x <- all :: Wanted(g, t, start, x)
    ensures
      var r := Work(g, all, i);
      Fit(g, r) && all <= r && Closed(g, t, r, |r|) && forall x <- r :: Wanted(g, t, start, x)
    decreases |g| - i
  {
    Bounded(all, |g|);
    if i < |all| {
      assert all[i] in all;
      var next := all + New(all, g[all[i]]);
      NewFits(g, all, all[i]);
      NewIs(all, g[all[i]]);
      NewWanted(g, t, start, all, all[i]);
      ClosedNext(g, t, all, i);
      WorkIs(g, t, start, next, i + 1);
    }
  }

  lemma PathTail(g: Graph, path: seq<nat>, c: nat, x: nat)
    requires Path(g, path, c, x) && |path| > 2
    ensures Path(g, path[1..], path[1], x)
  {
    var p := path[1..];
    forall i | 0 <= i < |p| - 1 ensures Edge(g, p[i], p[i + 1]) {
      var k := i + 1;
      assert Edge(g, path[k], path[k + 1]);
    }
  }

  lemma {:induction false} ClosedHolds(g: Graph, all: seq<nat>, path: seq<nat>, c: nat, x: nat)
    requires Path(g, path, c, x)
    requires forall y :: Edge(g, c, y) ==> y in all
    requires forall k, y :: 0 <= k < |all| && Edge(g, all[k], y) ==> y in all
    ensures x in all
    decreases |path|
  {
    assert Edge(g, c, path[1]);
    if |path| > 2 {
      var k :| 0 <= k < |all| && all[k] == path[1];
      PathTail(g, path, c, x);
      ClosedHolds(g, all, path[1..], path[1], x);
    }
  }

  /** The full mode finds exactly the start list and the ancestors, each once. */
  lemma ClosureExact(g: Graph, t: nat, start: seq<nat>)
    requires Fit(g, start) && t < |g|
    ensures
      var r := Closure(g, t, start);
      Distinct(r) && start <= r && forall x :: x in r <==> Wanted(g, t, start, x)
  {
    var (all, r) := (start + New(start, g[t]), Closure(g, t, start));
    NewFits(g, start, t);
    NewIs(start, g[t]);
    NewWanted(g, t, start, start, t);
    WorkIs(g, t, start, all, 0);
    forall x | Wanted(g, t, start, x) ensures x in r {
      if Ancestor(g, t, x) {
        var path :| Path(g, path, t, x);
        ClosedHolds(g, r, path, t, x);
      } else if x !in start {
        var s :| s in start && Ancestor(g, s, x);
        var path :| Path(g, path, s, x);
        var k :| 0 <= k < |start| && start[k] == s;
        assert r[k] == s;
        ClosedHolds(g, r, path, s, x);
      }
    }
  }

  // ---------------------------------------------------------------- the order of the list

  /** The class at position i of `looked` names x as its m-th base. */
  predicate NamesAt(g: Graph, looked: seq<nat>, i: nat, m: nat, x: nat) {
    i < |looked| && looked[i] < |g| && m < |g[looked[i]]| && g[looked[i]][m].base == x
  }

  /** x is named before y ever is, when the classes of `looked` are looked at in order. */
  ghost predicate NamedBefore(g: Graph, looked: seq<nat>, x: nat, y: nat) {
    exists i: nat, m: nat :: NamesAt(g, looked, i, m, x) && BeforeAll(g, looked, i, m, y)
  }

  ghost predicate BeforeAll(g: Graph, looked: seq<nat>, i: nat, m: nat, y: nat) {
    forall k: nat, n: nat :: NamesAt(g, looked, k, n, y) ==> i < k || (i == k && m < n)
  }

  ghost predicate IsNamed(g: Graph, looked: seq<nat>, x: nat) {
    exists i: nat, m: nat :: NamesAt(g, looked, i, m, x)
  }

  /** The classes found are in the order in which they are first named. */
  ghost predicate Ordered(g: Graph, looked: seq<nat>, found: seq<nat>) {
    && (forall p :: 0 <= p < |found| ==> IsNamed(g, looked, found[p]))
    && forall p, q :: 0 <= p < q < |found| ==> NamedBefore(g, looked, found[p], found[q])
  }

  lemma {:induction false} NewPlace(known: seq<nat>, bs: seq<Base>, p: nat) returns (m: nat)
    requires p < |New(known, bs)|
    ensures m < |bs| && bs[m].base == New(known, bs)[p]
    decreases |bs|
  {
    var init := bs[..|bs| - 1];
    if p < |New(known, init)| {
      m := NewPlace(known, init, p);
    } else {
      m := |bs| - 1;
    }
  }

  lemma {:induction false} NewPlaces(known: seq<nat>, bs: seq<Base>, p: nat, q: nat) returns (m: nat, n: nat)
    requires p < q < |New(known, bs)|
    ensures m < n < |bs| && bs[m].base == New(known, bs)[p] && bs[n].base == New(known, bs)[q]
    decreases |bs|
  {
    var init := bs[..|bs| - 1];
    if q < |New(known, init)| {
      m, n := NewPlaces(known, init, p, q);
    } else {
      m := NewPlace(known, init, p);
      n := |bs| - 1;
    }
  }

  /** What was named goes on being named where it was, and before what is named later. */
  lemma StillBefore(g: Graph, looked: seq<nat>, c: nat, x: nat, y: nat)
    requires NamedBefore(g, looked, x, y) || (IsNamed(g, looked, x) && !IsNamed(g, looked, y))
    ensures NamedBefore(g, looked + [c], x, y)
  {
    var i: nat, m: nat :| NamesAt(g, looked, i, m, x)
                          && (BeforeAll(g, looked, i, m, y) || !IsNamed(g, looked, y));
    assert NamesAt(g, looked + [c], i, m, x);
    forall k: nat, n: nat | NamesAt(g, looked + [c], k, n, y) ensures i < k || (i == k && m < n) {
      if k < |looked| {
        assert NamesAt(g, looked, k, n, y);
        assert IsNamed(g, looked, y);
      }
    }
  }

  /** Of what c is the first to name, the order is that of its bases. */
  lemma NewBefore(g: Graph, looked: seq<nat>, known: seq<nat>, c: nat, p: nat, q: nat)
    requires WellFormed(g) && c < |g| && p < q < |New(known, g[c])|
    requires !IsNamed(g, looked, New(known, g[c])[q])
    ensures NamedBefore(g, looked + [c], New(known, g[c])[p], New(known, g[c])[q])
  {
    var m, n := NewPlaces(known, g[c], p, q);
    assert NamesAt(g, looked + [c], |looked|, m, New(known, g[c])[p]);
    forall k: nat, l: nat | NamesAt(g, looked + [c], k, l, New(known, g[c])[q])
      ensures |looked| < k || (|looked| == k && m < l)
    {
      if k < |looked| {
        assert NamesAt(g, looked, k, l, New(known, g[c])[q]);
      } else {
        assert l == n;
      }
    }
  }

  lemma NewNamed(g: Graph, looked: seq<nat>, known: seq<nat>, c: nat, p: nat)
    requires c < |g| && p < |New(known, g[c])|
    ensures IsNamed(g, looked + [c], New(known, g[c])[p])
  {
    var m := NewPlace(known, g[c], p);
    assert NamesAt(g, looked + [c], |looked|, m, New(known, g[c])[p]);
  }

  lemma StillNamed(g: Graph, looked: seq<nat>, c: nat, x: nat)
    requires IsNamed(g, looked, x)
    ensures IsNamed(g, looked + [c], x)
  {
    var i: nat, m: nat :| NamesAt(g, looked, i, m, x);
    assert NamesAt(g, looked + [c], i, m, x);
  }

  lemma OrderedNext(g: Graph, looked: seq<nat>, known: seq<nat>, found: seq<nat>, c: nat)
    requires WellFormed(g) && c < |g| && Ordered(g, looked, found)
    requires forall x :: IsNamed(g, looked, x) ==> x in known
    ensures Ordered(g, looked + [c], found + New(known, g[c]))
  {
    var (more, all) := (New(known, g[c]), found + New(known, g[c]));
    NewIs(known, g[c]);
    forall p | 0 <= p < |all| ensures IsNamed(g, looked + [c], all[p]) {
      if p < |found| { StillNamed(g, looked, c, found[p]); } else { NewNamed(g, looked, known, c, p - |found|); }
    }
    forall p, q | 0 <= p < q < |all| ensures NamedBefore(g, looked + [c], all[p], all[q]) {
      if q < |found| {
        StillBefore(g, looked, c, all[p], all[q]);
      } else {
        assert all[q] == more[q - |found|] && more[q - |found|] in more;
        if p < |found| {
          StillBefore(g, looked, c, all[p], all[q]);
        } else {
          NewBefore(g, looked, known, c, p - |found|, q - |found|);
        }
      }
    }
  }

  lemma NamedIsKnown(g: Graph, t: nat, all: seq<nat>, i: nat, x: nat)
    requires i <= |all| && Closed(g, t, all, i) && IsNamed(g, [t] + all[..i], x)
    ensures x in all
  {
    var looked := [t] + all[..i];
    var k: nat, m: nat :| NamesAt(g, looked, k, m, x);
    assert g[looked[k]][m] in g[looked[k]];
    assert Edge(g, looked[k], x);
    if k > 0 { assert looked[k] == all[k - 1]; }
  }

  lemma AllKnown(g: Graph, t: nat, all: seq<nat>, i: nat)
    requires i <= |all| && Closed(g, t, all, i)
    ensures forall x :: IsNamed(g, [t] + all[..i], x) ==> x in all
  {
    forall x | IsNamed(g, [t] + all[..i], x) ensures x in all {
      NamedIsKnown(g, t, all, i, x);
    }
  }

  lemma NextParts(t: nat, all: seq<nat>, more: seq<nat>, i: nat, n: nat)
    requires i < |all| && n <= |all|
    ensures [t] + (all + more)[..i + 1] == [t] + all[..i] + [all[i]] && (all + more)[n..] == all[n..] + more
  {
  }

  /** The classes before i have been looked at, and what they name has been found in order. */
  ghost predicate InOrder(g: Graph, t: nat, start: seq<nat>, all: seq<nat>, i: nat) {
    && Fit(g, all) && i <= |all| && start <= all && Closed(g, t, all, i)
    && Ordered(g, [t] + all[..i], all[|start|..])
  }

  lemma InOrderNext(g: Graph, t: nat, start: seq<nat>, all: seq<nat>, i: nat)
    requires InOrder(g, t, start, all, i) && i < |all|
    ensures all[i] < |g| && InOrder(g, t, start, all + New(all, g[all[i]]), i + 1)
  {
    var c := all[i];
    assert c in all;
    NewFits(g, all, c);
    ClosedNext(g, t, all, i);
    AllKnown(g, t, all, i);
    OrderedNext(g, [t] + all[..i], all, all[|start|..], c);
    NextParts(t, all, New(all, g[c]), i, |start|);
  }

  lemma {:induction false} WorkOrdered(g: Graph, t: nat, start: seq<nat>, all: seq<nat>, i: nat)
    requires InOrder(g, t, start, all, i)
    ensures InOrder(g, t, start, Work(g, all, i), |Work(g, all, i)|)
    decreases |g| - i
  {
    Bounded(all, |g|);
    if i < |all| {
      InOrderNext(g, t, start, all, i);
      WorkOrdered(g, t, start, all + New(all, g[all[i]]), i + 1);
    }
  }

  /** Behind the start list, the classes are in the order in which they are first named when the
      class itself and then the members of the list, in order, are looked at, and the bases of each
      in the order of their declaration. */
  lemma ClosureInOrder(g: Graph, t: nat, start: seq<nat>)
    requires Fit(g, start) && t < |g|
    ensures
      var r := Closure(g, t, start);
      start <= r && forall p, q :: |start| <= p < q < |r| ==> NamedBefore(g, [t] + r, r[p], r[q])
  {
    var all := start + New(start, g[t]);
    NewFits(g, start, t);
    NewIs(start, g[t]);
    assert forall x :: !IsNamed(g, [], x);
    OrderedNext(g, [], start, [], t);
    assert [] + [t] == [t] + all[..0] && all[|start|..] == [] + New(start, g[t]);
    WorkOrdered(g, t, start, all, 0);
    var r := Closure(g, t, start);
    assert r[..|r|] == r;
    forall p, q | |start| <= p < q < |r| ensures NamedBefore(g, [t] + r, r[p], r[q]) {
      assert r[p] == r[|start|..][p - |start|] && r[q] == r[|start|..][q - |start|];
    }
  }

  // ---------------------------------------------------------------- the virtual mode

  datatype Mode = Unnamed | Named(isVirtual: bool)

  /** How the list bs names x. */
  function Naming(bs: seq<Base>, x: nat): Mode {
    if bs == [] then Unnamed
    else if bs[0].base == x then Named(bs[0].isVirtual)
    else Naming(bs[1..], x)
  }

  /** How the first class in order that names x does so. */
  function FirstNaming(g: Graph, order: seq<nat>, x: nat): Mode
    requires Within(g, order)
  {
    if order == [] then Unnamed
    else if Naming(g[order[0]], x) != Unnamed then Naming(g[order[0]], x)
    else FirstNaming(g, order[1..], x)
  }

  /** The members of q whose first naming in order is virtual. */
  function Virtuals(g: Graph, order: seq<nat>, q: seq<nat>): (r: seq<nat>)
    requires Within(g, order)
  {
    if q == [] then []
    else
      var (x, init) := (q[|q| - 1], q[..|q| - 1]);
      Virtuals(g, order, init) + if FirstNaming(g, order, x) == Named(true) then [x] else []
  }

  /** The virtual mode keeps, of the classes it finds, those first named virtually. */
  function VirtualClosure(g: Graph, t: nat, start: seq<nat>): seq<nat>
    requires Fit(g, start) && t < |g|
  {
    ClosureExact(g, t, start);
    ClosureWithin(g, t, start);
    var all := Closure(g, t, start);
    start + Virtuals(g, [t] + all, all[|start|..])
  }

  lemma ClosureWithin(g: Graph, t: nat, start: seq<nat>)
    requires Fit(g, start) && t < |g|
    ensures Fit(g, Closure(g, t, start))
  {
    NewFits(g, start, t);
    NewIs(start, g[t]);
    NewWanted(g, t, start, start, t);
    WorkIs(g, t, start, start + New(start, g[t]), 0);
  }

  lemma {:induction false} FirstNamingIs(g: Graph, order: seq<nat>, x: nat)
    requires Within(g, order)
    ensures FirstNaming(g, order, x).Named? ==>
      exists i :: 0 <= i < |order| && Naming(g[order[i]], x) == FirstNaming(g, order, x)
    ensures FirstNaming(g, order, x).Unnamed? ==> forall i :: 0 <= i < |order| ==> Naming(g[order[i]], x).Unnamed?
    decreases |order|
  {
    if order != [] && Naming(g[order[0]], x).Unnamed? {
      FirstNamingIs(g, order[1..], x);
      if FirstNaming(g, order, x).Named? {
        var i :| 0 <= i < |order| - 1 && Naming(g[order[1..][i]], x) == FirstNaming(g, order, x);
        assert order[i + 1] == order[1..][i];
      } else {
        assert forall i :: 0 < i < |order| ==> order[i] == order[1..][i - 1];
      }
    }
  }

  lemma {:induction false} VirtualsAre(g: Graph, order: seq<nat>, q: seq<nat>)
    requires Within(g, order) && Distinct(q)
    ensures
      var r := Virtuals(g, order, q);
      Distinct(r) && forall x :: x in r <==> x in q && FirstNaming(g, order, x) == Named(true)
    decreases |q|
  {
    if q != [] {
      var (x, init) := (q[|q| - 1], q[..|q| - 1]);
      VirtualsAre(g, order, init);
      assert q == init + [x];
    }
  }

  /** A class that t, a class of start or one of their ancestors inherits virtually. */
  ghost predicate InheritedVirtually(g: Graph, t: nat, start: seq<nat>, x: nat) {
    exists c :: 0 <= c < |g| && (c == t || Wanted(g, t, start, c)) && Naming(g[c], x) == Named(true)
  }

  /** The first class looked at that names x, if any does, names it virtually. */
  ghost predicate FirstVirtual(g: Graph, t: nat, start: seq<nat>, x: nat)
    requires Fit(g, start) && t < |g|
  {
    ClosureWithin(g, t, start);
    FirstNaming(g, [t] + Closure(g, t, start), x) == Named(true)
  }

  lemma {:induction false} NamingIsEdge(bs: seq<Base>, x: nat)
    ensures Naming(bs, x).Named? <==> exists b <- bs :: b.base == x
    decreases |bs|
  {
    if bs != [] {
      NamingIsEdge(bs[1..], x);
      assert bs == [bs[0]] + bs[1..];
    }
  }

  /** The virtual mode's result, each class once: the start list and what is first named
      virtually among the rest. */
  lemma VirtualClosureIs(g: Graph, t: nat, start: seq<nat>)
    requires Fit(g, start) && t < |g|
    ensures
      var r := VirtualClosure(g, t, start);
      Distinct(r) && start <= r
      && forall x :: x in r <==> x in start || (Wanted(g, t, start, x) && FirstVirtual(g, t, start, x))
  {
    ClosureExact(g, t, start);
    ClosureWithin(g, t, start);
    var all := Closure(g, t, start);
    var tail := all[|start|..];
    assert all == start + tail;
    VirtualsAre(g, [t] + all, tail);
    DistinctJoin(start, Virtuals(g, [t] + all, tail));
  }

  lemma NamedIsWanted(g: Graph, t: nat, start: seq<nat>, x: nat)
    requires Fit(g, start) && t < |g| && InheritedVirtually(g, t, start, x)
    ensures Wanted(g, t, start, x)
  {
    var c :| 0 <= c < |g| && (c == t || Wanted(g, t, start, c)) && Naming(g[c], x) == Named(true);
    NamingIsEdge(g[c], x);
    WantedOn(g, t, start, c, x);
  }

  lemma FirstVirtualIsInherited(g: Graph, t: nat, start: seq<nat>, x: nat)
    requires Fit(g, start) && t < |g| && FirstVirtual(g, t, start, x)
    ensures InheritedVirtually(g, t, start, x)
  {
    ClosureExact(g, t, start);
    ClosureWithin(g, t, start);
    var order := [t] + Closure(g, t, start);
    FirstNamingIs(g, order, x);
    var i :| 0 <= i < |order| && Naming(g[order[i]], x) == Named(true);
    assert i > 0 ==> order[i] in Closure(g, t, start);
  }

  /** The virtual mode finds the start list and all virtually inherited ancestors if and only if
      none of these outside the start list is first named by a class that does not inherit it
      virtually. */
  lemma VirtualModeExact(g: Graph, t: nat, start: seq<nat>)
    requires Fit(g, start) && t < |g|
    ensures (forall x :: x in VirtualClosure(g, t, start) <==> x in start || InheritedVirtually(g, t, start, x))
       <==> (forall x :: InheritedVirtually(g, t, start, x) && x !in start ==> FirstVirtual(g, t, start, x))
  {
    VirtualClosureIs(g, t, start);
    forall x | InheritedVirtually(g, t, start, x) ensures Wanted(g, t, start, x) {
      NamedIsWanted(g, t, start, x);
    }
    forall x | FirstVirtual(g, t, start, x) ensures InheritedVirtually(g, t, start, x) {
      FirstVirtualIsInherited(g, t, start, x);
    }
  }

  /** Every class is inherited always virtually or never. */
  ghost predicate Consistent(g: Graph) {
    forall c, d, x :: 0 <= c < |g| && 0 <= d < |g| && Naming(g[c], x).Named? && Naming(g[d], x).Named? ==>
      Naming(g[c], x) == Naming(g[d], x)
  }

  lemma FirstNamed(g: Graph, order: seq<nat>, x: nat, c: nat)
    requires Within(g, order) && Consistent(g) && c in order && Naming(g[c], x).Named?
    ensures FirstNaming(g, order, x) == Naming(g[c], x)
  {
    FirstNamingIs(g, order, x);
  }

  lemma ConsistentIsEnough(g: Graph, t: nat, start: seq<nat>, x: nat)
    requires Fit(g, start) && t < |g| && Consistent(g) && InheritedVirtually(g, t, start, x)
    ensures FirstVirtual(g, t, start, x)
  {
    ClosureExact(g, t, start);
    ClosureWithin(g, t, start);
    var order := [t] + Closure(g, t, start);
    var c :| 0 <= c < |g| && (c == t || Wanted(g, t, start, c)) && Naming(g[c], x) == Named(true);
    assert c in order;
    FirstNamed(g, order, x, c);
  }

  /** 0 derives from 1 and 2, 1 from 3, and 2 virtually from 3. */
  function BothWays(): Graph {
    [[Base(1, false), Base(2, false)], [Base(3, false)], [Base(3, true)], []]
  }

  lemma BothWaysNaming(order: seq<nat>)
    requires Within(BothWays(), order) && |order| >= 2 && order[0] == 0 && order[1] == 1
    ensures FirstNaming(BothWays(), order, 3) == Named(false)
  {
    assert Naming(BothWays()[0], 3) == Unnamed && Naming(BothWays()[1], 3) == Named(false);
    assert FirstNaming(BothWays(), order[1..], 3) == Named(false);
  }

  lemma BothWaysFits()
    ensures Fit(BothWays(), [1, 2])
  {
  }

  /** A class inherited both ways can be missed. */
  lemma BothWaysMissed()
    ensures Fit(BothWays(), [1, 2]) && InheritedVirtually(BothWays(), 0, [1, 2], 3)
    ensures 3 !in VirtualClosure(BothWays(), 0, [1, 2])
  {
    BothWaysFits();
    assert InheritedVirtually(BothWays(), 0, [1, 2], 3) by {
      assert Wanted(BothWays(), 0, [1, 2], 2) && Naming(BothWays()[2], 3) == Named(true);
    }
    FirstNotVirtual();
    VirtualClosureIs(BothWays(), 0, [1, 2]);
  }

  lemma FirstNotVirtual()
    ensures Fit(BothWays(), [1, 2]) && !FirstVirtual(BothWays(), 0, [1, 2], 3)
  {
    BothWaysFits();
    ClosureExact(BothWays(), 0, [1, 2]);
    ClosureWithin(BothWays(), 0, [1, 2]);
    BothWaysNaming([0] + Closure(BothWays(), 0, [1, 2]));
  }

  // ---------------------------------------------------------------- the loop

  method Contains(q: seq<nat>, size: nat, x: nat) returns (existed: bool)
    requires size <= |q|
    ensures existed <==> x in q[..size]
  {
    existed := false;
    var j := 0;
    while j < size
      invariant j <= size && x !in q[..j]
    {
      if q[j] == x {
        return true;
      }
      j := j + 1;
    }
  }

  /** The bases in bs that the first `size` members of all do not hold, put behind these;
      in the virtual mode those inherited virtually are put behind `kept` as well. */
  method AddNew(all: seq<nat>, bs: seq<Base>, kept: seq<nat>) returns (more: seq<nat>, keep: seq<nat>)
    ensures more == all + New(all, bs)
    ensures keep == kept + NewVirtual(all, bs)
  {
    more, keep := all, kept;
    var i := 0;
    while i < |bs|
      invariant i <= |bs|
      invariant more == all + New(all, bs[..i]) && keep == kept + NewVirtual(all, bs[..i])
    {
      assert bs[..i + 1][..i] == bs[..i];
      var existed := Contains(more, |all|, bs[i].base);
      assert more[..|all|] == all;
      if !existed {
        more := more + [bs[i].base];
        if bs[i].isVirtual {
          keep := keep + [bs[i].base];
        }
      }
      i := i + 1;
    }
    assert bs[..i] == bs;
  }

  function NewVirtual(known: seq<nat>, bs: seq<Base>): seq<nat> {
    if bs == [] then []
    else
      var (b, init) := (bs[|bs| - 1], bs[..|bs| - 1]);
      NewVirtual(known, init) + if b.base in known || !b.isVirtual then [] else [b.base]
  }

  lemma {:induction false} FirstNamingSnoc(g: Graph, order: seq<nat>, c: nat, x: nat)
    requires Within(g, order) && c < |g|
    ensures FirstNaming(g, order + [c], x)
         == if FirstNaming(g, order, x).Named? then FirstNaming(g, order, x) else Naming(g[c], x)
    decreases |order|
  {
    if order == [] {
      assert [c][1..] == [];
    } else {
      assert (order + [c])[1..] == order[1..] + [c];
      FirstNamingSnoc(g, order[1..], c, x);
    }
  }

  lemma {:induction false} VirtualsJoin(g: Graph, order: seq<nat>, p: seq<nat>, q: seq<nat>)
    requires Within(g, order)
    ensures Virtuals(g, order, p + q) == Virtuals(g, order, p) + Virtuals(g, order, q)
    decreases |q|
  {
    if q == [] {
      assert p + q == p;
    } else {
      assert (p + q)[..|p + q| - 1] == p + q[..|q| - 1];
      VirtualsJoin(g, order, p, q[..|q| - 1]);
    }
  }

  lemma {:induction false} VirtualsStable(g: Graph, order: seq<nat>, c: nat, q: seq<nat>)
    requires Within(g, order) && c < |g| && forall x <- q :: FirstNaming(g, order, x).Named?
    ensures Virtuals(g, order + [c], q) == Virtuals(g, order, q)
    decreases |q|
  {
    if q != [] {
      FirstNamingSnoc(g, order, c, q[|q| - 1]);
      assert q[|q| - 1] in q;
      VirtualsStable(g, order, c, q[..|q| - 1]);
    }
  }

  lemma {:induction false} NamingUnique(bs: seq<Base>, i: nat)
    requires OneEach(bs) && i < |bs|
    ensures Naming(bs, bs[i].base) == Named(bs[i].isVirtual)
    decreases |bs|
  {
    if i > 0 {
      NamingUnique(bs[1..], i - 1);
    }
  }

  lemma VirtualsOne(g: Graph, order: seq<nat>, x: nat)
    requires Within(g, order)
    ensures Virtuals(g, order, [x]) == if FirstNaming(g, order, x) == Named(true) then [x] else []
  {
    assert [x][..0] == [];
  }

  lemma {:induction false} VirtualsNew(g: Graph, order: seq<nat>, c: nat, known: seq<nat>, n: nat)
    requires WellFormed(g) && Within(g, order) && c < |g| && n <= |g[c]|
    requires forall x :: x !in known ==> FirstNaming(g, order, x).Unnamed?
    ensures Virtuals(g, order + [c], New(known, g[c][..n])) == NewVirtual(known, g[c][..n])
    decreases n
  {
    if n > 0 {
      var (b, p) := (g[c][n - 1], New(known, g[c][..n - 1]));
      assert g[c][..n][..n - 1] == g[c][..n - 1] && g[c][..n][n - 1] == b;
      VirtualsNew(g, order, c, known, n - 1);
      if b.base in known {
        assert New(known, g[c][..n]) == p;
        assert NewVirtual(known, g[c][..n]) == NewVirtual(known, g[c][..n - 1]);
      } else {
        assert New(known, g[c][..n]) == p + [b.base];
        VirtualsJoin(g, order + [c], p, [b.base]);
        VirtualsOne(g, order + [c], b.base);
        NamingUnique(g[c], n - 1);
        FirstNamingSnoc(g, order, c, b.base);
        assert NewVirtual(known, g[c][..n])
            == NewVirtual(known, g[c][..n - 1]) + if b.isVirtual then [b.base] else [];
      }
    }
  }

  /** What the virtual mode has kept, once the classes in `looked` have been looked at. */
  ghost predicate Keeps(g: Graph, start: seq<nat>, looked: seq<nat>, all: seq<nat>, bases: seq<nat>) {
    && Within(g, looked)
    && start <= all
    && bases == start + Virtuals(g, looked, all[|start|..])
    && (forall x <- all[|start|..] :: FirstNaming(g, looked, x).Named?)
    && forall x :: x !in all ==> FirstNaming(g, looked, x).Unnamed?
  }

  lemma NamedNext(g: Graph, looked: seq<nat>, all: seq<nat>, c: nat, x: nat)
    requires WellFormed(g) && Within(g, looked) && c < |g|
    ensures x in New(all, g[c]) || FirstNaming(g, looked, x).Named? ==> FirstNaming(g, looked + [c], x).Named?
    ensures x !in all + New(all, g[c]) && FirstNaming(g, looked, x).Unnamed? ==>
      FirstNaming(g, looked + [c], x).Unnamed?
  {
    NewIs(all, g[c]);
    FirstNamingSnoc(g, looked, c, x);
    NamingIsEdge(g[c], x);
  }

  lemma KeptNext(g: Graph, looked: seq<nat>, all: seq<nat>, tail: seq<nat>, c: nat)
    requires WellFormed(g) && Within(g, looked) && c < |g|
    requires forall x <- tail :: FirstNaming(g, looked, x).Named?
    requires forall x :: x !in all ==> FirstNaming(g, looked, x).Unnamed?
    ensures Virtuals(g, looked + [c], tail + New(all, g[c])) == Virtuals(g, looked, tail) + NewVirtual(all, g[c])
  {
    assert g[c][..|g[c]|] == g[c];
    VirtualsStable(g, looked, c, tail);
    VirtualsNew(g, looked, c, all, |g[c]|);
    VirtualsJoin(g, looked + [c], tail, New(all, g[c]));
  }

  lemma TailOf(start: seq<nat>, all: seq<nat>, more: seq<nat>)
    requires start <= all
    ensures start <= all + more && (all + more)[|start|..] == all[|start|..] + more
  {
  }

  lemma KeepsNext(g: Graph, start: seq<nat>, looked: seq<nat>, all: seq<nat>, bases: seq<nat>, c: nat)
    requires WellFormed(g) && c < |g| && Keeps(g, start, looked, all, bases)
    ensures Keeps(g, start, looked + [c], all + New(all, g[c]), bases + NewVirtual(all, g[c]))
  {
    var (more, tail) := (New(all, g[c]), all[|start|..]);
    assert Within(g, looked + [c]);
    TailOf(start, all, more);
    KeptNext(g, looked, all, tail, c);
    Assoc(start, Virtuals(g, looked, tail), NewVirtual(all, g[c]));
    assert bases + NewVirtual(all, g[c]) == start + Virtuals(g, looked + [c], (all + more)[|start|..]);
    assert forall x <- tail + more :: FirstNaming(g, looked + [c], x).Named? by {
      forall x | x in tail + more ensures FirstNaming(g, looked + [c], x).Named? {
        NamedNext(g, looked, all, c, x);
      }
    }
    forall x | x !in all + more ensures FirstNaming(g, looked + [c], x).Unnamed? {
      NamedNext(g, looked, all, c, x);
    }
  }

  lemma KeepsStart(g: Graph, start: seq<nat>)
    ensures Keeps(g, start, [], start, start)
  {
    assert start[|start|..] == [];
  }

  /** When everything in the list has been looked at, the two modes are done. */
  lemma WorkDone(g: Graph, t: nat, start: seq<nat>, looked: seq<nat>, all: seq<nat>, bases: seq<nat>)
    requires Fit(g, start) && t < |g| && all == Closure(g, t, start) && looked == [t] + all
    requires Keeps(g, start, looked, all, bases)
    ensures bases == VirtualClosure(g, t, start)
  {
  }

  lemma LookedNext(t: nat, before: seq<nat>, all: seq<nat>, index: nat, looked: seq<nat>)
    requires index <= |before| && before <= all && index < |all| && looked == [t] + before[..index]
    ensures looked + [all[index]] == [t] + all[..index + 1]
  {
    assert all[..index + 1] == before[..index] + [all[index]];
  }

  /** Where the loop stands: cl is to be looked at, the members of all before index are taken. */
  ghost predicate Todo(g: Graph, t: nat, start: seq<nat>, all: seq<nat>, cl: nat, index: nat)
    requires Fit(g, start) && t < |g|
  {
    && Fit(g, all) && index <= |all| && cl < |g|
    && Fit(g, all + New(all, g[cl]))
    && Work(g, all + New(all, g[cl]), index) == Closure(g, t, start)
  }

  lemma TodoNext(g: Graph, t: nat, start: seq<nat>, all: seq<nat>, cl: nat, index: nat)
    requires Fit(g, start) && t < |g| && Todo(g, t, start, all, cl, index)
    ensures
      var next := all + New(all, g[cl]);
      index <= |next| <= |g|
      && if index < |next| then Todo(g, t, start, next, next[index], index + 1) else next == Closure(g, t, start)
  {
    var next := all + New(all, g[cl]);
    Bounded(next, |g|);
    if index < |next| {
      NewFits(g, next, next[index]);
    }
  }

  /** Collects into bases, which holds `start`, what the mode asks for. */
  method FindAllBaseClass(g: Graph, t: nat, start: seq<nat>, virtualOnly: bool) returns (bases: seq<nat>)
    requires Fit(g, start) && t < |g|
    ensures bases == if virtualOnly then VirtualClosure(g, t, start) else Closure(g, t, start)
  {
    bases := start;
    var all := start;
    var cl: nat, index: nat := t, 0;
    ghost var looked: seq<nat> := [];
    ghost var kept := start;
    NewFits(g, start, t);
    KeepsStart(g, start);
    while true
      invariant Todo(g, t, start, all, cl, index)
      invariant looked + [cl] == [t] + all[..index]
      invariant Keeps(g, start, looked, all, kept) && (virtualOnly ==> bases == kept)
      decreases |g| - index
    {
      TodoNext(g, t, start, all, cl, index);
      KeepsNext(g, start, looked, all, kept, cl);
      kept := kept + NewVirtual(all, g[cl]);
      ghost var before := all;
      var keep;
      all, keep := AddNew(all, g[cl], bases);
      looked := looked + [cl];
      if virtualOnly {
        bases := keep;
      }
      if index == |all| {
        break;
      }
      LookedNext(t, before, all, index, looked);
      cl := all[index];
      index := index + 1;
    }
    assert all[..|all|] == all;
    WorkDone(g, t, start, looked, all, kept);
    if !virtualOnly {
      bases := all;
    }
  }
}
