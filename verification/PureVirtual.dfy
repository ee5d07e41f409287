/** Which pure virtual methods a class is left with. */
module PureVirtual {
  import opened Dispatch
  import opened Sequences

  predicate Implemented(ms: seq<Method>, sig: Signature) {
    exists m <- ms :: !m.isPure && m.sig == sig
  }

  /** The pure methods of ms that nothing after them implements. */
  function Open(ms: seq<Method>): seq<Method> {
    if ms == [] then []
    else (if ms[0].isPure && !Implemented(ms[1..], ms[0].sig) then [ms[0]] else []) + Open(ms[1..])
  }

  /** The declarations in the order the search meets them: those of the public bases, in order,
      before the class's own. */
  function Traversal(p: Program, c: nat): seq<Method>
    requires WellFormed(p) && c < |p|
    decreases c, 1, 0
  {
    Inherited(p, c, |p[c].bases|) + p[c].members
  }

  function Inherited(p: Program, c: nat, i: nat): seq<Method>
    requires WellFormed(p) && c < |p| && i <= |p[c].bases|
    decreases c, 0, i
  {
    if i == 0 then []
    else
      var b := p[c].bases[i - 1];
      assert b in p[c].bases;
      Inherited(p, c, i - 1) + if b.access == Public then Traversal(p, b.parent) else []
  }

  /** lst without the methods that ms implements. */
  function Left(lst: seq<Method>, ms: seq<Method>): seq<Method> {
    if lst == [] then []
    else (if Implemented(ms, lst[0].sig) then [] else [lst[0]]) + Left(lst[1..], ms)
  }

  /** The list after the declarations ms. */
  function After(lst: seq<Method>, ms: seq<Method>): seq<Method> {
    Left(lst, ms) + Open(ms)
  }

  lemma {:induction false} LeftJoin(p: seq<Method>, q: seq<Method>, ms: seq<Method>)
    ensures Left(p + q, ms) == Left(p, ms) + Left(q, ms)
    decreases |p|
  {
    if p == [] {
      assert p + q == q;
    } else {
      assert (p + q)[1..] == p[1..] + q;
      LeftJoin(p[1..], q, ms);
    }
  }

  lemma ImplementedJoin(p: seq<Method>, q: seq<Method>, sig: Signature)
    ensures Implemented(p + q, sig) <==> Implemented(p, sig) || Implemented(q, sig)
  {
  }

  lemma LeftSingle(m: Method, ms: seq<Method>)
    ensures Left([m], ms) == if Implemented(ms, m.sig) then [] else [m]
  {
    assert [m][1..] == [];
  }

  lemma LeftHead(lst: seq<Method>, ms: seq<Method>)
    requires lst != []
    ensures Left(lst, ms) == if Implemented(ms, lst[0].sig) then Left(lst[1..], ms) else [lst[0]] + Left(lst[1..], ms)
  {
  }

  lemma OpenHead(ms: seq<Method>)
    requires ms != []
    ensures Open(ms)
         == if ms[0].isPure && !Implemented(ms[1..], ms[0].sig) then [ms[0]] + Open(ms[1..]) else Open(ms[1..])
  {
  }

  lemma {:induction false} LeftTwice(lst: seq<Method>, p: seq<Method>, q: seq<Method>)
    ensures Left(Left(lst, p), q) == Left(lst, p + q)
    decreases |lst|
  {
    if lst != [] {
      LeftTwice(lst[1..], p, q);
      ImplementedJoin(p, q, lst[0].sig);
      LeftSingle(lst[0], q);
      LeftHead(lst, p);
      LeftHead(lst, p + q);
      LeftJoin([lst[0]], Left(lst[1..], p), q);
    }
  }

  lemma {:induction false} OpenJoin(p: seq<Method>, q: seq<Method>)
    ensures Open(p + q) == Left(Open(p), q) + Open(q)
    decreases |p|
  {
    if p == [] {
      assert p + q == q;
    } else {
      assert (p + q)[1..] == p[1..] + q;
      OpenJoin(p[1..], q);
      ImplementedJoin(p[1..], q, p[0].sig);
      LeftSingle(p[0], q);
      OpenHead(p);
      OpenHead(p + q);
      LeftJoin([p[0]], Open(p[1..]), q);
      Assoc(Left([p[0]], q), Left(Open(p[1..]), q), Open(q));
    }
  }

  /** Meeting p and then q is meeting p + q. */
  lemma AfterBoth(lst: seq<Method>, p: seq<Method>, q: seq<Method>)
    ensures After(After(lst, p), q) == After(lst, p + q)
  {
    LeftJoin(Left(lst, p), Open(p), q);
    LeftTwice(lst, p, q);
    OpenJoin(p, q);
  }

  lemma {:induction false} LeftNone(lst: seq<Method>)
    ensures Left(lst, []) == lst
    decreases |lst|
  {
    if lst != [] {
      LeftNone(lst[1..]);
    }
  }

  lemma {:induction false} LeftOne(lst: seq<Method>, m: Method)
    requires m.isPure
    ensures Left(lst, [m]) == lst
    decreases |lst|
  {
    if lst != [] {
      LeftOne(lst[1..], m);
    }
  }

  /** Keeps the methods of lst that differ from m. */
  method Erase(lst: seq<Method>, m: Method) returns (kept: seq<Method>)
    requires !m.isPure
    ensures kept == Left(lst, [m])
  {
    kept := [];
    var i := 0;
    while i < |lst|
      invariant i <= |lst| && Left(lst, [m]) == kept + Left(lst[i..], [m])
    {
      LeftNext(lst, m, i, kept);
      if lst[i].sig != m.sig {
        kept := kept + [lst[i]];
      }
      i := i + 1;
    }
  }

  lemma LeftNext(lst: seq<Method>, m: Method, i: nat, kept: seq<Method>)
    requires !m.isPure && i < |lst|
    ensures kept + Left(lst[i..], [m])
         == (if lst[i].sig != m.sig then kept + [lst[i]] else kept) + Left(lst[i + 1..], [m])
  {
    assert lst[i..][1..] == lst[i + 1..];
    if lst[i].sig != m.sig {
      Assoc(kept, [lst[i]], Left(lst[i + 1..], [m]));
    }
  }

  /** What the class's own declarations change. */
  method MeetMembers(ms: seq<Method>, lst: seq<Method>) returns (found: seq<Method>)
    ensures found == After(lst, ms)
  {
    found := lst;
    LeftNone(lst);
    var j := 0;
    while j < |ms|
      invariant j <= |ms| && found == After(lst, ms[..j])
    {
      var m := ms[j];
      AfterBoth(lst, ms[..j], [m]);
      assert ms[..j] + [m] == ms[..j + 1];
      AfterOne(found, m);
      if m.isPure {
        found := found + [m];
      } else {
        found := Erase(found, m);
      }
      j := j + 1;
    }
    assert ms[..j] == ms;
  }

  lemma AfterOne(lst: seq<Method>, m: Method)
    ensures After(lst, [m]) == if m.isPure then lst + [m] else Left(lst, [m])
  {
    assert [m][1..] == [];
    OpenHead([m]);
    assert Open([m]) == if m.isPure then [m] else [];
    if m.isPure {
      LeftOne(lst, m);
    }
  }

  /** What one more base changes. */
  lemma InheritedNext(p: Program, c: nat, i: nat, lst: seq<Method>, met: seq<Method>)
    requires WellFormed(p) && c < |p| && i < |p[c].bases|
    requires met == After(lst, Inherited(p, c, i))
    ensures p[c].bases[i].parent < c
    ensures
      After(lst, Inherited(p, c, i + 1))
        == if p[c].bases[i].access == Public then After(met, Traversal(p, p[c].bases[i].parent)) else met
  {
    var b := p[c].bases[i];
    assert b in p[c].bases;
    if b.access == Public {
      AfterBoth(lst, Inherited(p, c, i), Traversal(p, b.parent));
      assert Inherited(p, c, i + 1) == Inherited(p, c, i) + Traversal(p, b.parent);
    } else {
      assert Inherited(p, c, i + 1) == Inherited(p, c, i);
    }
  }

  predicate NonePublic(bases: seq<Base>) {
    forall b <- bases :: b.access != Public
  }

  lemma NonePublicNext(bases: seq<Base>, i: nat)
    requires i < |bases|
    ensures NonePublic(bases[..i + 1]) <==> NonePublic(bases[..i]) && bases[i].access != Public
  {
    assert bases[..i + 1] == bases[..i] + [bases[i]];
  }

  /** What base i changes, if it is public. */
  method MeetBase(p: Program, c: nat, i: nat, ghost lst: seq<Method>, met: seq<Method>) returns (found: seq<Method>)
    requires WellFormed(p) && c < |p| && i < |p[c].bases| && met == After(lst, Inherited(p, c, i))
    ensures found == After(lst, Inherited(p, c, i + 1))
    decreases c, 0
  {
    InheritedNext(p, c, i, lst, met);
    found := met;
    if p[c].bases[i].access == Public {
      var ignored;
      found, ignored := FindPureVirtual(p, p[c].bases[i].parent, found);
    }
  }

  /** What the public bases change, in order; `root` says that there is none. */
  method MeetBases(p: Program, c: nat, lst: seq<Method>) returns (found: seq<Method>, root: bool)
    requires WellFormed(p) && c < |p|
    ensures found == After(lst, Inherited(p, c, |p[c].bases|))
    ensures root <==> NonePublic(p[c].bases)
    decreases c, 1
  {
    root, found := true, lst;
    LeftNone(lst);
    var i := 0;
    while i < |p[c].bases|
      invariant i <= |p[c].bases| && found == After(lst, Inherited(p, c, i))
      invariant root <==> NonePublic(p[c].bases[..i])
    {
      found := MeetBase(p, c, i, lst, found);
      NonePublicNext(p[c].bases, i);
      if p[c].bases[i].access == Public {
        root := false;
      }
      i := i + 1;
    }
    assert p[c].bases[..i] == p[c].bases;
  }

  /** Updates lst by the declarations of class c and its public bases; `root` says that c has no
      public base. */
  method FindPureVirtual(p: Program, c: nat, lst: seq<Method>) returns (found: seq<Method>, root: bool)
    requires WellFormed(p) && c < |p|
    ensures found == After(lst, Traversal(p, c))
    ensures root <==> NonePublic(p[c].bases)
    decreases c, 2
  {
    found, root := MeetBases(p, c, lst);
    AfterBoth(lst, Inherited(p, c, |p[c].bases|), p[c].members);
    found := MeetMembers(p[c].members, found);
  }

  /** From an empty list: exactly the pure methods that no later declaration implements. */
  lemma {:induction false} OpenIs(ms: seq<Method>, m: Method)
    ensures m in Open(ms) <==>
      exists i :: 0 <= i < |ms| && ms[i] == m && m.isPure && !Implemented(ms[i + 1..], m.sig)
    decreases |ms|
  {
    if ms != [] {
      var rest := ms[1..];
      OpenIs(rest, m);
      forall i | 0 <= i < |rest| ensures rest[i + 1..] == ms[i + 2..] && rest[i] == ms[i + 1] {
      }
      if i :| 0 <= i < |rest| && rest[i] == m && m.isPure && !Implemented(rest[i + 1..], m.sig) {
        assert ms[i + 1] == m && !Implemented(ms[i + 2..], m.sig);
      }
      if i :| 0 < i < |ms| && ms[i] == m && m.isPure && !Implemented(ms[i + 1..], m.sig) {
        assert rest[i - 1] == m && !Implemented(rest[i..], m.sig);
      }
    }
  }

  lemma FromNothing(ms: seq<Method>)
    ensures After([], ms) == Open(ms)
  {
  }

  /** What FindPureVirtual makes of an empty list: exactly the pure methods of the class and its
      public bases that no later declaration implements. */
  lemma StillPure(p: Program, c: nat, m: Method)
    requires WellFormed(p) && c < |p|
    ensures
      var ms := Traversal(p, c);
      m in After([], ms) <==>
        exists i :: 0 <= i < |ms| && ms[i] == m && m.isPure && !Implemented(ms[i + 1..], m.sig)
  {
    FromNothing(Traversal(p, c));
    OpenIs(Traversal(p, c), m);
  }

  // ---------------------------------------------------------------- in terms of the classes

  /** ms declares m pure, and nothing behind that in ms implements it. */
  predicate OpenIn(ms: seq<Method>, m: Method) {
    m.isPure
    && exists j :: 0 <= j < |ms| && ms[j] == m && forall k :: j < k < |ms| && ms[k].sig == m.sig ==> ms[k].isPure
  }

  predicate Implements(ms: seq<Method>, sig: Signature) {
    exists k :: 0 <= k < |ms| && ms[k].sig == sig && !ms[k].isPure
  }

  lemma ImplementsIs(ms: seq<Method>, sig: Signature)
    ensures Implements(ms, sig) <==> Implemented(ms, sig)
  {
  }

  lemma OpenInIs(ms: seq<Method>, m: Method)
    ensures m in Open(ms) <==> OpenIn(ms, m)
  {
    OpenIs(ms, m);
    if m in Open(ms) {
      var i :| 0 <= i < |ms| && ms[i] == m && m.isPure && !Implemented(ms[i + 1..], m.sig);
      forall k | i < k < |ms| && ms[k].sig == m.sig ensures ms[k].isPure {
        assert ms[k] == ms[i + 1..][k - i - 1];
      }
    }
  }

  lemma {:induction false} LeftIs(lst: seq<Method>, ms: seq<Method>, m: Method)
    ensures m in Left(lst, ms) <==> m in lst && !Implemented(ms, m.sig)
    decreases |lst|
  {
    if lst != [] {
      LeftIs(lst[1..], ms, m);
    }
  }

  /** What a class is left with, from what its bases leave. */
  lemma OwnAndInherited(p: Program, c: nat, m: Method)
    requires WellFormed(p) && c < |p|
    ensures m in After([], Traversal(p, c)) <==>
      OpenIn(p[c].members, m)
      || (m in After([], Inherited(p, c, |p[c].bases|)) && !Implements(p[c].members, m.sig))
  {
    var (inherited, own) := (Inherited(p, c, |p[c].bases|), p[c].members);
    AfterBoth([], inherited, own);
    LeftIs(After([], inherited), own, m);
    OpenInIs(own, m);
    ImplementsIs(own, m.sig);
  }

  predicate Classes(p: Program, q: seq<nat>) {
    forall i :: 0 <= i < |q| ==> q[i] < |p|
  }

  /** From each class to the next leads its only public base; the first has none. */
  predicate Line(p: Program, q: seq<nat>) {
    && q != [] && Classes(p, q) && NonePublic(p[q[0]].bases)
    && forall i :: 0 < i < |q| ==> SolePublic(p[q[i]].bases, q[i - 1])
  }

  predicate SolePublic(bases: seq<Base>, parent: nat) {
    exists j :: 0 <= j < |bases| && bases[j].access == Public && bases[j].parent == parent
                && forall k :: 0 <= k < |bases| && bases[k].access == Public ==> k == j
  }

  /** m is declared pure in one class of the line and not implemented in it behind that, nor in a
      class that follows. */
  predicate LineOpen(p: Program, q: seq<nat>, m: Method)
    requires Classes(p, q)
  {
    exists i :: 0 <= i < |q| && OpenIn(p[q[i]].members, m)
                && forall l :: i < l < |q| ==> !Implements(p[q[l]].members, m.sig)
  }

  lemma {:induction false} NoneInherited(p: Program, c: nat, i: nat)
    requires WellFormed(p) && c < |p| && i <= |p[c].bases|
    requires forall k :: 0 <= k < i ==> p[c].bases[k].access != Public
    ensures Inherited(p, c, i) == []
  {
    if i > 0 {
      assert p[c].bases[i - 1] in p[c].bases;
      NoneInherited(p, c, i - 1);
    }
  }

  lemma {:induction false} SoleInherited(p: Program, c: nat, j: nat, i: nat)
    requires WellFormed(p) && c < |p| && j < i <= |p[c].bases| && p[c].bases[j].access == Public
    requires forall k :: 0 <= k < |p[c].bases| && p[c].bases[k].access == Public ==> k == j
    ensures p[c].bases[j].parent < c && Inherited(p, c, i) == Traversal(p, p[c].bases[j].parent)
  {
    assert p[c].bases[i - 1] in p[c].bases && p[c].bases[j] in p[c].bases;
    if i == j + 1 {
      NoneInherited(p, c, j);
    } else {
      SoleInherited(p, c, j, i - 1);
    }
  }

  lemma {:induction false} LineLeft(p: Program, q: seq<nat>, m: Method)
    requires WellFormed(p) && Line(p, q)
    ensures m in After([], Traversal(p, q[|q| - 1])) <==> LineOpen(p, q, m)
    decreases |q|
  {
    var (n, c) := (|q| - 1, q[|q| - 1]);
    OwnAndInherited(p, c, m);
    if n == 0 {
      assert forall k :: 0 <= k < |p[c].bases| ==> p[c].bases[k] in p[c].bases;
      NoneInherited(p, c, |p[c].bases|);
    } else {
      var (r, bs) := (q[..n], p[c].bases);
      assert SolePublic(bs, r[n - 1]);
      var j :| 0 <= j < |bs| && bs[j].access == Public && bs[j].parent == r[n - 1]
               && forall k :: 0 <= k < |bs| && bs[k].access == Public ==> k == j;
      SoleInherited(p, c, j, |bs|);
      LineLeft(p, r, m);
      LineLonger(p, q, m);
    }
  }

  lemma LineLonger(p: Program, q: seq<nat>, m: Method)
    requires |q| > 1 && Classes(p, q)
    ensures
      var own := p[q[|q| - 1]].members;
      LineOpen(p, q, m) <==> OpenIn(own, m) || (LineOpen(p, q[..|q| - 1], m) && !Implements(own, m.sig))
  {
    var (n, r) := (|q| - 1, q[..|q| - 1]);
    if LineOpen(p, r, m) && !Implements(p[q[n]].members, m.sig) {
      var i :| 0 <= i < n && OpenIn(p[r[i]].members, m)
               && forall l :: i < l < n ==> !Implements(p[r[l]].members, m.sig);
      assert OpenIn(p[q[i]].members, m);
      forall l | i < l < |q| ensures !Implements(p[q[l]].members, m.sig) {
        assert l < n ==> r[l] == q[l];
      }
    }
  }

  /** Everything the search meets is declared by the class or, through public bases only, by one
      above it; and all of that is met. */
  lemma {:induction false} MetFrom(p: Program, c: nat, m: Method) returns (q: seq<nat>, d: nat)
    requires WellFormed(p) && c < |p| && m in Traversal(p, c)
    ensures Chain(p, q, c, d, true) && m in p[d].members
    decreases c, 1, 0
  {
    if m in p[c].members {
      q, d := [c], c;
    } else {
      q, d := MetInBases(p, c, |p[c].bases|, m);
    }
  }

  lemma {:induction false} MetInBases(p: Program, c: nat, i: nat, m: Method) returns (q: seq<nat>, d: nat)
    requires WellFormed(p) && c < |p| && i <= |p[c].bases| && m in Inherited(p, c, i)
    ensures Chain(p, q, c, d, true) && m in p[d].members
    decreases c, 0, i
  {
    var b := p[c].bases[i - 1];
    assert b in p[c].bases;
    if m in Inherited(p, c, i - 1) {
      q, d := MetInBases(p, c, i - 1, m);
    } else {
      q, d := MetFrom(p, b.parent, m);
      assert Derives(p, c, b.parent, true);
      ChainLonger(p, q, c, b.parent, d, true);
      q := [c] + q;
    }
  }

  lemma {:induction false} AllMet(p: Program, q: seq<nat>, c: nat, d: nat, m: Method)
    requires WellFormed(p) && c < |p| && Chain(p, q, c, d, true) && m in p[d].members
    ensures m in Traversal(p, c)
    decreases |q|
  {
    if |q| > 1 {
      ChainTail(p, q, c, d, true);
      var b :| b in p[c].bases && b.parent == q[1] && b.access == Public;
      AllMet(p, q[1..], q[1], d, m);
      var i :| 0 <= i < |p[c].bases| && p[c].bases[i] == b;
      InheritedHas(p, c, i, |p[c].bases|, m);
    }
  }

  lemma {:induction false} InheritedHas(p: Program, c: nat, i: nat, n: nat, m: Method)
    requires WellFormed(p) && c < |p| && i < n <= |p[c].bases| && p[c].bases[i].access == Public
    requires p[c].bases[i] in p[c].bases && m in Traversal(p, p[c].bases[i].parent)
    ensures m in Inherited(p, c, n)
  {
    assert p[c].bases[n - 1] in p[c].bases;
    if i < n - 1 {
      InheritedHas(p, c, i, n - 1, m);
    }
  }

  /** Something that is left is declared pure by the class or a public ancestor. */
  lemma LeftFrom(p: Program, c: nat, m: Method) returns (q: seq<nat>, d: nat)
    requires WellFormed(p) && c < |p| && m in After([], Traversal(p, c))
    ensures Chain(p, q, c, d, true) && m in p[d].members && m.isPure
  {
    StillPure(p, c, m);
    q, d := MetFrom(p, c, m);
  }

  /** Nothing the search can meet implements sig. */
  ghost predicate NowhereImplemented(p: Program, c: nat, sig: Signature) {
    forall q, d: nat :: Chain(p, q, c, d, true) ==> !Implements(p[d].members, sig)
  }

  lemma NeverImplemented(p: Program, c: nat, q: seq<nat>, d: nat, m: Method)
    requires WellFormed(p) && c < |p| && Chain(p, q, c, d, true) && m in p[d].members && m.isPure
    requires NowhereImplemented(p, c, m.sig)
    ensures m in After([], Traversal(p, c))
  {
    AllMet(p, q, c, d, m);
    var ms := Traversal(p, c);
    var i :| 0 <= i < |ms| && ms[i] == m;
    if Implemented(ms[i + 1..], m.sig) {
      var x :| x in ms[i + 1..] && !x.isPure && x.sig == m.sig;
      assert x in ms;
      var q', d' := MetFrom(p, c, x);
      assert Implements(p[d'].members, m.sig);
    }
    StillPure(p, c, m);
  }

  // ---------------------------------------------------------------- several public bases

  /** What the search leaves of an empty list. */
  function Abstract(p: Program, c: nat): seq<Method>
    requires WellFormed(p) && c < |p|
  {
    After([], Traversal(p, c))
  }

  /** c, or a class that public bases lead to from c, implements sig. */
  ghost predicate ImplementedFrom(p: Program, c: nat, sig: Signature) {
    exists q, d: nat :: Chain(p, q, c, d, true) && Implements(p[d].members, sig)
  }

  lemma ImplementedFromIs(p: Program, c: nat, sig: Signature)
    requires WellFormed(p) && c < |p|
    ensures ImplementedFrom(p, c, sig) <==> Implemented(Traversal(p, c), sig)
  {
    if Implemented(Traversal(p, c), sig) {
      var x :| x in Traversal(p, c) && !x.isPure && x.sig == sig;
      var q, d := MetFrom(p, c, x);
      assert Implements(p[d].members, sig);
    } else if ImplementedFrom(p, c, sig) {
      var q, d: nat :| Chain(p, q, c, d, true) && Implements(p[d].members, sig);
      var k :| 0 <= k < |p[d].members| && p[d].members[k].sig == sig && !p[d].members[k].isPure;
      AllMet(p, q, c, d, p[d].members[k]);
      assert false;
    }
  }

  /** One of the first n bases leaves m, and no later one of these implements it. */
  ghost predicate BaseLeaves(p: Program, c: nat, n: nat, m: Method)
    requires WellFormed(p) && c < |p| && n <= |p[c].bases|
  {
    exists i :: 0 <= i < n && LeavesFrom(p, c, i, n, m)
  }

  /** Base i leaves m, and none of the bases behind it, before n, implements it. */
  ghost predicate LeavesFrom(p: Program, c: nat, i: nat, n: nat, m: Method)
    requires WellFormed(p) && c < |p| && i < n <= |p[c].bases|
  {
    LeftBy(p, p[c].bases[i], m) && forall l :: i < l < n ==> Spares(p, p[c].bases[l], m.sig)
  }

  lemma LeavesAt(p: Program, c: nat, n: nat, m: Method) returns (i: nat)
    requires WellFormed(p) && c < |p| && n <= |p[c].bases| && BaseLeaves(p, c, n, m)
    ensures i < n && LeavesFrom(p, c, i, n, m)
  {
    i :| 0 <= i < n && LeavesFrom(p, c, i, n, m);
  }

  /** Nothing that b leads to implements sig. */
  ghost predicate Spares(p: Program, b: Base, sig: Signature) {
    b.access == Public ==> !ImplementedFrom(p, b.parent, sig)
  }

  ghost predicate LeftBy(p: Program, b: Base, m: Method)
    requires WellFormed(p)
  {
    b.access == Public && b.parent < |p| && m in Abstract(p, b.parent)
  }

  /** In the list when the first n bases have been met. */
  ghost predicate Inherits(p: Program, c: nat, n: nat, m: Method)
    requires WellFormed(p) && c < |p| && n <= |p[c].bases|
  {
    m in After([], Inherited(p, c, n))
  }

  /** In the list after this base, by whether it was there before. */
  ghost predicate LeftAfter(p: Program, b: Base, before: bool, m: Method)
    requires WellFormed(p)
  {
    LeftBy(p, b, m) || (before && Spares(p, b, m.sig))
  }

  lemma InheritedStep(p: Program, c: nat, n: nat, m: Method)
    requires WellFormed(p) && c < |p| && n < |p[c].bases|
    ensures Inherits(p, c, n + 1, m) <==> LeftAfter(p, p[c].bases[n], Inherits(p, c, n, m), m)
  {
    var b := p[c].bases[n];
    assert b in p[c].bases;
    InheritedNext(p, c, n, [], After([], Inherited(p, c, n)));
    if b.access == Public {
      LeftIs(After([], Inherited(p, c, n)), Traversal(p, b.parent), m);
      FromNothing(Traversal(p, b.parent));
      ImplementedFromIs(p, b.parent, m.sig);
    }
  }

  lemma BaseLeavesNext(p: Program, c: nat, n: nat, m: Method)
    requires WellFormed(p) && c < |p| && n < |p[c].bases|
    ensures BaseLeaves(p, c, n + 1, m) <==> LeftAfter(p, p[c].bases[n], BaseLeaves(p, c, n, m), m)
  {
    if BaseLeaves(p, c, n + 1, m) {
      var i := LeavesAt(p, c, n + 1, m);
      if i < n {
        assert LeavesFrom(p, c, i, n, m);
      }
    } else if BaseLeaves(p, c, n, m) {
      var i := LeavesAt(p, c, n, m);
      assert !LeavesFrom(p, c, i, n + 1, m);
    }
    if LeftBy(p, p[c].bases[n], m) {
      assert LeavesFrom(p, c, n, n + 1, m);
    }
  }

  /** The traversal and what the bases leave agree on the first n bases. */
  ghost predicate AgreeOn(p: Program, c: nat, n: nat, m: Method)
    requires WellFormed(p) && c < |p|
  {
    n <= |p[c].bases| && Inherits(p, c, n, m) == BaseLeaves(p, c, n, m)
  }

  lemma AgreeOnNone(p: Program, c: nat, m: Method)
    requires WellFormed(p) && c < |p|
    ensures AgreeOn(p, c, 0, m)
  {
  }

  lemma AgreeOnNext(p: Program, c: nat, n: nat, m: Method)
    requires WellFormed(p) && c < |p| && n < |p[c].bases| && AgreeOn(p, c, n, m)
    ensures AgreeOn(p, c, n + 1, m)
  {
    InheritedStep(p, c, n, m);
    BaseLeavesNext(p, c, n, m);
  }

  lemma BasesAgree(p: Program, c: nat, m: Method)
    requires WellFormed(p) && c < |p|
    ensures AgreeOn(p, c, |p[c].bases|, m)
  {
    AgreeOnNone(p, c, m);
    for n := 0 to |p[c].bases|
      invariant AgreeOn(p, c, n, m)
    {
      AgreeOnNext(p, c, n, m);
    }
  }

  /** What any class is left with, by what its bases are left with: its own open methods, and what
      one of its public bases leaves, if no later public base implements it, nor a class above
      that, and neither does the class itself. */
  lemma AbstractIs(p: Program, c: nat, m: Method)
    requires WellFormed(p) && c < |p|
    ensures m in Abstract(p, c) <==>
      OpenIn(p[c].members, m) || (!Implements(p[c].members, m.sig) && BaseLeaves(p, c, |p[c].bases|, m))
  {
    OwnAndInherited(p, c, m);
    BasesAgree(p, c, m);
  }

  /** What FindPureVirtual makes of a list: what is in it and not implemented by the class or a
      class that public bases lead to, and what these leave of an empty list. */
  lemma ListUpdated(p: Program, c: nat, lst: seq<Method>, m: Method)
    requires WellFormed(p) && c < |p|
    ensures m in After(lst, Traversal(p, c)) <==>
      (m in lst && !ImplementedFrom(p, c, m.sig)) || m in Abstract(p, c)
  {
    LeftIs(lst, Traversal(p, c), m);
    ImplementedFromIs(p, c, m.sig);
    FromNothing(Traversal(p, c));
  }

  // ---------------------------------------------------------------- what is left, all together

  /** Along a line of single public inheritance: what is declared pure and not implemented in it
      behind that, nor further down. Bases that are not public play no part. */
  ghost predicate LinesLeave(p: Program, c: nat, found: seq<Method>) {
    forall q, m :: Line(p, q) && q[|q| - 1] == c ==> (m in found <==> LineOpen(p, q, m))
  }

  /** The class's own open methods, and of the inherited ones none that it implements. */
  ghost predicate OwnLeave(p: Program, c: nat, found: seq<Method>)
    requires c < |p|
  {
    && (forall m :: OpenIn(p[c].members, m) ==> m in found)
    && forall m <- found :: OpenIn(p[c].members, m) || !Implements(p[c].members, m.sig)
  }

  /** m is declared pure by c or a class that public bases lead to. */
  ghost predicate DeclaredPure(p: Program, c: nat, m: Method) {
    m.isPure && exists q, d: nat :: Chain(p, q, c, d, true) && m in p[d].members
  }

  /** Only what is declared pure, and all of it that none of these classes implements. */
  ghost predicate PublicLeave(p: Program, c: nat, found: seq<Method>) {
    && (forall m <- found :: DeclaredPure(p, c, m))
    && forall m :: DeclaredPure(p, c, m) && NowhereImplemented(p, c, m.sig) ==> m in found
  }

  lemma Leaves(p: Program, c: nat, found: seq<Method>)
    requires WellFormed(p) && c < |p| && found == After([], Traversal(p, c))
    ensures LinesLeave(p, c, found) && OwnLeave(p, c, found) && PublicLeave(p, c, found)
  {
    forall q, m | Line(p, q) && q[|q| - 1] == c ensures m in found <==> LineOpen(p, q, m) {
      LineLeft(p, q, m);
    }
    OwnLeft(p, c, found);
    PublicLeft(p, c, found);
  }

  lemma OwnLeft(p: Program, c: nat, found: seq<Method>)
    requires WellFormed(p) && c < |p| && found == After([], Traversal(p, c))
    ensures OwnLeave(p, c, found)
  {
    forall m ensures OpenIn(p[c].members, m) ==> m in found {
      OwnAndInherited(p, c, m);
    }
    forall m | m in found ensures OpenIn(p[c].members, m) || !Implements(p[c].members, m.sig) {
      OwnAndInherited(p, c, m);
    }
  }

  lemma PublicLeft(p: Program, c: nat, found: seq<Method>)
    requires WellFormed(p) && c < |p| && found == After([], Traversal(p, c))
    ensures PublicLeave(p, c, found)
  {
    forall m | m in found ensures DeclaredPure(p, c, m) {
      var q, d := LeftFrom(p, c, m);
    }
    forall m | DeclaredPure(p, c, m) && NowhereImplemented(p, c, m.sig) ensures m in found {
      var q, d: nat :| Chain(p, q, c, d, true) && m in p[d].members;
      NeverImplemented(p, c, q, d, m);
    }
  }

  /** The methods that make class c abstract, and whether it has no public base. */
  method PureMethods(p: Program, c: nat) returns (found: seq<Method>, root: bool)
    requires WellFormed(p) && c < |p|
    ensures found == Abstract(p, c)
    ensures LinesLeave(p, c, found) && OwnLeave(p, c, found) && PublicLeave(p, c, found)
    ensures root <==> forall b <- p[c].bases :: b.access != Public
  {
    found, root := FindPureVirtual(p, c, []);
    Leaves(p, c, found);
  }
}
