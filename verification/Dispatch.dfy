/** Method numbers, client stubs, and the chain of brokers a call runs through. */
module Dispatch {

  datatype Access = Public | Protected | Private

  datatype Kind = Normal | Maker | Destructor

  /** What two methods are compared by; types by their expanded names. */
  datatype Signature = Signature(
    isVirtual: bool, access: Access, kind: Kind, name: string, result: string, params: seq<string>)

  datatype Method = Method(sig: Signature, hidden: bool, isPure: bool, id: nat)

  datatype Base = Base(parent: nat, access: Access)

  datatype Class = Class(
    cid: nat, members: seq<Method>, bases: seq<Base>, noMaker: bool, pureVirtual: bool, core: bool)

  /** Classes by number; bases come first. */
  type Program = seq<Class>

  ghost predicate WellFormed(p: Program) {
    && (forall c :: 0 <= c < |p| ==> forall b <- p[c].bases :: b.parent < c)
    && (forall c, d :: 0 <= c < d < |p| ==> p[c].cid != p[d].cid)
    && forall c :: 0 <= c < |p| ==> Numbered(p[c].members) && OneDefault(p[c].members)
                                    && (p[c].noMaker <==> NoMaker(p[c].members))
  }

  // ---------------------------------------------------------------- numbers

  predicate IsDefault(m: Method) {
    m.sig.kind == Maker && m.sig.params == []
  }

  predicate NoMaker(ms: seq<Method>) {
    forall m <- ms :: m.sig.kind != Maker
  }

  /** The members of ms that take a number of their own. */
  function Counted(ms: seq<Method>): nat {
    if ms == [] then 0 else Counted(ms[..|ms| - 1]) + if IsDefault(ms[|ms| - 1]) then 0 else 1
  }

  /** The number of m behind ms. */
  function NextId(ms: seq<Method>, m: Method): nat {
    if IsDefault(m) then 10 else 11 + Counted(ms)
  }

  /** 10 for the default constructor, 11, 12, ... for the others in order. */
  ghost predicate Numbered(ms: seq<Method>) {
    forall i :: 0 <= i < |ms| ==> ms[i].id == NextId(ms[..i], ms[i])
  }

  ghost predicate OneDefault(ms: seq<Method>) {
    forall i, j :: 0 <= i < j < |ms| ==> !(IsDefault(ms[i]) && IsDefault(ms[j]))
  }

  lemma {:induction false} CountedGrows(ms: seq<Method>, i: nat, j: nat)
    requires i < j <= |ms| && !IsDefault(ms[i])
    ensures Counted(ms[..i]) < Counted(ms[..j])
    decreases j
  {
    assert ms[..j][..j - 1] == ms[..j - 1];
    if i < j - 1 {
      CountedGrows(ms, i, j - 1);
    }
  }

  /** Within a class no two methods have the same number. */
  lemma NumbersDiffer(ms: seq<Method>, i: nat, j: nat)
    requires Numbered(ms) && OneDefault(ms) && i < j < |ms|
    ensures ms[i].id != ms[j].id && ms[i].id >= 10 && ms[j].id >= 10
  {
    if !IsDefault(ms[i]) {
      CountedGrows(ms, i, j);
    }
  }

  lemma NumberedNext(ms: seq<Method>, m: Method)
    requires Numbered(ms) && m.id == NextId(ms, m)
    ensures Numbered(ms + [m]) && (NoMaker(ms + [m]) <==> NoMaker(ms) && m.sig.kind != Maker)
    ensures Counted(ms + [m]) == Counted(ms) + if IsDefault(m) then 0 else 1
  {
    var all := ms + [m];
    assert all[..|ms|] == ms && m in all && forall x <- ms :: x in all;
    forall i | 0 <= i < |all|
      ensures all[i].id == NextId(all[..i], all[i])
    {
      assert i < |ms| ==> all[..i] == ms[..i];
    }
  }

  /** A class under construction. */
  class Builder {
    var members: seq<Method>
    var endId: nat
    var noMaker: bool

    ghost predicate Valid()
      reads this
    {
      && Numbered(members)
      && endId == 11 + Counted(members)
      && (noMaker <==> NoMaker(members))
    }

    constructor ()
      ensures Valid() && members == []
    {
      members := [];
      endId := 11;
      noMaker := true;
    }

    method AddMember(m: Method)
      requires Valid()
      modifies this
      ensures Valid()
      ensures members == old(members) + [m.(id := NextId(old(members), m))]
    {
      ghost var was := members;
      var id;
      if m.sig.kind == Maker {
        noMaker := false;
      }
      if IsDefault(m) {
        id := 10;
      } else {
        id := endId;
        endId := endId + 1;
      }
      NumberedNext(was, m.(id := id));
      members := members + [m.(id := id)];
    }
  }

  // ---------------------------------------------------------------- inherited methods

  predicate HasMethod(c: Class, sig: Signature) {
    exists m <- c.members :: m.sig == sig
  }

  /** Some class that c inherits publicly, directly or not, declares such a method. */
  predicate MethodInBase(p: Program, c: nat, sig: Signature)
    requires WellFormed(p) && c < |p|
    decreases c
  {
    exists b <- p[c].bases :: b.access == Public
      && (HasMethod(p[b.parent], sig) || MethodInBase(p, b.parent, sig))
  }

  // ---------------------------------------------------------------- generated code

  /** Whether the client side gets a stub for member m of class c. */
  predicate HasStub(p: Program, c: nat, m: Method)
    requires WellFormed(p) && c < |p|
  {
    && m.sig.access == Public
    && !(p[c].pureVirtual && m.sig.kind == Maker && p[c].core)
    && m.sig.kind != Destructor
    && !((m.sig.isVirtual && MethodInBase(p, c, m.sig)) || m.hidden)
  }

  /** Whether the broker of class c gets a case for its member m. */
  predicate HasCase(p: Program, c: nat, m: Method)
    requires WellFormed(p) && c < |p|
  {
    && m.sig.access == Public
    && !(m.sig.kind == Destructor || m.hidden || (p[c].pureVirtual && m.sig.kind == Maker && p[c].core)
         || (m.sig.isVirtual && MethodInBase(p, c, m.sig)))
  }

  /** Whether class c gets the constructor nobody wrote. */
  predicate Implicit(c: Class) {
    c.noMaker && !c.pureVirtual
  }

  /** Where a call ends. */
  datatype Target =
    | Wrapper(cls: nat, member: nat)
    | ImplicitMaker(cls: nat)
    | CoreCall
    | Refused

  /** The switch of the broker of c, from member i on. */
  function Switch(p: Program, c: nat, mid: nat, i: nat): (t: Target)
    requires WellFormed(p) && c < |p| && i <= |p[c].members|
    decreases |p[c].members| - i
  {
    if i == |p[c].members| then (if Implicit(p[c]) && mid == 10 then ImplicitMaker(c) else Refused)
    else if HasCase(p, c, p[c].members[i]) && p[c].members[i].id == mid then Wrapper(c, i)
    else Switch(p, c, mid, i + 1)
  }

  /** The call (cid, mid) at the broker of c: its own switch if the class number is its own,
      its bases' brokers in order otherwise, the core calls where there is no base. */
  function Invoke(p: Program, c: nat, cid: nat, mid: nat): (t: Target)
    requires WellFormed(p) && c < |p|
    decreases c, 1, 0
  {
    if cid == p[c].cid then Switch(p, c, mid, 0)
    else if p[c].bases == [] then (if mid < 10 then CoreCall else Refused)
    else InvokeBases(p, c, cid, mid, 0)
  }

  function InvokeBases(p: Program, c: nat, cid: nat, mid: nat, i: nat): (t: Target)
    requires WellFormed(p) && c < |p| && i <= |p[c].bases|
    decreases c, 0, |p[c].bases| - i
  {
    if i == |p[c].bases| then Refused
    else
      var b := p[c].bases[i];
      assert b in p[c].bases;
      if Invoke(p, b.parent, cid, mid) != Refused then Invoke(p, b.parent, cid, mid)
      else InvokeBases(p, c, cid, mid, i + 1)
  }

  /** d is c or one of its base classes, direct or not. */
  predicate Inherits(p: Program, c: nat, d: nat)
    requires WellFormed(p) && c < |p|
    decreases c
  {
    c == d || exists b <- p[c].bases :: Inherits(p, b.parent, d)
  }

  // ---------------------------------------------------------------- what is promised

  lemma {:induction false} SwitchFinds(p: Program, c: nat, k: nat, i: nat)
    requires WellFormed(p) && c < |p| && i <= k < |p[c].members| && HasCase(p, c, p[c].members[k])
    ensures Switch(p, c, p[c].members[k].id, i) == Wrapper(c, k)
    decreases k - i
  {
    if i < k {
      NumbersDiffer(p[c].members, i, k);
      SwitchFinds(p, c, k, i + 1);
    }
  }

  lemma {:induction false} SwitchImplicit(p: Program, c: nat, i: nat)
    requires WellFormed(p) && c < |p| && i <= |p[c].members| && Implicit(p[c])
    ensures Switch(p, c, 10, i) == ImplicitMaker(c)
    decreases |p[c].members| - i
  {
    if i < |p[c].members| {
      assert p[c].members[i] in p[c].members && !IsDefault(p[c].members[i]);
      SwitchImplicit(p, c, i + 1);
    }
  }

  lemma {:induction false} SwitchStays(p: Program, c: nat, mid: nat, i: nat)
    requires WellFormed(p) && c < |p| && i <= |p[c].members|
    ensures
      match Switch(p, c, mid, i)
      case Wrapper(d, k) => d == c && k < |p[c].members| && HasCase(p, c, p[c].members[k]) && p[c].members[k].id == mid
      case ImplicitMaker(d) => d == c && Implicit(p[c]) && mid == 10
      case Refused => true
      case CoreCall => false
    decreases |p[c].members| - i
  {
    if i < |p[c].members| {
      SwitchStays(p, c, mid, i + 1);
    }
  }

  /** A call that is no core call ends in the switch of the class it names, if the broker's
      class inherits that class, and is refused otherwise. */
  lemma {:induction false} InvokeNamed(p: Program, c: nat, d: nat, mid: nat)
    requires WellFormed(p) && c < |p| && d < |p| && mid >= 10
    ensures Invoke(p, c, p[d].cid, mid) == if Inherits(p, c, d) then Switch(p, d, mid, 0) else Refused
    decreases c, 1, 0
  {
    if c != d {
      assert p[c].cid != p[d].cid;
      if p[c].bases != [] {
        BasesNamed(p, c, d, mid, 0);
      }
    }
  }

  lemma {:induction false} BasesNamed(p: Program, c: nat, d: nat, mid: nat, i: nat)
    requires WellFormed(p) && c < |p| && d < |p| && mid >= 10 && i <= |p[c].bases|
    ensures InvokeBases(p, c, p[d].cid, mid, i)
         == if exists b <- p[c].bases[i..] :: Inherits(p, b.parent, d) then Switch(p, d, mid, 0) else Refused
    decreases c, 0, |p[c].bases| - i
  {
    if i < |p[c].bases| {
      var b := p[c].bases[i];
      assert b in p[c].bases;
      InvokeNamed(p, b.parent, d, mid);
      BasesNamed(p, c, d, mid, i + 1);
      assert p[c].bases[i..] == [b] + p[c].bases[i + 1..];
    }
  }

  /** Every stub of a class or of a base of it reaches, through the broker of the class, the
      wrapper of its own method. */
  lemma StubReachesWrapper(p: Program, c: nat, d: nat, k: nat)
    requires WellFormed(p) && c < |p| && d < |p| && Inherits(p, c, d)
    requires k < |p[d].members| && HasStub(p, d, p[d].members[k])
    ensures Invoke(p, c, p[d].cid, p[d].members[k].id) == Wrapper(d, k)
  {
    IdsFromTen(p[d].members, k);
    InvokeNamed(p, c, d, p[d].members[k].id);
    SwitchFinds(p, d, k, 0);
  }

  lemma IdsFromTen(ms: seq<Method>, k: nat)
    requires Numbered(ms) && k < |ms|
    ensures ms[k].id >= 10
  {
  }

  /** Number 10 reaches the constructor nobody wrote in just those classes that declare no
      constructor and are not abstract. */
  lemma ImplicitReached(p: Program, c: nat, d: nat)
    requires WellFormed(p) && c < |p| && d < |p| && Inherits(p, c, d)
    ensures Invoke(p, c, p[d].cid, 10) == ImplicitMaker(d) <==>
      (forall m <- p[d].members :: m.sig.kind != Maker) && !p[d].pureVirtual
  {
    InvokeNamed(p, c, d, 10);
    SwitchStays(p, d, 10, 0);
    if Implicit(p[d]) {
      SwitchImplicit(p, d, 0);
    }
  }

  /** Conversely, only the call a stub can send reaches a wrapper. */
  lemma {:induction false} WrapperOnlyFromStub(p: Program, c: nat, d: nat, mid: nat)
    requires WellFormed(p) && c < |p| && d < |p| && mid >= 10
    ensures
      match Invoke(p, c, p[d].cid, mid)
      case Wrapper(e, k) =>
        e == d && Inherits(p, c, d) && k < |p[d].members| && HasStub(p, d, p[d].members[k])
        && p[d].members[k].id == mid
      case ImplicitMaker(e) => e == d && Inherits(p, c, d) && Implicit(p[d]) && mid == 10
      case Refused => true
      case CoreCall => false
  {
    InvokeNamed(p, c, d, mid);
    SwitchStays(p, d, mid, 0);
  }

  // ---------------------------------------------------------------- chains of classes

  /** One step of inheritance, of any kind of access or only public. */
  predicate Derives(p: Program, c: nat, d: nat, openly: bool) {
    c < |p| && exists b <- p[c].bases :: b.parent == d && (openly ==> b.access == Public)
  }

  /** Classes from c to d, each derived from the next. */
  predicate Chain(p: Program, q: seq<nat>, c: nat, d: nat, openly: bool) {
    && q != [] && q[0] == c && q[|q| - 1] == d && d < |p|
    && forall i :: 0 <= i < |q| - 1 ==> Derives(p, q[i], q[i + 1], openly)
  }

  predicate Declares(p: Program, d: nat, sig: Signature) {
    d < |p| && exists m <- p[d].members :: m.sig == sig
  }

  /** c inherits a declaration of sig by a chain of at least one public step that ends at d. */
  predicate InheritsFrom(p: Program, q: seq<nat>, c: nat, d: nat, sig: Signature) {
    |q| >= 2 && Chain(p, q, c, d, true) && Declares(p, d, sig)
  }

  lemma ChainLonger(p: Program, q: seq<nat>, c: nat, b: nat, d: nat, openly: bool)
    requires Chain(p, q, b, d, openly) && Derives(p, c, b, openly)
    ensures Chain(p, [c] + q, c, d, openly)
  {
    var r := [c] + q;
    forall i | 0 <= i < |r| - 1 ensures Derives(p, r[i], r[i + 1], openly) {
      assert i > 0 ==> r[i] == q[i - 1] && r[i + 1] == q[i];
    }
  }

  lemma ChainTail(p: Program, q: seq<nat>, c: nat, d: nat, openly: bool)
    requires |q| >= 2 && Chain(p, q, c, d, openly)
    ensures Derives(p, c, q[1], openly) && Chain(p, q[1..], q[1], d, openly)
  {
    var r := q[1..];
    assert Derives(p, q[0], q[0 + 1], openly);
    forall i | 0 <= i < |r| - 1 ensures Derives(p, r[i], r[i + 1], openly) {
      assert Derives(p, q[i + 1], q[i + 1 + 1], openly);
    }
  }

  lemma {:induction false} ChainOf(p: Program, c: nat, sig: Signature) returns (q: seq<nat>, d: nat)
    requires WellFormed(p) && c < |p| && MethodInBase(p, c, sig)
    ensures InheritsFrom(p, q, c, d, sig)
    decreases c
  {
    var b :| b in p[c].bases && b.access == Public
             && (HasMethod(p[b.parent], sig) || MethodInBase(p, b.parent, sig));
    if HasMethod(p[b.parent], sig) {
      q, d := [b.parent], b.parent;
    } else {
      q, d := ChainOf(p, b.parent, sig);
    }
    assert Derives(p, c, b.parent, true);
    ChainLonger(p, q, c, b.parent, d, true);
    q := [c] + q;
  }

  lemma {:induction false} ChainFound(p: Program, q: seq<nat>, c: nat, d: nat, sig: Signature)
    requires WellFormed(p) && InheritsFrom(p, q, c, d, sig)
    ensures c < |p| && MethodInBase(p, c, sig)
    decreases |q|
  {
    ChainTail(p, q, c, d, true);
    var b :| b in p[c].bases && b.parent == q[1] && b.access == Public;
    if |q| == 2 {
      assert HasMethod(p[b.parent], sig);
    } else {
      ChainFound(p, q[1..], q[1], d, sig);
    }
  }

  /** A method is in a base class if and only if public inheritance leads, in one step or more, to
      a class that declares it. */
  lemma MethodInBaseIff(p: Program, c: nat, sig: Signature)
    requires WellFormed(p) && c < |p|
    ensures MethodInBase(p, c, sig) <==> exists q, d :: InheritsFrom(p, q, c, d, sig)
  {
    if MethodInBase(p, c, sig) {
      var q, d := ChainOf(p, c, sig);
    } else if q, d :| InheritsFrom(p, q, c, d, sig) {
      ChainFound(p, q, c, d, sig);
    }
  }

  /** Which members have a stub, and a case in the broker: public ones that are not hidden, neither
      destructors nor constructors of an abstract core class, and, if virtual, not inherited. */
  lemma StubForms(p: Program, c: nat, m: Method)
    requires WellFormed(p) && c < |p|
    ensures m.sig.access != Public || m.hidden || m.sig.kind == Destructor ==> !HasStub(p, c, m)
    ensures p[c].pureVirtual && p[c].core && m.sig.kind == Maker ==> !HasStub(p, c, m)
    ensures m.sig.access == Public && !m.hidden && m.sig.kind != Destructor
            && !(p[c].pureVirtual && p[c].core && m.sig.kind == Maker) ==>
      (HasStub(p, c, m) <==> !(m.sig.isVirtual && exists q, d :: InheritsFrom(p, q, c, d, m.sig)))
    ensures HasCase(p, c, m) <==> HasStub(p, c, m)
  {
    MethodInBaseIff(p, c, m.sig);
  }

  /** A virtual method declared again in a derived class, however far below, keeps the pair of the
      class that declared it first, and has none of its own. */
  lemma {:induction false} OverrideKeepsFirst(p: Program, q: seq<nat>, c: nat, e: nat, sig: Signature)
    returns (r: seq<nat>, d: nat, k: nat)
    requires WellFormed(p) && InheritsFrom(p, q, c, e, sig)
    ensures d < c < |p| && InheritsFrom(p, r, c, d, sig) && k < |p[d].members| && p[d].members[k].sig == sig
    ensures !exists r', d' :: InheritsFrom(p, r', d, d', sig)
    ensures forall m <- p[c].members :: m.sig == sig && sig.isVirtual ==> !HasStub(p, c, m) && !HasCase(p, c, m)
    decreases c
  {
    ChainFound(p, q, c, e, sig);
    var b :| b in p[c].bases && b.access == Public
             && (HasMethod(p[b.parent], sig) || MethodInBase(p, b.parent, sig));
    assert Derives(p, c, b.parent, true);
    if MethodInBase(p, b.parent, sig) {
      var q', e' := ChainOf(p, b.parent, sig);
      r, d, k := OverrideKeepsFirst(p, q', b.parent, e', sig);
      ChainLonger(p, r, c, b.parent, d, true);
    } else {
      r, d := [b.parent], b.parent;
      k :| 0 <= k < |p[d].members| && p[d].members[k].sig == sig;
      MethodInBaseIff(p, d, sig);
      ChainLonger(p, r, c, b.parent, d, true);
    }
    r := [c] + r;
  }

  // ---------------------------------------------------------------- core calls

  /** No class of the chain has this class number, and the last one has no base. */
  ghost predicate CoreChain(p: Program, q: seq<nat>, c: nat, cid: nat) {
    exists d: nat :: Chain(p, q, c, d, false) && p[d].bases == [] && forall x <- q :: x < |p| ==> p[x].cid != cid
  }

  lemma {:induction false} NoSmallCase(p: Program, c: nat, mid: nat, i: nat)
    requires WellFormed(p) && c < |p| && i <= |p[c].members| && mid < 10
    ensures Switch(p, c, mid, i) == Refused
    decreases |p[c].members| - i
  {
    if i < |p[c].members| {
      IdsFromTen(p[c].members, i);
      NoSmallCase(p, c, mid, i + 1);
    }
  }

  lemma CoreChainOn(p: Program, c: nat, cid: nat, b: nat, q: seq<nat>)
    requires Derives(p, c, b, false) && p[c].cid != cid && CoreChain(p, q, b, cid)
    ensures CoreChain(p, [c] + q, c, cid)
  {
    var d: nat :| Chain(p, q, b, d, false) && p[d].bases == [] && forall x <- q :: x < |p| ==> p[x].cid != cid;
    ChainLonger(p, q, c, b, d, false);
  }

  /** A call with a number below 10 is a core call if and only if the broker has a chain of base
      classes up to one without bases on which no class has the class number of the call; else it
      is refused. */
  lemma {:induction false} CoreReached(p: Program, c: nat, cid: nat, mid: nat)
    requires WellFormed(p) && c < |p| && mid < 10
    ensures Invoke(p, c, cid, mid) == if exists q :: CoreChain(p, q, c, cid) then CoreCall else Refused
    decreases c, 1, 0
  {
    if p[c].cid == cid {
      NoSmallCase(p, c, mid, 0);
      assert forall q, d :: Chain(p, q, c, d, false) ==> q[0] == c && q[0] in q;
    } else if p[c].bases == [] {
      assert Chain(p, [c], c, c, false);
      assert CoreChain(p, [c], c, cid);
    } else {
      CoreInBases(p, c, cid, mid, 0);
      if q :| CoreChain(p, q, c, cid) {
        CoreThroughBase(p, q, c, cid);
      } else {
        forall b | b in p[c].bases ensures !exists q :: CoreChain(p, q, b.parent, cid) {
          assert Derives(p, c, b.parent, false);
          if q :| CoreChain(p, q, b.parent, cid) {
            CoreChainOn(p, c, cid, b.parent, q);
          }
        }
      }
    }
  }

  lemma CoreThroughBase(p: Program, q: seq<nat>, c: nat, cid: nat)
    requires WellFormed(p) && c < |p| && p[c].bases != [] && CoreChain(p, q, c, cid)
    ensures exists b <- p[c].bases :: exists r :: CoreChain(p, r, b.parent, cid)
  {
    var d: nat :| Chain(p, q, c, d, false) && p[d].bases == [] && forall x <- q :: x < |p| ==> p[x].cid != cid;
    assert |q| >= 2;
    ChainTail(p, q, c, d, false);
    var b :| b in p[c].bases && b.parent == q[1];
    assert CoreChain(p, q[1..], b.parent, cid);
  }

  lemma {:induction false} CoreInBases(p: Program, c: nat, cid: nat, mid: nat, i: nat)
    requires WellFormed(p) && c < |p| && mid < 10 && i <= |p[c].bases|
    ensures InvokeBases(p, c, cid, mid, i)
         == if exists b <- p[c].bases[i..] :: exists q :: CoreChain(p, q, b.parent, cid) then CoreCall else Refused
    decreases c, 0, |p[c].bases| - i
  {
    if i < |p[c].bases| {
      var b := p[c].bases[i];
      assert b in p[c].bases;
      CoreReached(p, b.parent, cid, mid);
      CoreInBases(p, c, cid, mid, i + 1);
      assert p[c].bases[i..] == [b] + p[c].bases[i + 1..];
    }
  }
}
