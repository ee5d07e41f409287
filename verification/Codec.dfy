/** Generated marshalling code writes exactly the wire format, and generated
    demarshalling code reads exactly that back. */
module Codec {
  import opened Types
  import opened Emit
  import opened Machine
  import opened Scopes

  /** How far the static `counter` advances while code for t is emitted. */
  function Count(t: Type): nat
    decreases t, 0
  {
    match t
    case Struct(ts) => CountFields(ts)
    case Alias(u) => Count(u)
    case Array(_, u) => if IsStandard(u) then 0 else Count(u) + 1
    case Ptr(_, u) => Count(u)
    case Container(_, u) => 1 + Count(u)
    case Pair(a, b) => Count(a) + Count(b)
    case _ => 0
  }

  function CountFields(ts: seq<Type>): nat
    decreases ts, 1
  {
    if ts == [] then 0 else Count(ts[0]) + CountFields(ts[1..])
  }

  /** No generated loop variable hides one that is still needed.  The array generator
      takes its number before recursing but only consumes it afterwards, so the first
      construct inside the element of a loop array that takes a number must not be
      another loop array; `open` is true while that first number is still to be taken. */
  predicate CaptureFree(t: Type, open: bool)
    decreases t, 0
  {
    match t
    case Struct(ts) => FieldsCaptureFree(ts, open)
    case Alias(u) => CaptureFree(u, open)
    case Array(_, u) => IsStandard(u) || (!open && CaptureFree(u, true))
    case Container(_, u) => CaptureFree(u, false)
    case Ptr(_, u) => CaptureFree(u, open)
    case Pair(a, b) => CaptureFree(a, open) && CaptureFree(b, open && Count(a) == 0)
    case _ => true
  }

  predicate FieldsCaptureFree(ts: seq<Type>, open: bool)
    decreases ts, 1
  {
    ts == [] || (CaptureFree(ts[0], open) && FieldsCaptureFree(ts[1..], open && Count(ts[0]) == 0))
  }

  /** Writing code and reading code take the same numbers. */
  lemma {:induction false} CountersOf(t: Type, l: LVal, c: nat)
    requires Shaped(t)
    ensures MarshalCode(t, l, None, c).1 == c + Count(t) == DeMarshalCode(t, l, None, c).1
    decreases t, 1
  {
    match t
    case Struct(ts) => CountersFields(ts, l, 0, c);
    case Alias(u) => CountersOf(u, l, c);
    case Array(_, u) =>
      if !IsStandard(u) { CountersOf(u, Star(PopElem(c)), c); }
    case Ptr(_, u) => CountersOf(u, First(l), c);
    case Container(_, _) => ContainerCounters(t, l, c);
    case Pair(a, b) =>
      CountersOf(a, Mem(l, 0), c);
      CountersOf(b, Mem(l, 1), c + Count(a));
    case _ =>
  }

  lemma {:induction false} ContainerCounters(t: Type, l: LVal, c: nat)
    requires t.Container? && Shaped(t)
    ensures MarshalCode(t, l, None, c).1 == c + Count(t) == DeMarshalCode(t, l, None, c).1
    decreases t, 0
  {
    CountersOf(t.elem, Star(Iterator(t.kind, c)), c + 1);
    if t.kind.Map? {
      CountersOf(t.elem.key, Var(ElemKey(c)), c + 1);
      CountersOf(t.elem.value, Var(ElemValue(c)), c + 1 + Count(t.elem.key));
    } else {
      CountersOf(t.elem, Star(Elem(c)), c + 1);
    }
  }

  lemma {:induction false} CountersFields(ts: seq<Type>, l: LVal, i: nat, c: nat)
    requires forall k :: 0 <= k < |ts| ==> Shaped(ts[k])
    ensures MarshalFields(ts, l, i, c).1 == c + CountFields(ts) == DeMarshalFields(ts, l, i, c).1
    decreases ts, 1
  {
    if ts != [] {
      CountersOf(ts[0], Mem(l, i), c);
      CountersFields(ts[1..], l, i + 1, c + Count(ts[0]));
    }
  }

  lemma Counters(t: Type, l: LVal, c: nat)
    requires Plain(t)
    ensures MarshalCode(t, l, None, c).1 == c + Count(t) == DeMarshalCode(t, l, None, c).1
  {
    PlainIs(t);
    CountersOf(t, l, c);
  }

  // ---------- marshalling ----------

  /** What running marshalling code for a value amounts to. */
  ghost predicate Wrote(s: State, r: Option<State>, data: seq<Datum>, c: nat, open: bool) {
    r.Some? && r.value.wire == s.wire + data && r.value.depth == s.depth && Kept(s.env, r.value.env, c, open)
  }

  lemma PackBlock(l: LVal, sz: Size, s: State, p: Path, vs: seq<Value>, u: Type)
    requires Resolve(l, s.env) == Some(p) && Load(p, s.env) == Some(Agg(vs))
    requires SizeVal(sz, s.env) == Some(|vs|) && u.Std? && forall i :: 0 <= i < |vs| ==> Typed(u, vs[i])
    ensures Exec(StdOut(First(l), sz), s) == Some(s.(wire := s.wire + WireAll(u, vs)))
  {
    assert vs[..|vs|] == vs;
    PackPrefix(l, sz, s, p, vs, |vs|, u);
  }

  /** `Pack(&l, n)` sends the first n elements of a block. */
  lemma PackPrefix(l: LVal, sz: Size, s: State, p: Path, vs: seq<Value>, n: nat, u: Type)
    requires Resolve(l, s.env) == Some(p) && Load(p, s.env) == Some(Agg(vs)) && n <= |vs|
    requires SizeVal(sz, s.env) == Some(n) && u.Std? && forall i :: 0 <= i < n ==> Typed(u, vs[..n][i])
    ensures Exec(StdOut(First(l), sz), s) == Some(s.(wire := s.wire + WireAll(u, vs[..n])))
  {
    WireOfAtoms(u, vs[..n]);
    Looped(sz, Pack(First(l), sz), s);
  }

  lemma {:induction false} WireOfAtoms(u: Type, vs: seq<Value>)
    requires u.Std? && forall i :: 0 <= i < |vs| ==> Typed(u, vs[i])
    ensures AllAtoms(vs) && Data(vs) == WireAll(u, vs) && Atoms(WireAll(u, vs)) == vs
    decreases |vs|
  {
    if vs != [] {
      WireOfAtoms(u, vs[1..]);
      assert Data(vs) == [vs[0].datum] + Data(vs[1..]);
      assert Atoms(Data(vs)) == vs;
    }
  }

  lemma PackScalar(l: LVal, sz: Size, s: State, p: Path, v: Value)
    requires !l.First? && Resolve(l, s.env) == Some(p) && Load(p, s.env) == Some(v) && v.Atom?
    requires SizeVal(sz, s.env) == Some(1)
    ensures Exec(StdOut(l, sz), s) == Some(s.(wire := s.wire + [v.datum]))
  {
    Looped(sz, Pack(l, sz), s);
  }

  /** Running the code emitted for `Marshal` appends the wire format of the value. */
  lemma {:induction false} MarshalWrites(t: Type, l: LVal, c: nat, open: bool, s: State, p: Path, v: Value)
    requires Plain(t) && CaptureFree(t, open) && !l.First?
    requires Holds(l, p, v, s.env, c, open) && Typed(t, v)
    ensures Wrote(s, Exec(MarshalCode(t, l, None, c).0, s), Wire(t, v), c, open)
    decreases t, 2
  {
    match t
    case Std(_) => PackScalar(l, One, s, p, v);
    case ParClass(_) => PackScalar(l, One, s, p, v);
    case Alias(u) => MarshalWrites(u, l, c, open, s, p, v);
    case Struct(_) => MarshalStructWrites(t, l, c, open, s, p, v.elems);
    case Array(_, _) => MarshalArrayWrites(t, l, c, open, s, p, v.elems);
    case Container(_, _) => MarshalContainerWrites(t, l, c, open, s, p, v.elems);
    case Pair(_, _) => MarshalPairWrites(t, l, c, open, s, p, v.elems);
  }

  lemma {:induction false} MarshalStructWrites(t: Type, l: LVal, c: nat, open: bool, s: State, p: Path, vs: seq<Value>)
    requires t.Struct? && Plain(t) && CaptureFree(t, open)
    requires Holds(l, p, Agg(vs), s.env, c, open) && Typed(t, Agg(vs))
    ensures Wrote(s, Exec(MarshalCode(t, l, None, c).0, s), Wire(t, Agg(vs)), c, open)
    decreases t, 1
  {
    MarshalFieldsWrites(t.fields, l, 0, c, open, s.(depth := s.depth + 1), p, vs);
    assert vs[0..] == vs;
    Bracket(One, MarshalFields(t.fields, l, 0, c).0, s);
  }

  lemma {:induction false} MarshalPairWrites(t: Type, l: LVal, c: nat, open: bool, s: State, p: Path, vs: seq<Value>)
    requires t.Pair? && Plain(t) && CaptureFree(t, open)
    requires Holds(l, p, Agg(vs), s.env, c, open) && Typed(t, Agg(vs))
    ensures Wrote(s, Exec(MarshalCode(t, l, None, c).0, s), Wire(t, Agg(vs)), c, open)
    decreases t, 1
  {
    var (d, open') := (c + Count(t.key), open && Count(t.key) == 0);
    var (ca, cb) := (MarshalCode(t.key, Mem(l, 0), None, c).0, MarshalCode(t.value, Mem(l, 1), None, d).0);
    LoadElem(p, s.env, vs, 0);
    MarshalWrites(t.key, Mem(l, 0), c, open, s, Path(p.root, p.steps + [0]), vs[0]);
    Counters(t.key, Mem(l, 0), c);
    var s1 := Exec(ca, s).value;
    StillHolds(l, p, Agg(vs), s.env, s1.env, c, open, d, open');
    LoadElem(p, s1.env, vs, 1);
    MarshalWrites(t.value, Mem(l, 1), d, open', s1, Path(p.root, p.steps + [1]), vs[1]);
    WroteBoth(ca, cb, s, Wire(t.key, vs[0]), Wire(t.value, vs[1]), c, open, d, open');
  }

  lemma {:induction false} MarshalArrayWrites(t: Type, l: LVal, c: nat, open: bool, s: State, p: Path, vs: seq<Value>)
    requires t.Array? && Plain(t) && CaptureFree(t, open)
    requires Holds(l, p, Agg(vs), s.env, c, open) && Typed(t, Agg(vs))
    ensures Wrote(s, Exec(MarshalCode(t, l, None, c).0, s), Wire(t, Agg(vs)), c, open)
    decreases t, 1
  {
    if IsStandard(t.base) {
      PackBlock(l, Card(t.card), s, p, vs, t.base);
    } else {
      ArrayLoopWrites(t.base, l, Card(t.card), c, open, s, p, vs, |vs|);
      assert vs[..|vs|] == vs;
    }
  }

  /** The loop over the first n elements of an array. */
  lemma {:induction false} ArrayLoopWrites(u: Type, l: LVal, size: Size, c: nat, open: bool, s: State, p: Path,
                                           vs: seq<Value>, n: nat)
    requires Plain(u) && CaptureFree(u, true) && !open && n <= |vs| && forall k :: 0 <= k < |vs| ==> Typed(u, vs[k])
    requires Holds(l, p, Agg(vs), s.env, c, open) && SizeVal(size, s.env) == Some(n)
    ensures
      var loop := ForPtr(PopElem(c), l, size, MarshalCode(u, Star(PopElem(c)), None, c).0);
      Wrote(s, Exec([Push(size), loop, Pop], s), WireAll(u, vs[..n]), c, open)
    decreases u, 4 + n
  {
    var (x, s1) := (PopElem(c), s.(depth := s.depth + 1));
    var body := MarshalCode(u, Star(x), None, c).0;
    PtrStep(l, size, body, c, s1, p, Agg(vs), n);
    MarshalEach(u, x, p, 0, n, c, open, c, true, s1, vs);
    assert vs[0..n] == vs[..n];
    Looped(size, ForPtr(x, l, size, body), s);
  }

  lemma StillHolds(l: LVal, p: Path, v: Value, a: Env, b: Env, c: nat, open: bool, d: nat, open': bool)
    requires Holds(l, p, v, a, c, open) && Kept(a, b, c, open) && NoLater(c, open, d, open')
    ensures Holds(l, p, v, b, d, open')
  {
    ResolveKept(l, a, b, c, open);
    OlderMono(l, c, open, d, open');
    assert SameAt(a, b, p.root);
  }

  /** Two pieces of marshalling code in a row. */
  lemma WroteBoth(a: Code, b: Code, s: State, x: seq<Datum>, y: seq<Datum>, c: nat, open: bool, d: nat, open': bool)
    requires Wrote(s, Exec(a, s), x, c, open) && NoLater(c, open, d, open')
    requires Wrote(Exec(a, s).value, Exec(b, Exec(a, s).value), y, d, open')
    ensures Wrote(s, Exec(a + b, s), x + y, c, open)
  {
    ExecConcat(a, b, s);
    KeptTwice(s.env, Exec(a, s).value.env, Exec(b, Exec(a, s).value).value.env, c, open, d, open');
  }

  lemma WroteWhole(whole: Code, a: Code, b: Code, s: State, data: seq<Datum>, x: seq<Datum>, y: seq<Datum>,
                   c: nat, open: bool, d: nat, open': bool)
    requires whole == a + b && data == x + y && NoLater(c, open, d, open')
    requires Wrote(s, Exec(a, s), x, c, open) && Wrote(Exec(a, s).value, Exec(b, Exec(a, s).value), y, d, open')
    ensures Wrote(s, Exec(whole, s), data, c, open)
  {
    WroteBoth(a, b, s, x, y, c, open, d, open');
  }

  lemma KeptTwice(a: Env, b: Env, e: Env, c: nat, open: bool, d: nat, open': bool)
    requires Kept(a, b, c, open) && Kept(b, e, d, open') && NoLater(c, open, d, open')
    ensures Kept(a, e, c, open)
  {
    forall n | Older(n, c, open) ensures SameAt(a, e, n) {
      assert SameAt(a, b, n) && SameAt(b, e, n);
    }
  }

  ghost predicate TypedFrom(ts: seq<Type>, vs: seq<Value>, i: nat) {
    |vs| == i + |ts| && forall k :: 0 <= k < |ts| ==> Typed(ts[k], vs[i + k])
  }

  lemma TypedTail(ts: seq<Type>, vs: seq<Value>, i: nat)
    requires ts != [] && TypedFrom(ts, vs, i)
    ensures Typed(ts[0], vs[i]) && TypedFrom(ts[1..], vs, i + 1)
  {
    assert Typed(ts[0], vs[i + 0]);
    forall k | 0 <= k < |ts[1..]| ensures Typed(ts[1..][k], vs[i + 1 + k]) { assert Typed(ts[k + 1], vs[i + (k + 1)]); }
  }

  lemma WireNextField(ts: seq<Type>, vs: seq<Value>, i: nat)
    requires ts != [] && i < |vs|
    ensures WireFields(ts, vs[i..]) == Wire(ts[0], vs[i]) + WireFields(ts[1..], vs[i + 1..])
  {
    assert vs[i..][0] == vs[i] && vs[i..][1..] == vs[i + 1..];
  }

  /** The next attribute. */
  lemma {:induction false} MarshalFieldWrites(ts: seq<Type>, l: LVal, i: nat, c: nat, open: bool, s: State, p: Path,
                                              vs: seq<Value>)
    requires ts != [] && Plain(ts[0]) && CaptureFree(ts[0], open) && i < |vs| && Typed(ts[0], vs[i])
    requires Holds(l, p, Agg(vs), s.env, c, open)
    ensures
      var r := Exec(MarshalCode(ts[0], Mem(l, i), None, c).0, s);
      Wrote(s, r, Wire(ts[0], vs[i]), c, open)
      && Holds(l, p, Agg(vs), r.value.env, c + Count(ts[0]), open && Count(ts[0]) == 0)
    decreases ts, 0
  {
    LoadElem(p, s.env, vs, i);
    MarshalWrites(ts[0], Mem(l, i), c, open, s, Path(p.root, p.steps + [i]), vs[i]);
    var e := Exec(MarshalCode(ts[0], Mem(l, i), None, c).0, s).value.env;
    StillHolds(l, p, Agg(vs), s.env, e, c, open, c + Count(ts[0]), open && Count(ts[0]) == 0);
  }

  lemma FieldsCode(ts: seq<Type>, l: LVal, i: nat, c: nat)
    requires ts != [] && Plain(ts[0])
    ensures MarshalFields(ts, l, i, c).0
         == MarshalCode(ts[0], Mem(l, i), None, c).0 + MarshalFields(ts[1..], l, i + 1, c + Count(ts[0])).0
  {
    Counters(ts[0], Mem(l, i), c);
  }

  lemma {:induction false} MarshalFieldsWrites(ts: seq<Type>, l: LVal, i: nat, c: nat, open: bool, s: State, p: Path,
                                               vs: seq<Value>)
    requires (forall k :: 0 <= k < |ts| ==> Plain(ts[k])) && FieldsCaptureFree(ts, open) && TypedFrom(ts, vs, i)
    requires Holds(l, p, Agg(vs), s.env, c, open)
    ensures Wrote(s, Exec(MarshalFields(ts, l, i, c).0, s), WireFields(ts, vs[i..]), c, open)
    decreases ts, 1
  {
    if ts != [] {
      TypedTail(ts, vs, i);
      MarshalFieldWrites(ts, l, i, c, open, s, p, vs);
      FieldsCode(ts, l, i, c);
      var d, open' := c + Count(ts[0]), open && Count(ts[0]) == 0;
      var (head, tail) := (MarshalCode(ts[0], Mem(l, i), None, c).0, MarshalFields(ts[1..], l, i + 1, d).0);
      MarshalFieldsWrites(ts[1..], l, i + 1, d, open', Exec(head, s).value, p, vs);
      WireNextField(ts, vs, i);
      WroteWhole(MarshalFields(ts, l, i, c).0, head, tail, s, WireFields(ts, vs[i..]), Wire(ts[0], vs[i]),
                 WireFields(ts[1..], vs[i + 1..]), c, open, d, open');
    }
  }

  /** A generated loop over a block writes its elements one after the other.  The loop
      variable x is new to the code outside (c, open) and known inside (d, open'). */
  lemma {:induction false} MarshalEach(u: Type, x: Name, p: Path, j: nat, n: nat, c: nat, open: bool,
                                       d: nat, open': bool, s: State, vs: seq<Value>)
    requires Plain(u) && CaptureFree(u, open') && j <= n <= |vs| && forall k :: 0 <= k < |vs| ==> Typed(u, vs[k])
    requires Load(p, s.env) == Some(Agg(vs)) && Older(p.root, c, open)
    requires NoLater(c, open, d, open') && !Older(x, c, open) && Older(x, d, open')
    ensures Wrote(s, EachRef(x, p, j, n, MarshalCode(u, Star(x), None, d).0, s), WireAll(u, vs[j..n]), c, open)
    decreases u, 3 + n - j
  {
    if j < n {
      var body := MarshalCode(u, Star(x), None, d).0;
      var s1 := s.(env := s.env[x := Ref(p.root, p.steps + [j])]);
      LoadElem(p, s1.env, vs, j);
      MarshalWrites(u, Star(x), d, open', s1, Path(p.root, p.steps + [j]), vs[j]);
      var s2 := Exec(body, s1).value;
      var s3 := s2.(env := Leave(s.env, s2.env, {x} + Locals(body)));
      LeftKept(s.env, s1.env, s2.env, x, {x} + Locals(body), c, open, d, open');
      assert SameAt(s.env, s3.env, p.root);
      MarshalEach(u, x, p, j + 1, n, c, open, d, open', s3, vs);
      KeptTwice(s.env, s3.env, EachRef(x, p, j + 1, n, body, s3).value.env, c, open, c, open);
      assert vs[j..n][0] == vs[j] && vs[j..n][1..] == vs[j + 1..n];
    }
  }

  lemma LeftKept(outer: Env, start: Env, end: Env, x: Name, locals: set<Name>, c: nat, open: bool, d: nat, open': bool)
    requires Kept(start, end, d, open') && NoLater(c, open, d, open') && !Older(x, c, open)
    requires forall n :: n != x ==> SameAt(outer, start, n)
    ensures Kept(outer, Leave(outer, end, locals), c, open)
  {
    forall n | Older(n, c, open) ensures SameAt(outer, Leave(outer, end, locals), n) {
      assert SameAt(outer, start, n) && SameAt(start, end, n);
    }
  }

  /** A container's code starts by announcing its length. */
  lemma SizeWritten(l: LVal, c: nat, open: bool, s: State, p: Path, vs: seq<Value>)
    requires Holds(l, p, Agg(vs), s.env, c, open)
    ensures var r := Exec([DeclSize(ElemSize(c), l)] + StdOut(Var(ElemSize(c)), One), s);
      && Wrote(s, r, [Num(|vs|)], c, open)
      && Holds(l, p, Agg(vs), r.value.env, c + 1, false)
      && SizeVal(Of(ElemSize(c)), r.value.env) == Some(|vs|)
  {
    var (sz, decl) := (ElemSize(c), DeclSize(ElemSize(c), l));
    var s1 := s.(env := s.env[sz := Obj(Atom(Num(|vs|)))]);
    ExecOne(decl, s);
    PackScalar(Var(sz), One, s1, Path(sz, []), Atom(Num(|vs|)));
    ExecConcat([decl], StdOut(Var(sz), One), s);
    StillHolds(l, p, Agg(vs), s.env, s1.env, c, open, c + 1, false);
  }

  lemma {:induction false} MarshalContainerWrites(t: Type, l: LVal, c: nat, open: bool, s: State, p: Path,
                                                  vs: seq<Value>)
    requires t.Container? && Plain(t) && CaptureFree(t, open)
    requires Holds(l, p, Agg(vs), s.env, c, open) && Typed(t, Agg(vs))
    ensures Wrote(s, Exec(MarshalCode(t, l, None, c).0, s), Wire(t, Agg(vs)), c, open)
    decreases t, 1
  {
    var (u, sz, it) := (t.elem, ElemSize(c), Iterator(t.kind, c));
    var head := [DeclSize(sz, l)] + StdOut(Var(sz), One);
    SizeWritten(l, c, open, s, p, vs);
    var s1 := Exec(head, s).value;
    if BlockVector(t.kind, u) {
      PackBlock(l, Of(sz), s1, p, vs, u);
      WroteBoth(head, StdOut(First(l), Of(sz)), s, [Num(|vs|)], WireAll(u, vs), c, open, c, open);
    } else {
      var loop := ForIter(it, l, MarshalCode(u, Star(it), None, c + 1).0);
      IterLoopWrites(u, l, it, c, open, s1, p, vs);
      WroteBoth(head, [Push(Of(sz)), loop, Pop], s, [Num(|vs|)], WireAll(u, vs), c, open, c, open);
    }
  }

  /** The loop over all elements of a container. */
  lemma {:induction false} IterLoopWrites(u: Type, l: LVal, it: Name, c: nat, open: bool, s: State, p: Path,
                                          vs: seq<Value>)
    requires Plain(u) && CaptureFree(u, false) && forall k :: 0 <= k < |vs| ==> Typed(u, vs[k])
    requires (it == Elem(c) || it == ItElem(c)) && Load(p, s.env) == Some(Agg(vs)) && Older(p.root, c, open)
    requires Resolve(l, s.env) == Some(p) && SizeVal(Of(ElemSize(c)), s.env) == Some(|vs|)
    ensures
      var loop := ForIter(it, l, MarshalCode(u, Star(it), None, c + 1).0);
      Wrote(s, Exec([Push(Of(ElemSize(c))), loop, Pop], s), WireAll(u, vs), c, open)
    decreases u, 4 + |vs|
  {
    var (s1, body) := (s.(depth := s.depth + 1), MarshalCode(u, Star(it), None, c + 1).0);
    IterStep(it, l, body, s1, p, |vs|);
    MarshalEach(u, it, p, 0, |vs|, c, open, c + 1, false, s1, vs);
    assert vs[0..|vs|] == vs;
    Looped(Of(ElemSize(c)), ForIter(it, l, body), s);
  }
}
