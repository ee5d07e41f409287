/** The codec as a whole: a value survives the trip exactly when no generated loop
    variable captures another, and what happens to the types the parser accepts
    without being able to rebuild them. */
module Capture {
  import opened Types
  import opened Emit
  import opened Machine
  import opened Scopes
  import opened Codec
  import opened CodecRead

  /** A variable x holding v, ready to send or to receive `wire`. */
  function Start(v: Value, wire: seq<Datum>): State { State(map[User("x") := Obj(v)], wire, 0) }

  /** `Marshal` then `DeMarshal` restores any value over any earlier content, and consumes
      exactly what was written. */
  lemma RoundTrip(t: Type, c: nat, d: nat, v: Value, was: Value, before: seq<Datum>, rest: seq<Datum>)
    requires Plain(t) && CaptureFree(t, false) && Typed(t, v) && Typed(t, was)
    ensures var out := Exec(MarshalCode(t, Var(User("x")), None, c).0, Start(v, before));
      && out.Some? && before <= out.value.wire
      && var sent := out.value.wire[|before|..];
         var back := Exec(DeMarshalCode(t, Var(User("x")), None, d).0, Start(was, sent + rest));
         && back.Some? && back.value.wire == rest
         && User("x") in back.value.env && back.value.env[User("x")] == Obj(v)
  {
    var x := Var(User("x"));
    MarshalWrites(t, x, c, false, Start(v, before), Path(User("x"), []), v);
    var sent := Exec(MarshalCode(t, x, None, c).0, Start(v, before)).value.wire[|before|..];
    assert sent == Wire(t, v);
    DeMarshalReads(t, x, d, false, Start(was, sent + rest), Path(User("x"), []), was, v, rest);
  }

  // ---------- capture is fatal ----------

  /** C++ arrays have at least one element. */
  predicate Sized(t: Type)
    decreases t
  {
    match t
    case Struct(ts) => forall i :: 0 <= i < |ts| ==> Sized(ts[i])
    case Alias(u) => Sized(u)
    case Array(n, u) => n > 0 && Sized(u)
    case Container(_, u) => Sized(u)
    case Pair(a, b) => Sized(a) && Sized(b)
    case _ => true
  }

  /** A value in which every container has one element and every pointer is set. */
  function Sample(t: Type): Value
    decreases t
  {
    match t
    case Struct(ts) => Agg(seq(|ts|, i requires 0 <= i < |ts| => Sample(ts[i])))
    case Alias(u) => Sample(u)
    case Array(n, u) => Agg(Copies(Sample(u), n))
    case Ptr(_, u) => Agg([Sample(u)])
    case Container(_, u) => Agg([Sample(u)])
    case Pair(a, b) => Agg([Sample(a), Sample(b)])
    case _ => Atom(Num(1))
  }

  /** No pointer in v is unset. */
  predicate NoWild(v: Value)
    decreases v
  {
    match v
    case Atom(_) => true
    case Agg(elems) => forall i :: 0 <= i < |elems| ==> NoWild(elems[i])
    case Wild => false
  }

  lemma {:induction false} SampleTyped(t: Type)
    ensures Typed(t, Sample(t)) && NoWild(Sample(t))
    decreases t
  {
    match t
    case Struct(ts) =>
      forall i | 0 <= i < |ts| ensures Typed(ts[i], Sample(ts[i])) && NoWild(Sample(ts[i])) { SampleTyped(ts[i]); }
    case Alias(u) => SampleTyped(u);
    case Array(_, u) => SampleTyped(u);
    case Ptr(_, u) => SampleTyped(u);
    case Container(_, u) => SampleTyped(u);
    case Pair(a, b) => SampleTyped(a); SampleTyped(b);
    case _ =>
  }

  /** Every access through l goes through the pointer x. */
  predicate Through(l: LVal, x: Name) {
    match l
    case Star(n) => n == x
    case Mem(m, _) => Through(m, x)
    case At(m, _) => Through(m, x)
    case First(m) => Through(m, x)
    case Var(_) => false
  }

  lemma {:induction false} Unresolved(l: LVal, x: Name, env: Env)
    requires Through(l, x) && x !in env
    ensures Resolve(l, env).None?
  {
    match l
    case Mem(m, _) => Unresolved(m, x, env);
    case At(m, _) => Unresolved(m, x, env);
    case First(m) => Unresolved(m, x, env);
    case _ =>
  }

  lemma BracketStuck(sz: Size, code: Code, s: State)
    requires Exec(code, s.(depth := s.depth + 1)).None?
    ensures Exec([Push(sz)] + code + [Pop], s).None?
  {
    BracketEnv(sz, code, s);
  }

  lemma LoopStuck(sz: Size, i: Instr, s: State)
    requires Step(i, s.(depth := s.depth + 1)).None?
    ensures Exec([Push(sz), i, Pop], s).None?
  {
    LoopEnv(sz, i, s);
  }

  /** Where the condition fails, the generated code reads a pointer that its own
      declaration hides before it is set. */
  lemma {:induction false} MarshalStuck(t: Type, l: LVal, c: nat, open: bool, s: State, p: Path)
    requires Plain(t) && Sized(t) && !CaptureFree(t, open) && !l.First?
    requires Holds(l, p, Sample(t), s.env, c, open) && (open ==> Through(l, PopElem(c)))
    ensures Exec(MarshalCode(t, l, None, c).0, s).None?
    decreases t, 1
  {
    match t
    case Alias(u) => MarshalStuck(u, l, c, open, s, p);
    case Struct(ts) =>
      FieldsStuck(ts, l, 0, c, open, s.(depth := s.depth + 1), p, Sample(t).elems);
      BracketStuck(One, MarshalFields(ts, l, 0, c).0, s);
    case Array(n, u) => ArrayStuck(t, l, c, open, s, p);
    case Container(_, _) => ContainerStuck(t, l, c, open, s, p);
    case Pair(a, b) => PairStuck(t, l, c, open, s, p);
    case _ =>
  }

  lemma {:induction false} ContainerStuck(t: Type, l: LVal, c: nat, open: bool, s: State, p: Path)
    requires t.Container? && Plain(t) && Sized(t) && !CaptureFree(t, open)
    requires Holds(l, p, Sample(t), s.env, c, open)
    ensures Exec(MarshalCode(t, l, None, c).0, s).None?
    decreases t, 0
  {
    var (u, it, sz) := (t.elem, Iterator(t.kind, c), Of(ElemSize(c)));
    var head := [DeclSize(ElemSize(c), l)] + StdOut(Var(ElemSize(c)), One);
    var loop := ForIter(it, l, MarshalCode(u, Star(it), None, c + 1).0);
    SizeWritten(l, c, open, s, p, [Sample(u)]);
    var s1 := Exec(head, s).value;
    IterLoopStuck(u, l, it, c, open, s1.(depth := s1.depth + 1), p);
    LoopStuck(sz, loop, s1);
    ExecConcat(head, [Push(sz), loop, Pop], s);
  }

  lemma {:induction false} IterLoopStuck(u: Type, l: LVal, it: Name, c: nat, open: bool, s: State, p: Path)
    requires Plain(u) && Sized(u) && !CaptureFree(u, false) && (it == Elem(c) || it == ItElem(c))
    requires Resolve(l, s.env) == Some(p) && Load(p, s.env) == Some(Agg([Sample(u)])) && Older(p.root, c, open)
    ensures Step(ForIter(it, l, MarshalCode(u, Star(it), None, c + 1).0), s).None?
    decreases u, 2
  {
    var body := MarshalCode(u, Star(it), None, c + 1).0;
    var s1 := s.(env := s.env[it := Ref(p.root, p.steps + [0])]);
    LoadElem(p, s1.env, [Sample(u)], 0);
    MarshalStuck(u, Star(it), c + 1, false, s1, Path(p.root, p.steps + [0]));
    IterStep(it, l, body, s, p, 1);
    FirstStuck(it, p, 1, body, s);
  }

  lemma FirstStuck(x: Name, p: Path, n: nat, body: Code, s: State)
    requires n > 0 && Exec(body, s.(env := s.env[x := Ref(p.root, p.steps + [0])])).None?
    ensures EachRef(x, p, 0, n, body, s).None?
  {
  }

  lemma {:induction false} ArrayStuck(t: Type, l: LVal, c: nat, open: bool, s: State, p: Path)
    requires t.Array? && Plain(t) && Sized(t) && !CaptureFree(t, open)
    requires Holds(l, p, Sample(t), s.env, c, open) && (open ==> Through(l, PopElem(c)))
    ensures Exec(MarshalCode(t, l, None, c).0, s).None?
    decreases t, 0
  {
    var (n, u, x, s1) := (t.card, t.base, PopElem(c), s.(depth := s.depth + 1));
    var body := MarshalCode(u, Star(x), None, c).0;
    if open {
      Unresolved(l, x, s1.env - {x});
    } else {
      PtrStep(l, Card(n), body, c, s1, p, Sample(t), n);
      var s2 := s1.(env := s1.env[x := Ref(p.root, p.steps + [0])]);
      LoadElem(p, s2.env, Sample(t).elems, 0);
      MarshalStuck(u, Star(x), c, true, s2, Path(p.root, p.steps + [0]));
      FirstStuck(x, p, n, body, s1);
    }
    LoopStuck(Card(n), ForPtr(x, l, Card(n), body), s);
  }

  lemma {:induction false} PairStuck(t: Type, l: LVal, c: nat, open: bool, s: State, p: Path)
    requires t.Pair? && Plain(t) && Sized(t) && !CaptureFree(t, open)
    requires Holds(l, p, Sample(t), s.env, c, open) && (open ==> Through(l, PopElem(c)))
    ensures Exec(MarshalCode(t, l, None, c).0, s).None?
    decreases t, 0
  {
    var (vs, d, open') := (Sample(t).elems, c + Count(t.key), open && Count(t.key) == 0);
    var (ca, cb) := (MarshalCode(t.key, Mem(l, 0), None, c).0, MarshalCode(t.value, Mem(l, 1), None, d).0);
    LoadElem(p, s.env, vs, 0);
    Counters(t.key, Mem(l, 0), c);
    ExecConcat(ca, cb, s);
    if !CaptureFree(t.key, open) {
      MarshalStuck(t.key, Mem(l, 0), c, open, s, Path(p.root, p.steps + [0]));
    } else {
      SampleTyped(t.key);
      MarshalWrites(t.key, Mem(l, 0), c, open, s, Path(p.root, p.steps + [0]), vs[0]);
      var s1 := Exec(ca, s).value;
      StillHolds(l, p, Agg(vs), s.env, s1.env, c, open, d, open');
      LoadElem(p, s1.env, vs, 1);
      MarshalStuck(t.value, Mem(l, 1), d, open', s1, Path(p.root, p.steps + [1]));
    }
  }

  lemma {:induction false} FieldsStuck(ts: seq<Type>, l: LVal, i: nat, c: nat, open: bool, s: State, p: Path,
                                       vs: seq<Value>)
    requires (forall k :: 0 <= k < |ts| ==> Plain(ts[k]) && Sized(ts[k])) && !FieldsCaptureFree(ts, open)
    requires |vs| == i + |ts| && forall k :: 0 <= k < |ts| ==> vs[i + k] == Sample(ts[k])
    requires Holds(l, p, Agg(vs), s.env, c, open) && (open ==> Through(l, PopElem(c)))
    ensures Exec(MarshalFields(ts, l, i, c).0, s).None?
    decreases ts, 0
  {
    var (d, open') := (c + Count(ts[0]), open && Count(ts[0]) == 0);
    var (head, tail) := (MarshalCode(ts[0], Mem(l, i), None, c).0, MarshalFields(ts[1..], l, i + 1, d).0);
    assert vs[i + 0] == Sample(ts[0]);
    LoadElem(p, s.env, vs, i);
    FieldsCode(ts, l, i, c);
    ExecConcat(head, tail, s);
    if !CaptureFree(ts[0], open) {
      MarshalStuck(ts[0], Mem(l, i), c, open, s, Path(p.root, p.steps + [i]));
    } else {
      SampleTyped(ts[0]);
      MarshalFieldWrites(ts, l, i, c, open, s, p, vs);
      forall k | 0 <= k < |ts[1..]| ensures vs[i + 1 + k] == Sample(ts[1..][k]) {
        assert vs[i + (k + 1)] == Sample(ts[k + 1]);
      }
      FieldsStuck(ts[1..], l, i + 1, d, open', Exec(head, s).value, p, vs);
    }
  }

  /** Can every value of the type be marshalled? */
  ghost predicate AlwaysMarshals(t: Type) {
    forall v, c: nat :: Typed(t, v) ==> Exec(MarshalCode(t, Var(User("x")), None, c).0, Start(v, [])).Some?
  }

  /** The exact condition under which the generated code works for every value. */
  lemma MarshalsIffCaptureFree(t: Type)
    requires Plain(t) && Sized(t)
    ensures AlwaysMarshals(t) <==> CaptureFree(t, false)
  {
    if CaptureFree(t, false) {
      forall v, c: nat | Typed(t, v) ensures Exec(MarshalCode(t, Var(User("x")), None, c).0, Start(v, [])).Some? {
        MarshalWrites(t, Var(User("x")), c, false, Start(v, []), Path(User("x"), []), v);
      }
    } else {
      SampleTyped(t);
      MarshalStuck(t, Var(User("x")), 0, false, Start(Sample(t), []), Path(User("x"), []));
      assert Exec(MarshalCode(t, Var(User("x")), None, 0).0, Start(Sample(t), [])).None?;
    }
  }
}
