/** Which of the types the parser accepts survive the trip: a pointer that is not set is never
    set by reading code, so a type with a pointer inside a container is not rebuilt. */
module Survival {
  import opened Types
  import opened Emit
  import opened Machine
  import opened Scopes
  import opened Codec
  import opened CodecRead
  import opened Capture

  // ---------------------------------------------------------------- places that do not exist

  lemma {:induction false} GetBeyond(v: Value, steps: seq<nat>, j: nat)
    requires Get(v, steps).None? || !Get(v, steps).value.Agg?
    ensures Get(v, steps + [j]).None?
    decreases |steps|
  {
    if steps == [] {
      assert steps + [j] == [j];
    } else if v.Agg? && steps[0] < |v.elems| {
      assert (steps + [j])[1..] == steps[1..] + [j];
      GetBeyond(v.elems[steps[0]], steps[1..], j);
    } else {
      assert (steps + [j])[0] == steps[0];
    }
  }

  /** l names nothing that can be read, and does so by means older code provides. */
  predicate Gone(l: LVal, env: Env, c: nat, open: bool) {
    OlderL(l, c, open) && match Resolve(l, env)
      case None => true
      case Some(p) => Older(p.root, c, open) && Load(p, env).None?
  }

  lemma GoneBelow(l: LVal, env: Env, c: nat, open: bool, i: nat)
    requires Gone(l, env, c, open)
    ensures Gone(Mem(l, i), env, c, open) && Gone(First(l), env, c, open)
  {
    if Resolve(l, env).Some? {
      BeyondPath(Resolve(l, env).value, env, i);
      BeyondPath(Resolve(l, env).value, env, 0);
    }
  }

  lemma BeyondPath(p: Path, env: Env, i: nat)
    requires Load(p, env).None? || !Load(p, env).value.Agg?
    ensures Load(Path(p.root, p.steps + [i]), env).None?
  {
    if p.root in env && env[p.root].Obj? {
      GetBeyond(env[p.root].v, p.steps, i);
    }
  }

  lemma GoneKept(l: LVal, a: Env, b: Env, c: nat, open: bool, d: nat, open': bool)
    requires Gone(l, a, c, open) && Kept(a, b, c, open) && NoLater(c, open, d, open')
    ensures Gone(l, b, d, open')
  {
    ResolveKept(l, a, b, c, open);
    OlderMono(l, c, open, d, open');
    if Resolve(l, a).Some? {
      assert SameAt(a, b, Resolve(l, a).value.root);
    }
  }

  /** Hiding one name can only make an l-value meaningless. */
  lemma {:induction false} ResolveLess(l: LVal, env: Env, x: Name)
    ensures Resolve(l, env - {x}).None? || Resolve(l, env - {x}) == Resolve(l, env)
  {
    match l
    case Mem(m, _) => ResolveLess(m, env, x);
    case At(m, _) => ResolveLess(m, env, x);
    case First(m) => ResolveLess(m, env, x);
    case _ =>
  }

  // ---------------------------------------------------------------- code that may fail

  /** If the code runs to its end, older variables are as before. */
  ghost predicate Spares(s: State, r: Option<State>, c: nat, open: bool) {
    r.Some? ==> Kept(s.env, r.value.env, c, open)
  }

  lemma SparesBoth(a: Code, b: Code, s: State, c: nat, open: bool, d: nat, open': bool)
    requires Spares(s, Exec(a, s), c, open) && NoLater(c, open, d, open')
    requires Exec(a, s).Some? ==> Spares(Exec(a, s).value, Exec(b, Exec(a, s).value), d, open')
    ensures Spares(s, Exec(a + b, s), c, open)
  {
    ExecConcat(a, b, s);
    if Exec(a + b, s).Some? {
      KeptTwice(s.env, Exec(a, s).value.env, Exec(a + b, s).value.env, c, open, d, open');
    }
  }

  lemma BracketSpares(sz: Size, code: Code, s: State, c: nat, open: bool)
    requires Spares(s, Exec(code, s.(depth := s.depth + 1)), c, open)
    ensures Spares(s, Exec([Push(sz)] + code + [Pop], s), c, open)
  {
    BracketEnv(sz, code, s);
  }

  // ---------------------------------------------------------------- reading into nothing

  lemma ScalarGone(l: LVal, s: State)
    requires Read(l, s.env).None?
    ensures Exec(StdIn(l, One), s).None?
  {
    var s1 := s.(depth := s.depth + 1);
    if l.First? && Resolve(l.of, s.env).Some? {
      var b := Read(l.of, s.env);
      if b.Some? && b.value.Agg? && |b.value.elems| > 0 {
        LoadElem(Resolve(l.of, s.env).value, s.env, b.value.elems, 0);
      }
    }
    LoopStuck(One, UnPack(l, One), s);
  }

  lemma BlockGone(l: LVal, sz: Size, s: State)
    requires Read(l, s.env).None?
    ensures Exec(StdIn(First(l), sz), s).None?
  {
    LoopStuck(sz, UnPack(First(l), sz), s);
  }

  /** Leaving a block in which one variable was added to the outer ones. */
  lemma LeaveKept(outer: Env, start: Env, end: Env, x: Name, locals: set<Name>, c: nat, open: bool, d: nat, open': bool)
    requires Kept(start, end, d, open') && NoLater(c, open, d, open') && x in locals
    requires forall n :: n != x ==> SameAt(outer, start, n)
    ensures Kept(outer, Leave(outer, end, locals), c, open)
  {
    forall n | Older(n, c, open) ensures SameAt(outer, Leave(outer, end, locals), n) {
      if n !in locals {
        assert SameAt(outer, start, n) && SameAt(start, end, n);
      }
    }
  }

  /** Code that reads into a place that does not exist fails, or has nothing to read and leaves
      everything as it was. */
  lemma {:induction false} ReadGone(t: Type, l: LVal, c: nat, open: bool, s: State)
    requires Shaped(t) && Gone(l, s.env, c, open)
    ensures Spares(s, Exec(DeMarshalCode(t, l, None, c).0, s), c, open)
    decreases t, 2
  {
    match t
    case Void =>
    case Std(_) => ScalarGone(l, s);
    case ParClass(_) => ScalarGone(l, s);
    case Alias(u) => ReadGone(u, l, c, open, s);
    case Struct(ts) =>
      FieldsGone(ts, l, 0, c, open, s.(depth := s.depth + 1));
      BracketSpares(One, DeMarshalFields(ts, l, 0, c).0, s, c, open);
    case Array(_, _) => ArrayGone(t, l, c, open, s);
    case Ptr(_, u) =>
      GoneBelow(l, s.env, c, open, 0);
      ReadGone(u, First(l), c, open, s);
    case Container(_, u) => if u.Pair? { MapGone(t, l, c, open, s); } else { ListGone(t, l, c, open, s); }
    case Pair(a, b) => PairGone(t, l, c, open, s);
  }

  lemma {:induction false} PairGone(t: Type, l: LVal, c: nat, open: bool, s: State)
    requires t.Pair? && Shaped(t) && Gone(l, s.env, c, open)
    ensures Spares(s, Exec(DeMarshalCode(t, l, None, c).0, s), c, open)
    decreases t, 1
  {
    var (d, open') := (c + Count(t.key), open && Count(t.key) == 0);
    var (ca, cb) := (DeMarshalCode(t.key, Mem(l, 0), None, c).0, DeMarshalCode(t.value, Mem(l, 1), None, d).0);
    GoneBelow(l, s.env, c, open, 0);
    ReadGone(t.key, Mem(l, 0), c, open, s);
    CountersOf(t.key, Mem(l, 0), c);
    if Exec(ca, s).Some? {
      var s1 := Exec(ca, s).value;
      GoneKept(l, s.env, s1.env, c, open, d, open');
      GoneBelow(l, s1.env, d, open', 1);
      ReadGone(t.value, Mem(l, 1), d, open', s1);
    }
    SparesBoth(ca, cb, s, c, open, d, open');
  }

  lemma {:induction false} FieldsGone(ts: seq<Type>, l: LVal, i: nat, c: nat, open: bool, s: State)
    requires (forall k :: 0 <= k < |ts| ==> Shaped(ts[k])) && Gone(l, s.env, c, open)
    ensures Spares(s, Exec(DeMarshalFields(ts, l, i, c).0, s), c, open)
    decreases ts, 1
  {
    if ts != [] {
      var (d, open') := (c + Count(ts[0]), open && Count(ts[0]) == 0);
      var (head, tail) := (DeMarshalCode(ts[0], Mem(l, i), None, c).0, DeMarshalFields(ts[1..], l, i + 1, d).0);
      GoneBelow(l, s.env, c, open, i);
      ReadGone(ts[0], Mem(l, i), c, open, s);
      CountersOf(ts[0], Mem(l, i), c);
      if Exec(head, s).Some? {
        var s1 := Exec(head, s).value;
        GoneKept(l, s.env, s1.env, c, open, d, open');
        FieldsGone(ts[1..], l, i + 1, d, open', s1);
      }
      SparesBoth(head, tail, s, c, open, d, open');
    }
  }

  lemma {:induction false} ArrayGone(t: Type, l: LVal, c: nat, open: bool, s: State)
    requires t.Array? && Shaped(t) && Gone(l, s.env, c, open)
    ensures Spares(s, Exec(DeMarshalCode(t, l, None, c).0, s), c, open)
    decreases t, 1
  {
    var (n, u, x, s1) := (t.card, t.base, PopElem(c), s.(depth := s.depth + 1));
    if IsStandard(u) {
      if u.Std? {
        BlockGone(l, Card(n), s);
      }
    } else {
      var loop := ForPtr(x, l, Card(n), DeMarshalCode(u, Star(x), None, c).0);
      ResolveLess(l, s1.env, x);
      if Resolve(l, s1.env - {x}).Some? {
        EachGone(u, x, Resolve(l, s1.env).value, 0, n, c, open, s1);
      }
      LoopEnv(Card(n), loop, s);
    }
  }

  lemma {:induction false} EachGone(u: Type, x: Name, p: Path, j: nat, n: nat, c: nat, open: bool, s: State)
    requires Shaped(u) && x == PopElem(c) && Load(p, s.env).None? && Older(p.root, c, open)
    ensures Spares(s, EachRef(x, p, j, n, DeMarshalCode(u, Star(x), None, c).0, s), c, open)
    decreases u, 3 + if j < n then n - j else 0
  {
    if j < n {
      var body := DeMarshalCode(u, Star(x), None, c).0;
      var s1 := s.(env := s.env[x := Ref(p.root, p.steps + [j])]);
      BeyondPath(p, s.env, j);
      ReadGone(u, Star(x), c, true, s1);
      if Exec(body, s1).Some? {
        var s2 := Exec(body, s1).value;
        var s3 := s2.(env := Leave(s.env, s2.env, {x} + Locals(body)));
        LeaveKept(s.env, s1.env, s2.env, x, {x} + Locals(body), c, open, c, true);
        assert SameAt(s.env, s3.env, p.root);
        EachGone(u, x, p, j + 1, n, c, open, s3);
        var r := EachRef(x, p, j + 1, n, body, s3);
        if r.Some? {
          KeptTwice(s.env, s3.env, r.value.env, c, open, c, open);
        }
      }
    }
  }

  /** Reading a size declares a variable that older code does not know. */
  lemma SizeSpares(c: nat, open: bool, s: State)
    ensures Spares(s, Exec([DeclInt(ElemSize(c))] + StdIn(Var(ElemSize(c)), One), s), c, open)
  {
    var sz := ElemSize(c);
    var s1 := s.(env := s.env[sz := Obj(Atom(Num(0)))]);
    ExecOne(DeclInt(sz), s);
    ExecConcat([DeclInt(sz)], StdIn(Var(sz), One), s);
    LoopEnv(One, UnPack(Var(sz), One), s1);
  }

  lemma {:induction false} ListGone(t: Type, l: LVal, c: nat, open: bool, s: State)
    requires t.Container? && Shaped(t) && !t.elem.Pair? && Gone(l, s.env, c, open)
    ensures Exec(DeMarshalCode(t, l, None, c).0, s).None?
  {
    var (k, u, sz) := (t.kind, t.elem, ElemSize(c));
    var (size, resize) := ([DeclInt(sz)] + StdIn(Var(sz), One), Resize(l, Of(sz), u));
    var tail := if BlockVector(k, u) then StdIn(First(l), Of(sz))
                else [Push(Of(sz)), ForIter(Elem(c), l, DeMarshalCode(u, Star(Elem(c)), None, c + 1).0), Pop];
    SizeSpares(c, open, s);
    ExecConcat(size, [resize], s);
    if Exec(size, s).Some? {
      var s1 := Exec(size, s).value;
      GoneKept(l, s.env, s1.env, c, open, c, open);
      ExecOne(resize, s1);
    }
    ExecConcat(ListHead(u, l, c), tail, s);
  }

  lemma {:induction false} MapGone(t: Type, l: LVal, c: nat, open: bool, s: State)
    requires t.Container? && Shaped(t) && t.elem.Pair? && Gone(l, s.env, c, open)
    ensures Exec(DeMarshalCode(t, l, None, c).0, s).None?
  {
    var (head, tail) := (MapHead(t.elem, c), MapTail(t.elem, l, c));
    MapHeadSpares(t.elem, c, open, s);
    if Exec(head, s).Some? {
      var s1 := Exec(head, s).value;
      GoneKept(l, s.env, s1.env, c, open, c, open);
      assert Step(Clear(l), s1.(depth := s1.depth + 1)).None?;
      assert tail[1..][0] == Clear(l);
    }
    ExecConcat(head, tail, s);
    MapCode(t, l, c);
  }

  /** The head of a map's reading code declares three variables. */
  lemma MapHeadSpares(u: Type, c: nat, open: bool, s: State)
    requires u.Pair?
    ensures
      var r := Exec(MapHead(u, c), s);
      Spares(s, r, c, open)
      && (r.Some? ==>
            ElemKey(c) in r.value.env && r.value.env[ElemKey(c)] == Obj(Default(u.key))
            && ElemValue(c) in r.value.env && r.value.env[ElemValue(c)] == Obj(Default(u.value)))
  {
    var (decls, sz) := (MapDecls(u, c), ElemSize(c));
    MapDeclared(u, c, s);
    var s1 := Exec(decls, s).value;
    ExecConcat(decls, StdIn(Var(sz), One), s);
    LoopEnv(One, UnPack(Var(sz), One), s1);
  }
}
