/** Memory and scoping facts the codec proofs rest on: paths into values, and which
    generated names a piece of code may touch. */
module Scopes {
  import opened Types
  import opened Emit
  import opened Machine

  // ---------- paths ----------

  lemma {:induction false} GetElem(v: Value, steps: seq<nat>, j: nat)
    requires Get(v, steps).Some? && Get(v, steps).value.Agg? && j < |Get(v, steps).value.elems|
    ensures Get(v, steps + [j]) == Some(Get(v, steps).value.elems[j])
    decreases |steps|
  {
    if steps == [] {
      assert steps + [j] == [j];
      assert [j][1..] == [];
    } else {
      assert (steps + [j])[1..] == steps[1..] + [j];
      GetElem(v.elems[steps[0]], steps[1..], j);
    }
  }

  lemma {:induction false} GetPut(v: Value, steps: seq<nat>, w: Value)
    requires Get(v, steps).Some?
    ensures Get(Put(v, steps, w), steps) == Some(w)
    decreases |steps|
  {
    if steps != [] { GetPut(v.elems[steps[0]], steps[1..], w); }
  }

  lemma {:induction false} PutPut(v: Value, steps: seq<nat>, a: Value, b: Value)
    requires Get(v, steps).Some?
    ensures Put(Put(v, steps, a), steps, b) == Put(v, steps, b)
    decreases |steps|
  {
    if steps != [] { PutPut(v.elems[steps[0]], steps[1..], a, b); }
  }

  lemma {:induction false} PutElem(v: Value, steps: seq<nat>, j: nat, w: Value)
    requires Get(v, steps).Some? && Get(v, steps).value.Agg? && j < |Get(v, steps).value.elems|
    ensures Put(v, steps + [j], w) == Put(v, steps, Agg(Get(v, steps).value.elems[j := w]))
    decreases |steps|
  {
    if steps == [] {
      assert steps + [j] == [j];
      assert [j][1..] == [];
    } else {
      assert (steps + [j])[1..] == steps[1..] + [j];
      PutElem(v.elems[steps[0]], steps[1..], j, w);
    }
  }

  lemma {:induction false} PutSame(v: Value, steps: seq<nat>)
    requires Get(v, steps).Some?
    ensures Put(v, steps, Get(v, steps).value) == v
    decreases |steps|
  {
    if steps != [] { PutSame(v.elems[steps[0]], steps[1..]); }
  }

  // ---------- names ----------

  /** Names that code generated from counter `c` on leaves alone.  `open` says that a
      loop over an array is being generated: its element pointer already carries the
      number `c`, because the array generator increments the counter only afterwards. */
  predicate Older(n: Name, c: nat, open: bool) {
    match n
    case Elem(k) => k < c
    case ItElem(k) => k < c
    case ElemSize(k) => k < c
    case ElemKey(k) => k < c
    case ElemValue(k) => k < c
    case PopElem(k) => k < c || (open && k == c)
    case LoopI => false
    case _ => true
  }

  predicate OlderL(l: LVal, c: nat, open: bool) {
    match l
    case Var(n) => Older(n, c, open)
    case Star(n) => Older(n, c, open)
    case Mem(m, _) => OlderL(m, c, open)
    case At(m, x) => OlderL(m, c, open) && Older(x, c, open)
    case First(m) => OlderL(m, c, open)
  }

  ghost predicate SameAt(a: Env, b: Env, n: Name) {
    (n in a <==> n in b) && (n in a ==> a[n] == b[n])
  }

  /** b is a, as far as the names older than (c, open) go. */
  ghost predicate Kept(a: Env, b: Env, c: nat, open: bool) {
    forall n :: Older(n, c, open) ==> SameAt(a, b, n)
  }

  /** The same, except that the object at p now holds w. */
  ghost predicate Assigned(a: Env, b: Env, p: Path, w: Value, c: nat, open: bool) {
    && (forall n :: Older(n, c, open) && n != p.root ==> SameAt(a, b, n))
    && p.root in a && a[p.root].Obj?
    && p.root in b && b[p.root] == Obj(Put(a[p.root].v, p.steps, w))
  }

  /** The place l names: known to the older code, and holding v. */
  ghost predicate Holds(l: LVal, p: Path, v: Value, env: Env, c: nat, open: bool) {
    OlderL(l, c, open) && Resolve(l, env) == Some(p) && Older(p.root, c, open) && Load(p, env) == Some(v)
  }

  predicate NoLater(c: nat, open: bool, d: nat, open': bool) {
    c < d || (c == d && (open ==> open'))
  }

  lemma {:induction false} OlderMono(l: LVal, c: nat, open: bool, d: nat, open': bool)
    requires OlderL(l, c, open) && NoLater(c, open, d, open')
    ensures OlderL(l, d, open')
  {
    match l
    case Mem(m, _) => OlderMono(m, c, open, d, open');
    case At(m, _) => OlderMono(m, c, open, d, open');
    case First(m) => OlderMono(m, c, open, d, open');
    case _ =>
  }

  /** An l-value keeps its meaning when older names keep their binding, or when only
      the content of an object changes and no index variable lives in it. */
  lemma {:induction false} ResolveKept(l: LVal, a: Env, b: Env, c: nat, open: bool)
    requires OlderL(l, c, open) && Kept(a, b, c, open)
    ensures Resolve(l, a) == Resolve(l, b)
  {
    match l
    case Var(n) => assert SameAt(a, b, n);
    case Star(n) => assert SameAt(a, b, n);
    case Mem(m, _) => ResolveKept(m, a, b, c, open);
    case At(m, x) => assert SameAt(a, b, x); ResolveKept(m, a, b, c, open);
    case First(m) => ResolveKept(m, a, b, c, open);
  }

  /** No index variable of l is the object `root`. */
  predicate NotIndexedBy(l: LVal, root: Name) {
    match l
    case Mem(m, _) => NotIndexedBy(m, root)
    case At(m, x) => x != root && NotIndexedBy(m, root)
    case First(m) => NotIndexedBy(m, root)
    case _ => true
  }

  lemma {:induction false} ResolveAssigned(l: LVal, a: Env, b: Env, p: Path, w: Value, c: nat, open: bool)
    requires OlderL(l, c, open) && Assigned(a, b, p, w, c, open) && NotIndexedBy(l, p.root)
    ensures Resolve(l, a) == Resolve(l, b)
  {
    match l
    case Var(n) => if n != p.root { assert SameAt(a, b, n); }
    case Star(n) => if n != p.root { assert SameAt(a, b, n); }
    case Mem(m, _) => ResolveAssigned(m, a, b, p, w, c, open);
    case At(m, x) => assert SameAt(a, b, x); ResolveAssigned(m, a, b, p, w, c, open);
    case First(m) => ResolveAssigned(m, a, b, p, w, c, open);
  }

  // ---------- composing assignments ----------

  lemma AssignedElem(a: Env, b: Env, p: Path, es: seq<Value>, j: nat, w: Value, c: nat, open: bool)
    requires Load(p, a) == Some(Agg(es)) && j < |es|
    requires Assigned(a, b, Path(p.root, p.steps + [j]), w, c, open)
    ensures Assigned(a, b, p, Agg(es[j := w]), c, open)
    ensures Load(p, b) == Some(Agg(es[j := w]))
  {
    PutElem(a[p.root].v, p.steps, j, w);
    GetPut(a[p.root].v, p.steps, Agg(es[j := w]));
  }

  lemma AssignedTwice(a: Env, b: Env, e: Env, p: Path, v: Value, w: Value, c: nat, open: bool, d: nat, open': bool)
    requires Load(p, a).Some? && NoLater(c, open, d, open')
    requires Assigned(a, b, p, v, c, open) && Assigned(b, e, p, w, d, open')
    ensures Assigned(a, e, p, w, c, open)
  {
    PutPut(a[p.root].v, p.steps, v, w);
    forall n | Older(n, c, open) && n != p.root ensures SameAt(a, e, n) {
      assert SameAt(a, b, n) && SameAt(b, e, n);
    }
  }

  lemma LoadElem(p: Path, env: Env, es: seq<Value>, j: nat)
    requires Load(p, env) == Some(Agg(es)) && j < |es|
    ensures Load(Path(p.root, p.steps + [j]), env) == Some(es[j])
  {
    GetElem(env[p.root].v, p.steps, j);
  }

  lemma LoadAssigned(a: Env, b: Env, p: Path, w: Value, c: nat, open: bool)
    requires Load(p, a).Some? && Assigned(a, b, p, w, c, open)
    ensures Load(p, b) == Some(w)
  {
    GetPut(a[p.root].v, p.steps, w);
  }

  /** Generated code brackets its work in Push and Pop. */
  lemma Bracket(sz: Size, code: Code, s: State)
    requires SizeVal(sz, s.env).Some?
    requires var r := Exec(code, s.(depth := s.depth + 1)); r.Some? && r.value.depth == s.depth + 1
    ensures Exec([Push(sz)] + code + [Pop], s)
         == Some(Exec(code, s.(depth := s.depth + 1)).value.(depth := s.depth))
  {
    assert [Push(sz)] + code + [Pop] == [Push(sz)] + (code + [Pop]);
    ExecFirst(Push(sz), code + [Pop], s);
    ExecLast(code, Pop, s.(depth := s.depth + 1));
  }

  lemma ExecFirst(i: Instr, rest: Code, s: State)
    ensures Exec([i] + rest, s) == if Step(i, s).None? then None else Exec(rest, Step(i, s).value)
  {
    assert ([i] + rest)[0] == i && ([i] + rest)[1..] == rest;
  }

  lemma ExecLast(code: Code, i: Instr, s: State)
    ensures Exec(code + [i], s) == if Exec(code, s).None? then None else Step(i, Exec(code, s).value)
  {
    ExecConcat(code, [i], s);
    if Exec(code, s).Some? { ExecOne(i, Exec(code, s).value); }
  }

  lemma Looped(sz: Size, i: Instr, s: State)
    requires SizeVal(sz, s.env).Some?
    requires var r := Step(i, s.(depth := s.depth + 1)); r.Some? && r.value.depth == s.depth + 1
    ensures Exec([Push(sz), i, Pop], s) == Some(Step(i, s.(depth := s.depth + 1)).value.(depth := s.depth))
  {
    ExecOne(i, s.(depth := s.depth + 1));
    Bracket(sz, [i], s);
    assert [Push(sz), i, Pop] == [Push(sz)] + [i] + [Pop];
  }

  lemma ExecOne(i: Instr, s: State)
    ensures Exec([i], s) == Step(i, s)
  {
    assert [i][0] == i && [i][1..] == [];
    if Step(i, s).Some? { assert Exec([], Step(i, s).value) == Step(i, s); }
  }

  /** A loop over an array that its own pointer does not capture runs over the elements. */
  lemma PtrStep(l: LVal, size: Size, body: Code, c: nat, s: State, p: Path, v: Value, n: nat)
    requires Holds(l, p, v, s.env, c, false) && SizeVal(size, s.env) == Some(n)
    ensures Step(ForPtr(PopElem(c), l, size, body), s) == EachRef(PopElem(c), p, 0, n, body, s)
  {
    ResolveKept(l, s.env, s.env - {PopElem(c)}, c, false);
  }

  /** A loop over a container runs over its elements. */
  lemma IterStep(it: Name, l: LVal, body: Code, s: State, p: Path, n: nat)
    requires Resolve(l, s.env) == Some(p)
    requires Load(p, s.env).Some? && Load(p, s.env).value.Agg? && n == |Load(p, s.env).value.elems|
    ensures Step(ForIter(it, l, body), s) == EachRef(it, p, 0, n, body, s)
  {
  }

  lemma IdxStep(x: Name, size: Size, body: Code, s: State, n: nat)
    requires SizeVal(size, s.env) == Some(n)
    ensures Step(ForIdx(x, size, body), s) == EachIdx(x, 0, n, body, s)
  {
  }

  /** Push and Pop do not touch variables. */
  lemma BracketEnv(sz: Size, code: Code, s: State)
    ensures
      var (whole, inner) := (Exec([Push(sz)] + code + [Pop], s), Exec(code, s.(depth := s.depth + 1)));
      whole.Some? ==> inner.Some? && whole.value.env == inner.value.env
  {
    assert [Push(sz)] + code + [Pop] == [Push(sz)] + (code + [Pop]);
    ExecFirst(Push(sz), code + [Pop], s);
    ExecLast(code, Pop, s.(depth := s.depth + 1));
  }

  lemma LoopEnv(sz: Size, i: Instr, s: State)
    ensures
      var (whole, inner) := (Exec([Push(sz), i, Pop], s), Step(i, s.(depth := s.depth + 1)));
      whole.Some? ==> inner.Some? && whole.value.env == inner.value.env
  {
    ExecOne(i, s.(depth := s.depth + 1));
    BracketEnv(sz, [i], s);
    assert [Push(sz), i, Pop] == [Push(sz)] + [i] + [Pop];
  }
}
