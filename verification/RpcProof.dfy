/** A remote call through generated stubs amounts to a local call. */
module RpcProof {
  import opened Types
  import opened Emit
  import opened Machine
  import opened Scopes
  import opened Codec
  import opened CodecRead
  import opened Rpc

  /** Parameters the generated code can carry: a type that owns its data, with or without a
      size, or a sized pointer to such elements. */
  predicate Carried(p: Param) {
    var t := Core(p.t);
    if t.Ptr? then p.size.Some? && t.level == 1 && Plain(t.base) && CaptureFree(t.base, false)
    else Plain(t) && CaptureFree(t, false)
  }

  /** The data v offers for parameter p when its size is n: enough elements, where elements are
      counted, and one, where it is a scalar. */
  ghost predicate Offers(p: Param, v: Value, n: nat)
    requires Carried(p)
  {
    var t := Core(p.t);
    if t.Ptr? then v.Agg? && n <= |v.elems| && AllTyped(t.base, v.elems[..n])
    else Typed(t, v) && (p.size.Some? ==> (t.Array? ==> n <= |v.elems|) && (t.Std? ==> n == 1))
  }

  function ParamWire(p: Param, v: Value, n: nat): seq<Datum>
    requires Carried(p)
  {
    (if p.size.Some? then [Num(n)] else []) + DataWire(p, v, n)
  }

  function DataWire(p: Param, v: Value, n: nat): seq<Datum>
    requires Carried(p)
  {
    if !Sliced(p) then Wire(Core(p.t), v)
    else if v.Agg? && n <= |v.elems| then WireAll(Core(p.t).base, v.elems[..n]) else []
  }

  // ---------- program variables, as opposed to generated ones ----------

  predicate Visible(n: Name) { n.User? }

  ghost predicate SameVisible(a: Env, b: Env) { forall n :: Visible(n) ==> SameAt(a, b, n) }

  ghost predicate SetVar(a: Env, b: Env, x: Name, v: Value) {
    x in b && b[x] == Obj(v) && forall n :: Visible(n) && n != x ==> SameAt(a, b, n)
  }

  lemma VisibleTwice(a: Env, b: Env, e: Env)
    requires SameVisible(a, b) && SameVisible(b, e)
    ensures SameVisible(a, e)
  {
    forall n | Visible(n) ensures SameAt(a, e, n) { assert SameAt(a, b, n) && SameAt(b, e, n); }
  }

  lemma SetAfter(a: Env, b: Env, e: Env, x: Name, v: Value)
    requires (forall n :: Visible(n) && n != x ==> SameAt(a, b, n)) && SetVar(b, e, x, v)
    ensures SetVar(a, e, x, v)
  {
    forall n | Visible(n) && n != x ensures SameAt(a, e, n) { assert SameAt(a, b, n) && SameAt(b, e, n); }
  }

  /** The variables a size expression reads. */
  function Refs(e: Expr): set<string> {
    match e
    case Const(_) => {}
    case Param(id) => {id}
    case Plus(a, b) => Refs(a) + Refs(b)
    case Times(a, b) => Refs(a) + Refs(b)
  }

  lemma {:induction false} EvalSame(e: Expr, a: Env, b: Env)
    requires forall id :: id in Refs(e) ==> SameAt(a, b, User(id))
    ensures Eval(e, a) == Eval(e, b)
  {
    match e
    case Plus(x, y) => EvalSame(x, a, b); EvalSame(y, a, b);
    case Times(x, y) => EvalSame(x, a, b); EvalSame(y, a, b);
    case Param(id) => assert SameAt(a, b, User(id));
    case Const(_) =>
  }

  // ---------- sized blocks ----------

  ghost predicate Sent(s: State, r: Option<State>, data: seq<Datum>) {
    r.Some? && r.value.wire == s.wire + data && r.value.depth == s.depth && SameVisible(s.env, r.value.env)
  }

  ghost predicate Received(s: State, r: Option<State>, x: Name, v: Value, rest: seq<Datum>) {
    r.Some? && r.value.wire == rest && r.value.depth == s.depth && SetVar(s.env, r.value.env, x, v)
  }

  lemma SentBoth(a: Code, b: Code, s: State, x: seq<Datum>, y: seq<Datum>)
    requires Sent(s, Exec(a, s), x) && Sent(Exec(a, s).value, Exec(b, Exec(a, s).value), y)
    ensures Sent(s, Exec(a + b, s), x + y)
  {
    ExecConcat(a, b, s);
    VisibleTwice(s.env, Exec(a, s).value.env, Exec(b, Exec(a, s).value).value.env);
  }

  /** `for (_pop_item = j; _pop_item < n; ...)` marshalling x[_pop_item]. */
  lemma MarshalItem(u: Type, x: Name, j: nat, c: nat, s: State, vs: seq<Value>)
    requires Plain(u) && CaptureFree(u, false) && j < |vs| && Typed(u, vs[j])
    requires x.User? && x in s.env && s.env[x] == Obj(Agg(vs))
    ensures
      var body := MarshalCode(u, At(Var(x), PopItem), None, c).0;
      var r := Exec(body, s.(env := s.env[PopItem := Obj(Atom(Num(j)))]));
      r.Some? && r.value.wire == s.wire + Wire(u, vs[j]) && r.value.depth == s.depth
      && SameVisible(s.env, Leave(s.env, r.value.env, {PopItem} + Locals(body)))
  {
    var (l, s1) := (At(Var(x), PopItem), s.(env := s.env[PopItem := Obj(Atom(Num(j)))]));
    var body := MarshalCode(u, l, None, c).0;
    LoadElem(Path(x, []), s1.env, vs, j);
    assert [] + [j] == [j];
    MarshalWrites(u, l, c, false, s1, Path(x, [j]), vs[j]);
    var e := Exec(body, s1).value.env;
    forall m | Visible(m) ensures SameAt(s.env, Leave(s.env, e, {PopItem} + Locals(body)), m) {
      assert SameAt(s1.env, e, m);
    }
  }

  lemma {:induction false} MarshalItems(u: Type, x: Name, j: nat, n: nat, c: nat, s: State, vs: seq<Value>)
    requires Plain(u) && CaptureFree(u, false) && j <= n <= |vs| && AllTyped(u, vs[..n])
    requires x.User? && x in s.env && s.env[x] == Obj(Agg(vs))
    ensures Sent(s, EachIdx(PopItem, j, n, MarshalCode(u, At(Var(x), PopItem), None, c).0, s), WireAll(u, vs[j..n]))
    decreases n - j
  {
    if j < n {
      var body := MarshalCode(u, At(Var(x), PopItem), None, c).0;
      assert vs[..n][j] == vs[j];
      MarshalItem(u, x, j, c, s, vs);
      var s2 := Exec(body, s.(env := s.env[PopItem := Obj(Atom(Num(j)))])).value;
      var s3 := s2.(env := Leave(s.env, s2.env, {PopItem} + Locals(body)));
      assert SameAt(s.env, s3.env, x);
      MarshalItems(u, x, j + 1, n, c, s3, vs);
      VisibleTwice(s.env, s3.env, EachIdx(PopItem, j + 1, n, body, s3).value.env);
      assert vs[j..n][0] == vs[j] && vs[j..n][1..] == vs[j + 1..n];
    }
  }

  lemma BlockSent(u: Type, x: Name, sz: Name, c: nat, s: State, vs: seq<Value>, n: nat)
    requires Plain(u) && CaptureFree(u, false) && n <= |vs| && AllTyped(u, vs[..n])
    requires x.User? && x in s.env && s.env[x] == Obj(Agg(vs)) && SizeVal(Of(sz), s.env) == Some(n)
    ensures Sent(s, Exec(MarshalCode(Ptr(1, u), Var(x), Some(Of(sz)), c).0, s), WireAll(u, vs[..n]))
  {
    if IsStandard(u) {
      PackPrefix(Var(x), Of(sz), s, Path(x, []), vs, n, u);
    } else {
      ItemsSent(u, x, sz, c, s, vs, n);
    }
  }

  lemma ItemsSent(u: Type, x: Name, sz: Name, c: nat, s: State, vs: seq<Value>, n: nat)
    requires Plain(u) && CaptureFree(u, false) && n <= |vs| && AllTyped(u, vs[..n])
    requires x.User? && x in s.env && s.env[x] == Obj(Agg(vs)) && SizeVal(Of(sz), s.env) == Some(n)
    ensures
      var loop := ForIdx(PopItem, Of(sz), MarshalCode(u, At(Var(x), PopItem), None, c).0);
      Sent(s, Exec([Push(Of(sz)), loop, Pop], s), WireAll(u, vs[..n]))
  {
    var (s1, body) := (s.(depth := s.depth + 1), MarshalCode(u, At(Var(x), PopItem), None, c).0);
    IdxStep(PopItem, Of(sz), body, s1, n);
    MarshalItems(u, x, 0, n, c, s1, vs);
    assert vs[0..n] == vs[..n];
    Looped(Of(sz), ForIdx(PopItem, Of(sz), body), s);
  }

  lemma {:induction false} DeMarshalItems(u: Type, x: Name, j: nat, c: nat, s: State,
                                          cur: seq<Value>, vs: seq<Value>, rest: seq<Datum>)
    requires Plain(u) && CaptureFree(u, false) && j <= |vs| <= |cur| && AllTyped(u, vs) && AllTyped(u, cur[..|vs|])
    requires cur[..j] == vs[..j] && s.wire == WireAll(u, vs[j..]) + rest
    requires x.User? && x in s.env && s.env[x] == Obj(Agg(cur))
    ensures Received(s, EachIdx(PopItem, j, |vs|, DeMarshalCode(u, At(Var(x), PopItem), None, c).0, s),
                     x, Agg(vs + cur[|vs|..]), rest)
    decreases |vs| - j
  {
    if j == |vs| {
      assert vs + cur[|vs|..] == cur;
    } else {
      var (body, next) := (DeMarshalCode(u, At(Var(x), PopItem), None, c).0, cur[j := vs[j]]);
      DeMarshalItem(u, x, j, c, s, cur, vs, rest);
      var s2 := Exec(body, s.(env := s.env[PopItem := Obj(Atom(Num(j)))])).value;
      var s3 := s2.(env := Leave(s.env, s2.env, {PopItem} + Locals(body)));
      NextItems(u, j, cur, vs);
      DeMarshalItems(u, x, j + 1, c, s3, next, vs, rest);
      SetAfter(s.env, s3.env, EachIdx(PopItem, j + 1, |vs|, body, s3).value.env, x, Agg(vs + cur[|vs|..]));
    }
  }

  lemma NextItems(u: Type, j: nat, cur: seq<Value>, vs: seq<Value>)
    requires j < |vs| <= |cur| && AllTyped(u, vs) && AllTyped(u, cur[..|vs|]) && cur[..j] == vs[..j]
    ensures
      var next := cur[j := vs[j]];
      next[..j + 1] == vs[..j + 1] && next[|vs|..] == cur[|vs|..] && AllTyped(u, next[..|vs|])
  {
    var next := cur[j := vs[j]];
    forall k | 0 <= k < |vs| ensures Typed(u, next[..|vs|][k]) {
      assert Typed(u, vs[k]) && Typed(u, cur[..|vs|][k]);
    }
  }

  lemma {:induction false} DeMarshalItem(u: Type, x: Name, j: nat, c: nat, s: State,
                                         cur: seq<Value>, vs: seq<Value>, rest: seq<Datum>)
    requires Plain(u) && CaptureFree(u, false) && j < |vs| <= |cur| && AllTyped(u, vs) && AllTyped(u, cur[..|vs|])
    requires s.wire == WireAll(u, vs[j..]) + rest && x.User? && x in s.env && s.env[x] == Obj(Agg(cur))
    ensures var body := DeMarshalCode(u, At(Var(x), PopItem), None, c).0;
      var r := Exec(body, s.(env := s.env[PopItem := Obj(Atom(Num(j)))]));
      && r.Some? && r.value.wire == WireAll(u, vs[j + 1..]) + rest && r.value.depth == s.depth
      && SetVar(s.env, Leave(s.env, r.value.env, {PopItem} + Locals(body)), x, Agg(cur[j := vs[j]]))
  {
    var l := At(Var(x), PopItem);
    var body := DeMarshalCode(u, l, None, c).0;
    var s1 := s.(env := s.env[PopItem := Obj(Atom(Num(j)))]);
    LoadElem(Path(x, []), s1.env, cur, j);
    assert [] + [j] == [j];
    WireNext(u, vs, j, rest);
    assert Typed(u, cur[..|vs|][j]);
    DeMarshalReads(u, l, c, false, s1, Path(x, [j]), cur[j], vs[j], WireAll(u, vs[j + 1..]) + rest);
    VisibleNotLocal(u, l, c);
    ItemLeft(x, j, s.env, s1.env, Exec(body, s1).value.env, {PopItem} + Locals(body), cur, vs[j], c);
  }

  lemma VisibleNotLocal(u: Type, l: LVal, c: nat)
    requires Plain(u) && CaptureFree(u, false)
    ensures forall m :: Visible(m) ==> m !in Locals(DeMarshalCode(u, l, None, c).0)
  {
    forall m | Visible(m) ensures m !in Locals(DeMarshalCode(u, l, None, c).0) {
      if m in Locals(DeMarshalCode(u, l, None, c).0) { LocalsNewer(u, l, c, false, m); }
    }
  }

  lemma ItemLeft(x: Name, j: nat, a: Env, b: Env, e: Env, locals: set<Name>, cur: seq<Value>, w: Value, c: nat)
    requires x.User? && x in a && a[x] == Obj(Agg(cur)) && j < |cur|
    requires (forall m :: Visible(m) ==> SameAt(a, b, m) && m !in locals)
    requires Assigned(b, e, Path(x, [j]), w, c, false)
    ensures SetVar(a, Leave(a, e, locals), x, Agg(cur[j := w]))
  {
    PutElem(Agg(cur), [], j, w);
    assert [] + [j] == [j];
    assert SameAt(a, b, x);
    forall m | Visible(m) && m != x ensures SameAt(a, Leave(a, e, locals), m) {
      assert SameAt(a, b, m) && Older(m, c, false) && SameAt(b, e, m);
    }
  }

  lemma BlockReceived(u: Type, x: Name, sz: Name, c: nat, s: State, cur: seq<Value>, vs: seq<Value>, rest: seq<Datum>)
    requires Plain(u) && CaptureFree(u, false) && |vs| <= |cur| && AllTyped(u, vs) && AllTyped(u, cur[..|vs|])
    requires x.User? && x in s.env && s.env[x] == Obj(Agg(cur)) && SizeVal(Of(sz), s.env) == Some(|vs|)
    requires s.wire == WireAll(u, vs) + rest
    ensures Received(s, Exec(DeMarshalCode(Ptr(1, u), Var(x), Some(Of(sz)), c).0, s), x, Agg(vs + cur[|vs|..]), rest)
  {
    if IsStandard(u) {
      UnPackPrefix(Var(x), Of(sz), s, Path(x, []), cur, vs, u, rest, 0, false);
      TookReceived(s, Exec(StdIn(First(Var(x)), Of(sz)), s), x, Agg(vs + cur[|vs|..]), rest, 0);
    } else {
      BlockLooped(u, x, sz, c, s, cur, vs, rest);
    }
  }

  lemma BlockLooped(u: Type, x: Name, sz: Name, c: nat, s: State, cur: seq<Value>, vs: seq<Value>, rest: seq<Datum>)
    requires Plain(u) && CaptureFree(u, false) && |vs| <= |cur| && AllTyped(u, vs) && AllTyped(u, cur[..|vs|])
    requires x.User? && x in s.env && s.env[x] == Obj(Agg(cur)) && SizeVal(Of(sz), s.env) == Some(|vs|)
    requires s.wire == WireAll(u, vs) + rest
    ensures var loop := ForIdx(PopItem, Of(sz), DeMarshalCode(u, At(Var(x), PopItem), None, c).0);
      Received(s, Exec([Push(Of(sz)), loop, Pop], s), x, Agg(vs + cur[|vs|..]), rest)
  {
    var (s1, body) := (s.(depth := s.depth + 1), DeMarshalCode(u, At(Var(x), PopItem), None, c).0);
    IdxStep(PopItem, Of(sz), body, s1, |vs|);
    assert vs[0..] == vs;
    DeMarshalItems(u, x, 0, c, s1, cur, vs, rest);
    Looped(Of(sz), ForIdx(PopItem, Of(sz), body), s);
  }

  lemma TookReceived(s: State, r: Option<State>, x: Name, v: Value, rest: seq<Datum>, c: nat)
    requires Took(s, r, Path(x, []), v, rest, c, false) && x.User?
    ensures Received(s, r, x, v, rest)
  {
    forall m | Visible(m) && m != x ensures SameAt(s.env, r.value.env, m) { assert Older(m, c, false); }
  }

  // ---------- one parameter ----------

  /** The size of a sized parameter, sent. */
  lemma SizeSent(id: string, e: Expr, s: State, n: nat)
    requires Eval(e, s.env) == Some(n)
    ensures Exec([DeclExpr(Size1(id), e)] + StdOut(Var(Size1(id)), One), s)
      == Some(s.(wire := s.wire + [Num(n)], env := s.env[Size1(id) := Obj(Atom(Num(n)))]))
  {
    var sz := Size1(id);
    ExecOne(DeclExpr(sz, e), s);
    var s1 := s.(env := s.env[sz := Obj(Atom(Num(n)))]);
    PackScalar(Var(sz), One, s1, Path(sz, []), Atom(Num(n)));
    ExecConcat([DeclExpr(sz, e)], StdOut(Var(sz), One), s);
  }

  /** Code for a typedef is code for what it stands for. */
  lemma {:induction false} CoreCode(t: Type, l: LVal, sz: Option<Size>, c: nat)
    ensures MarshalCode(t, l, sz, c) == MarshalCode(Core(t), l, sz, c)
    ensures DeMarshalCode(t, l, sz, c) == DeMarshalCode(Core(t), l, sz, c)
  {
    if t.Alias? { CoreCode(t.target, l, sz, c); }
  }

  /** A size changes nothing in the code for a struct, a container or a parallel object. */
  lemma SizeIgnored(t: Type, l: LVal, sz: Size, c: nat)
    requires t.Struct? || t.Container? || t.ParClass? || t.Pair?
    ensures MarshalCode(t, l, Some(sz), c) == MarshalCode(t, l, None, c)
    ensures DeMarshalCode(t, l, Some(sz), c) == DeMarshalCode(t, l, None, c)
  {
  }

  /** Marshalling code leaves program variables alone. */
  lemma WroteSent(s: State, r: Option<State>, data: seq<Datum>, c: nat)
    requires Wrote(s, r, data, c, false)
    ensures Sent(s, r, data)
  {
    forall m | Visible(m) ensures SameAt(s.env, r.value.env, m) { assert Older(m, c, false); }
  }

  /** The first n elements of an array. */
  lemma ArraySent(t: Type, x: Name, sz: Name, c: nat, s: State, vs: seq<Value>, n: nat)
    requires t.Array? && Plain(t) && CaptureFree(t, false) && Typed(t, Agg(vs)) && n <= |vs| && sz.Size1?
    requires x.User? && x in s.env && s.env[x] == Obj(Agg(vs)) && SizeVal(Of(sz), s.env) == Some(n)
    ensures Sent(s, Exec(MarshalCode(t, Var(x), Some(Of(sz)), c).0, s), WireAll(t.base, vs[..n]))
  {
    var r := Exec(MarshalCode(t, Var(x), Some(Of(sz)), c).0, s);
    if IsStandard(t.base) {
      PackPrefix(Var(x), Of(sz), s, Path(x, []), vs, n, t.base);
      assert MarshalCode(t, Var(x), Some(Of(sz)), c).0 == MarshalCode(t.base, First(Var(x)), Some(Of(sz)), c).0;
    } else {
      ArrayLoopWrites(t.base, Var(x), Of(sz), c, false, s, Path(x, []), vs, n);
      WroteSent(s, r, WireAll(t.base, vs[..n]), c);
    }
  }

  /** The data of a sized parameter, sent. */
  lemma DataSent(p: Param, sz: Name, c: nat, s: State, v: Value, n: nat)
    requires Carried(p) && p.size.Some? && Offers(p, v, n) && User(p.id) in s.env && s.env[User(p.id)] == Obj(v)
    requires sz.Size1? && SizeVal(Of(sz), s.env) == Some(n)
    ensures Sent(s, Exec(MarshalCode(p.t, Target(p), Some(Of(sz)), c).0, s), DataWire(p, v, n))
  {
    var (t, x) := (Core(p.t), User(p.id));
    CoreCode(p.t, Var(x), Some(Of(sz)), c);
    if t.Ptr? {
      assert t == Ptr(1, t.base);
      BlockSent(t.base, x, sz, c, s, v.elems, n);
    } else if t.Array? {
      ArraySent(t, x, sz, c, s, v.elems, n);
    } else {
      UnslicedSent(t, x, sz, c, s, v, n);
    }
  }

  lemma UnslicedSent(t: Type, x: Name, sz: Name, c: nat, s: State, v: Value, n: nat)
    requires Plain(t) && CaptureFree(t, false) && Typed(t, v) && !t.Ptr? && !t.Array? && !t.Alias?
    requires (t.Std? ==> n == 1) && sz.Size1? && SizeVal(Of(sz), s.env) == Some(n)
    requires x.User? && x in s.env && s.env[x] == Obj(v)
    ensures Sent(s, Exec(MarshalCode(t, Var(x), Some(Of(sz)), c).0, s), Wire(t, v))
  {
    if t.Std? {
      PackScalar(Var(x), Of(sz), s, Path(x, []), v);
    } else {
      SizeIgnored(t, Var(x), Of(sz), c);
      MarshalWrites(t, Var(x), c, false, s, Path(x, []), v);
      WroteSent(s, Exec(MarshalCode(t, Var(x), None, c).0, s), Wire(t, v), c);
    }
  }

  lemma ParamSent(p: Param, c: nat, s: State, v: Value, n: nat)
    requires Carried(p) && Offers(p, v, n) && User(p.id) in s.env && s.env[User(p.id)] == Obj(v)
    requires p.size.Some? ==> Eval(p.size.value, s.env) == Some(n)
    ensures Sent(s, Exec(ParamOut(p, c).0, s), ParamWire(p, v, n))
  {
    if p.size.None? {
      CoreCode(p.t, Target(p), None, c);
      MarshalWrites(Core(p.t), Target(p), c, false, s, Path(User(p.id), []), v);
      WroteSent(s, Exec(ParamOut(p, c).0, s), ParamWire(p, v, n), c);
    } else {
      var sz := Size1(p.id);
      var head := [DeclExpr(sz, p.size.value)] + StdOut(Var(sz), One);
      SizeSent(p.id, p.size.value, s, n);
      DataSent(p, sz, c, Exec(head, s).value, v, n);
      SentBoth(head, MarshalCode(p.t, Target(p), Some(Of(sz)), c).0, s, [Num(n)], DataWire(p, v, n));
    }
  }

  /** The size of a sized parameter, received. */
  lemma SizeReceived(p: Param, s: State, n: nat, rest: seq<Datum>)
    requires s.wire == [Num(n)] + rest
    ensures var r := Exec([DeclInt(Size2(p.id))] + StdIn(Var(Size2(p.id)), One), s);
      r == Some(s.(wire := rest, env := s.env[Size2(p.id) := Obj(Atom(Num(n)))]))
  {
    var sz := Size2(p.id);
    var s1 := s.(env := s.env[sz := Obj(Atom(Num(0)))]);
    ExecOne(DeclInt(sz), s);
    UnPackScalar(Var(sz), One, s1, Path(sz, []), Atom(Num(0)), Num(n), rest, 0, false);
    ExecConcat([DeclInt(sz)], StdIn(Var(sz), One), s);
    assert s1.env[sz := Obj(Atom(Num(n)))] == s.env[sz := Obj(Atom(Num(n)))];
  }

  /** Code that touches no other program variable than x, and then code that fills x. */
  lemma ReceivedAfter(a: Code, b: Code, s: State, x: Name, v: Value, rest: seq<Datum>)
    requires Exec(a, s).Some? && Exec(a, s).value.depth == s.depth
    requires forall n :: Visible(n) && n != x ==> SameAt(s.env, Exec(a, s).value.env, n)
    requires Received(Exec(a, s).value, Exec(b, Exec(a, s).value), x, v, rest)
    ensures Received(s, Exec(a + b, s), x, v, rest)
  {
    ExecConcat(a, b, s);
    SetAfter(s.env, Exec(a, s).value.env, Exec(b, Exec(a, s).value).value.env, x, v);
  }

  /** The first elements of an array, read back. */
  lemma ArrayReceived(t: Type, x: Name, sz: Name, c: nat, s: State, cur: seq<Value>, vs: seq<Value>, rest: seq<Datum>)
    requires t.Array? && Plain(t) && CaptureFree(t, false) && Typed(t, Agg(cur)) && AllTyped(t.base, vs)
    requires |vs| <= |cur| && x.User? && x in s.env && s.env[x] == Obj(Agg(cur))
    requires sz.Size2? && SizeVal(Of(sz), s.env) == Some(|vs|) && s.wire == WireAll(t.base, vs) + rest
    ensures Received(s, Exec(DeMarshalCode(t, Var(x), Some(Of(sz)), c).0, s), x, Agg(vs + cur[|vs|..]), rest)
  {
    var r := Exec(DeMarshalCode(t, Var(x), Some(Of(sz)), c).0, s);
    if IsStandard(t.base) {
      UnPackPrefix(Var(x), Of(sz), s, Path(x, []), cur, vs, t.base, rest, c, false);
      assert DeMarshalCode(t, Var(x), Some(Of(sz)), c).0 == DeMarshalCode(t.base, First(Var(x)), Some(Of(sz)), c).0;
    } else {
      ArrayLoopReads(t.base, Var(x), Of(sz), c, false, s, Path(x, []), cur, vs, rest);
    }
    TookReceived(s, r, x, Agg(vs + cur[|vs|..]), rest, c);
  }

  lemma UnslicedReceived(t: Type, x: Name, sz: Name, c: nat, s: State, cur: Value, w: Value, n: nat, rest: seq<Datum>)
    requires Plain(t) && CaptureFree(t, false) && Typed(t, cur) && Typed(t, w) && !t.Ptr? && !t.Array? && !t.Alias?
    requires (t.Std? ==> n == 1) && sz.Size2? && SizeVal(Of(sz), s.env) == Some(n)
    requires x.User? && x in s.env && s.env[x] == Obj(cur) && s.wire == Wire(t, w) + rest
    ensures Received(s, Exec(DeMarshalCode(t, Var(x), Some(Of(sz)), c).0, s), x, w, rest)
  {
    if t.Std? {
      UnPackScalar(Var(x), Of(sz), s, Path(x, []), cur, w.datum, rest, c, false);
    } else {
      SizeIgnored(t, Var(x), Of(sz), c);
      DeMarshalReads(t, Var(x), c, false, s, Path(x, []), cur, w, rest);
    }
    TookReceived(s, Exec(DeMarshalCode(t, Var(x), Some(Of(sz)), c).0, s), x, w, rest, c);
  }

  /** The data of a sized parameter, read into a variable that has room for it. */
  lemma DataReceived(p: Param, c: nat, s: State, cur: Value, w: Value, n: nat, rest: seq<Datum>)
    requires Carried(p) && p.size.Some? && Offers(p, w, n) && Offers(p, cur, n)
    requires User(p.id) in s.env && s.env[User(p.id)] == Obj(cur) && s.wire == DataWire(p, w, n) + rest
    requires SizeVal(Of(Size2(p.id)), s.env) == Some(n)
    ensures Received(s, Exec(DeMarshalCode(p.t, Target(p), Some(Of(Size2(p.id))), c).0, s), User(p.id),
                     Filled(p, cur, w, n), rest)
  {
    var (t, x, sz) := (Core(p.t), User(p.id), Size2(p.id));
    CoreCode(p.t, Var(x), Some(Of(sz)), c);
    if t.Ptr? {
      assert t == Ptr(1, t.base);
      BlockReceived(t.base, x, sz, c, s, cur.elems, w.elems[..n], rest);
    } else if t.Array? {
      ArrayReceived(t, x, sz, c, s, cur.elems, w.elems[..n], rest);
    } else {
      UnslicedReceived(t, x, sz, c, s, cur, w, n, rest);
    }
  }

  /** Into a variable that already has room for the data. */
  lemma ParamReturned(p: Param, c: nat, s: State, cur: Value, w: Value, n: nat, rest: seq<Datum>)
    requires Carried(p) && Offers(p, w, n) && Offers(p, cur, n)
    requires User(p.id) in s.env && s.env[User(p.id)] == Obj(cur) && s.wire == ParamWire(p, w, n) + rest
    ensures Received(s, Exec(ParamIn(p, false, c).0, s), User(p.id), Filled(p, cur, w, n), rest)
  {
    if p.size.None? {
      UnsizedTaken(p, false, c, s, cur, w, n, rest);
    } else {
      var head := [DeclInt(Size2(p.id))] + StdIn(Var(Size2(p.id)), One);
      assert s.wire == [Num(n)] + (DataWire(p, w, n) + rest);
      SizeReceived(p, s, n, DataWire(p, w, n) + rest);
      DataReceived(p, c, Exec(head, s).value, cur, w, n, rest);
      ReceivedAfter(head, DeMarshalCode(p.t, Target(p), Some(Of(Size2(p.id))), c).0, s, User(p.id),
                    Filled(p, cur, w, n), rest);
      assert head + [] == head;
    }
  }

  lemma UnsizedTaken(p: Param, alloc: bool, c: nat, s: State, cur: Value, w: Value, n: nat, rest: seq<Datum>)
    requires Carried(p) && p.size.None? && Offers(p, w, n) && Offers(p, cur, n)
    requires User(p.id) in s.env && s.env[User(p.id)] == Obj(cur) && s.wire == ParamWire(p, w, n) + rest
    ensures Received(s, Exec(ParamIn(p, alloc, c).0, s), User(p.id), w, rest)
  {
    CoreCode(p.t, Target(p), None, c);
    DeMarshalReads(Core(p.t), Target(p), c, false, s, Path(User(p.id), []), cur, w, rest);
    TookReceived(s, Exec(ParamIn(p, alloc, c).0, s), User(p.id), w, rest, c);
  }

  /** Into a variable just declared: in the broker, or for the result. */
  lemma ParamTaken(p: Param, c: nat, s: State, v: Value, n: nat, rest: seq<Datum>)
    requires Carried(p) && Offers(p, v, n) && s.wire == ParamWire(p, v, n) + rest
    ensures Received(s, Exec([DeclObj(User(p.id), p.t)] + ParamIn(p, true, c).0, s), User(p.id), Copied(p, v, n), rest)
  {
    var (x, decl) := (User(p.id), DeclObj(User(p.id), p.t));
    var s1 := s.(env := s.env[x := Obj(Default(p.t))]);
    ExecOne(decl, s);
    CoreMeans(p.t, v);
    DefaultTyped(Core(p.t));
    if p.size.None? {
      UnsizedTaken(p, true, c, s1, Default(p.t), v, n, rest);
    } else if Core(p.t).Ptr? {
      BlockTaken(p, c, s1, v, n, rest);
    } else {
      DeclaredTaken(p, c, s1, v, n, rest);
    }
    ReceivedAfter([decl], ParamIn(p, true, c).0, s, x, Copied(p, v, n), rest);
  }

  /** A sized parameter that is no pointer is read into the variable as declared. */
  lemma DeclaredTaken(p: Param, c: nat, s: State, v: Value, n: nat, rest: seq<Datum>)
    requires Carried(p) && p.size.Some? && !Core(p.t).Ptr? && Offers(p, v, n)
    requires User(p.id) in s.env && s.env[User(p.id)] == Obj(Default(p.t)) && s.wire == ParamWire(p, v, n) + rest
    ensures Received(s, Exec(ParamIn(p, true, c).0, s), User(p.id), Copied(p, v, n), rest)
  {
    CoreMeans(p.t, v);
    DefaultTyped(Core(p.t));
    ParamReturned(p, c, s, Default(p.t), v, n, rest);
    assert ParamIn(p, true, c) == ParamIn(p, false, c);
    if Core(p.t).Array? {
      assert Default(p.t).elems[n..] == Copies(Default(Core(p.t).base), |v.elems| - n);
    }
  }

  /** The size is declared and read, and a block of default elements allocated. */
  lemma BlockMade(p: Param, s: State, n: nat, rest: seq<Datum>)
    requires p.size.Some? && Core(p.t).Ptr? && User(p.id) in s.env && s.wire == [Num(n)] + rest
    ensures
      var head := [DeclInt(Size2(p.id))] + StdIn(Var(Size2(p.id)), One);
      var sized := s.env[Size2(p.id) := Obj(Atom(Num(n)))];
      Exec(head + [Alloc(User(p.id), Of(Size2(p.id)), Core(p.t).base)], s)
        == Some(s.(wire := rest, env := sized[User(p.id) := Obj(Agg(Copies(Default(Core(p.t).base), n)))]))
  {
    var head := [DeclInt(Size2(p.id))] + StdIn(Var(Size2(p.id)), One);
    var alloc := Alloc(User(p.id), Of(Size2(p.id)), Core(p.t).base);
    SizeReceived(p, s, n, rest);
    var s1 := Exec(head, s).value;
    assert SizeVal(Of(Size2(p.id)), s1.env) == Some(n);
    ExecOne(alloc, s1);
    ExecConcat(head, [alloc], s);
  }

  lemma BlockTaken(p: Param, c: nat, s: State, v: Value, n: nat, rest: seq<Datum>)
    requires Carried(p) && p.size.Some? && Core(p.t).Ptr? && Offers(p, v, n)
    requires User(p.id) in s.env && s.wire == ParamWire(p, v, n) + rest
    ensures Received(s, Exec(ParamIn(p, true, c).0, s), User(p.id), Agg(v.elems[..n]), rest)
  {
    var (x, sz, u) := (User(p.id), Size2(p.id), Core(p.t).base);
    var made := [DeclInt(sz)] + StdIn(Var(sz), One) + [Alloc(x, Of(sz), u)];
    var cur := Copies(Default(u), n);
    assert s.wire == [Num(n)] + (DataWire(p, v, n) + rest);
    BlockMade(p, s, n, DataWire(p, v, n) + rest);
    DefaultTyped(u);
    DataReceived(p, c, Exec(made, s).value, Agg(cur), v, n, rest);
    assert v.elems[..n] + cur[n..] == v.elems[..n];
    ReceivedAfter(made, DeMarshalCode(p.t, Target(p), Some(Of(sz)), c).0, s, x, Agg(v.elems[..n]), rest);
  }
}
