/** What the parser accepts, and the accepted types that generated code cannot rebuild. */
module Hazards {
  import opened Types
  import opened Emit
  import opened Machine
  import opened Scopes
  import opened CodecRead
  import opened Codec
  import opened Capture
  import opened Rpc
  import opened RpcProof
  import opened RemoteCall

  lemma {:induction false} PlainAccepted(t: Type)
    requires Plain(t)
    ensures CanMarshal(t) == 1
    decreases t
  {
    match t
    case Struct(ts) => forall i | 0 <= i < |ts| ensures CanMarshal(ts[i]) == 1 { PlainAccepted(ts[i]); }
    case Alias(u) => PlainAccepted(u);
    case Array(_, u) => PlainAccepted(u);
    case Container(_, u) => PlainAccepted(u);
    case Pair(a, b) => PlainAccepted(a); PlainAccepted(b);
    case _ =>
  }

  // ---------------------------------------------------------------- what is refused

  /** u is t or occurs in it. */
  predicate Part(u: Type, t: Type)
    decreases t
  {
    u == t
    || match t
       case Struct(ts) => exists i :: 0 <= i < |ts| && Part(u, ts[i])
       case Alias(v) => Part(u, v)
       case Array(_, v) => Part(u, v)
       case Ptr(_, v) => Part(u, v)
       case Container(_, v) => Part(u, v)
       case Pair(a, b) => Part(u, a) || Part(u, b)
       case _ => false
  }

  /** t without typedefs and dimensions around it. */
  function Element(t: Type): Type {
    match t
    case Alias(u) => Element(u)
    case Array(_, u) => Element(u)
    case _ => t
  }

  /** A pointer to pointers, or a struct with an attribute of a pointer type. */
  predicate Offends(u: Type) {
    (u.Ptr? && u.level != 1) || (u.Struct? && exists i :: 0 <= i < |u.fields| && Element(u.fields[i]).Ptr?)
  }

  ghost predicate Refused(t: Type) { exists u :: Part(u, t) && Offends(u) }

  lemma RefusedBy(u: Type, t: Type)
    requires Part(u, t) && Offends(u)
    ensures Refused(t)
  {
  }

  /** A type is refused if and only if something in it offends; it needs a size if and only if it is
      a pointer, or an array of pointers, and nothing in it offends. */
  lemma {:induction false} RefusedIff(t: Type)
    ensures CanMarshal(t) == 0 <==> Refused(t)
    ensures CanMarshal(t) == 2 <==> !Refused(t) && Element(t).Ptr?
    ensures CanMarshal(t) <= 2
    decreases t
  {
    match t
    case Struct(ts) => StructRefused(ts);
    case Alias(u) => InnerRefused(t, u);
    case Array(_, u) => InnerRefused(t, u);
    case Ptr(n, u) => PointerRefused(n, u);
    case Container(_, u) => InnerRefused(t, u);
    case Pair(a, b) => PairRefused(a, b);
    case _ =>
  }

  lemma {:induction false} InnerRefused(t: Type, u: Type)
    requires t == Alias(u) || (t.Array? && t.base == u) || (t.Container? && t.elem == u)
    ensures CanMarshal(u) == 0 <==> Refused(u)
    ensures CanMarshal(u) == 2 <==> !Refused(u) && Element(u).Ptr?
    ensures CanMarshal(u) <= 2 && (Refused(t) <==> Refused(u))
    decreases t, 0
  {
    RefusedIff(u);
    if Refused(u) {
      var x :| Part(x, u) && Offends(x);
      RefusedBy(x, t);
    }
  }

  lemma {:induction false} PointerRefused(n: nat, u: Type)
    ensures CanMarshal(Ptr(n, u)) == 0 <==> Refused(Ptr(n, u))
    ensures CanMarshal(Ptr(n, u)) == 2 <==> !Refused(Ptr(n, u))
    decreases Ptr(n, u), 0
  {
    var t := Ptr(n, u);
    RefusedIff(u);
    if Refused(u) {
      var x :| Part(x, u) && Offends(x);
      RefusedBy(x, t);
    } else if n != 1 {
      RefusedBy(t, t);
    }
  }

  lemma {:induction false} PairRefused(a: Type, b: Type)
    ensures CanMarshal(Pair(a, b)) == 0 <==> Refused(Pair(a, b))
    ensures CanMarshal(Pair(a, b)) != 2
    decreases Pair(a, b), 0
  {
    RefusedIff(a);
    RefusedIff(b);
    if Refused(a) {
      var x :| Part(x, a) && Offends(x);
      RefusedBy(x, Pair(a, b));
    } else if Refused(b) {
      var x :| Part(x, b) && Offends(x);
      RefusedBy(x, Pair(a, b));
    }
  }

  lemma {:induction false} StructRefused(ts: seq<Type>)
    ensures CanMarshal(Struct(ts)) == 0 <==> Refused(Struct(ts))
    ensures CanMarshal(Struct(ts)) != 2
    decreases Struct(ts), 0
  {
    var t := Struct(ts);
    forall i | 0 <= i < |ts|
      ensures (CanMarshal(ts[i]) == 0 <==> Refused(ts[i])) && CanMarshal(ts[i]) <= 2
              && (CanMarshal(ts[i]) == 2 <==> !Refused(ts[i]) && Element(ts[i]).Ptr?)
    {
      RefusedIff(ts[i]);
    }
    if i :| 0 <= i < |ts| && CanMarshal(ts[i]) != 1 {
      if Refused(ts[i]) {
        var x :| Part(x, ts[i]) && Offends(x);
        RefusedBy(x, t);
      } else {
        RefusedBy(t, t);
      }
    }
  }

  // ---------------------------------------------------------------- what is accepted

  lemma {:induction false} CoreAccepted(t: Type)
    ensures CanMarshal(t) == CanMarshal(Core(t))
  {
    if t.Alias? { CoreAccepted(t.target); }
  }

  lemma CarriedAccepted(p: Rpc.Param)
    requires Carried(p)
    ensures ParamCanMarshal(p)
  {
    CoreAccepted(p.t);
    PlainAccepted(if Core(p.t).Ptr? then Core(p.t).base else Core(p.t));
  }

  /** Every method the main result is about passes the parser's own check. */
  lemma SupportedAccepted(m: Method)
    requires Supported(m) && forall i :: 0 <= i < |m.params| && IsParClass(m.params[i].t) ==> m.params[i].isRef
    ensures ResultAccepted(m)
    ensures forall i :: 0 <= i < |m.params| ==> ParamAccepted(m.params[i])
  {
    if HasReturn(m) { CarriedAccepted(m.result); }
    forall i | 0 <= i < |m.params| ensures ParamAccepted(m.params[i]) {
      assert Carried(m.params[i]);
      CarriedAccepted(m.params[i]);
    }
  }

  /** `[size = n] int *f(int n)` */
  const SizedResult := Rpc.Method(
    [Rpc.Param("n", Std("int"), false, false, false, false, None)],
    Rpc.Param("_RemoteRet", Ptr(1, Std("int")), false, false, false, false, Some(Expr.Param("n"))), false, true)

  lemma SizedResultAccepted()
    ensures Supported(SizedResult) && HasReturn(SizedResult)
    ensures ResultAccepted(SizedResult) && forall p <- SizedResult.params :: ParamAccepted(p)
  {
    var m := SizedResult;
    assert CanMarshal(Std("int")) == 1 && CanMarshal(m.result.t) == 2;
    assert Refs(m.result.size.value) == {"n"} && IsIn(m.params, "n") by { assert m.params[0].id == "n"; }
  }

  /** The parser accepts it, but called with n = 1 it returns a block that is already gone. */
  lemma SizedResultLost(env: Env, obj: Value, body: Body, k: Rpc.Counters)
    requires User("n") in env && env[User("n")] == Obj(Atom(Num(1)))
    requires body(obj, [Atom(Num(1))]) == Outcome(obj, [Atom(Num(1))], Agg([Atom(Num(7))]))
    ensures ResultAccepted(SizedResult) && forall p <- SizedResult.params :: ParamAccepted(p)
    ensures
      var call := Call(SizedResult, env, obj, body, k);
      call.Some? && ResultIs(SizedResult, Wild, call.value.1.env)
  {
    var (m, vs, ns) := (SizedResult, [Atom(Num(1))], [1]);
    SizedResultAccepted();
    assert Givens(m.params, vs, ns) == vs;
    RemoteCallIsLocalCall(m, env, vs, ns, 1, obj, body, k);
  }

  /** An array of structs with an array of structs in them. */
  const Nested := Array(2, Struct([Array(2, Struct([Std("int")]))]))

  /** The parser accepts it; the code emitted for it reads a pointer that its own declaration
      hides, and fails. */
  lemma NestedCaptured(c: nat)
    ensures CanMarshal(Nested) == 1 && Plain(Nested) && Sized(Nested) && !CaptureFree(Nested, false)
    ensures Typed(Nested, Sample(Nested))
    ensures Exec(MarshalCode(Nested, Var(User("x")), None, c).0, Start(Sample(Nested), [])).None?
  {
    var inner := Array(2, Struct([Std("int")]));
    assert Plain(inner) && Sized(inner) && !CaptureFree(inner, true) by { assert Plain(Struct([Std("int")])); }
    assert Nested == Array(2, Struct([inner]));
    assert Plain(Struct([inner])) && Sized(Struct([inner])) && !CaptureFree(Struct([inner]), true);
    PlainAccepted(Nested);
    SampleTyped(Nested);
    MarshalStuck(Nested, Var(User("x")), c, false, Start(Sample(Nested), []), Path(User("x"), []));
  }

  /** A vector, list or deque of pointers is accepted, but the elements that `resize`
      makes point nowhere, so reading any non-empty message into an empty one fails. */
  lemma PointerElementsNotRebuilt(k: Stl, name: string, n: nat, tail: seq<Datum>, c: nat)
    requires !k.Map? && n > 0
    ensures var t := Container(k, Ptr(1, Std(name)));
      var s := State(map[User("x") := Obj(Agg([]))], [Num(n)] + tail, 0);
      CanMarshal(t) == 1 && Exec(DeMarshalCode(t, Var(User("x")), None, c).0, s).None?
  {
    var (u, x, p) := (Ptr(1, Std(name)), Var(User("x")), Path(User("x"), []));
    assert CanMarshal(Std(name)) == 1 && CanMarshal(u) == 2;
    var s := State(map[User("x") := Obj(Agg([]))], [Num(n)] + tail, 0);
    ListResized(x, u, c, false, s, p, [], n, tail);
    var s1 := Exec(ListHead(u, x, c), s).value;
    var room := Resized([], n, u);
    LoadAssigned(s.env, s1.env, p, Agg(room), c, false);
    var body := StdIn(First(Star(Elem(c))), One);
    assert DeMarshalCode(Std(name), First(Star(Elem(c))), None, c + 1).0 == body;
    WildLoopStuck(room, c, s1);
    ExecConcat(ListHead(u, x, c), [Push(Of(ElemSize(c))), ForIter(Elem(c), x, body), Pop], s);
  }

  lemma WildLoopStuck(room: seq<Value>, c: nat, s: State)
    requires Load(Path(User("x"), []), s.env) == Some(Agg(room)) && room != [] && room[0] == Wild
    ensures
      var loop := ForIter(Elem(c), Var(User("x")), StdIn(First(Star(Elem(c))), One));
      Exec([Push(Of(ElemSize(c))), loop, Pop], s).None?
  {
    var loop := ForIter(Elem(c), Var(User("x")), StdIn(First(Star(Elem(c))), One));
    var s2 := s.(depth := s.depth + 1, env := s.env[Elem(c) := Ref(User("x"), [] + [0])]);
    LoadElem(Path(User("x"), []), s2.env, room, 0);
    WildStuck(Star(Elem(c)), s2);
    LoopStuck(Of(ElemSize(c)), loop, s);
  }

  lemma WildStuck(l: LVal, s: State)
    requires Read(l, s.env) == Some(Wild)
    ensures Exec(StdIn(First(l), One), s).None?
  {
    LoopStuck(One, UnPack(First(l), One), s);
  }

  /** A sized `void *` is accepted, but only its size is sent. */
  lemma VoidPointerSendsNoData(id: string, e: Expr, c: nat, s: State, n: nat)
    requires Eval(e, s.env) == Some(n)
    ensures var p := Rpc.Param(id, Ptr(1, Void), true, false, false, false, Some(e));
      var r := Exec(ParamOut(p, c).0, s);
      ParamAccepted(p) && r.Some? && r.value.wire == s.wire + [Num(n)]
  {
    var p := Rpc.Param(id, Ptr(1, Void), true, false, false, false, Some(e));
    assert CanMarshal(Void) == 1 && CanMarshal(Ptr(1, Void)) == 2;
    VoidPointerCode(p, e, c);
    SizeSent(id, e, s, n);
  }

  lemma VoidPointerCode(p: Rpc.Param, e: Expr, c: nat)
    requires p.t == Ptr(1, Void) && p.size == Some(e)
    ensures ParamOut(p, c).0 == [DeclExpr(Size1(p.id), e)] + StdOut(Var(Size1(p.id)), One)
  {
    var head := [DeclExpr(Size1(p.id), e)] + StdOut(Var(Size1(p.id)), One);
    assert MarshalCode(Void, First(Target(p)), Some(Of(Size1(p.id))), c).0 == [];
    assert ParamOut(p, c).0 == head + [];
    assert head + [] == head;
  }
}
