/** Which of the types the parser accepts survive a trip from one variable to another:
    exactly those that own their data and in which no loop variable captures another. */
module Accepted {
  import opened Types
  import opened Emit
  import opened Machine
  import opened Scopes
  import opened Codec
  import opened CodecRead
  import opened Capture
  import opened Survival
  import opened Rebuild
  import opened Rpc
  import opened RpcProof

  // ---------------------------------------------------------------- types sent on their own

  /** A variable holding v is marshalled, another one holding `was` is demarshalled: the second
      ends up holding v, and exactly what was written has been consumed. */
  ghost predicate Restored(t: Type, v: Value, was: Value, c: nat, d: nat, before: seq<Datum>, rest: seq<Datum>) {
    var (x, out) := (User("x"), Exec(MarshalCode(t, Var(User("x")), None, c).0, Start(v, before)));
    && out.Some? && before <= out.value.wire
    && var back := Exec(DeMarshalCode(t, Var(x), None, d).0, Start(was, out.value.wire[|before|..] + rest));
       back.Some? && back.value.wire == rest && x in back.value.env && back.value.env[x] == Obj(v)
  }

  /** Every value whose pointers are set survives over every earlier content. */
  ghost predicate Survives(t: Type) {
    forall v, was, c: nat, d: nat, before, rest ::
      Typed(t, v) && NoWild(v) && Typed(t, was) ==> Restored(t, v, was, c, d, before, rest)
  }

  /** Every such value survives where the broker reads it: into a variable just declared. */
  ghost predicate SurvivesAfresh(t: Type) {
    forall v, c: nat, d: nat, before, rest ::
      Typed(t, v) && NoWild(v) ==> Restored(t, v, Default(t), c, d, before, rest)
  }

  lemma SurvivesIff(t: Type)
    requires Shaped(t) && Sized(t)
    ensures Survives(t) <==> Plain(t) && CaptureFree(t, false)
    ensures SurvivesAfresh(t) <==> Plain(t) && CaptureFree(t, false)
  {
    DefaultTyped(t);
    if Plain(t) && CaptureFree(t, false) {
      forall v, was, c: nat, d: nat, before, rest | Typed(t, v) && NoWild(v) && Typed(t, was)
        ensures Restored(t, v, was, c, d, before, rest)
      {
        RoundTrip(t, c, d, v, was, before, rest);
      }
    } else {
      SampleLost(t);
      assert !Restored(t, Sample(t), Default(t), 0, 0, [], []);
    }
  }

  lemma SampleLost(t: Type)
    requires Shaped(t) && Sized(t) && !(Plain(t) && CaptureFree(t, false))
    ensures Typed(t, Sample(t)) && NoWild(Sample(t)) && !Restored(t, Sample(t), Default(t), 0, 0, [], [])
  {
    var (x, p) := (Var(User("x")), Path(User("x"), []));
    SampleTyped(t);
    if Plain(t) {
      MarshalStuck(t, x, 0, false, Start(Sample(t), []), p);
    } else {
      var out := Exec(MarshalCode(t, x, None, 0).0, Start(Sample(t), []));
      if out.Some? {
        DefaultBare(t);
        ReadBare(t, x, 0, false, Start(Default(t), out.value.wire[0..] + []), p, Default(t));
        SampleNotBare(t);
      }
    }
  }

  // ---------------------------------------------------------------- sized pointer parameters

  /** `[in, size = n] T *x` */
  function Block(u: Type): Param { Rpc.Param("x", Ptr(1, u), true, false, false, false, Some(Expr.Param("n"))) }

  function BlockEnv(vs: seq<Value>, n: nat): Env {
    map[User("x") := Obj(Agg(vs)), User("n") := Obj(Atom(Num(n)))]
  }

  /** The client sends n elements of vs, and the broker's new variable holds just these. */
  ghost predicate BlockRestored(u: Type, vs: seq<Value>, n: nat, c: nat, d: nat, rest: seq<Datum>)
    requires n <= |vs|
  {
    var (x, p) := (User("x"), Block(u));
    var out := Exec(ParamOut(p, c).0, State(BlockEnv(vs, n), [], 0));
    && out.Some?
    && var back := Exec([DeclObj(x, p.t)] + ParamIn(p, true, d).0, State(map[], out.value.wire + rest, 0));
       back.Some? && back.value.wire == rest && x in back.value.env && back.value.env[x] == Obj(Agg(vs[..n]))
  }

  ghost predicate AllSet(vs: seq<Value>) { forall i :: 0 <= i < |vs| ==> NoWild(vs[i]) }

  ghost predicate BlocksSurvive(u: Type) {
    forall vs, n: nat, c: nat, d: nat, rest ::
      n <= |vs| && AllTyped(u, vs) && AllSet(vs) ==> BlockRestored(u, vs, n, c, d, rest)
  }

  /** Blocks survive under the same condition on their elements. */
  lemma BlocksSurviveIff(u: Type)
    requires Shaped(u) && Sized(u)
    ensures BlocksSurvive(u) <==> Plain(u) && CaptureFree(u, false)
  {
    if Plain(u) && CaptureFree(u, false) {
      forall vs, n: nat, c: nat, d: nat, rest | n <= |vs| && AllTyped(u, vs) && AllSet(vs)
        ensures BlockRestored(u, vs, n, c, d, rest)
      {
        BlockKept(u, vs, n, c, d, rest);
      }
    } else {
      SampleTyped(u);
      assert AllTyped(u, [Sample(u)]) && AllSet([Sample(u)]);
      if Plain(u) { BlockStuck(u); } else { BlockLost(u); }
      assert !BlockRestored(u, [Sample(u)], 1, 0, 0, []);
    }
  }

  lemma BlockKept(u: Type, vs: seq<Value>, n: nat, c: nat, d: nat, rest: seq<Datum>)
    requires Plain(u) && CaptureFree(u, false) && n <= |vs| && AllTyped(u, vs)
    ensures BlockRestored(u, vs, n, c, d, rest)
  {
    var (p, s) := (Block(u), State(BlockEnv(vs, n), [], 0));
    assert AllTyped(u, vs[..n]);
    ParamSent(p, c, s, Agg(vs), n);
    var out := Exec(ParamOut(p, c).0, s).value;
    assert out.wire == ParamWire(p, Agg(vs), n);
    ParamTaken(p, d, State(map[], out.wire + rest, 0), Agg(vs), n, rest);
  }

  /** Where a loop variable is captured, the element loop fails on the client. */
  lemma BlockStuck(u: Type)
    requires Plain(u) && Sized(u) && !CaptureFree(u, false)
    ensures !BlockRestored(u, [Sample(u)], 1, 0, 0, [])
  {
    var (p, sz) := (Block(u), Size1("x"));
    var head := [DeclExpr(sz, p.size.value)] + StdOut(Var(sz), One);
    var s := State(BlockEnv([Sample(u)], 1), [], 0);
    SizeSent("x", p.size.value, s, 1);
    BlockLoopStuck(u, sz, Exec(head, s).value);
    ExecConcat(head, MarshalCode(Ptr(1, u), Var(User("x")), Some(Of(sz)), 0).0, s);
  }

  lemma BlockLoopStuck(u: Type, sz: Name, s: State)
    requires Plain(u) && Sized(u) && !CaptureFree(u, false)
    requires User("x") in s.env && s.env[User("x")] == Obj(Agg([Sample(u)])) && SizeVal(Of(sz), s.env) == Some(1)
    ensures Exec(MarshalCode(Ptr(1, u), Var(User("x")), Some(Of(sz)), 0).0, s).None?
  {
    ItemsStuck(u, sz, s);
  }

  lemma ItemsStuck(u: Type, sz: Name, s: State)
    requires Plain(u) && Sized(u) && !CaptureFree(u, false)
    requires User("x") in s.env && s.env[User("x")] == Obj(Agg([Sample(u)])) && SizeVal(Of(sz), s.env) == Some(1)
    ensures
      var loop := ForIdx(PopItem, Of(sz), MarshalCode(u, At(Var(User("x")), PopItem), None, 0).0);
      Exec([Push(Of(sz)), loop, Pop], s).None?
  {
    ItemStuck(u, s.(depth := s.depth + 1));
    LoopStuck(Of(sz), ForIdx(PopItem, Of(sz), MarshalCode(u, At(Var(User("x")), PopItem), None, 0).0), s);
  }

  lemma ItemStuck(u: Type, s: State)
    requires Plain(u) && Sized(u) && !CaptureFree(u, false)
    requires User("x") in s.env && s.env[User("x")] == Obj(Agg([Sample(u)]))
    ensures Exec(MarshalCode(u, At(Var(User("x")), PopItem), None, 0).0,
                 s.(env := s.env[PopItem := Obj(Atom(Num(0)))])).None?
  {
    var s1 := s.(env := s.env[PopItem := Obj(Atom(Num(0)))]);
    LoadElem(Path(User("x"), []), s1.env, [Sample(u)], 0);
    assert [] + [0] == [0];
    MarshalStuck(u, At(Var(User("x")), PopItem), 0, false, s1, Path(User("x"), [0]));
  }

  /** Where an element has a pointer or is `void`, the broker's block stays as allocated there. */
  lemma BlockLost(u: Type)
    requires Shaped(u) && Sized(u) && !Plain(u)
    ensures !BlockRestored(u, [Sample(u)], 1, 0, 0, [])
  {
    var (p, x) := (Block(u), User("x"));
    var out := Exec(ParamOut(p, 0).0, State(BlockEnv([Sample(u)], 1), [], 0));
    if out.Some? {
      TakenBare(u, 0, State(map[], out.value.wire + [], 0));
      SampleNotBare(u);
      assert [Sample(u)][..1][0] == Sample(u);
    }
  }

  ghost predicate HoldsBare(u: Type, r: Option<State>) {
    var x := User("x");
    r.Some? ==> x in r.value.env && r.value.env[x].Obj? && r.value.env[x].v.Agg? && AllBare(u, r.value.env[x].v.elems)
  }

  lemma TakenBare(u: Type, d: nat, s: State)
    requires Shaped(u) && !u.Std?
    ensures HoldsBare(u, Exec([DeclObj(User("x"), Ptr(1, u))] + ParamIn(Block(u), true, d).0, s))
  {
    var (x, sz) := (User("x"), Size2("x"));
    var (decl, alloc) := ([DeclObj(x, Ptr(1, u))], Alloc(x, Of(sz), u));
    var made := [DeclInt(sz)] + StdIn(Var(sz), One) + [alloc];
    var tail := DeMarshalCode(Ptr(1, u), Var(x), Some(Of(sz)), d).0;
    var s1 := s.(env := s.env[x := Obj(Wild)]);
    ExecOne(decl[0], s);
    ExecConcat(decl, ParamIn(Block(u), true, d).0, s);
    assert ParamIn(Block(u), true, d).0 == made + tail;
    ExecConcat(made, tail, s1);
    if Exec(made, s1).Some? {
      var m := AllocBare(u, s1);
      BlockCodeBare(u, d, Exec(made, s1).value, Copies(Default(u), m));
    }
  }

  /** A block as allocated. */
  lemma AllocBare(u: Type, s: State) returns (m: nat)
    requires User("x") in s.env
    ensures
      var r := Exec([DeclInt(Size2("x"))] + StdIn(Var(Size2("x")), One) + [Alloc(User("x"), Of(Size2("x")), u)], s);
      r.Some? ==>
        SizeVal(Of(Size2("x")), r.value.env) == Some(m) && User("x") in r.value.env
        && r.value.env[User("x")] == Obj(Agg(Copies(Default(u), m))) && AllBare(u, Copies(Default(u), m))
  {
    var (head, alloc) := ([DeclInt(Size2("x"))] + StdIn(Var(Size2("x")), One), Alloc(User("x"), Of(Size2("x")), u));
    m := 0;
    ExecConcat(head, [alloc], s);
    if Exec(head, s).Some? {
      var s1 := Exec(head, s).value;
      ExecOne(alloc, s1);
      DefaultBare(u);
      if SizeVal(Of(Size2("x")), s1.env).Some? { m := SizeVal(Of(Size2("x")), s1.env).value; }
    }
  }

  lemma BlockCodeBare(u: Type, d: nat, s: State, es: seq<Value>)
    requires Shaped(u) && !u.Std? && AllBare(u, es) && User("x") in s.env && s.env[User("x")] == Obj(Agg(es))
    requires SizeVal(Of(Size2("x")), s.env) == Some(|es|)
    ensures HoldsBare(u, Exec(DeMarshalCode(Ptr(1, u), Var(User("x")), Some(Of(Size2("x"))), d).0, s))
  {
    var sz := Of(Size2("x"));
    if u.Void? {
      assert DeMarshalCode(Ptr(1, u), Var(User("x")), Some(sz), d).0
          == DeMarshalCode(u, First(Var(User("x"))), Some(sz), d).0 == [];
    } else {
      BlockLoopBare(u, d, s, es);
    }
  }

  lemma BlockLoopBare(u: Type, d: nat, s: State, es: seq<Value>)
    requires Shaped(u) && AllBare(u, es) && User("x") in s.env && s.env[User("x")] == Obj(Agg(es))
    requires SizeVal(Of(Size2("x")), s.env) == Some(|es|)
    ensures
      var loop := ForIdx(PopItem, Of(Size2("x")), DeMarshalCode(u, At(Var(User("x")), PopItem), None, d).0);
      HoldsBare(u, Exec([Push(Of(Size2("x"))), loop, Pop], s))
  {
    ItemsBare(u, 0, d, s.(depth := s.depth + 1), es);
    var body := DeMarshalCode(u, At(Var(User("x")), PopItem), None, d).0;
    LoopEnv(Of(Size2("x")), ForIdx(PopItem, Of(Size2("x")), body), s);
  }

  lemma {:induction false} ItemsBare(u: Type, j: nat, d: nat, s: State, es: seq<Value>)
    requires Shaped(u) && AllBare(u, es) && j <= |es| && User("x") in s.env && s.env[User("x")] == Obj(Agg(es))
    ensures HoldsBare(u, EachIdx(PopItem, j, |es|, DeMarshalCode(u, At(Var(User("x")), PopItem), None, d).0, s))
    decreases |es| - j
  {
    if j < |es| {
      var body := DeMarshalCode(u, At(Var(User("x")), PopItem), None, d).0;
      var s1 := s.(env := s.env[PopItem := Obj(Atom(Num(j)))]);
      if Exec(body, s1).Some? {
        var es1 := ItemBare(u, j, d, s, es);
        var s2 := Exec(body, s1).value;
        ItemsBare(u, j + 1, d, s2.(env := Leave(s.env, s2.env, {PopItem} + Locals(body))), es1);
      }
    }
  }

  lemma ItemBare(u: Type, j: nat, d: nat, s: State, es: seq<Value>) returns (ws: seq<Value>)
    requires Shaped(u) && AllBare(u, es) && j < |es| && User("x") in s.env && s.env[User("x")] == Obj(Agg(es))
    requires
      var body := DeMarshalCode(u, At(Var(User("x")), PopItem), None, d).0;
      Exec(body, s.(env := s.env[PopItem := Obj(Atom(Num(j)))])).Some?
    ensures
      var body := DeMarshalCode(u, At(Var(User("x")), PopItem), None, d).0;
      var r := Exec(body, s.(env := s.env[PopItem := Obj(Atom(Num(j)))])).value;
      var e := Leave(s.env, r.env, {PopItem} + Locals(body));
      AllBare(u, ws) && |ws| == |es| && User("x") in e && e[User("x")] == Obj(Agg(ws))
  {
    var (x, l) := (User("x"), At(Var(User("x")), PopItem));
    var (body, s1) := (DeMarshalCode(u, l, None, d).0, s.(env := s.env[PopItem := Obj(Atom(Num(j)))]));
    LoadElem(Path(x, []), s1.env, es, j);
    assert [] + [j] == [j];
    ReadBare(u, l, d, false, s1, Path(x, [j]), es[j]);
    forall m | Visible(m) ensures m !in Locals(body) {
      if m in Locals(body) { LocalsNewerOf(u, l, d, false, m); }
    }
    ws := ItemPut(u, j, d, s.env, s1, Exec(body, s1), {PopItem} + Locals(body), es);
  }

  lemma ItemPut(u: Type, j: nat, d: nat, a: Env, s: State, r: Option<State>, locals: set<Name>, es: seq<Value>)
    returns (ws: seq<Value>)
    requires AllBare(u, es) && j < |es| && User("x") in a && a[User("x")] == Obj(Agg(es))
    requires r.Some? && Bares(u, s, r, Path(User("x"), [j]), d, false)
    requires forall m :: Visible(m) ==> SameAt(a, s.env, m) && m !in locals
    ensures
      var e := Leave(a, r.value.env, locals);
      AllBare(u, ws) && |ws| == |es| && User("x") in e && e[User("x")] == Obj(Agg(ws))
  {
    var w :| BareAs(u, w) && Assigned(s.env, r.value.env, Path(User("x"), [j]), w, d, false);
    ws := es[j := w];
    ItemLeft(User("x"), j, a, s.env, r.value.env, locals, es, w, d);
  }
}
