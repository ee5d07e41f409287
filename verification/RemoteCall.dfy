/** The main result about the stub compiler: client stub plus broker wrapper do what a
    local call with copied-in and copied-out parameters does. */
module RemoteCall {
  import opened Types
  import opened Emit
  import opened Machine
  import opened Scopes
  import opened Codec
  import opened CodecRead
  import opened Rpc
  import opened RpcProof

  predicate DistinctIds(ps: seq<Param>) { forall i, j :: 0 <= i < j < |ps| ==> ps[i].id != ps[j].id }

  predicate AllCarried(ps: seq<Param>) { forall i :: 0 <= i < |ps| ==> Carried(ps[i]) }

  ghost predicate Vars(ps: seq<Param>, vs: seq<Value>, env: Env) {
    |vs| == |ps| && forall i :: 0 <= i < |ps| ==> User(ps[i].id) in env && env[User(ps[i].id)] == Obj(vs[i])
  }

  ghost predicate SizesAre(ps: seq<Param>, ns: seq<nat>, env: Env) {
    |ns| == |ps| && forall i :: 0 <= i < |ps| && ps[i].size.Some? ==> Eval(ps[i].size.value, env) == Some(ns[i])
  }

  /** Every parameter travelling this way has data of its type and size. */
  ghost predicate AllOffer(ps: seq<Param>, way: Way, vs: seq<Value>, ns: seq<nat>)
    requires AllCarried(ps)
  {
    |vs| == |ns| == |ps| && forall i :: 0 <= i < |ps| && Travels(ps[i], way) ==> Offers(ps[i], vs[i], ns[i])
  }

  function Message(ps: seq<Param>, way: Way, vs: seq<Value>, ns: seq<nat>): seq<Datum>
    requires AllCarried(ps) && |vs| == |ns| == |ps|
  {
    if ps == [] then []
    else (if Travels(ps[0], way) then ParamWire(ps[0], vs[0], ns[0]) else []) + Message(ps[1..], way, vs[1..], ns[1..])
  }

  // ---------- sending ----------

  lemma {:induction false} SomeSent(ps: seq<Param>, way: Way, c: nat, s: State, vs: seq<Value>, ns: seq<nat>)
    requires AllCarried(ps) && Vars(ps, vs, s.env) && SizesAre(ps, ns, s.env) && AllOffer(ps, way, vs, ns)
    ensures Sent(s, Exec(SendSome(ps, way, c).0, s), Message(ps, way, vs, ns))
    decreases |ps|
  {
    if ps != [] {
      var rest := ps[1..];
      if !Travels(ps[0], way) {
        SomeSent(rest, way, c, s, vs[1..], ns[1..]);
      } else {
        ParamSent(ps[0], c, s, vs[0], ns[0]);
        var (a, d) := ParamOut(ps[0], c);
        var s1 := Exec(a, s).value;
        StillThere(rest, vs[1..], ns[1..], s.env, s1.env);
        SomeSent(rest, way, d, s1, vs[1..], ns[1..]);
        SentBoth(a, SendSome(rest, way, d).0, s, ParamWire(ps[0], vs[0], ns[0]), Message(rest, way, vs[1..], ns[1..]));
      }
    }
  }

  lemma StillThere(ps: seq<Param>, vs: seq<Value>, ns: seq<nat>, a: Env, b: Env)
    requires Vars(ps, vs, a) && SizesAre(ps, ns, a) && SameVisible(a, b)
    ensures Vars(ps, vs, b) && SizesAre(ps, ns, b)
  {
    forall i | 0 <= i < |ps| ensures User(ps[i].id) in b && b[User(ps[i].id)] == Obj(vs[i]) {
      assert SameAt(a, b, User(ps[i].id));
    }
    forall i | 0 <= i < |ps| && ps[i].size.Some? ensures Eval(ps[i].size.value, b) == Some(ns[i]) {
      EvalSame(ps[i].size.value, a, b);
    }
  }

  // ---------- receiving ----------

  /** What a receiver's variable holds afterwards, when it held cur and w was sent. */
  function Arrival(p: Param, way: Way, cur: Value, w: Value, n: nat): Value {
    if way.In? then Given(p, w, n) else Returned(p, cur, w, n)
  }

  ghost predicate Landed(ps: seq<Param>, way: Way, cur: seq<Value>, ws: seq<Value>, ns: seq<nat>, a: Env, b: Env)
    requires |cur| == |ws| == |ns| == |ps|
  {
    && (forall i :: 0 <= i < |ps| && Travels(ps[i], way) ==>
          User(ps[i].id) in b && b[User(ps[i].id)] == Obj(Arrival(ps[i], way, cur[i], ws[i], ns[i])))
    && (forall n ::
          Visible(n) && (forall i :: 0 <= i < |ps| && Travels(ps[i], way) ==> n != User(ps[i].id)) ==> SameAt(a, b, n))
  }

  /** A receiver of out-parameters has room for them. */
  ghost predicate Room(ps: seq<Param>, way: Way, cur: seq<Value>, ns: seq<nat>, env: Env)
    requires AllCarried(ps)
  {
    way.Out? ==> Vars(ps, cur, env) && AllOffer(ps, Out, cur, ns)
  }

  lemma OneTaken(p: Param, way: Way, c: nat, s: State, cur: Value, w: Value, n: nat, rest: seq<Datum>)
    requires Carried(p) && Travels(p, way) && Offers(p, w, n) && s.wire == ParamWire(p, w, n) + rest
    requires way.Out? ==> User(p.id) in s.env && s.env[User(p.id)] == Obj(cur) && Offers(p, cur, n)
    ensures Received(s, Exec(TakeOne(p, way, c).0, s), User(p.id), Arrival(p, way, cur, w, n), rest)
  {
    if way.In? {
      ParamTaken(p, c, s, w, n, rest);
    } else {
      ParamReturned(p, c, s, cur, w, n, rest);
      assert [] + ParamIn(p, false, c).0 == ParamIn(p, false, c).0;
    }
  }

  lemma {:induction false} SomeTaken(ps: seq<Param>, way: Way, c: nat, s: State, cur: seq<Value>, ws: seq<Value>,
                                     ns: seq<nat>, rest: seq<Datum>)
    requires AllCarried(ps) && DistinctIds(ps) && |cur| == |ps| && AllOffer(ps, way, ws, ns)
    requires Room(ps, way, cur, ns, s.env)
    requires s.wire == Message(ps, way, ws, ns) + rest
    ensures var r := Exec(TakeSome(ps, way, c).0, s);
      r.Some? && r.value.wire == rest && r.value.depth == s.depth && Landed(ps, way, cur, ws, ns, s.env, r.value.env)
    decreases |ps|, 1
  {
    if ps != [] {
      if Travels(ps[0], way) {
        FirstAndRest(ps, way, c, s, cur, ws, ns, rest);
      } else {
        assert s.wire == Message(ps[1..], way, ws[1..], ns[1..]) + rest;
        SomeTaken(ps[1..], way, c, s, cur[1..], ws[1..], ns[1..], rest);
        LandedCons(ps, way, cur, ws, ns, s.env, s.env, Exec(TakeSome(ps, way, c).0, s).value.env);
      }
    }
  }

  lemma {:induction false} FirstAndRest(ps: seq<Param>, way: Way, c: nat, s: State, cur: seq<Value>, ws: seq<Value>,
                                        ns: seq<nat>, rest: seq<Datum>)
    requires ps != [] && Travels(ps[0], way)
    requires AllCarried(ps) && DistinctIds(ps) && |cur| == |ps| && AllOffer(ps, way, ws, ns)
    requires Room(ps, way, cur, ns, s.env)
    requires s.wire == Message(ps, way, ws, ns) + rest
    ensures var r := Exec(TakeSome(ps, way, c).0, s);
      r.Some? && r.value.wire == rest && r.value.depth == s.depth && Landed(ps, way, cur, ws, ns, s.env, r.value.env)
    decreases |ps|, 0
  {
    FirstTaken(ps, way, c, s, cur, ws, ns, rest);
    var (a, d) := TakeOne(ps[0], way, c);
    var (b, s1) := (TakeSome(ps[1..], way, d).0, Exec(a, s).value);
    SomeTaken(ps[1..], way, d, s1, cur[1..], ws[1..], ns[1..], rest);
    ExecConcat(a, b, s);
    LandedCons(ps, way, cur, ws, ns, s.env, s1.env, Exec(b, s1).value.env);
  }

  lemma MessageHead(ps: seq<Param>, way: Way, ws: seq<Value>, ns: seq<nat>, rest: seq<Datum>)
    requires ps != [] && Travels(ps[0], way) && AllCarried(ps) && |ws| == |ns| == |ps|
    ensures
      Message(ps, way, ws, ns) + rest
        == ParamWire(ps[0], ws[0], ns[0]) + (Message(ps[1..], way, ws[1..], ns[1..]) + rest)
  {
  }

  /** The first parameter of a list, taken. */
  lemma FirstTaken(ps: seq<Param>, way: Way, c: nat, s: State, cur: seq<Value>, ws: seq<Value>, ns: seq<nat>,
                   rest: seq<Datum>)
    requires ps != [] && Travels(ps[0], way) && AllCarried(ps) && DistinctIds(ps)
    requires |cur| == |ps| && AllOffer(ps, way, ws, ns) && Room(ps, way, cur, ns, s.env)
    requires s.wire == Message(ps, way, ws, ns) + rest
    ensures
      var r := Exec(TakeOne(ps[0], way, c).0, s);
      Received(s, r, User(ps[0].id), Arrival(ps[0], way, cur[0], ws[0], ns[0]),
               Message(ps[1..], way, ws[1..], ns[1..]) + rest)
      && Room(ps[1..], way, cur[1..], ns[1..], r.value.env)
  {
    MessageHead(ps, way, ws, ns, rest);
    OneTaken(ps[0], way, c, s, cur[0], ws[0], ns[0], Message(ps[1..], way, ws[1..], ns[1..]) + rest);
    RoomLeft(ps, way, cur, ws, ns, s.env, Exec(TakeOne(ps[0], way, c).0, s).value.env);
  }

  lemma RoomLeft(ps: seq<Param>, way: Way, cur: seq<Value>, ws: seq<Value>, ns: seq<nat>, a: Env, b: Env)
    requires ps != [] && AllCarried(ps) && DistinctIds(ps)
    requires |cur| == |ws| == |ns| == |ps| && Room(ps, way, cur, ns, a)
    requires forall n :: Visible(n) && n != User(ps[0].id) ==> SameAt(a, b, n)
    ensures Room(ps[1..], way, cur[1..], ns[1..], b)
  {
    if way.Out? {
      forall i | 0 <= i < |ps[1..]| ensures User(ps[1..][i].id) in b && b[User(ps[1..][i].id)] == Obj(cur[1..][i]) {
        assert ps[0].id != ps[i + 1].id;
        assert SameAt(a, b, User(ps[i + 1].id));
      }
    }
  }

  lemma LandedCons(ps: seq<Param>, way: Way, cur: seq<Value>, ws: seq<Value>, ns: seq<nat>, a: Env, b: Env, e: Env)
    requires ps != [] && |cur| == |ws| == |ns| == |ps| && DistinctIds(ps)
    requires Landed(ps[1..], way, cur[1..], ws[1..], ns[1..], b, e)
    requires if Travels(ps[0], way) then SetVar(a, b, User(ps[0].id), Arrival(ps[0], way, cur[0], ws[0], ns[0]))
             else a == b
    ensures Landed(ps, way, cur, ws, ns, a, e)
  {
    forall i | 0 <= i < |ps| && Travels(ps[i], way)
      ensures User(ps[i].id) in e && e[User(ps[i].id)] == Obj(Arrival(ps[i], way, cur[i], ws[i], ns[i]))
    {
      if i == 0 {
        forall j | 0 <= j < |ps[1..]| && Travels(ps[1..][j], way) ensures User(ps[0].id) != User(ps[1..][j].id) {
          assert ps[0].id != ps[j + 1].id;
        }
        assert SameAt(b, e, User(ps[0].id));
      } else {
        assert ps[1..][i - 1] == ps[i];
      }
    }
    forall n | Visible(n) && (forall i :: 0 <= i < |ps| && Travels(ps[i], way) ==> n != User(ps[i].id))
      ensures SameAt(a, e, n)
    {
      forall j | 0 <= j < |ps[1..]| && Travels(ps[1..][j], way) ensures n != User(ps[1..][j].id) {
        assert ps[1..][j] == ps[j + 1];
      }
      assert SameAt(b, e, n);
    }
  }

  // ---------- output-only parameters ----------

  predicate OutOnly(p: Param) { !InParam(p) }

  /** No size is computed from an output-only parameter. */
  predicate NoOutSizes(ps: seq<Param>) {
    forall i, j ::
      0 <= i < |ps| && 0 <= j < |ps| && ps[i].size.Some? && OutOnly(ps[j]) ==> ps[j].id !in Refs(ps[i].size.value)
  }

  lemma OutMade(p: Param, s: State, n: nat)
    requires Carried(p) && OutOnly(p)
    requires p.size.Some? ==> Eval(p.size.value, s.env) == Some(n) && p.id !in Refs(p.size.value)
    ensures Received(s, Exec(MakeOut(p), s), User(p.id), Given(p, Wild, n), s.wire)
  {
    var decl := DeclObj(User(p.id), p.t);
    ExecOne(decl, s);
    var s1 := s.(env := s.env[User(p.id) := Obj(Default(p.t))]);
    if p.size.Some? && Core(p.t).Ptr? {
      EvalSame(p.size.value, s.env, s1.env);
      var alloc := AllocExpr(User(p.id), p.size.value, Core(p.t).base);
      ExecOne(alloc, s1);
      ExecConcat([decl], [alloc], s);
    } else {
      assert [decl] + [] == [decl];
    }
  }

  lemma {:induction false} OutsMade(ps: seq<Param>, s: State, ns: seq<nat>)
    requires AllCarried(ps) && DistinctIds(ps) && SizesAre(ps, ns, s.env) && NoOutSizes(ps)
    ensures var r := Exec(MakeOuts(ps), s);
      && r.Some? && r.value.wire == s.wire && r.value.depth == s.depth
      && (forall i :: 0 <= i < |ps| && OutOnly(ps[i]) ==>
            User(ps[i].id) in r.value.env && r.value.env[User(ps[i].id)] == Obj(Given(ps[i], Wild, ns[i])))
      && (forall n ::
            Visible(n) && (forall i :: 0 <= i < |ps| && OutOnly(ps[i]) ==> n != User(ps[i].id))
            ==> SameAt(s.env, r.value.env, n))
    decreases |ps|
  {
    if ps != [] {
      var (p, tail) := (ps[0], ps[1..]);
      if InParam(p) {
        OutsMade(tail, s, ns[1..]);
        var e := Exec(MakeOuts(ps), s).value.env;
        OutsCons(ps, ns, s.env, s.env, e);
      } else {
        OutMade(p, s, ns[0]);
        var s1 := Exec(MakeOut(p), s).value;
        forall i | 0 <= i < |tail| && tail[i].size.Some? ensures Eval(tail[i].size.value, s1.env) == Some(ns[1..][i]) {
          assert tail[i] == ps[i + 1];
          EvalSame(tail[i].size.value, s.env, s1.env);
        }
        assert NoOutSizes(tail);
        OutsMade(tail, s1, ns[1..]);
        ExecConcat(MakeOut(p), MakeOuts(tail), s);
        OutsCons(ps, ns, s.env, s1.env, Exec(MakeOuts(tail), s1).value.env);
      }
    }
  }

  lemma OutsCons(ps: seq<Param>, ns: seq<nat>, a: Env, b: Env, e: Env)
    requires ps != [] && |ns| == |ps| && DistinctIds(ps)
    requires if OutOnly(ps[0]) then SetVar(a, b, User(ps[0].id), Given(ps[0], Wild, ns[0])) else a == b
    requires forall i :: 0 <= i < |ps[1..]| && OutOnly(ps[1..][i]) ==>
            User(ps[1..][i].id) in e && e[User(ps[1..][i].id)] == Obj(Given(ps[1..][i], Wild, ns[1..][i]))
    requires
      forall n ::
        Visible(n) && (forall i :: 0 <= i < |ps[1..]| && OutOnly(ps[1..][i]) ==> n != User(ps[1..][i].id))
        ==> SameAt(b, e, n)
    ensures forall i :: 0 <= i < |ps| && OutOnly(ps[i]) ==>
            User(ps[i].id) in e && e[User(ps[i].id)] == Obj(Given(ps[i], Wild, ns[i]))
    ensures
      forall n ::
        Visible(n) && (forall i :: 0 <= i < |ps| && OutOnly(ps[i]) ==> n != User(ps[i].id)) ==> SameAt(a, e, n)
  {
    forall i | 0 <= i < |ps| && OutOnly(ps[i])
      ensures User(ps[i].id) in e && e[User(ps[i].id)] == Obj(Given(ps[i], Wild, ns[i]))
    {
      if i == 0 {
        forall j | 0 <= j < |ps[1..]| ensures User(ps[0].id) != User(ps[1..][j].id) { assert ps[0].id != ps[j + 1].id; }
        assert SameAt(b, e, User(ps[0].id));
      } else {
        assert ps[1..][i - 1] == ps[i];
      }
    }
    forall n | Visible(n) && (forall i :: 0 <= i < |ps| && OutOnly(ps[i]) ==> n != User(ps[i].id))
      ensures SameAt(a, e, n)
    {
      forall j | 0 <= j < |ps[1..]| && OutOnly(ps[1..][j]) ensures n != User(ps[1..][j].id) {
        assert ps[1..][j] == ps[j + 1];
      }
      assert SameAt(b, e, n);
    }
  }

  lemma {:induction false} BoundTo(ps: seq<Param>, vs: seq<Value>, env: Env)
    requires |vs| == |ps| && DistinctIds(ps)
    ensures Vars(ps, vs, Bind(ps, vs, env))
    ensures forall n :: (forall i :: 0 <= i < |ps| ==> n != User(ps[i].id)) ==> SameAt(env, Bind(ps, vs, env), n)
    decreases |ps|
  {
    if ps != [] {
      var e := env[User(ps[0].id) := Obj(vs[0])];
      BoundTo(ps[1..], vs[1..], e);
      forall j | 0 <= j < |ps[1..]| ensures User(ps[0].id) != User(ps[1..][j].id) { assert ps[0].id != ps[j + 1].id; }
      assert SameAt(e, Bind(ps, vs, env), User(ps[0].id));
      forall i | 0 <= i < |ps|
        ensures User(ps[i].id) in Bind(ps, vs, env) && Bind(ps, vs, env)[User(ps[i].id)] == Obj(vs[i])
      {
        if i > 0 { assert ps[1..][i - 1] == ps[i] && vs[1..][i - 1] == vs[i]; }
      }
      forall n | (forall i :: 0 <= i < |ps| ==> n != User(ps[i].id)) ensures SameAt(env, Bind(ps, vs, env), n) {
        forall j | 0 <= j < |ps[1..]| ensures n != User(ps[1..][j].id) { assert ps[1..][j] == ps[j + 1]; }
        assert SameAt(e, Bind(ps, vs, env), n);
      }
    }
  }

  // ---------- the whole call ----------

  /** Sizes are computed from unsized in-parameters. */
  predicate SizesFromIns(ps: seq<Param>) {
    forall i, id :: 0 <= i < |ps| && ps[i].size.Some? && id in Refs(ps[i].size.value) ==> IsIn(ps, id)
  }

  predicate IsIn(ps: seq<Param>, id: string) {
    exists j :: 0 <= j < |ps| && ps[j].id == id && InParam(ps[j]) && ps[j].size.None?
  }

  /** The sizes of the result, too. */
  predicate ResultSizeFromIns(m: Method) {
    m.result.size.Some? ==> forall id <- Refs(m.result.size.value) :: IsIn(m.params, id)
  }

  /** Methods whose stubs are in scope. */
  predicate Supported(m: Method) {
    && AllCarried(m.params) && DistinctIds(m.params) && SizesFromIns(m.params)
    && (HasReturn(m) ==> Carried(m.result) && ResultSizeFromIns(m) && NotParam(m.params, m.result.id))
  }

  /** The size of the result comes to rn. */
  ghost predicate ResultSizeIs(m: Method, rn: nat, env: Env) {
    HasReturn(m) && m.result.size.Some? ==> Eval(m.result.size.value, env) == Some(rn)
  }

  /** The caller passes variables vs, whose declared sizes come to ns. */
  ghost predicate Ready(m: Method, env: Env, vs: seq<Value>, ns: seq<nat>, rn: nat)
    requires AllCarried(m.params)
  {
    && Vars(m.params, vs, env) && SizesAre(m.params, ns, env) && ResultSizeIs(m, rn, env)
    && AllOffer(m.params, In, vs, ns) && AllOffer(m.params, Out, vs, ns)
  }

  function Givens(ps: seq<Param>, vs: seq<Value>, ns: seq<nat>): seq<Value>
    requires |vs| == |ns| == |ps|
  {
    seq(|ps|, i requires 0 <= i < |ps| => Given(ps[i], vs[i], ns[i]))
  }

  /** Some size is computed from parameter id. */
  predicate SizesNeed(m: Method, id: string) {
    || (exists i :: 0 <= i < |m.params| && m.params[i].size.Some? && id in Refs(m.params[i].size.value))
    || (HasReturn(m) && m.result.size.Some? && id in Refs(m.result.size.value))
  }

  /** The method leaves typed results, with enough elements, and does not assign to the
      parameters that sizes are computed from. */
  ghost predicate WellBehaved(m: Method, given: seq<Value>, r: Outcome, ns: seq<nat>, rn: nat)
    requires Supported(m)
  {
    && |given| == |r.args| == |m.params| && AllOffer(m.params, Out, r.args, ns)
    && (forall j :: 0 <= j < |given| && SizesNeed(m, m.params[j].id) ==> r.args[j] == given[j])
    && (HasReturn(m) ==> Offers(m.result, r.ret, rn))
  }

  lemma NoOuts(ps: seq<Param>)
    requires DistinctIds(ps) && SizesFromIns(ps)
    ensures NoOutSizes(ps)
  {
    forall i, j | 0 <= i < |ps| && 0 <= j < |ps| && ps[i].size.Some? && OutOnly(ps[j])
      ensures ps[j].id !in Refs(ps[i].size.value)
    {
      NotIn(ps, j);
    }
  }

  lemma NotIn(ps: seq<Param>, j: nat)
    requires DistinctIds(ps) && j < |ps| && OutOnly(ps[j])
    ensures !IsIn(ps, ps[j].id)
  {
    forall k | 0 <= k < |ps| && ps[k].id == ps[j].id ensures k == j { assert !(k < j) && !(j < k); }
  }

  /** A size has the same value wherever the unsized in-parameters do. */
  lemma SizesSame(ps: seq<Param>, ns: seq<nat>, a: Env, b: Env)
    requires SizesFromIns(ps) && SizesAre(ps, ns, a)
    requires forall i, j :: (0 <= i < |ps| && 0 <= j < |ps| && ps[i].size.Some? && ps[j].id in Refs(ps[i].size.value)
                             && InParam(ps[j]) && ps[j].size.None?) ==> SameAt(a, b, User(ps[j].id))
    ensures SizesAre(ps, ns, b)
  {
    forall i | 0 <= i < |ps| && ps[i].size.Some? ensures Eval(ps[i].size.value, b) == Some(ns[i]) {
      var e := ps[i].size.value;
      forall id | id in Refs(e) ensures SameAt(a, b, User(id)) {
        assert IsIn(ps, id);
        var j :| 0 <= j < |ps| && ps[j].id == id && InParam(ps[j]) && ps[j].size.None?;
        assert ps[j].id in Refs(ps[i].size.value);
      }
      EvalSame(e, a, b);
    }
  }

  /** The broker rebuilds exactly the arguments a local callee would be given. */
  lemma ArgumentsRebuilt(m: Method, env: Env, vs: seq<Value>, ns: seq<nat>, rn: nat, c: nat)
    requires Supported(m) && Ready(m, env, vs, ns, rn)
    ensures var s := State(map[], Message(m.params, In, vs, ns), 0);
      var r := Exec(TakeSome(m.params, In, c).0 + MakeOuts(m.params), s);
      r.Some? && r.value.wire == [] && Vars(m.params, Givens(m.params, vs, ns), r.value.env)
  {
    var ps := m.params;
    var (take, s) := (TakeSome(ps, In, c).0, State(map[], Message(ps, In, vs, ns), 0));
    assert s.wire == Message(ps, In, vs, ns) + [];
    SomeTaken(ps, In, c, s, vs, vs, ns, []);
    var s1 := Exec(take, s).value;
    forall i, j | 0 <= i < |ps| && 0 <= j < |ps| && ps[i].size.Some? && ps[j].id in Refs(ps[i].size.value)
                  && InParam(ps[j]) && ps[j].size.None?
      ensures SameAt(env, s1.env, User(ps[j].id)) { }
    SizesSame(ps, ns, env, s1.env);
    NoOuts(ps);
    OutsMade(ps, s1, ns);
    ExecConcat(take, MakeOuts(ps), s);
    var s2 := Exec(MakeOuts(ps), s1).value;
    forall i | 0 <= i < |ps| ensures User(ps[i].id) in s2.env && s2.env[User(ps[i].id)] == Obj(Givens(ps, vs, ns)[i]) {
      if InParam(ps[i]) {
        forall j | 0 <= j < |ps| && OutOnly(ps[j]) ensures User(ps[i].id) != User(ps[j].id) { assert i < j || j < i; }
        assert SameAt(s1.env, s2.env, User(ps[i].id));
      } else {
        assert Given(ps[i], Wild, ns[i]) == Given(ps[i], vs[i], ns[i]);
      }
    }
  }

  function ReturnWire(m: Method, v: Value, rn: nat): seq<Datum>
    requires Supported(m)
  {
    if HasReturn(m) then ParamWire(m.result, v, rn) else []
  }

  lemma Replied(m: Method, env: Env, vs: seq<Value>, ns: seq<nat>, rn: nat, r: Outcome, c: nat, b: Env)
    requires Supported(m) && Ready(m, env, vs, ns, rn) && WellBehaved(m, Givens(m.params, vs, ns), r, ns, rn)
    requires Vars(m.params, r.args, b)
    requires HasReturn(m) ==> User(m.result.id) in b && b[User(m.result.id)] == Obj(r.ret)
    ensures var out := Exec(SendReply(m, c), State(b, [], 0));
      out.Some? && out.value.wire == Message(m.params, Out, r.args, ns) + ReturnWire(m, r.ret, rn)
  {
    ParamsReplied(m, env, vs, ns, rn, r, c, b);
    ReplySent(m, c, State(b, [], 0), r.ret, rn, Message(m.params, Out, r.args, ns));
  }

  lemma ReplySent(m: Method, c: nat, s: State, v: Value, rn: nat, data: seq<Datum>)
    requires Supported(m) && Sent(s, Exec(SendSome(m.params, Out, c).0, s), data) && s.wire == []
    requires ResultSizeIs(m, rn, s.env)
    requires HasReturn(m) ==>
      Offers(m.result, v, rn) && User(m.result.id) in s.env && s.env[User(m.result.id)] == Obj(v)
    ensures var out := Exec(SendReply(m, c), s);
      out.Some? && out.value.wire == data + ReturnWire(m, v, rn)
  {
    var (code, d) := SendSome(m.params, Out, c);
    if HasReturn(m) {
      ResultSent(m.result, code, d, s, v, rn, data);
    } else {
      assert code + [] == code;
    }
  }

  /** The result, sent after the parameters. */
  lemma ResultSent(p: Param, code: Code, c: nat, s: State, v: Value, n: nat, data: seq<Datum>)
    requires Sent(s, Exec(code, s), data) && Carried(p) && Offers(p, v, n)
    requires User(p.id) in s.env && s.env[User(p.id)] == Obj(v)
    requires p.size.Some? ==> Eval(p.size.value, s.env) == Some(n)
    ensures Sent(s, Exec(code + ParamOut(p, c).0, s), data + ParamWire(p, v, n))
  {
    var s1 := Exec(code, s).value;
    assert SameAt(s.env, s1.env, User(p.id));
    if p.size.Some? { EvalSame(p.size.value, s.env, s1.env); }
    ParamSent(p, c, s1, v, n);
    SentBoth(code, ParamOut(p, c).0, s, data, ParamWire(p, v, n));
  }

  /** The body has left the parameters alone that sizes are computed from. */
  lemma SizesAfter(m: Method, env: Env, vs: seq<Value>, ns: seq<nat>, rn: nat, r: Outcome, b: Env)
    requires Supported(m) && Ready(m, env, vs, ns, rn) && WellBehaved(m, Givens(m.params, vs, ns), r, ns, rn)
    requires Vars(m.params, r.args, b)
    ensures SizesAre(m.params, ns, b) && ResultSizeIs(m, rn, b)
  {
    var ps := m.params;
    forall i, j | 0 <= i < |ps| && 0 <= j < |ps| && ps[i].size.Some? && ps[j].id in Refs(ps[i].size.value)
                  && InParam(ps[j]) && ps[j].size.None?
      ensures SameAt(env, b, User(ps[j].id))
    {
      assert SizesNeed(m, ps[j].id);
      assert r.args[j] == Givens(ps, vs, ns)[j];
    }
    SizesSame(ps, ns, env, b);
    if HasReturn(m) && m.result.size.Some? {
      ResultSizeSame(m, vs, ns, r, env, b);
    }
  }

  lemma ResultSizeSame(m: Method, vs: seq<Value>, ns: seq<nat>, r: Outcome, a: Env, b: Env)
    requires HasReturn(m) && m.result.size.Some? && ResultSizeFromIns(m)
    requires Vars(m.params, vs, a) && Vars(m.params, r.args, b) && |ns| == |m.params|
    requires forall j :: 0 <= j < |m.params| && SizesNeed(m, m.params[j].id) ==>
      r.args[j] == Givens(m.params, vs, ns)[j]
    ensures Eval(m.result.size.value, a) == Eval(m.result.size.value, b)
  {
    forall id | id in Refs(m.result.size.value) ensures SameAt(a, b, User(id)) {
      assert IsIn(m.params, id) && SizesNeed(m, id);
      var j :| 0 <= j < |m.params| && m.params[j].id == id && InParam(m.params[j]) && m.params[j].size.None?;
      assert r.args[j] == Givens(m.params, vs, ns)[j];
    }
    EvalSame(m.result.size.value, a, b);
  }

  lemma ParamsReplied(m: Method, env: Env, vs: seq<Value>, ns: seq<nat>, rn: nat, r: Outcome, c: nat, b: Env)
    requires Supported(m) && Ready(m, env, vs, ns, rn) && WellBehaved(m, Givens(m.params, vs, ns), r, ns, rn)
    requires Vars(m.params, r.args, b)
    ensures ResultSizeIs(m, rn, b)
    ensures var s := State(b, [], 0);
      Sent(s, Exec(SendSome(m.params, Out, c).0, s), Message(m.params, Out, r.args, ns))
  {
    SizesAfter(m, env, vs, ns, rn, r, b);
    SomeSent(m.params, Out, c, State(b, [], 0), r.args, ns);
  }

  lemma Served(m: Method, env: Env, vs: seq<Value>, ns: seq<nat>, rn: nat, obj: Value, body: Body, k: Counters)
    requires Supported(m) && Ready(m, env, vs, ns, rn)
    requires WellBehaved(m, Givens(m.params, vs, ns), body(obj, Givens(m.params, vs, ns)), ns, rn)
    ensures var r := body(obj, Givens(m.params, vs, ns));
      Serve(m, obj, Message(m.params, In, vs, ns), body, k)
        == Some((r.obj, Message(m.params, Out, r.args, ns) + ReturnWire(m, r.ret, rn)))
  {
    var (ps, given) := (m.params, Givens(m.params, vs, ns));
    ArgumentsRebuilt(m, env, vs, ns, rn, k.take);
    var s := Exec(TakeSome(ps, In, k.take).0 + MakeOuts(ps), State(map[], Message(ps, In, vs, ns), 0)).value;
    ReplyMade(m, env, vs, ns, rn, body(obj, given), k.reply, s.env);
    var after := WithResult(m, body(obj, given), Bind(ps, body(obj, given).args, s.env));
    var t := Exec(SendReply(m, k.reply), State(after, [], 0)).value;
    ServeRuns(m, obj, Message(ps, In, vs, ns), body, k, s, given, t);
  }

  /** The three parts of serving a request. */
  lemma ServeRuns(m: Method, obj: Value, request: seq<Datum>, body: Body, k: Counters, s: State, given: seq<Value>,
                  t: State)
    requires Exec(TakeSome(m.params, In, k.take).0 + MakeOuts(m.params), State(map[], request, 0)) == Some(s)
    requires Vars(m.params, given, s.env) && |body(obj, given).args| == |m.params|
    requires
      var r := body(obj, given);
      Exec(SendReply(m, k.reply), State(WithResult(m, r, Bind(m.params, r.args, s.env)), [], 0)) == Some(t)
    ensures Serve(m, obj, request, body, k) == Some((body(obj, given).obj, t.wire))
  {
    assert Values(m.params, s.env) == given;
  }

  /** The wrapper's variables after the call, and the reply made of them. */
  lemma ReplyMade(m: Method, env: Env, vs: seq<Value>, ns: seq<nat>, rn: nat, r: Outcome, c: nat, b: Env)
    requires Supported(m) && Ready(m, env, vs, ns, rn) && WellBehaved(m, Givens(m.params, vs, ns), r, ns, rn)
    ensures
      var out := Exec(SendReply(m, c), State(WithResult(m, r, Bind(m.params, r.args, b)), [], 0));
      out.Some? && out.value.wire == Message(m.params, Out, r.args, ns) + ReturnWire(m, r.ret, rn)
  {
    BoundTo(m.params, r.args, b);
    ResultBeside(m, r, Bind(m.params, r.args, b));
    Replied(m, env, vs, ns, rn, r, c, WithResult(m, r, Bind(m.params, r.args, b)));
  }

  lemma ResultBeside(m: Method, r: Outcome, b: Env)
    requires Supported(m) && Vars(m.params, r.args, b)
    ensures Vars(m.params, r.args, WithResult(m, r, b))
  {
    if HasReturn(m) {
      assert forall i :: 0 <= i < |m.params| ==> User(m.params[i].id) != User(m.result.id);
    }
  }

  /** The caller's variables after the call: parameters copied out, the result, and
      nothing else changed. */
  ghost predicate CopiedOut(m: Method, vs: seq<Value>, ns: seq<nat>, rn: nat, r: Outcome, a: Env, b: Env)
    requires |vs| == |r.args| == |ns| == |m.params|
  {
    && Vars(m.params, Returns(m.params, vs, r.args, ns), b)
    && (HasReturn(m) ==> ResultIs(m, Delivered(m.result, r.ret, rn), b))
    && (forall id :: NotParam(m.params, id) && (HasReturn(m) ==> id != m.result.id) ==> SameAt(a, b, User(id)))
  }

  /** The stub returns v. */
  ghost predicate ResultIs(m: Method, v: Value, env: Env) {
    User(m.result.id) in env && env[User(m.result.id)] == Obj(v)
  }

  predicate NotParam(ps: seq<Param>, id: string) { forall i :: 0 <= i < |ps| ==> id != ps[i].id }

  function Returns(ps: seq<Param>, vs: seq<Value>, ws: seq<Value>, ns: seq<nat>): seq<Value>
    requires |vs| == |ws| == |ns| == |ps|
  {
    seq(|ps|, i requires 0 <= i < |ps| => Returned(ps[i], vs[i], ws[i], ns[i]))
  }

  lemma OutsTaken(m: Method, s: State, vs: seq<Value>, ns: seq<nat>, r: Outcome, c: nat, rest: seq<Datum>)
    requires Supported(m) && Vars(m.params, vs, s.env) && AllOffer(m.params, Out, vs, ns)
    requires AllOffer(m.params, Out, r.args, ns)
    requires s.wire == Message(m.params, Out, r.args, ns) + rest
    ensures var out := Exec(TakeSome(m.params, Out, c).0, s);
      && out.Some? && out.value.wire == rest
      && Vars(m.params, Returns(m.params, vs, r.args, ns), out.value.env)
      && forall id :: NotParam(m.params, id) ==> SameAt(s.env, out.value.env, User(id))
  {
    var ps := m.params;
    SomeTaken(ps, Out, c, s, vs, r.args, ns, rest);
    var s1 := Exec(TakeSome(ps, Out, c).0, s).value;
    forall i | 0 <= i < |ps|
      ensures User(ps[i].id) in s1.env && s1.env[User(ps[i].id)] == Obj(Returned(ps[i], vs[i], r.args[i], ns[i]))
    {
      if !OutParam(ps[i]) {
        forall j | 0 <= j < |ps| && OutParam(ps[j]) ensures User(ps[i].id) != User(ps[j].id) { assert i < j || j < i; }
        assert SameAt(s.env, s1.env, User(ps[i].id));
      }
    }
  }

  /** The answer, taken apart by the client. */
  lemma Answered(m: Method, s: State, vs: seq<Value>, ns: seq<nat>, rn: nat, r: Outcome, c: nat)
    requires Supported(m) && Vars(m.params, vs, s.env) && AllOffer(m.params, Out, vs, ns)
    requires AllOffer(m.params, Out, r.args, ns) && (HasReturn(m) ==> Offers(m.result, r.ret, rn))
    requires s.wire == Message(m.params, Out, r.args, ns) + ReturnWire(m, r.ret, rn)
    ensures var back := Exec(TakeReply(m, c), s);
      back.Some? && back.value.wire == [] && CopiedOut(m, vs, ns, rn, r, s.env, back.value.env)
  {
    var (code, d) := TakeSome(m.params, Out, c);
    OutsTaken(m, s, vs, ns, r, c, ReturnWire(m, r.ret, rn));
    var s1 := Exec(code, s).value;
    if HasReturn(m) {
      ResultTaken(m.result, s1, r.ret, rn, d);
      ExecConcat(code, TakeResult(m.result, d), s);
      AfterResult(m, vs, ns, rn, r, s.env, s1.env, Exec(TakeResult(m.result, d), s1).value.env);
    } else {
      assert code + [] == code;
    }
  }

  lemma AfterResult(m: Method, vs: seq<Value>, ns: seq<nat>, rn: nat, r: Outcome, a: Env, b: Env, e: Env)
    requires HasReturn(m) && NotParam(m.params, m.result.id) && |vs| == |r.args| == |ns| == |m.params|
    requires Vars(m.params, Returns(m.params, vs, r.args, ns), b)
    requires forall id :: NotParam(m.params, id) ==> SameAt(a, b, User(id))
    requires SetVar(b, e, User(m.result.id), Delivered(m.result, r.ret, rn))
    ensures CopiedOut(m, vs, ns, rn, r, a, e)
  {
    forall id | NotParam(m.params, id) && id != m.result.id ensures SameAt(a, e, User(id)) {
      assert SameAt(a, b, User(id)) && SameAt(b, e, User(id));
    }
    forall i | 0 <= i < |m.params|
      ensures User(m.params[i].id) in e && e[User(m.params[i].id)] == Obj(Returns(m.params, vs, r.args, ns)[i])
    {
      assert SameAt(b, e, User(m.params[i].id));
    }
  }

  /** The result is read like a parameter, and a block it was read into goes with the stub. */
  lemma ResultTaken(p: Param, s: State, v: Value, n: nat, c: nat)
    requires Carried(p) && Offers(p, v, n) && s.wire == ParamWire(p, v, n)
    ensures Received(s, Exec(TakeResult(p, c), s), User(p.id), Delivered(p, v, n), [])
  {
    var (x, code) := (User(p.id), [DeclObj(User(p.id), p.t)] + ParamIn(p, true, c).0);
    assert s.wire == ParamWire(p, v, n) + [];
    ParamTaken(p, c, s, v, n, []);
    if p.size.Some? && Core(p.t).Ptr? {
      var s1 := Exec(code, s).value;
      ExecLast(code, Release(x), s);
      assert Copied(p, v, n) == Agg([]) <==> n == 0;
      SetTwice(s.env, s1.env, Step(Release(x), s1).value.env, x, Copied(p, v, n), Delivered(p, v, n));
    } else {
      assert code + [] == code;
    }
  }

  lemma SetTwice(a: Env, b: Env, e: Env, x: Name, v: Value, w: Value)
    requires SetVar(a, b, x, v) && SetVar(b, e, x, w)
    ensures SetVar(a, e, x, w)
  {
    forall n | Visible(n) && n != x ensures SameAt(a, e, n) { assert SameAt(a, b, n) && SameAt(b, e, n); }
  }

  /** Running the client stub against the broker wrapper is a local call on copies: the
      method sees the arguments it would see, the caller finds the out-parameters and the
      result and nothing else changed, and the answer is consumed to its end. */
  lemma RemoteCallIsLocalCall(m: Method, env: Env, vs: seq<Value>, ns: seq<nat>, rn: nat, obj: Value, body: Body,
                              k: Counters)
    requires Supported(m) && Ready(m, env, vs, ns, rn)
    requires WellBehaved(m, Givens(m.params, vs, ns), body(obj, Givens(m.params, vs, ns)), ns, rn)
    ensures var r := body(obj, Givens(m.params, vs, ns));
      var call := Call(m, env, obj, body, k);
      && call.Some? && call.value.0 == r.obj && call.value.1.wire == []
      && CopiedOut(m, vs, ns, rn, r, env, call.value.1.env)
  {
    var (ps, r) := (m.params, body(obj, Givens(m.params, vs, ns)));
    SomeSent(ps, In, k.send, State(env, [], 0), vs, ns);
    var s := Exec(SendSome(ps, In, k.send).0, State(env, [], 0)).value;
    assert s.wire == Message(ps, In, vs, ns);
    Served(m, env, vs, ns, rn, obj, body, k);
    var reply := Message(ps, Out, r.args, ns) + ReturnWire(m, r.ret, rn);
    AnsweredHome(m, env, s.(wire := reply), vs, ns, rn, r, k.answer);
    CallRuns(m, env, obj, body, k, s, (r.obj, reply), Exec(TakeReply(m, k.answer), s.(wire := reply)).value);
  }

  /** The three parts of a call. */
  lemma CallRuns(m: Method, env: Env, obj: Value, body: Body, k: Counters, s: State, r: (Value, seq<Datum>), t: State)
    requires Exec(SendSome(m.params, In, k.send).0, State(env, [], 0)) == Some(s)
    requires Serve(m, obj, s.wire, body, k) == Some(r)
    requires Exec(TakeReply(m, k.answer), s.(wire := r.1)) == Some(t)
    ensures Call(m, env, obj, body, k) == Some((r.0, t))
  {
  }

  lemma AnsweredHome(m: Method, env: Env, s: State, vs: seq<Value>, ns: seq<nat>, rn: nat, r: Outcome, c: nat)
    requires Supported(m) && Ready(m, env, vs, ns, rn) && WellBehaved(m, Givens(m.params, vs, ns), r, ns, rn)
    requires SameVisible(env, s.env) && s.wire == Message(m.params, Out, r.args, ns) + ReturnWire(m, r.ret, rn)
    ensures var back := Exec(TakeReply(m, c), s);
      back.Some? && back.value.wire == [] && CopiedOut(m, vs, ns, rn, r, env, back.value.env)
  {
    StillThere(m.params, vs, ns, env, s.env);
    Answered(m, s, vs, ns, rn, r, c);
    CopiedSame(m, vs, ns, rn, r, env, s.env, Exec(TakeReply(m, c), s).value.env);
  }

  lemma CopiedSame(m: Method, vs: seq<Value>, ns: seq<nat>, rn: nat, r: Outcome, a: Env, b: Env, e: Env)
    requires |vs| == |r.args| == |ns| == |m.params| && SameVisible(a, b) && CopiedOut(m, vs, ns, rn, r, b, e)
    ensures CopiedOut(m, vs, ns, rn, r, a, e)
  {
    forall id | NotParam(m.params, id) && (HasReturn(m) ==> id != m.result.id) ensures SameAt(a, e, User(id)) {
      assert SameAt(a, b, User(id)) && SameAt(b, e, User(id));
    }
  }

  /** The caller gets the result the method returned, or as many elements of it as its size says,
      if and only if that is no sized pointer or the size is 0: the stub's own block holds what a
      sized pointer points to, and ends with the stub. */
  lemma ResultArrivesIff(m: Method, env: Env, vs: seq<Value>, ns: seq<nat>, rn: nat, obj: Value, body: Body,
                         k: Counters)
    requires Supported(m) && Ready(m, env, vs, ns, rn) && HasReturn(m)
    requires WellBehaved(m, Givens(m.params, vs, ns), body(obj, Givens(m.params, vs, ns)), ns, rn)
    ensures var r := body(obj, Givens(m.params, vs, ns));
      var call := Call(m, env, obj, body, k);
      && call.Some?
      && (ResultIs(m, Copied(m.result, r.ret, rn), call.value.1.env)
          <==> !(m.result.size.Some? && Core(m.result.t).Ptr?) || rn == 0)
  {
    RemoteCallIsLocalCall(m, env, vs, ns, rn, obj, body, k);
  }

  // ---------- what the declared forms of parameters mean ----------

  lemma {:induction false} DepthOfCore(t: Type)
    ensures PointerDepth(t) == PointerDepth(Core(t)) && (IsArray(t) <==> Core(t).Array?)
  {
    if t.Alias? { DepthOfCore(t.target); }
  }

  /** After a call, by how parameter i is declared. Anything const, marked [in] alone, or passed by
      value keeps its value. Marked [out], or unmarked and a reference, a pointer or an array, it
      holds what the callee left: all of it, or as many elements as its size says. The stub of a
      method that is no constructor and not void hands out a result. */
  lemma CallerFinds(m: Method, env: Env, vs: seq<Value>, ns: seq<nat>, rn: nat, obj: Value, body: Body, k: Counters,
                    i: nat)
    requires Supported(m) && Ready(m, env, vs, ns, rn) && i < |m.params|
    requires WellBehaved(m, Givens(m.params, vs, ns), body(obj, Givens(m.params, vs, ns)), ns, rn)
    ensures
      var (p, r) := (m.params[i], body(obj, Givens(m.params, vs, ns)));
      var (call, reached) := (Call(m, env, obj, body, k), p.isRef || Core(p.t).Ptr? || Core(p.t).Array?);
      && call.Some? && User(p.id) in call.value.1.env && call.value.1.env[User(p.id)].Obj?
      && var after := call.value.1.env[User(p.id)].v;
         && (p.isConst ==> after == vs[i])
         && (!p.isConst && p.isOutput ==> after == Filled(p, vs[i], r.args[i], ns[i]))
         && (!p.isOutput && p.isInput ==> after == vs[i])
         && (!p.isConst && !p.isOutput && !p.isInput && reached ==> after == Filled(p, vs[i], r.args[i], ns[i]))
         && (!p.isOutput && !p.isInput && !reached ==> after == vs[i])
    ensures
      var r := body(obj, Givens(m.params, vs, ns));
      !m.isConstructor && m.result.t != Void ==>
        ResultIs(m, Delivered(m.result, r.ret, rn), Call(m, env, obj, body, k).value.1.env)
  {
    RemoteCallIsLocalCall(m, env, vs, ns, rn, obj, body, k);
    DepthOfCore(m.params[i].t);
  }

  /** What the callee is given for a parameter, by how it is declared: the caller's data, unless it
      is marked [out] alone and not const, and then a new object, or a block of new ones. */
  lemma CalleeGiven(m: Method, vs: seq<Value>, ns: seq<nat>, i: nat)
    requires i < |m.params| == |vs| == |ns|
    ensures
      var (p, given) := (m.params[i], Givens(m.params, vs, ns)[i]);
      && (p.isInput || p.isConst || !p.isOutput ==> given == Copied(p, vs[i], ns[i]))
      && (p.isOutput && !p.isInput && !p.isConst ==>
            given == if p.size.Some? && Core(p.t).Ptr? then Agg(Copies(Default(Core(p.t).base), ns[i]))
                     else Default(p.t))
  {
  }

  /** `void inc(int &x)` */
  const Inc := Rpc.Method(
    [Rpc.Param("x", Std("int"), false, false, false, true, None)],
    Rpc.Param("_RemoteRet", Void, false, false, false, false, None), false, true)

  /** A plain reference comes back as the callee left it. */
  lemma ReferenceComesBack(env: Env, obj: Value, body: Body, k: Counters)
    requires User("x") in env && env[User("x")] == Obj(Atom(Num(1)))
    requires body(obj, [Atom(Num(1))]) == Outcome(obj, [Atom(Num(2))], Wild)
    ensures
      var call := Call(Inc, env, obj, body, k);
      call.Some? && User("x") in call.value.1.env && call.value.1.env[User("x")] == Obj(Atom(Num(2)))
  {
    var (vs, ns) := ([Atom(Num(1))], [0]);
    assert Inc.params[0].id == "x" && Givens(Inc.params, vs, ns) == vs;
    CallerFinds(Inc, env, vs, ns, 0, obj, body, k, 0);
  }
}
