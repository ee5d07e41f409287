/** Client stubs and broker wrappers (parser/classmember.cc): the code emitted for one
    synchronous method, and what a remote call does. */
module Rpc {
  import opened Types
  import opened Emit
  import opened Machine

  /** `size` is the [size = ...] annotation. */
  datatype Param = Param(id: string, t: Type, isInput: bool, isOutput: bool, isConst: bool, isRef: bool,
                         size: Option<Expr>)

  /** `result` is the parameter `_RemoteRet`; `isOpen`: public and not hidden. */
  datatype Method = Method(params: seq<Param>, result: Param, isConstructor: bool, isOpen: bool)

  function PointerDepth(t: Type): nat {
    match t
    case Ptr(n, u) => n + PointerDepth(u)
    case Alias(u) => PointerDepth(u)
    case _ => 0
  }

  predicate IsArray(t: Type) {
    match t
    case Array(_, _) => true
    case Alias(u) => IsArray(u)
    case _ => false
  }

  predicate InParam(p: Param) { p.isInput || p.isConst || !p.isOutput }

  predicate OutParam(p: Param) {
    !p.isConst && (p.isOutput || (!p.isInput && (p.isRef || PointerDepth(p.t) > 0 || IsArray(p.t))))
  }

  // ---------- may it be marshalled? ----------

  /** 0: no, 1: yes, 2: only together with a size. */
  function CanMarshal(t: Type): nat
    decreases t
  {
    match t
    case Struct(ts) => if forall i :: 0 <= i < |ts| ==> CanMarshal(ts[i]) == 1 then 1 else 0
    case Alias(u) => CanMarshal(u)
    case Array(_, u) => CanMarshal(u)
    case Ptr(n, u) => if n == 1 && CanMarshal(u) != 0 then 2 else 0
    case Container(_, u) => if CanMarshal(u) != 0 then 1 else 0
    case Pair(a, b) => if CanMarshal(a) != 0 && CanMarshal(b) != 0 then 1 else 0
    case _ => 1
  }

  predicate ParamCanMarshal(p: Param) {
    CanMarshal(p.t) == 1 || (CanMarshal(p.t) == 2 && p.size.Some?)
  }

  predicate IsParClass(t: Type) {
    match t
    case ParClass(_) => true
    case Alias(u) => IsParClass(u)
    case _ => false
  }

  lemma {:induction false} ParClassIsCore(t: Type)
    ensures IsParClass(t) <==> Core(t).ParClass?
  {
    if t.Alias? { ParClassIsCore(t.target); }
  }

  predicate ParamAccepted(p: Param) { (IsParClass(p.t) ==> p.isRef) && ParamCanMarshal(p) }

  predicate ResultAccepted(m: Method) { m.isConstructor || ParamCanMarshal(m.result) }

  /** 0 when stubs can be generated or none are asked for, -1 when the result cannot be
      marshalled, else the (1-based) number of the first parameter that cannot. */
  method CheckMarshal(m: Method) returns (r: int)
    ensures r == 0 <==>
      !m.isOpen || (ResultAccepted(m) && forall i :: 0 <= i < |m.params| ==> ParamAccepted(m.params[i]))
    ensures r == -1 <==> m.isOpen && !ResultAccepted(m)
    ensures -1 <= r <= |m.params|
    ensures m.isOpen && (exists p <- m.params :: Core(p.t).ParClass? && !p.isRef) ==> r != 0
    ensures r > 0 ==> !ParamAccepted(m.params[r - 1]) && forall i :: 0 <= i < r - 1 ==> ParamAccepted(m.params[i])
  {
    if !m.isOpen { return 0; }
    if !m.isConstructor && !ParamCanMarshal(m.result) { return -1; }
    for i := 0 to |m.params|
      invariant forall j :: 0 <= j < i ==> ParamAccepted(m.params[j])
      invariant forall j :: 0 <= j < i && Core(m.params[j].t).ParClass? ==> m.params[j].isRef
    {
      var p := m.params[i];
      ParClassIsCore(p.t);
      if IsParClass(p.t) && !p.isRef { return i + 1; }
      if !ParamCanMarshal(p) { return i + 1; }
    }
    return 0;
  }

  // ---------- emitted code ----------

  function Target(p: Param): LVal { Var(User(p.id)) }

  /** `Param::Marshal`: the size, evaluated on the spot, then the data. */
  function ParamOut(p: Param, c: nat): (Code, nat) {
    if p.size.None? then MarshalCode(p.t, Target(p), None, c) else
    var (code, d) := MarshalCode(p.t, Target(p), Some(Of(Size1(p.id))), c);
    ([DeclExpr(Size1(p.id), p.size.value)] + StdOut(Var(Size1(p.id)), One) + code, d)
  }

  /** `Param::UnMarshal`: the size as received, memory if asked for, then the data. */
  function ParamIn(p: Param, alloc: bool, c: nat): (Code, nat) {
    if p.size.None? then DeMarshalCode(p.t, Target(p), None, c) else
    var (code, d) := DeMarshalCode(p.t, Target(p), Some(Of(Size2(p.id))), c);
    ([DeclInt(Size2(p.id))] + StdIn(Var(Size2(p.id)), One)
     + (if alloc && Core(p.t).Ptr? then [Alloc(User(p.id), Of(Size2(p.id)), Core(p.t).base)] else []) + code, d)
  }

  /** The two directions in which parameters travel: to the broker, and back. */
  datatype Way = In | Out

  predicate Travels(p: Param, way: Way) { if way.In? then InParam(p) else OutParam(p) }

  /** The sender's loop: the client over in-parameters, the broker over out-parameters. */
  function SendSome(ps: seq<Param>, way: Way, c: nat): (Code, nat) {
    if ps == [] then ([], c)
    else if !Travels(ps[0], way) then SendSome(ps[1..], way, c)
    else
      var (a, d) := ParamOut(ps[0], c);
      var (b, e) := SendSome(ps[1..], way, d);
      (a + b, e)
  }

  function TakeOne(p: Param, way: Way, c: nat): (Code, nat) {
    var (code, d) := ParamIn(p, way.In?, c);
    ((if way.In? then [DeclObj(User(p.id), p.t)] else []) + code, d)
  }

  /** The receiver's loop.  The broker declares the variables and allocates memory, the
      client fills the caller's own. */
  function TakeSome(ps: seq<Param>, way: Way, c: nat): (Code, nat) {
    if ps == [] then ([], c)
    else if !Travels(ps[0], way) then TakeSome(ps[1..], way, c)
    else
      var (a, d) := TakeOne(ps[0], way, c);
      var (b, e) := TakeSome(ps[1..], way, d);
      (a + b, e)
  }

  /** Broker: declare the output-only parameters, with memory for the sized ones. */
  function MakeOuts(ps: seq<Param>): Code {
    if ps == [] then []
    else if InParam(ps[0]) then MakeOuts(ps[1..])
    else MakeOut(ps[0]) + MakeOuts(ps[1..])
  }

  function MakeOut(p: Param): Code {
    [DeclObj(User(p.id), p.t)]
    + if p.size.Some? && Core(p.t).Ptr? then [AllocExpr(User(p.id), p.size.value, Core(p.t).base)] else []
  }

  predicate HasReturn(m: Method) { !m.isConstructor && m.result.t != Void }

  function SendReply(m: Method, c: nat): Code {
    var (code, d) := SendSome(m.params, Out, c);
    code + if HasReturn(m) then ParamOut(m.result, d).0 else []
  }

  function TakeReply(m: Method, c: nat): Code {
    var (code, d) := TakeSome(m.params, Out, c);
    code + if HasReturn(m) then TakeResult(m.result, d) else []
  }

  /** The result is read into a variable of the stub; a block for it lives in a container of
      the stub, which ends with it. */
  function TakeResult(p: Param, c: nat): Code {
    [DeclObj(User(p.id), p.t)] + ParamIn(p, true, c).0
    + if p.size.Some? && Core(p.t).Ptr? then [Release(User(p.id))] else []
  }

  // ---------- a call ----------

  /** The method body: object state and arguments in; object state, arguments
      afterwards and result out. */
  datatype Outcome = Outcome(obj: Value, args: seq<Value>, ret: Value)
  type Body = (Value, seq<Value>) -> Outcome

  /** The four values of the static counter at which the pieces of code were emitted. */
  datatype Counters = Counters(send: nat, take: nat, reply: nat, answer: nat)

  predicate Bound(ps: seq<Param>, env: Env) {
    forall i :: 0 <= i < |ps| ==> User(ps[i].id) in env && env[User(ps[i].id)].Obj?
  }

  function Values(ps: seq<Param>, env: Env): seq<Value>
    requires Bound(ps, env)
  {
    seq(|ps|, i requires 0 <= i < |ps| => env[User(ps[i].id)].v)
  }

  function Bind(ps: seq<Param>, vs: seq<Value>, env: Env): Env
    requires |vs| == |ps|
  {
    if ps == [] then env else Bind(ps[1..], vs[1..], env[User(ps[0].id) := Obj(vs[0])])
  }

  function WithResult(m: Method, r: Outcome, env: Env): Env {
    if HasReturn(m) then env[User(m.result.id) := Obj(r.ret)] else env
  }

  /** The broker wrapper: rebuild the arguments, call, reply. */
  function Serve(m: Method, obj: Value, request: seq<Datum>, body: Body, k: Counters): Option<(Value, seq<Datum>)> {
    var s := Exec(TakeSome(m.params, In, k.take).0 + MakeOuts(m.params), State(map[], request, 0));
    if s.None? || !Bound(m.params, s.value.env) then None else
    var r := body(obj, Values(m.params, s.value.env));
    if |r.args| != |m.params| then None else
    var env := Bind(m.params, r.args, s.value.env);
    var reply := Exec(SendReply(m, k.reply), State(WithResult(m, r, env), [], 0));
    if reply.None? then None else Some((r.obj, reply.value.wire))
  }

  /** The client stub: send, wait, take the answer apart. */
  function Call(m: Method, env: Env, obj: Value, body: Body, k: Counters): Option<(Value, State)> {
    var s := Exec(SendSome(m.params, In, k.send).0, State(env, [], 0));
    if s.None? then None else
    var served := Serve(m, obj, s.value.wire, body, k);
    if served.None? then None else
    var back := Exec(TakeReply(m, k.answer), s.value.(wire := served.value.1));
    if back.None? then None else Some((served.value.0, back.value))
  }

  // ---------- the local call it should amount to ----------

  /** A size that says how many elements travel. */
  predicate Sliced(p: Param) { p.size.Some? && (Core(p.t).Ptr? || Core(p.t).Array?) }

  /** What a new variable holds that v was sent to: a block is as long as its size says, an
      array keeps what it was declared with behind the elements sent. */
  function Copied(p: Param, v: Value, n: nat): Value {
    if !Sliced(p) || !v.Agg? || n > |v.elems| then v
    else if Core(p.t).Ptr? then Agg(v.elems[..n])
    else Agg(v.elems[..n] + Copies(Default(Core(p.t).base), |v.elems| - n))
  }

  /** What the callee is given for a parameter: the caller's data, or a new object. */
  function Given(p: Param, v: Value, n: nat): Value {
    if InParam(p) then Copied(p, v, n)
    else if p.size.Some? && Core(p.t).Ptr? then Agg(Copies(Default(Core(p.t).base), n))
    else Default(p.t)
  }

  /** A variable that held v after w was sent to it. */
  function Filled(p: Param, v: Value, w: Value, n: nat): Value {
    if Sliced(p) && v.Agg? && w.Agg? && n <= |v.elems| && n <= |w.elems| then Agg(w.elems[..n] + v.elems[n..]) else w
  }

  /** What the caller finds in a variable afterwards. */
  function Returned(p: Param, v: Value, w: Value, n: nat): Value {
    if OutParam(p) then Filled(p, v, w, n) else v
  }

  /** What the caller gets as the result: nothing it may look at, where that is a block. */
  function Delivered(p: Param, v: Value, n: nat): Value {
    if p.size.Some? && Core(p.t).Ptr? && n > 0 then Wild else Copied(p, v, n)
  }
}
