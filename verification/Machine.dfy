/** What the emitted code does: an interpreter over the variables in scope and the
    message buffer.  `None` is undefined behaviour (a wild or out-of-range access, a
    read past the end of the message, an unbalanced Pop). */
module Machine {
  import opened Types
  import opened Emit

  datatype Binding = Obj(v: Value) | Ref(root: Name, steps: seq<nat>)
  type Env = map<Name, Binding>

  /** `wire` is the message: Pack appends to it, UnPack consumes its front. */
  datatype State = State(env: Env, wire: seq<Datum>, depth: nat)

  datatype Path = Path(root: Name, steps: seq<nat>)

  // ---------- memory ----------

  function Get(v: Value, steps: seq<nat>): Option<Value>
    decreases |steps|
  {
    if steps == [] then Some(v)
    else if v.Agg? && steps[0] < |v.elems| then Get(v.elems[steps[0]], steps[1..])
    else None
  }

  function Put(v: Value, steps: seq<nat>, w: Value): Value
    decreases |steps|
  {
    if steps == [] then w
    else if v.Agg? && steps[0] < |v.elems| then Agg(v.elems[steps[0] := Put(v.elems[steps[0]], steps[1..], w)])
    else v
  }

  function Resolve(l: LVal, env: Env): Option<Path>
    decreases l
  {
    match l
    case Var(n) => if n in env && env[n].Obj? then Some(Path(n, [])) else None
    case Star(n) => if n in env && env[n].Ref? then Some(Path(env[n].root, env[n].steps)) else None
    case Mem(m, i) => Below(Resolve(m, env), i)
    case At(m, x) => if x in env && IsNat(env[x]) then Below(Resolve(m, env), env[x].v.datum.n) else None
    case First(m) => Below(Resolve(m, env), 0)
  }

  function Below(p: Option<Path>, i: nat): Option<Path> {
    if p.None? then None else Some(Path(p.value.root, p.value.steps + [i]))
  }

  predicate IsNat(b: Binding) { b.Obj? && b.v.Atom? && b.v.datum.Num? && b.v.datum.n >= 0 }

  function Load(p: Path, env: Env): Option<Value> {
    if p.root in env && env[p.root].Obj? then Get(env[p.root].v, p.steps) else None
  }

  function Store(p: Path, env: Env, w: Value): Env
    requires p.root in env && env[p.root].Obj?
  {
    env[p.root := Obj(Put(env[p.root].v, p.steps, w))]
  }

  function Read(l: LVal, env: Env): Option<Value> {
    var p := Resolve(l, env);
    if p.None? then None else Load(p.value, env)
  }

  function Write(l: LVal, s: State, w: Value): Option<State> {
    if Read(l, s.env).None? then None else Some(s.(env := Store(Resolve(l, s.env).value, s.env, w)))
  }

  function SizeVal(sz: Size, env: Env): Option<nat> {
    match sz
    case One => Some(1)
    case Card(n) => Some(n)
    case Of(x) => if x in env && IsNat(env[x]) then Some(env[x].v.datum.n) else None
  }

  function Eval(e: Expr, env: Env): Option<int> {
    match e
    case Const(c) => Some(c)
    case Param(id) =>
      if User(id) in env && env[User(id)].Obj? && env[User(id)].v.Atom? && env[User(id)].v.datum.Num?
      then Some(env[User(id)].v.datum.n) else None
    case Plus(a, b) =>
      if Eval(a, env).Some? && Eval(b, env).Some? then Some(Eval(a, env).value + Eval(b, env).value) else None
    case Times(a, b) =>
      if Eval(a, env).Some? && Eval(b, env).Some? then Some(Eval(a, env).value * Eval(b, env).value) else None
  }

  // ---------- the buffer ----------

  predicate AllAtoms(vs: seq<Value>) { forall i :: 0 <= i < |vs| ==> vs[i].Atom? }

  function Data(vs: seq<Value>): seq<Datum>
    requires AllAtoms(vs)
  {
    seq(|vs|, i requires 0 <= i < |vs| => vs[i].datum)
  }

  function Atoms(ds: seq<Datum>): seq<Value> {
    seq(|ds|, i requires 0 <= i < |ds| => Atom(ds[i]))
  }

  /** `Pack(&l, n)`: the address of a block's first element reaches the whole block,
      any other address one scalar. */
  function PackN(l: LVal, n: nat, s: State): Option<State> {
    if l.First? then
      var b := Read(l.of, s.env);
      if b.Some? && b.value.Agg? && n <= |b.value.elems| && AllAtoms(b.value.elems[..n])
      then Some(s.(wire := s.wire + Data(b.value.elems[..n]))) else None
    else
      var v := Read(l, s.env);
      if n == 1 && v.Some? && v.value.Atom? then Some(s.(wire := s.wire + [v.value.datum])) else None
  }

  function UnPackN(l: LVal, n: nat, s: State): Option<State> {
    if |s.wire| < n then None else
    var rest := s.(wire := s.wire[n..]);
    if l.First? then
      var b := Read(l.of, s.env);
      if b.Some? && b.value.Agg? && n <= |b.value.elems|
      then Write(l.of, rest, Agg(Atoms(s.wire[..n]) + b.value.elems[n..])) else None
    else if n == 1 then Write(l, rest, Atom(s.wire[0])) else None
  }

  // ---------- containers ----------

  function Resized(es: seq<Value>, n: nat, t: Type): seq<Value> {
    if n <= |es| then es[..n] else es + Copies(Default(t), n - |es|)
  }

  /** `m[k] = v` on a sorted map: lower_bound, then overwrite or insert. */
  function MapInsert(es: seq<Value>, k: Value, v: Value): seq<Value> {
    if es == [] then [Agg([k, v])]
    else if Before(KeyOf(es[0]), k) then [es[0]] + MapInsert(es[1..], k, v)
    else if KeyOf(es[0]) == k then [Agg([k, v])] + es[1..]
    else [Agg([k, v])] + es
  }

  // ---------- execution ----------

  function Declares(i: Instr): set<Name> {
    match i
    case DeclSize(n, _) => {n}
    case DeclInt(n) => {n}
    case DeclObj(n, _) => {n}
    case DeclExpr(n, _) => {n}
    case _ => {}
  }

  function Locals(code: Code): set<Name> {
    if code == [] then {} else Declares(code[0]) + Locals(code[1..])
  }

  /** Leaving a block: what it declared goes away and what that had hidden returns. */
  function Leave(outer: Env, inner: Env, locals: set<Name>): Env {
    map n | n in outer.Keys + inner.Keys && (if n in locals then n in outer else n in inner)
      :: if n in locals then outer[n] else inner[n]
  }

  function Exec(code: Code, s: State): Option<State>
    decreases code, 0
  {
    if code == [] then Some(s) else
    var r := Step(code[0], s);
    if r.None? then None else Exec(code[1..], r.value)
  }

  function Step(i: Instr, s: State): Option<State>
    decreases i, 0
  {
    match i
    case Push(sz) => if SizeVal(sz, s.env).Some? then Some(s.(depth := s.depth + 1)) else None
    case Pop => if s.depth > 0 then Some(s.(depth := s.depth - 1)) else None
    case Pack(l, sz) => if SizeVal(sz, s.env).Some? then PackN(l, SizeVal(sz, s.env).value, s) else None
    case UnPack(l, sz) => if SizeVal(sz, s.env).Some? then UnPackN(l, SizeVal(sz, s.env).value, s) else None
    case DeclSize(n, l) =>
      var v := Read(l, s.env);
      if v.Some? && v.value.Agg? then Some(s.(env := s.env[n := Obj(Atom(Num(|v.value.elems|)))])) else None
    case DeclInt(n) => Some(s.(env := s.env[n := Obj(Atom(Num(0)))]))
    case DeclObj(n, t) => Some(s.(env := s.env[n := Obj(Default(t))]))
    case DeclExpr(n, e) =>
      if Eval(e, s.env).Some? then Some(s.(env := s.env[n := Obj(Atom(Num(Eval(e, s.env).value)))])) else None
    case Alloc(n, sz, t) =>
      if n in s.env && SizeVal(sz, s.env).Some?
      then Some(s.(env := s.env[n := Obj(Agg(Copies(Default(t), SizeVal(sz, s.env).value)))])) else None
    case AllocExpr(n, e, t) =>
      if n in s.env && Eval(e, s.env).Some? && Eval(e, s.env).value >= 0
      then Some(s.(env := s.env[n := Obj(Agg(Copies(Default(t), Eval(e, s.env).value)))])) else None
    case Release(n) =>
      // its destructor frees the block it made, if it made one
      if n !in s.env || !s.env[n].Obj? then None
      else if s.env[n].v == Agg([]) then Some(s) else Some(s.(env := s.env[n := Obj(Wild)]))
    case Resize(l, sz, t) =>
      var v := Read(l, s.env);
      if v.Some? && v.value.Agg? && SizeVal(sz, s.env).Some?
      then Write(l, s, Agg(Resized(v.value.elems, SizeVal(sz, s.env).value, t))) else None
    case Clear(l) =>
      var v := Read(l, s.env);
      if v.Some? && v.value.Agg? then Write(l, s, Agg([])) else None
    case Insert(l, k, v) =>
      var m := Read(l, s.env);
      if m.Some? && m.value.Agg? && k in s.env && s.env[k].Obj? && v in s.env && s.env[v].Obj?
      then Write(l, s, Agg(MapInsert(m.value.elems, s.env[k].v, s.env[v].v))) else None
    case ForIter(it, l, body) =>
      var v := Read(l, s.env);
      if v.Some? && v.value.Agg? then EachRef(it, Resolve(l, s.env).value, 0, |v.value.elems|, body, s) else None
    case ForPtr(p, l, sz, body) =>
      // p is already in scope, and unset, in its own initialiser
      var r := Resolve(l, s.env - {p});
      if r.Some? && SizeVal(sz, s.env).Some?
      then EachRef(p, r.value, 0, SizeVal(sz, s.env).value, body, s) else None
    case ForIdx(x, sz, body) =>
      if SizeVal(sz, s.env).Some? then EachIdx(x, 0, SizeVal(sz, s.env).value, body, s) else None
  }

  /** The iterations j..n of a loop whose variable points to element i of the block at p. */
  function EachRef(x: Name, p: Path, j: nat, n: nat, body: Code, s: State): Option<State>
    decreases body, 1 + if j < n then n - j else 0
  {
    if j >= n then Some(s) else
    var r := Exec(body, s.(env := s.env[x := Ref(p.root, p.steps + [j])]));
    if r.None? then None else
    EachRef(x, p, j + 1, n, body, r.value.(env := Leave(s.env, r.value.env, {x} + Locals(body))))
  }

  function EachIdx(x: Name, j: nat, n: nat, body: Code, s: State): Option<State>
    decreases body, 1 + if j < n then n - j else 0
  {
    if j >= n then Some(s) else
    var r := Exec(body, s.(env := s.env[x := Obj(Atom(Num(j)))]));
    if r.None? then None else
    EachIdx(x, j + 1, n, body, r.value.(env := Leave(s.env, r.value.env, {x} + Locals(body))))
  }

  lemma {:induction false} ExecConcat(a: Code, b: Code, s: State)
    ensures Exec(a + b, s) == if Exec(a, s).None? then None else Exec(b, Exec(a, s).value)
    decreases |a|
  {
    if a == [] {
      assert a + b == b;
    } else {
      assert (a + b)[0] == a[0] && (a + b)[1..] == a[1..] + b;
      var r := Step(a[0], s);
      if r.Some? { ExecConcat(a[1..], b, r.value); }
    }
  }
}
