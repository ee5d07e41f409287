/** The code the stub compiler emits, as an instruction list, and the generators
    that emit it (parser/type.cc, typestruct.cc, typeequal.cc, typearray.cc,
    typeptr.cc, typetemplate.cc). */
module Emit {
  import opened Types

  /** Variable names in generated code; each constructor is one sprintf pattern. */
  datatype Name =
    | User(id: string)
    | Elem(k: nat)          // _elem<k>
    | ItElem(k: nat)        // it__elem<k>
    | ElemSize(k: nat)      // _elem<k>_size
    | ElemKey(k: nat)       // _elem<k>_key
    | ElemValue(k: nat)     // _elem<k>_value
    | PopElem(k: nat)       // _pop_elem<k>
    | PopItem               // _pop_item
    | LoopI                 // i
    | Size1(id: string)     // __pop_size1_<id>
    | Size2(id: string)     // __pop_size2_<id>

  datatype LVal =
    | Var(n: Name)
    | Star(n: Name)                 // *n, n an iterator or an element pointer
    | Mem(of: LVal, field: nat)     // .field, or ->first / ->second of a map element
    | At(of: LVal, idx: Name)       // of[idx]
    | First(of: LVal)               // *of, the first element of a block

  /** A size argument: the literal "1", a cardinal "(e1)*...*(ek)" or a variable. */
  datatype Size = One | Card(n: nat) | Of(v: Name)

  datatype Expr = Const(c: int) | Param(id: string) | Plus(a: Expr, b: Expr) | Times(a: Expr, b: Expr)

  datatype Instr =
    | Push(sz: Size)
    | Pop
    | Pack(l: LVal, sz: Size)
    | UnPack(l: LVal, sz: Size)
    | DeclSize(n: Name, l: LVal)                 // int n = l.size();
    | DeclInt(n: Name)                           // int n = 0;
    | DeclObj(n: Name, t: Type)                  // T n;
    | DeclExpr(n: Name, e: Expr)                 // int n = e;
    | Alloc(n: Name, sz: Size, t: Type)          // pop_container<T> c(sz); n = c;
    | AllocExpr(n: Name, e: Expr, t: Type)       // pop_container<T> c(e); n = c;
    | Release(n: Name)                           // the end of the pop_container n was set from
    | Resize(l: LVal, sz: Size, t: Type)
    | Clear(l: LVal)
    | Insert(l: LVal, key: Name, value: Name)    // l[key] = value;
    | ForIter(it: Name, l: LVal, body: seq<Instr>)          // for (it = l.begin(); it != l.end(); it++)
    | ForPtr(p: Name, l: LVal, sz: Size, body: seq<Instr>)  // for (T *p = (T *)(l); sz-- > 0; p++)
    | ForIdx(i: Name, sz: Size, body: seq<Instr>)           // for (int i = 0; i < sz; i++)

  type Code = seq<Instr>

  // ---------- what the generators emit ----------

  function Sz(sz: Option<Size>): Size { if sz.Some? then sz.value else One }

  /** `Push; Pack; Pop` of the base class, and its mirror. */
  function StdOut(l: LVal, sz: Size): Code { [Push(sz), Pack(l, sz), Pop] }
  function StdIn(l: LVal, sz: Size): Code { [Push(sz), UnPack(l, sz), Pop] }

  /** Does an array take the element loop?  Only a literal "1" or a standard base avoids it. */
  predicate ArrayLoops(base: Type, sz: Size) { !IsStandard(base) && sz != One }

  function ArraySize(card: nat, sz: Option<Size>): Size { if sz.Some? then sz.value else Card(card) }

  predicate BlockVector(k: Stl, elem: Type) { k.Vector? && IsStandard(elem) }

  function Iterator(k: Stl, c: nat): Name { if k.Map? then ItElem(c) else Elem(c) }

  /** A container: its length, then one block (a vector of a standard type) or a loop
      over the code for its element. */
  function ContainerOut(k: Stl, u: Type, l: LVal, body: Code, c: nat): Code {
    [DeclSize(ElemSize(c), l)] + StdOut(Var(ElemSize(c)), One)
    + if BlockVector(k, u) then StdOut(First(l), Of(ElemSize(c)))
      else [Push(Of(ElemSize(c))), ForIter(Iterator(k, c), l, body), Pop]
  }

  function ListHead(u: Type, l: LVal, c: nat): Code {
    [DeclInt(ElemSize(c))] + StdIn(Var(ElemSize(c)), One) + [Resize(l, Of(ElemSize(c)), u)]
  }

  function ListIn(k: Stl, u: Type, l: LVal, body: Code, c: nat): Code {
    ListHead(u, l, c)
    + if BlockVector(k, u) then StdIn(First(l), Of(ElemSize(c)))
      else [Push(Of(ElemSize(c))), ForIter(Elem(c), l, body), Pop]
  }

  function MapHead(u: Type, c: nat): Code
    requires u.Pair?
  {
    [DeclInt(ElemSize(c))] + [DeclObj(ElemKey(c), u.key)] + [DeclObj(ElemValue(c), u.value)]
    + StdIn(Var(ElemSize(c)), One)
  }

  /** A map is read entry by entry into two variables and inserted key by key. */
  function MapIn(u: Type, l: LVal, entry: Code, c: nat): Code
    requires u.Pair?
  {
    MapHead(u, c)
    + [Push(Of(ElemSize(c))), Clear(l),
       ForIdx(LoopI, Of(ElemSize(c)), entry + [Insert(l, ElemKey(c), ElemValue(c))]), Pop]
  }

  /** Code emitted by `Marshal(varname, bufname, sizehelper, output)` when the static
      `counter` is `c`, and the counter afterwards. */
  function MarshalCode(t: Type, l: LVal, sz: Option<Size>, c: nat): (Code, nat)
    decreases t, 0
  {
    match t
    case Void => ([], c)
    case Std(_) => (StdOut(l, Sz(sz)), c)
    case ParClass(_) => (StdOut(l, One), c)
    case Struct(ts) =>
      var (code, d) := MarshalFields(ts, l, 0, c);
      ([Push(One)] + code + [Pop], d)
    case Alias(u) => MarshalCode(u, l, sz, c)
    case Array(n, u) =>
      var s := ArraySize(n, sz);
      if !ArrayLoops(u, s) then MarshalCode(u, First(l), Some(s), c) else
      var (body, d) := MarshalCode(u, Star(PopElem(c)), None, c);
      ([Push(s), ForPtr(PopElem(c), l, s, body), Pop], d + 1)
    case Ptr(_, u) =>
      if IsStandard(u) || sz.None? || sz == Some(One) then MarshalCode(u, First(l), sz, c) else
      var (body, d) := MarshalCode(u, At(l, PopItem), None, c);
      ([Push(sz.value), ForIdx(PopItem, sz.value, body), Pop], d)
    case Container(k, u) =>
      var (body, d) := MarshalCode(u, Star(Iterator(k, c)), None, c + 1);
      (ContainerOut(k, u, l, body, c), d)
    case Pair(a, b) =>
      var (ca, d) := MarshalCode(a, Mem(l, 0), None, c);
      var (cb, e) := MarshalCode(b, Mem(l, 1), None, d);
      (ca + cb, e)
  }

  function MarshalFields(ts: seq<Type>, l: LVal, i: nat, c: nat): (Code, nat)
    decreases ts, 1
  {
    if ts == [] then ([], c) else
    var (head, d) := MarshalCode(ts[0], Mem(l, i), None, c);
    var (tail, e) := MarshalFields(ts[1..], l, i + 1, d);
    (head + tail, e)
  }

  /** The same for `DeMarshal`. */
  function DeMarshalCode(t: Type, l: LVal, sz: Option<Size>, c: nat): (Code, nat)
    decreases t, 0
  {
    match t
    case Void => ([], c)
    case Std(_) => (StdIn(l, Sz(sz)), c)
    case ParClass(_) => (StdIn(l, One), c)
    case Struct(ts) =>
      var (code, d) := DeMarshalFields(ts, l, 0, c);
      ([Push(One)] + code + [Pop], d)
    case Alias(u) => DeMarshalCode(u, l, sz, c)
    case Array(n, u) =>
      var s := ArraySize(n, sz);
      if !ArrayLoops(u, s) then DeMarshalCode(u, First(l), Some(s), c) else
      var (body, d) := DeMarshalCode(u, Star(PopElem(c)), None, c);
      ([Push(s), ForPtr(PopElem(c), l, s, body), Pop], d + 1)
    case Ptr(_, u) =>
      if IsStandard(u) || sz.None? || sz == Some(One) then DeMarshalCode(u, First(l), sz, c) else
      var (body, d) := DeMarshalCode(u, At(l, PopItem), None, c);
      ([Push(sz.value), ForIdx(PopItem, sz.value, body), Pop], d)
    case Container(k, u) =>
      if k.Map? && u.Pair? then
        var (kc, d) := DeMarshalCode(u.key, Var(ElemKey(c)), None, c + 1);
        var (vc, e) := DeMarshalCode(u.value, Var(ElemValue(c)), None, d);
        (MapIn(u, l, kc + vc, c), e)
      else
        var (body, d) := DeMarshalCode(u, Star(Elem(c)), None, c + 1);
        (ListIn(k, u, l, body, c), d)
    case Pair(a, b) =>
      var (ca, d) := DeMarshalCode(a, Mem(l, 0), None, c);
      var (cb, e) := DeMarshalCode(b, Mem(l, 1), None, d);
      (ca + cb, e)
  }

  function DeMarshalFields(ts: seq<Type>, l: LVal, i: nat, c: nat): (Code, nat)
    decreases ts, 1
  {
    if ts == [] then ([], c) else
    var (head, d) := DeMarshalCode(ts[0], Mem(l, i), None, c);
    var (tail, e) := DeMarshalFields(ts[1..], l, i + 1, d);
    (head + tail, e)
  }
}
