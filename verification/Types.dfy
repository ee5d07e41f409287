/** The data types the POP-C++ parser knows, the values they describe, and the
    wire format those values are meant to have (parser/type.h). */
module Types {

  datatype Option<+T> = None | Some(value: T)

  datatype Stl = Vector | List | Deque | Map

  /** One constructor per subclass of DataType.  `Pair` is the value type of a
      map: the element a map iterator points to. */
  datatype Type =
    | Void
    | Std(name: string)
    | ParClass(name: string)
    | Struct(fields: seq<Type>)
    | Alias(target: Type)
    | Array(card: nat, base: Type)
    | Ptr(level: nat, base: Type)
    | Container(kind: Stl, elem: Type)
    | Pair(key: Type, value: Type)

  datatype Datum = Num(n: int) | Text(s: string)

  /** The content of a variable: a scalar, an aggregate (struct, array, container
      or pointed-to block), or a pointer nobody has set. */
  datatype Value = Atom(datum: Datum) | Agg(elems: seq<Value>) | Wild

  /** `DataType::isStandard`: decided by name, so `void` is one and a typedef is not. */
  predicate IsStandard(t: Type) { t.Void? || t.Std? }

  /** What a typedef stands for in the end. */
  function Core(t: Type): (u: Type)
    ensures !u.Alias?
  {
    match t
    case Alias(u) => Core(u)
    case _ => t
  }

  // ---------- values of a type ----------

  function KeyOf(e: Value): Value {
    if e.Agg? && |e.elems| > 0 then e.elems[0] else Wild
  }

  predicate Less(a: Datum, b: Datum) {
    match (a, b)
    case (Num(x), Num(y)) => x < y
    case (Num(_), Text(_)) => true
    case (Text(_), Num(_)) => false
    case (Text(x), Text(y)) => TextLess(x, y)
  }

  predicate TextLess(x: string, y: string) {
    y != "" && (x == "" || x[0] < y[0] || (x[0] == y[0] && TextLess(x[1..], y[1..])))
  }

  /** The order a map keeps its keys in: lexicographic. */
  predicate Before(a: Value, b: Value)
    decreases a, 0
  {
    match (a, b)
    case (Wild, _) => !b.Wild?
    case (Atom(x), Atom(y)) => Less(x, y)
    case (Atom(_), Agg(_)) => true
    case (Agg(xs), Agg(ys)) => AllBefore(xs, ys)
    case _ => false
  }

  predicate AllBefore(xs: seq<Value>, ys: seq<Value>)
    decreases xs
  {
    ys != [] && (xs == [] || Before(xs[0], ys[0]) || (xs[0] == ys[0] && AllBefore(xs[1..], ys[1..])))
  }

  ghost predicate Ascending(es: seq<Value>) {
    forall i, j :: 0 <= i < j < |es| ==> Before(KeyOf(es[i]), KeyOf(es[j]))
  }

  /** `void` is what a `void *` points to: one raw cell. */
  ghost predicate Typed(t: Type, v: Value)
    decreases t
  {
    match t
    case Void => v.Atom?
    case Std(_) => v.Atom?
    case ParClass(_) => v.Atom?
    case Struct(ts) => v.Agg? && |v.elems| == |ts| && forall i :: 0 <= i < |ts| ==> Typed(ts[i], v.elems[i])
    case Alias(u) => Typed(u, v)
    case Array(n, u) => v.Agg? && |v.elems| == n && forall i :: 0 <= i < n ==> Typed(u, v.elems[i])
    case Ptr(_, u) => v.Wild? || (v.Agg? && forall i :: 0 <= i < |v.elems| ==> Typed(u, v.elems[i]))
    case Container(k, u) =>
      && v.Agg?
      && (forall i :: 0 <= i < |v.elems| ==> Typed(u, v.elems[i]))
      && (k.Map? ==> Ascending(v.elems))
    case Pair(a, b) => v.Agg? && |v.elems| == 2 && Typed(a, v.elems[0]) && Typed(b, v.elems[1])
  }

  /** What a freshly declared variable of the type holds. */
  function Default(t: Type): Value
    decreases t
  {
    match t
    case Struct(ts) => Agg(seq(|ts|, i requires 0 <= i < |ts| => Default(ts[i])))
    case Alias(u) => Default(u)
    case Array(n, u) => Agg(Copies(Default(u), n))
    case Ptr(_, _) => Wild
    case Container(_, _) => Agg([])
    case Pair(a, b) => Agg([Default(a), Default(b)])
    case _ => Atom(Num(0))
  }

  function Copies(v: Value, n: nat): (vs: seq<Value>)
    ensures |vs| == n && forall i :: 0 <= i < n ==> vs[i] == v
  {
    seq(n, _ => v)
  }

  /** No pointer and no `void` anywhere: a type that owns all its data. */
  predicate Plain(t: Type)
    decreases t
  {
    match t
    case Void => false
    case Ptr(_, _) => false
    case Struct(ts) => forall i :: 0 <= i < |ts| ==> Plain(ts[i])
    case Alias(u) => Plain(u)
    case Array(_, u) => Plain(u)
    case Container(k, u) => Plain(u) && (k.Map? <==> u.Pair?)
    case Pair(a, b) => Plain(a) && Plain(b)
    case _ => true
  }

  /** A map's elements are pairs, and only a map's elements are; no container holds `void`. */
  predicate Shaped(t: Type)
    decreases t
  {
    match t
    case Struct(ts) => forall i :: 0 <= i < |ts| ==> Shaped(ts[i])
    case Alias(u) => Shaped(u)
    case Array(_, u) => Shaped(u)
    case Ptr(_, u) => Shaped(u)
    case Container(k, u) => Shaped(u) && !u.Void? && (k.Map? <==> u.Pair?)
    case Pair(a, b) => Shaped(a) && Shaped(b)
    case _ => true
  }

  lemma {:induction false} PlainIs(t: Type)
    requires Plain(t)
    ensures Shaped(t)
    decreases t
  {
    match t
    case Struct(ts) => forall i | 0 <= i < |ts| ensures Shaped(ts[i]) { PlainIs(ts[i]); }
    case Alias(u) => PlainIs(u);
    case Array(_, u) => PlainIs(u);
    case Container(_, u) => PlainIs(u);
    case Pair(a, b) => PlainIs(a); PlainIs(b);
    case _ =>
  }

  /** A typedef means what it stands for. */
  lemma {:induction false} CoreMeans(t: Type, v: Value)
    ensures Plain(t) == Plain(Core(t)) && Default(t) == Default(Core(t))
    ensures Typed(t, v) == Typed(Core(t), v) && Wire(t, v) == Wire(Core(t), v)
  {
    if t.Alias? { CoreMeans(t.target, v); }
  }

  lemma {:induction false} DefaultTyped(t: Type)
    ensures Typed(t, Default(t))
    decreases t
  {
    match t
    case Struct(ts) => forall i | 0 <= i < |ts| ensures Typed(ts[i], Default(ts[i])) { DefaultTyped(ts[i]); }
    case Alias(u) => DefaultTyped(u);
    case Array(_, u) => DefaultTyped(u);
    case Pair(a, b) => DefaultTyped(a); DefaultTyped(b);
    case _ =>
  }

  // ---------- the wire format ----------

  /** The data a value contributes to a message: scalars in declaration order, and
      the length first for a container. */
  function Wire(t: Type, v: Value): seq<Datum>
    decreases t, 0
  {
    match t
    case Struct(ts) => if v.Agg? then WireFields(ts, v.elems) else []
    case Alias(u) => Wire(u, v)
    case Array(_, u) => if v.Agg? then WireAll(u, v.elems) else []
    case Container(_, u) => if v.Agg? then [Num(|v.elems|)] + WireAll(u, v.elems) else []
    case Pair(a, b) => if v.Agg? && |v.elems| == 2 then Wire(a, v.elems[0]) + Wire(b, v.elems[1]) else []
    case Ptr(_, _) => []
    case Void => []
    case _ => if v.Atom? then [v.datum] else []
  }

  function WireFields(ts: seq<Type>, vs: seq<Value>): seq<Datum>
    decreases ts, 0
  {
    if ts == [] || vs == [] then [] else Wire(ts[0], vs[0]) + WireFields(ts[1..], vs[1..])
  }

  function WireAll(t: Type, vs: seq<Value>): seq<Datum>
    decreases t, |vs| + 1
  {
    if vs == [] then [] else Wire(t, vs[0]) + WireAll(t, vs[1..])
  }
}
