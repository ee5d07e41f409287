/** Generated demarshalling code reads a message back into place. */
module CodecRead {
  import opened Types
  import opened Emit
  import opened Machine
  import opened Scopes
  import opened Codec

  /** What running demarshalling code amounts to: the object at p now holds v, and
      exactly the data in front of `rest` has been consumed. */
  ghost predicate Took(s: State, r: Option<State>, p: Path, v: Value, rest: seq<Datum>, c: nat, open: bool) {
    r.Some? && r.value.wire == rest && r.value.depth == s.depth && Assigned(s.env, r.value.env, p, v, c, open)
  }

  lemma HoldsAssigned(l: LVal, p: Path, v: Value, w: Value, a: Env, b: Env, c: nat, open: bool, d: nat, open': bool)
    requires Holds(l, p, v, a, c, open) && NotIndexedBy(l, p.root)
    requires Assigned(a, b, p, w, c, open) && NoLater(c, open, d, open')
    ensures Holds(l, p, w, b, d, open')
  {
    ResolveAssigned(l, a, b, p, w, c, open);
    OlderMono(l, c, open, d, open');
    LoadAssigned(a, b, p, w, c, open);
  }

  /** The declarations of generated code are new to everything generated before. */
  lemma {:induction false} LocalsNewerOf(t: Type, l: LVal, c: nat, open: bool, n: Name)
    requires Shaped(t) && n in Locals(DeMarshalCode(t, l, None, c).0)
    ensures !Older(n, c, open)
    decreases t, 1
  {
    match t
    case Struct(ts) =>
      BracketLocals(One, DeMarshalFields(ts, l, 0, c).0);
      FieldLocalsNewer(ts, l, 0, c, open, n);
    case Alias(u) => LocalsNewerOf(u, l, c, open, n);
    case Ptr(_, u) => LocalsNewerOf(u, First(l), c, open, n);
    case Container(_, _) => ContainerLocals(t, l, c);
    case Pair(_, _) => PairLocalsNewer(t, l, c, open, n);
    case _ => NoLocals(DeMarshalCode(t, l, None, c).0);
  }

  lemma BracketLocals(sz: Size, code: Code)
    ensures Locals([Push(sz)] + code + [Pop]) == Locals(code)
  {
    LocalsConcat([Push(sz)] + code, [Pop]);
    LocalsConcat([Push(sz)], code);
    NoLocals([Push(sz)]);
    NoLocals([Pop]);
  }

  lemma {:induction false} PairLocalsNewer(t: Type, l: LVal, c: nat, open: bool, n: Name)
    requires t.Pair? && Shaped(t) && n in Locals(DeMarshalCode(t, l, None, c).0)
    ensures !Older(n, c, open)
    decreases t, 0
  {
    var (a, b, d) := (t.key, t.value, c + Count(t.key));
    LocalsConcat(DeMarshalCode(a, Mem(l, 0), None, c).0, DeMarshalCode(b, Mem(l, 1), None, d).0);
    CountersOf(a, Mem(l, 0), c);
    if n in Locals(DeMarshalCode(a, Mem(l, 0), None, c).0) {
      LocalsNewerOf(a, Mem(l, 0), c, open, n);
    } else {
      LocalsNewerOf(b, Mem(l, 1), d, open && Count(a) == 0, n);
    }
  }

  lemma LocalsNewer(t: Type, l: LVal, c: nat, open: bool, n: Name)
    requires Plain(t) && n in Locals(DeMarshalCode(t, l, None, c).0)
    ensures !Older(n, c, open)
  {
    PlainIs(t);
    LocalsNewerOf(t, l, c, open, n);
  }

  lemma ContainerLocals(t: Type, l: LVal, c: nat)
    requires t.Container? && Shaped(t)
    ensures Locals(DeMarshalCode(t, l, None, c).0) <= {ElemSize(c), ElemKey(c), ElemValue(c)}
  {
    if t.kind.Map? {
      MapLocals(t.elem, l, EntryCode(t.elem, c), c);
      CountersOf(t.elem.key, Var(ElemKey(c)), c + 1);
    } else {
      ListLocals(t.kind, t.elem, l, DeMarshalCode(t.elem, Star(Elem(c)), None, c + 1).0, c);
    }
  }

  lemma ListLocals(k: Stl, u: Type, l: LVal, body: Code, c: nat)
    ensures Locals(ListIn(k, u, l, body, c)) <= {ElemSize(c)}
  {
    var (size, room, decl) := (StdIn(Var(ElemSize(c)), One), [Resize(l, Of(ElemSize(c)), u)], [DeclInt(ElemSize(c))]);
    var tail := if BlockVector(k, u) then StdIn(First(l), Of(ElemSize(c)))
                else [Push(Of(ElemSize(c))), ForIter(Elem(c), l, body), Pop];
    NoLocals(size);
    NoLocals(room);
    NoLocals(tail);
    LocalsConcat(decl + size + room, tail);
    LocalsConcat(decl + size, room);
    LocalsConcat(decl, size);
  }

  lemma MapLocals(u: Type, l: LVal, entry: Code, c: nat)
    requires u.Pair?
    ensures Locals(MapIn(u, l, entry, c)) <= {ElemSize(c), ElemKey(c), ElemValue(c)}
  {
    var (a, b, d) := ([DeclInt(ElemSize(c))], [DeclObj(ElemKey(c), u.key)], [DeclObj(ElemValue(c), u.value)]);
    var size := StdIn(Var(ElemSize(c)), One);
    var tail := [Push(Of(ElemSize(c))), Clear(l),
                 ForIdx(LoopI, Of(ElemSize(c)), entry + [Insert(l, ElemKey(c), ElemValue(c))]), Pop];
    NoLocals(size);
    NoLocals(tail);
    LocalsConcat(MapHead(u, c), tail);
    LocalsConcat(a + b + d, size);
    LocalsConcat(a + b, d);
    LocalsConcat(a, b);
  }

  lemma {:induction false} NoLocals(code: Code)
    requires forall i :: i in code ==> Declares(i) == {}
    ensures Locals(code) == {}
    decreases |code|
  {
    if code != [] { NoLocals(code[1..]); }
  }

  lemma {:induction false} FieldLocalsNewer(ts: seq<Type>, l: LVal, i: nat, c: nat, open: bool, n: Name)
    requires (forall k :: 0 <= k < |ts| ==> Shaped(ts[k])) && n in Locals(DeMarshalFields(ts, l, i, c).0)
    ensures !Older(n, c, open)
    decreases ts, 1
  {
    if ts != [] {
      CountersOf(ts[0], Mem(l, i), c);
      var d := c + Count(ts[0]);
      LocalsConcat(DeMarshalCode(ts[0], Mem(l, i), None, c).0, DeMarshalFields(ts[1..], l, i + 1, d).0);
      if n in Locals(DeMarshalCode(ts[0], Mem(l, i), None, c).0) {
        LocalsNewerOf(ts[0], Mem(l, i), c, open, n);
      } else {
        FieldLocalsNewer(ts[1..], l, i + 1, d, open && Count(ts[0]) == 0, n);
      }
    }
  }

  lemma {:induction false} LocalsConcat(a: Code, b: Code)
    ensures Locals(a + b) == Locals(a) + Locals(b)
    decreases |a|
  {
    if a == [] {
      assert a + b == b;
    } else {
      assert (a + b)[0] == a[0] && (a + b)[1..] == a[1..] + b;
      LocalsConcat(a[1..], b);
    }
  }

  // ---------- scalars and blocks ----------

  lemma UnPackScalar(l: LVal, sz: Size, s: State, p: Path, was: Value, d: Datum, rest: seq<Datum>, c: nat, open: bool)
    requires !l.First? && Resolve(l, s.env) == Some(p) && Load(p, s.env) == Some(was)
    requires SizeVal(sz, s.env) == Some(1) && s.wire == [d] + rest
    ensures Took(s, Exec(StdIn(l, sz), s), p, Atom(d), rest, c, open)
    ensures Exec(StdIn(l, sz), s) == Some(s.(wire := rest, env := Store(p, s.env, Atom(d))))
  {
    var s1 := s.(depth := s.depth + 1);
    assert s.wire[0] == d && s.wire[1..] == rest;
    Looped(sz, UnPack(l, sz), s);
  }

  lemma UnPackBlock(l: LVal, sz: Size, s: State, p: Path, cur: seq<Value>, vs: seq<Value>, u: Type, rest: seq<Datum>,
                    c: nat, open: bool)
    requires Resolve(l, s.env) == Some(p) && Load(p, s.env) == Some(Agg(cur)) && |cur| == |vs|
    requires SizeVal(sz, s.env) == Some(|vs|) && u.Std? && AllTyped(u, vs)
    requires s.wire == WireAll(u, vs) + rest
    ensures Took(s, Exec(StdIn(First(l), sz), s), p, Agg(vs), rest, c, open)
  {
    assert vs + cur[|vs|..] == vs;
    UnPackPrefix(l, sz, s, p, cur, vs, u, rest, c, open);
  }

  /** `UnPack(&l, n)` replaces the first n elements of a block. */
  lemma UnPackPrefix(l: LVal, sz: Size, s: State, p: Path, cur: seq<Value>, vs: seq<Value>, u: Type,
                     rest: seq<Datum>, c: nat, open: bool)
    requires Resolve(l, s.env) == Some(p) && Load(p, s.env) == Some(Agg(cur)) && |vs| <= |cur|
    requires SizeVal(sz, s.env) == Some(|vs|) && u.Std? && AllTyped(u, vs)
    requires s.wire == WireAll(u, vs) + rest
    ensures Took(s, Exec(StdIn(First(l), sz), s), p, Agg(vs + cur[|vs|..]), rest, c, open)
  {
    BlockData(u, vs, rest);
    var t := s.(wire := rest, env := Store(p, s.env, Agg(vs + cur[|vs|..])));
    assert Step(UnPack(First(l), sz), s.(depth := s.depth + 1)) == Some(t.(depth := s.depth + 1));
    Looped(sz, UnPack(First(l), sz), s);
  }

  lemma BlockData(u: Type, vs: seq<Value>, rest: seq<Datum>)
    requires u.Std? && AllTyped(u, vs)
    ensures
      var wire := WireAll(u, vs) + rest;
      |vs| <= |wire| && Atoms(wire[..|vs|]) == vs && wire[|vs|..] == rest
  {
    WireOfAtoms(u, vs);
    assert |WireAll(u, vs)| == |vs| by { assert |Atoms(WireAll(u, vs))| == |vs|; }
    assert (WireAll(u, vs) + rest)[..|vs|] == WireAll(u, vs);
  }

  ghost predicate AllTyped(u: Type, vs: seq<Value>) { forall k :: 0 <= k < |vs| ==> Typed(u, vs[k]) }

  // ---------- all types ----------

  /** Running the code emitted for `DeMarshal` on a message that starts with the wire
      format of v puts v in place, whatever was there, and leaves the rest unread. */
  lemma {:induction false} DeMarshalReads(t: Type, l: LVal, c: nat, open: bool, s: State, p: Path, was: Value,
                                          v: Value, rest: seq<Datum>)
    requires Plain(t) && CaptureFree(t, open) && !l.First? && NotIndexedBy(l, p.root)
    requires Holds(l, p, was, s.env, c, open) && Typed(t, was) && Typed(t, v)
    requires s.wire == Wire(t, v) + rest
    ensures Took(s, Exec(DeMarshalCode(t, l, None, c).0, s), p, v, rest, c, open)
    decreases t, 2
  {
    match t
    case Std(_) => UnPackScalar(l, One, s, p, was, v.datum, rest, c, open);
    case ParClass(_) => UnPackScalar(l, One, s, p, was, v.datum, rest, c, open);
    case Alias(u) => DeMarshalReads(u, l, c, open, s, p, was, v, rest);
    case Struct(_) => DeMarshalStructReads(t, l, c, open, s, p, was.elems, v.elems, rest);
    case Array(_, _) => DeMarshalArrayReads(t, l, c, open, s, p, was.elems, v.elems, rest);
    case Container(k, _) =>
      if k.Map? {
        DeMarshalMapReads(t, l, c, open, s, p, was.elems, v.elems, rest);
      } else {
        DeMarshalListReads(t, l, c, open, s, p, was.elems, v.elems, rest);
      }
    case Pair(_, _) => DeMarshalPairReads(t, l, c, open, s, p, was.elems, v.elems, rest);
  }

  lemma {:induction false} DeMarshalStructReads(t: Type, l: LVal, c: nat, open: bool, s: State, p: Path,
                                                cur: seq<Value>, vs: seq<Value>, rest: seq<Datum>)
    requires t.Struct? && Plain(t) && CaptureFree(t, open) && NotIndexedBy(l, p.root)
    requires Typed(t, Agg(cur)) && Typed(t, Agg(vs))
    requires Holds(l, p, Agg(cur), s.env, c, open) && s.wire == Wire(t, Agg(vs)) + rest
    ensures Took(s, Exec(DeMarshalCode(t, l, None, c).0, s), p, Agg(vs), rest, c, open)
    decreases t, 1
  {
    assert vs[0..] == vs;
    DeMarshalFieldsReads(t.fields, l, 0, c, open, s.(depth := s.depth + 1), p, cur, vs, rest);
    Bracket(One, DeMarshalFields(t.fields, l, 0, c).0, s);
  }

  /** One member has been read in; the next ones follow. */
  lemma TookElem(a: Code, b: Code, l: LVal, s: State, p: Path, cur: seq<Value>, i: nat, w: Value, v: Value,
                 mid: seq<Datum>, rest: seq<Datum>, c: nat, open: bool, d: nat, open': bool)
    requires Load(p, s.env) == Some(Agg(cur)) && i < |cur| && NoLater(c, open, d, open')
    requires Took(s, Exec(a, s), Path(p.root, p.steps + [i]), w, mid, c, open)
    requires Took(Exec(a, s).value, Exec(b, Exec(a, s).value), p, v, rest, d, open')
    ensures Took(s, Exec(a + b, s), p, v, rest, c, open)
  {
    ExecConcat(a, b, s);
    var s1 := Exec(a, s).value;
    AssignedElem(s.env, s1.env, p, cur, i, w, c, open);
    AssignedTwice(s.env, s1.env, Exec(b, s1).value.env, p, Agg(cur[i := w]), v, c, open, d, open');
  }

  lemma NextTyped(ts: seq<Type>, cur: seq<Value>, vs: seq<Value>, i: nat)
    requires ts != [] && TypedFrom(ts, vs, i) && TypedFrom(ts, cur, i) && cur[..i] == vs[..i]
    ensures var next := cur[i := vs[i]]; TypedFrom(ts[1..], next, i + 1) && next[..i + 1] == vs[..i + 1]
  {
    forall k | 0 <= k < |ts[1..]| ensures Typed(ts[1..][k], cur[i := vs[i]][i + 1 + k]) {
      assert Typed(ts[k + 1], cur[i + (k + 1)]);
    }
  }

  lemma DeFieldsCode(ts: seq<Type>, l: LVal, i: nat, c: nat)
    requires ts != [] && Plain(ts[0])
    ensures DeMarshalFields(ts, l, i, c).0
         == DeMarshalCode(ts[0], Mem(l, i), None, c).0 + DeMarshalFields(ts[1..], l, i + 1, c + Count(ts[0])).0
  {
    Counters(ts[0], Mem(l, i), c);
  }

  lemma {:induction false} DeMarshalFieldsReads(ts: seq<Type>, l: LVal, i: nat, c: nat, open: bool, s: State, p: Path,
                                                cur: seq<Value>, vs: seq<Value>, rest: seq<Datum>)
    requires (forall k :: 0 <= k < |ts| ==> Plain(ts[k])) && FieldsCaptureFree(ts, open) && NotIndexedBy(l, p.root)
    requires |cur| == |vs| && i <= |vs| && cur[..i] == vs[..i] && TypedFrom(ts, vs, i) && TypedFrom(ts, cur, i)
    requires Holds(l, p, Agg(cur), s.env, c, open) && s.wire == WireFields(ts, vs[i..]) + rest
    ensures Took(s, Exec(DeMarshalFields(ts, l, i, c).0, s), p, Agg(vs), rest, c, open)
    decreases ts, 1
  {
    if ts == [] {
      assert cur == vs;
      PutSame(s.env[p.root].v, p.steps);
    } else {
      var (d, open', mid) := (c + Count(ts[0]), open && Count(ts[0]) == 0, WireFields(ts[1..], vs[i + 1..]) + rest);
      var (head, next) := (DeMarshalCode(ts[0], Mem(l, i), None, c).0, cur[i := vs[i]]);
      var tail := DeMarshalFields(ts[1..], l, i + 1, d).0;
      DeFieldsCode(ts, l, i, c);
      DeMarshalFieldReads(ts, l, i, c, open, s, p, cur, vs, rest);
      TypedTail(ts, vs, i);
      NextTyped(ts, cur, vs, i);
      DeMarshalFieldsReads(ts[1..], l, i + 1, d, open', Exec(head, s).value, p, next, vs, rest);
      TookElem(head, tail, l, s, p, cur, i, vs[i], Agg(vs), mid, rest, c, open, d, open');
    }
  }

  lemma {:induction false} DeMarshalFieldReads(ts: seq<Type>, l: LVal, i: nat, c: nat, open: bool, s: State, p: Path,
                                               cur: seq<Value>, vs: seq<Value>, rest: seq<Datum>)
    requires ts != [] && Plain(ts[0]) && FieldsCaptureFree(ts, open) && NotIndexedBy(l, p.root)
    requires |cur| == |vs| && TypedFrom(ts, vs, i) && TypedFrom(ts, cur, i)
    requires Holds(l, p, Agg(cur), s.env, c, open) && s.wire == WireFields(ts, vs[i..]) + rest
    ensures var r := Exec(DeMarshalCode(ts[0], Mem(l, i), None, c).0, s);
      && Took(s, r, Path(p.root, p.steps + [i]), vs[i], WireFields(ts[1..], vs[i + 1..]) + rest, c, open)
      && Holds(l, p, Agg(cur[i := vs[i]]), r.value.env, c + Count(ts[0]), open && Count(ts[0]) == 0)
    decreases ts, 0
  {
    var mid := WireFields(ts[1..], vs[i + 1..]) + rest;
    LoadElem(p, s.env, cur, i);
    TypedTail(ts, vs, i);
    TypedTail(ts, cur, i);
    assert vs[i..][0] == vs[i] && vs[i..][1..] == vs[i + 1..];
    assert s.wire == Wire(ts[0], vs[i]) + mid;
    DeMarshalReads(ts[0], Mem(l, i), c, open, s, Path(p.root, p.steps + [i]), cur[i], vs[i], mid);
    var s1 := Exec(DeMarshalCode(ts[0], Mem(l, i), None, c).0, s).value;
    AssignedElem(s.env, s1.env, p, cur, i, vs[i], c, open);
    var (d, open') := (c + Count(ts[0]), open && Count(ts[0]) == 0);
    HoldsAssigned(l, p, Agg(cur), Agg(cur[i := vs[i]]), s.env, s1.env, c, open, d, open');
  }

  lemma {:induction false} DeMarshalPairReads(t: Type, l: LVal, c: nat, open: bool, s: State, p: Path,
                                              cur: seq<Value>, vs: seq<Value>, rest: seq<Datum>)
    requires t.Pair? && Plain(t) && CaptureFree(t, open) && NotIndexedBy(l, p.root)
    requires Typed(t, Agg(cur)) && Typed(t, Agg(vs))
    requires Holds(l, p, Agg(cur), s.env, c, open) && s.wire == Wire(t, Agg(vs)) + rest
    ensures Took(s, Exec(DeMarshalCode(t, l, None, c).0, s), p, Agg(vs), rest, c, open)
    decreases t, 1
  {
    var (d, open', mid) := (c + Count(t.key), open && Count(t.key) == 0, Wire(t.value, vs[1]) + rest);
    var (ca, cb) := (DeMarshalCode(t.key, Mem(l, 0), None, c).0, DeMarshalCode(t.value, Mem(l, 1), None, d).0);
    LoadElem(p, s.env, cur, 0);
    PairParts(t, Agg(vs), rest);
    DeMarshalReads(t.key, Mem(l, 0), c, open, s, Path(p.root, p.steps + [0]), cur[0], vs[0], mid);
    Counters(t.key, Mem(l, 0), c);
    var s1 := Exec(ca, s).value;
    AssignedElem(s.env, s1.env, p, cur, 0, vs[0], c, open);
    HoldsAssigned(l, p, Agg(cur), Agg(cur[0 := vs[0]]), s.env, s1.env, c, open, d, open');
    SecondReads(t, l, d, open', s1, p, cur[0 := vs[0]], vs, rest);
    TookElem(ca, cb, l, s, p, cur, 0, vs[0], Agg(vs), mid, rest, c, open, d, open');
  }

  lemma {:induction false} SecondReads(t: Type, l: LVal, c: nat, open: bool, s: State, p: Path,
                                       cur: seq<Value>, vs: seq<Value>, rest: seq<Datum>)
    requires t.Pair? && Plain(t) && CaptureFree(t.value, open) && NotIndexedBy(l, p.root)
    requires Typed(t, Agg(cur)) && Typed(t, Agg(vs)) && cur[0] == vs[0]
    requires Holds(l, p, Agg(cur), s.env, c, open) && s.wire == Wire(t.value, vs[1]) + rest
    ensures Took(s, Exec(DeMarshalCode(t.value, Mem(l, 1), None, c).0, s), p, Agg(vs), rest, c, open)
    decreases t, 0
  {
    var q := Path(p.root, p.steps + [1]);
    LoadElem(p, s.env, cur, 1);
    DeMarshalReads(t.value, Mem(l, 1), c, open, s, q, cur[1], vs[1], rest);
    AssignedElem(s.env, Exec(DeMarshalCode(t.value, Mem(l, 1), None, c).0, s).value.env, p, cur, 1, vs[1], c, open);
    assert cur[1 := vs[1]] == vs;
  }

  // ---------- loops over a block ----------

  lemma LeftAssigned(outer: Env, start: Env, end: Env, x: Name, locals: set<Name>, q: Path, w: Value,
                     c: nat, open: bool, d: nat, open': bool)
    requires Assigned(start, end, q, w, d, open') && NoLater(c, open, d, open') && !Older(x, c, open)
    requires forall n :: n != x ==> SameAt(outer, start, n)
    requires Older(q.root, c, open) && q.root !in locals
    ensures Assigned(outer, Leave(outer, end, locals), q, w, c, open)
  {
    assert SameAt(outer, start, q.root);
    forall n | Older(n, c, open) && n != q.root ensures SameAt(outer, Leave(outer, end, locals), n) {
      assert SameAt(outer, start, n) && SameAt(start, end, n);
    }
  }

  /** Leaving the body of a loop over a block that has assigned element j. */
  lemma LeftElem(outer: Env, start: Env, end: Env, x: Name, locals: set<Name>, p: Path, es: seq<Value>, j: nat,
                 w: Value, c: nat, open: bool, d: nat, open': bool)
    requires Load(p, outer) == Some(Agg(es)) && j < |es|
    requires Assigned(start, end, Path(p.root, p.steps + [j]), w, d, open')
    requires NoLater(c, open, d, open') && !Older(x, c, open) && Older(p.root, c, open) && p.root !in locals
    requires forall n :: n != x ==> SameAt(outer, start, n)
    ensures Assigned(outer, Leave(outer, end, locals), p, Agg(es[j := w]), c, open)
    ensures Load(p, Leave(outer, end, locals)) == Some(Agg(es[j := w]))
  {
    LeftAssigned(outer, start, end, x, locals, Path(p.root, p.steps + [j]), w, c, open, d, open');
    AssignedElem(outer, Leave(outer, end, locals), p, es, j, w, c, open);
  }

  /** A generated loop reads the elements of a block one after the other; x is its
      variable, new to the code outside (c, open) and known inside (d, open'). */
  lemma {:induction false} DeMarshalEach(u: Type, x: Name, p: Path, j: nat, c: nat, open: bool, d: nat, open': bool,
                                         s: State, cur: seq<Value>, vs: seq<Value>, rest: seq<Datum>)
    requires Plain(u) && CaptureFree(u, open') && j <= |vs| <= |cur| && cur[..j] == vs[..j]
    requires AllTyped(u, vs) && AllTyped(u, cur)
    requires Load(p, s.env) == Some(Agg(cur)) && Older(p.root, c, open)
    requires NoLater(c, open, d, open') && !Older(x, c, open) && Older(x, d, open')
    requires s.wire == WireAll(u, vs[j..]) + rest
    ensures Took(s, EachRef(x, p, j, |vs|, DeMarshalCode(u, Star(x), None, d).0, s),
                 p, Agg(vs + cur[|vs|..]), rest, c, open)
    decreases u, 4 + |vs| - j
  {
    if j == |vs| {
      assert vs + cur[|vs|..] == cur;
      PutSame(s.env[p.root].v, p.steps);
    } else {
      var (body, next) := (DeMarshalCode(u, Star(x), None, d).0, cur[j := vs[j]]);
      DeMarshalOne(u, x, p, j, c, open, d, open', s, cur, vs, rest);
      var s2 := Exec(body, s.(env := s.env[x := Ref(p.root, p.steps + [j])])).value;
      var s3 := s2.(env := Leave(s.env, s2.env, {x} + Locals(body)));
      assert next[..j + 1] == vs[..j + 1] && next[|vs|..] == cur[|vs|..];
      DeMarshalEach(u, x, p, j + 1, c, open, d, open', s3, next, vs, rest);
      var e := EachRef(x, p, j + 1, |vs|, body, s3).value.env;
      AssignedTwice(s.env, s3.env, e, p, Agg(next), Agg(vs + cur[|vs|..]), c, open, c, open);
    }
  }

  lemma {:induction false} DeMarshalOne(u: Type, x: Name, p: Path, j: nat, c: nat, open: bool, d: nat, open': bool,
                                        s: State, cur: seq<Value>, vs: seq<Value>, rest: seq<Datum>)
    requires Plain(u) && CaptureFree(u, open') && j < |vs| <= |cur| && AllTyped(u, vs) && AllTyped(u, cur)
    requires Load(p, s.env) == Some(Agg(cur)) && Older(p.root, c, open)
    requires NoLater(c, open, d, open') && !Older(x, c, open) && Older(x, d, open')
    requires s.wire == WireAll(u, vs[j..]) + rest
    ensures var body := DeMarshalCode(u, Star(x), None, d).0;
      var r := Exec(body, s.(env := s.env[x := Ref(p.root, p.steps + [j])]));
      && r.Some? && r.value.wire == WireAll(u, vs[j + 1..]) + rest && r.value.depth == s.depth
      && Assigned(s.env, Leave(s.env, r.value.env, {x} + Locals(body)), p, Agg(cur[j := vs[j]]), c, open)
      && Load(p, Leave(s.env, r.value.env, {x} + Locals(body))) == Some(Agg(cur[j := vs[j]]))
    decreases u, 3
  {
    var body := DeMarshalCode(u, Star(x), None, d).0;
    var s1 := s.(env := s.env[x := Ref(p.root, p.steps + [j])]);
    LoadElem(p, s1.env, cur, j);
    WireNext(u, vs, j, rest);
    var mid := WireAll(u, vs[j + 1..]) + rest;
    DeMarshalReads(u, Star(x), d, open', s1, Path(p.root, p.steps + [j]), cur[j], vs[j], mid);
    if p.root in Locals(body) { LocalsNewer(u, Star(x), d, open', p.root); }
    LeftElem(s.env, s1.env, Exec(body, s1).value.env, x, {x} + Locals(body), p, cur, j, vs[j], c, open, d, open');
  }

  lemma WireNext(u: Type, vs: seq<Value>, j: nat, rest: seq<Datum>)
    requires j < |vs|
    ensures WireAll(u, vs[j..]) + rest == Wire(u, vs[j]) + (WireAll(u, vs[j + 1..]) + rest)
  {
    assert vs[j..][0] == vs[j] && vs[j..][1..] == vs[j + 1..];
  }

  lemma {:induction false} DeMarshalArrayReads(t: Type, l: LVal, c: nat, open: bool, s: State, p: Path,
                                               cur: seq<Value>, vs: seq<Value>, rest: seq<Datum>)
    requires t.Array? && Plain(t) && CaptureFree(t, open) && NotIndexedBy(l, p.root)
    requires Typed(t, Agg(cur)) && Typed(t, Agg(vs))
    requires Holds(l, p, Agg(cur), s.env, c, open) && s.wire == Wire(t, Agg(vs)) + rest
    ensures Took(s, Exec(DeMarshalCode(t, l, None, c).0, s), p, Agg(vs), rest, c, open)
    decreases t, 1
  {
    if IsStandard(t.base) {
      UnPackBlock(l, Card(t.card), s, p, cur, vs, t.base, rest, c, open);
    } else {
      ArrayLoopReads(t.base, l, Card(t.card), c, open, s, p, cur, vs, rest);
      assert vs + cur[|vs|..] == vs;
    }
  }

  /** The loop over the first elements of an array, as many as vs has. */
  lemma {:induction false} ArrayLoopReads(u: Type, l: LVal, size: Size, c: nat, open: bool, s: State, p: Path,
                                          cur: seq<Value>, vs: seq<Value>, rest: seq<Datum>)
    requires Plain(u) && CaptureFree(u, true) && !open && |vs| <= |cur| && AllTyped(u, vs) && AllTyped(u, cur)
    requires Holds(l, p, Agg(cur), s.env, c, open) && SizeVal(size, s.env) == Some(|vs|)
    requires s.wire == WireAll(u, vs) + rest
    ensures
      var loop := ForPtr(PopElem(c), l, size, DeMarshalCode(u, Star(PopElem(c)), None, c).0);
      Took(s, Exec([Push(size), loop, Pop], s), p, Agg(vs + cur[|vs|..]), rest, c, open)
    decreases u, 5 + |vs|
  {
    var (x, s1) := (PopElem(c), s.(depth := s.depth + 1));
    var body := DeMarshalCode(u, Star(x), None, c).0;
    PtrStep(l, size, body, c, s1, p, Agg(cur), |vs|);
    assert vs[0..] == vs;
    DeMarshalEach(u, x, p, 0, c, open, c, true, s1, cur, vs, rest);
    Looped(size, ForPtr(x, l, size, body), s);
  }

  // ---------- containers ----------

  /** Adding a local and reading it in touches nothing older. */
  lemma SizeRead(n: nat, c: nat, open: bool, s: State, tail: seq<Datum>)
    requires s.wire == [Num(n)] + tail && ElemSize(c) in s.env && s.env[ElemSize(c)] == Obj(Atom(Num(0)))
    ensures var r := Exec(StdIn(Var(ElemSize(c)), One), s);
      r == Some(s.(wire := tail, env := s.env[ElemSize(c) := Obj(Atom(Num(n)))]))
  {
    UnPackScalar(Var(ElemSize(c)), One, s, Path(ElemSize(c), []), Atom(Num(0)), Num(n), tail, c, open);
  }

  lemma {:induction false} ResizedTyped(es: seq<Value>, n: nat, u: Type)
    requires Plain(u) && forall k :: 0 <= k < |es| ==> Typed(u, es[k])
    ensures |Resized(es, n, u)| == n && forall k :: 0 <= k < n ==> Typed(u, Resized(es, n, u)[k])
  {
    DefaultTyped(u);
  }

  /** The front of a vector, list or deque: read the length, make room. */
  lemma ListResized(l: LVal, u: Type, c: nat, open: bool, s: State, p: Path, cur: seq<Value>, n: nat, tail: seq<Datum>)
    requires Holds(l, p, Agg(cur), s.env, c, open) && NotIndexedBy(l, p.root) && s.wire == [Num(n)] + tail
    ensures var r := Exec(ListHead(u, l, c), s);
      && Took(s, r, p, Agg(Resized(cur, n, u)), tail, c, open)
      && SizeVal(Of(ElemSize(c)), r.value.env) == Some(n)
  {
    var sz := ElemSize(c);
    var s1 := s.(env := s.env[sz := Obj(Atom(Num(0)))]);
    var s2 := s1.(wire := tail, env := s.env[sz := Obj(Atom(Num(n)))]);
    ExecOne(DeclInt(sz), s);
    SizeRead(n, c, open, s1, tail);
    assert s1.env[sz := Obj(Atom(Num(n)))] == s2.env;
    ExecConcat([DeclInt(sz)], StdIn(Var(sz), One), s);
    StillHolds(l, p, Agg(cur), s.env, s2.env, c, open, c, open);
    ExecOne(Resize(l, Of(sz), u), s2);
    ExecConcat([DeclInt(sz)] + StdIn(Var(sz), One), [Resize(l, Of(sz), u)], s);
  }

  /** After the first assignment to an object, a second one. */
  lemma TookTwice(a: Code, b: Code, s: State, p: Path, v: Value, w: Value, mid: seq<Datum>, rest: seq<Datum>, c: nat,
                  open: bool)
    requires Load(p, s.env).Some?
    requires Took(s, Exec(a, s), p, v, mid, c, open)
    requires Took(Exec(a, s).value, Exec(b, Exec(a, s).value), p, w, rest, c, open)
    ensures Took(s, Exec(a + b, s), p, w, rest, c, open)
  {
    ExecConcat(a, b, s);
    var s1 := Exec(a, s).value;
    AssignedTwice(s.env, s1.env, Exec(b, s1).value.env, p, v, w, c, open, c, open);
  }

  lemma {:induction false} DeMarshalListReads(t: Type, l: LVal, c: nat, open: bool, s: State, p: Path,
                                              cur: seq<Value>, vs: seq<Value>, rest: seq<Datum>)
    requires t.Container? && !t.kind.Map? && Plain(t) && CaptureFree(t, open) && NotIndexedBy(l, p.root)
    requires Typed(t, Agg(cur)) && Typed(t, Agg(vs))
    requires Holds(l, p, Agg(cur), s.env, c, open) && s.wire == Wire(t, Agg(vs)) + rest
    ensures Took(s, Exec(DeMarshalCode(t, l, None, c).0, s), p, Agg(vs), rest, c, open)
    decreases t, 1
  {
    var (u, sz, mid) := (t.elem, ElemSize(c), WireAll(t.elem, vs) + rest);
    var room := Resized(cur, |vs|, u);
    var head := ListHead(u, l, c);
    assert s.wire == [Num(|vs|)] + mid;
    ListResized(l, u, c, open, s, p, cur, |vs|, mid);
    ResizedTyped(cur, |vs|, u);
    var s1 := Exec(head, s).value;
    HoldsAssigned(l, p, Agg(cur), Agg(room), s.env, s1.env, c, open, c, open);
    if BlockVector(t.kind, u) {
      UnPackBlock(l, Of(sz), s1, p, room, vs, u, rest, c, open);
      TookTwice(head, StdIn(First(l), Of(sz)), s, p, Agg(room), Agg(vs), mid, rest, c, open);
    } else {
      var loop := ForIter(Elem(c), l, DeMarshalCode(u, Star(Elem(c)), None, c + 1).0);
      IterLoopReads(u, l, c, open, s1, p, room, vs, rest);
      TookTwice(head, [Push(Of(sz)), loop, Pop], s, p, Agg(room), Agg(vs), mid, rest, c, open);
    }
  }

  /** The loop over all elements of a container that has room for just these. */
  lemma {:induction false} IterLoopReads(u: Type, l: LVal, c: nat, open: bool, s: State, p: Path,
                                         cur: seq<Value>, vs: seq<Value>, rest: seq<Datum>)
    requires Plain(u) && CaptureFree(u, false) && |vs| == |cur| && AllTyped(u, vs) && AllTyped(u, cur)
    requires Load(p, s.env) == Some(Agg(cur)) && Older(p.root, c, open)
    requires Resolve(l, s.env) == Some(p) && SizeVal(Of(ElemSize(c)), s.env) == Some(|vs|)
    requires s.wire == WireAll(u, vs) + rest
    ensures
      var loop := ForIter(Elem(c), l, DeMarshalCode(u, Star(Elem(c)), None, c + 1).0);
      Took(s, Exec([Push(Of(ElemSize(c))), loop, Pop], s), p, Agg(vs), rest, c, open)
    decreases u, 5 + |vs|
  {
    assert vs[0..] == vs && vs + cur[|vs|..] == vs;
    var (s1, body) := (s.(depth := s.depth + 1), DeMarshalCode(u, Star(Elem(c)), None, c + 1).0);
    IterStep(Elem(c), l, body, s1, p, |cur|);
    DeMarshalEach(u, Elem(c), p, 0, c, open, c + 1, false, s1, cur, vs, rest);
    Looped(Of(ElemSize(c)), ForIter(Elem(c), l, body), s);
  }

  // ---------- maps ----------

  /** Entries arriving in key order are appended. */
  lemma {:induction false} InsertLast(es: seq<Value>, k: Value, v: Value)
    requires forall i :: 0 <= i < |es| ==> Before(KeyOf(es[i]), k)
    ensures MapInsert(es, k, v) == es + [Agg([k, v])]
    decreases |es|
  {
    if es != [] {
      InsertLast(es[1..], k, v);
      assert es == [es[0]] + es[1..];
    }
  }

  /** The two variables a map entry is read into. */
  ghost predicate EntryVars(t: Type, env: Env, c: nat)
    requires t.Pair?
  {
    && ElemKey(c) in env && env[ElemKey(c)].Obj? && Typed(t.key, env[ElemKey(c)].v)
    && ElemValue(c) in env && env[ElemValue(c)].Obj? && Typed(t.value, env[ElemValue(c)].v)
  }

  function EntryCode(t: Type, c: nat): Code
    requires t.Pair?
  {
    DeMarshalCode(t.key, Var(ElemKey(c)), None, c + 1).0
    + DeMarshalCode(t.value, Var(ElemValue(c)), None, c + 1 + Count(t.key)).0
  }

  function InsertEntry(t: Type, l: LVal, c: nat): Code
    requires t.Pair?
  {
    EntryCode(t, c) + [Insert(l, ElemKey(c), ElemValue(c))]
  }

  function MapTail(t: Type, l: LVal, c: nat): Code
    requires t.Pair?
  {
    [Push(Of(ElemSize(c))), Clear(l), ForIdx(LoopI, Of(ElemSize(c)), InsertEntry(t, l, c)), Pop]
  }

  lemma MapCode(t: Type, l: LVal, c: nat)
    requires t.Container? && t.kind.Map? && Shaped(t)
    ensures DeMarshalCode(t, l, None, c).0 == MapHead(t.elem, c) + MapTail(t.elem, l, c)
  {
    CountersOf(t.elem.key, Var(ElemKey(c)), c + 1);
  }

  /** Reading one entry fills the two variables and nothing older. */
  lemma {:induction false} EntryRead(t: Type, c: nat, s: State, k: Value, v: Value, rest: seq<Datum>)
    requires t.Pair? && Plain(t) && CaptureFree(t, false) && EntryVars(t, s.env, c)
    requires Typed(t.key, k) && Typed(t.value, v) && s.wire == Wire(t.key, k) + (Wire(t.value, v) + rest)
    ensures var r := Exec(EntryCode(t, c), s);
      && r.Some? && r.value.wire == rest && r.value.depth == s.depth
      && (forall n :: Older(n, c + 1, false) && n != ElemKey(c) && n != ElemValue(c) ==> SameAt(s.env, r.value.env, n))
      && ElemKey(c) in r.value.env && r.value.env[ElemKey(c)] == Obj(k)
      && ElemValue(c) in r.value.env && r.value.env[ElemValue(c)] == Obj(v)
    decreases t, 0
  {
    var (lk, lv, d) := (Var(ElemKey(c)), Var(ElemValue(c)), c + 1 + Count(t.key));
    var (kc, vc) := (DeMarshalCode(t.key, lk, None, c + 1).0, DeMarshalCode(t.value, lv, None, d).0);
    DeMarshalReads(t.key, lk, c + 1, false, s, Path(ElemKey(c), []), s.env[ElemKey(c)].v, k, Wire(t.value, v) + rest);
    var s1 := Exec(kc, s).value;
    assert SameAt(s.env, s1.env, ElemValue(c));
    DeMarshalReads(t.value, lv, d, false, s1, Path(ElemValue(c), []), s.env[ElemValue(c)].v, v, rest);
    ExecConcat(kc, vc, s);
    var s2 := Exec(vc, s1).value;
    forall n | Older(n, c + 1, false) && n != ElemKey(c) && n != ElemValue(c) ensures SameAt(s.env, s2.env, n) {
      assert SameAt(s.env, s1.env, n) && SameAt(s1.env, s2.env, n);
    }
    assert SameAt(s1.env, s2.env, ElemKey(c));
  }

  lemma EntryLocals(t: Type, l: LVal, c: nat, n: Name)
    requires t.Pair? && Shaped(t) && n in Locals(InsertEntry(t, l, c))
    ensures !Older(n, c + 1, false)
  {
    var d := c + 1 + Count(t.key);
    var kc := DeMarshalCode(t.key, Var(ElemKey(c)), None, c + 1).0;
    var vc := DeMarshalCode(t.value, Var(ElemValue(c)), None, d).0;
    LocalsConcat(EntryCode(t, c), [Insert(l, ElemKey(c), ElemValue(c))]);
    LocalsConcat(kc, vc);
    if n in Locals(kc) { LocalsNewerOf(t.key, Var(ElemKey(c)), c + 1, false, n); }
    if n in Locals(vc) { LocalsNewerOf(t.value, Var(ElemValue(c)), d, false, n); }
  }

  /** One iteration of the map loop: the next entry goes to the end. */
  lemma {:induction false} EntryStep(t: Type, l: LVal, p: Path, j: nat, c: nat, open: bool, s: State,
                                     vs: seq<Value>, rest: seq<Datum>)
    requires t.Pair? && Plain(t) && CaptureFree(t, false) && NotIndexedBy(l, p.root) && j < |vs|
    requires AllTyped(t, vs) && Ascending(vs)
    requires Holds(l, p, Agg(vs[..j]), s.env, c, open) && EntryVars(t, s.env, c)
    requires s.wire == Wire(t, vs[j]) + rest
    ensures var body := InsertEntry(t, l, c);
      var r := Exec(body, s.(env := s.env[LoopI := Obj(Atom(Num(j)))]));
      && r.Some? && r.value.wire == rest && r.value.depth == s.depth
      && Assigned(s.env, Leave(s.env, r.value.env, {LoopI} + Locals(body)), p, Agg(vs[..j + 1]), c, open)
      && EntryVars(t, Leave(s.env, r.value.env, {LoopI} + Locals(body)), c)
    decreases t, 1
  {
    var s1 := s.(env := s.env[LoopI := Obj(Atom(Num(j)))]);
    PairParts(t, vs[j], rest);
    EntryRead(t, c, s1, vs[j].elems[0], vs[j].elems[1], rest);
    var s2 := Exec(EntryCode(t, c), s1).value;
    EntryKept(s.env, s1.env, s2.env, c, open);
    EntryPlaced(t, l, p, j, c, open, s, s2, vs);
    InsertRun(t, l, c, s1);
  }

  lemma PairParts(t: Type, e: Value, rest: seq<Datum>)
    requires t.Pair? && Typed(t, e)
    ensures Typed(t.key, e.elems[0]) && Typed(t.value, e.elems[1])
    ensures Wire(t, e) + rest == Wire(t.key, e.elems[0]) + (Wire(t.value, e.elems[1]) + rest)
  {
  }

  lemma InsertRun(t: Type, l: LVal, c: nat, s: State)
    requires t.Pair?
    ensures
      var r := Exec(EntryCode(t, c), s);
      Exec(InsertEntry(t, l, c), s) == if r.None? then None else Step(Insert(l, ElemKey(c), ElemValue(c)), r.value)
  {
    ExecLast(EntryCode(t, c), Insert(l, ElemKey(c), ElemValue(c)), s);
  }

  lemma EntryPlaced(t: Type, l: LVal, p: Path, j: nat, c: nat, open: bool, s: State, s2: State, vs: seq<Value>)
    requires t.Pair? && Plain(t) && j < |vs| && Typed(t, vs[j]) && Ascending(vs)
    requires Holds(l, p, Agg(vs[..j]), s.env, c, open) && Kept(s.env, s2.env, c, open)
    requires ElemKey(c) in s2.env && s2.env[ElemKey(c)] == Obj(vs[j].elems[0])
    requires ElemValue(c) in s2.env && s2.env[ElemValue(c)] == Obj(vs[j].elems[1])
    ensures
      var r := Step(Insert(l, ElemKey(c), ElemValue(c)), s2);
      var locals := {LoopI} + Locals(InsertEntry(t, l, c));
      && r.Some? && r.value.wire == s2.wire && r.value.depth == s2.depth
      && Assigned(s.env, Leave(s.env, r.value.env, locals), p, Agg(vs[..j + 1]), c, open)
      && EntryVars(t, Leave(s.env, r.value.env, locals), c)
  {
    EntryInserted(t, l, p, j, c, open, s, s2, vs);
    PlainIs(t);
    EntryLeft(t, l, p, c, open, s.env, s2.env, vs[j].elems[0], vs[j].elems[1], Agg(vs[..j + 1]));
  }

  lemma EntryKept(a: Env, b: Env, e: Env, c: nat, open: bool)
    requires forall n :: n != LoopI ==> SameAt(a, b, n)
    requires forall n :: Older(n, c + 1, false) && n != ElemKey(c) && n != ElemValue(c) ==> SameAt(b, e, n)
    ensures Kept(a, e, c, open)
  {
    forall n | Older(n, c, open) ensures SameAt(a, e, n) { assert SameAt(a, b, n) && SameAt(b, e, n); }
  }

  lemma EntryInserted(t: Type, l: LVal, p: Path, j: nat, c: nat, open: bool, s: State, s2: State, vs: seq<Value>)
    requires t.Pair? && j < |vs| && Typed(t, vs[j]) && Ascending(vs)
    requires Holds(l, p, Agg(vs[..j]), s.env, c, open) && Kept(s.env, s2.env, c, open)
    requires ElemKey(c) in s2.env && s2.env[ElemKey(c)] == Obj(vs[j].elems[0])
    requires ElemValue(c) in s2.env && s2.env[ElemValue(c)] == Obj(vs[j].elems[1])
    ensures p.root in s2.env && s2.env[p.root].Obj?
    ensures Step(Insert(l, ElemKey(c), ElemValue(c)), s2) == Some(s2.(env := Store(p, s2.env, Agg(vs[..j + 1]))))
  {
    StillHolds(l, p, Agg(vs[..j]), s.env, s2.env, c, open, c, open);
    NextInserted(t, vs, j);
  }

  lemma NextInserted(t: Type, vs: seq<Value>, j: nat)
    requires t.Pair? && j < |vs| && Typed(t, vs[j]) && Ascending(vs)
    ensures MapInsert(vs[..j], vs[j].elems[0], vs[j].elems[1]) == vs[..j + 1]
  {
    var (k, v) := (vs[j].elems[0], vs[j].elems[1]);
    assert vs[j] == Agg([k, v]) by { assert vs[j].elems == [k, v]; }
    forall i | 0 <= i < j ensures Before(KeyOf(vs[..j][i]), k) { assert Before(KeyOf(vs[i]), KeyOf(vs[j])); }
    InsertLast(vs[..j], k, v);
    assert vs[..j] + [vs[j]] == vs[..j + 1];
  }

  lemma EntryLeft(t: Type, l: LVal, p: Path, c: nat, open: bool, a: Env, b: Env, k: Value, v: Value, w: Value)
    requires t.Pair? && Shaped(t)
    requires Kept(a, b, c, open) && Load(p, a).Some? && Older(p.root, c, open)
    requires ElemKey(c) in b && b[ElemKey(c)] == Obj(k) && ElemValue(c) in b && b[ElemValue(c)] == Obj(v)
    requires p.root in b && b[p.root].Obj?
    ensures var locals := {LoopI} + Locals(InsertEntry(t, l, c));
      var e := Leave(a, Store(p, b, w), locals);
      && Assigned(a, e, p, w, c, open)
      && ElemKey(c) in e && e[ElemKey(c)] == Obj(k) && ElemValue(c) in e && e[ElemValue(c)] == Obj(v)
  {
    var locals := {LoopI} + Locals(InsertEntry(t, l, c));
    forall n | n in locals ensures !Older(n, c + 1, false) {
      if n != LoopI { EntryLocals(t, l, c, n); }
    }
    assert SameAt(a, b, p.root);
    var e := Leave(a, Store(p, b, w), locals);
    forall n | Older(n, c, open) && n != p.root ensures SameAt(a, e, n) { assert SameAt(a, b, n); }
  }

  lemma {:induction false} EntriesRead(t: Type, l: LVal, p: Path, j: nat, c: nat, open: bool, s: State,
                                       vs: seq<Value>, rest: seq<Datum>)
    requires t.Pair? && Plain(t) && CaptureFree(t, false) && NotIndexedBy(l, p.root) && j <= |vs|
    requires AllTyped(t, vs) && Ascending(vs)
    requires Holds(l, p, Agg(vs[..j]), s.env, c, open) && EntryVars(t, s.env, c)
    requires s.wire == WireAll(t, vs[j..]) + rest
    ensures var body := InsertEntry(t, l, c);
      Took(s, EachIdx(LoopI, j, |vs|, body, s), p, Agg(vs), rest, c, open)
    decreases t, 4 + |vs| - j
  {
    if j == |vs| {
      assert vs[..j] == vs;
      PutSame(s.env[p.root].v, p.steps);
    } else {
      var body := InsertEntry(t, l, c);
      assert vs[j..][0] == vs[j] && vs[j..][1..] == vs[j + 1..];
      var mid := WireAll(t, vs[j + 1..]) + rest;
      assert s.wire == Wire(t, vs[j]) + mid;
      EntryStep(t, l, p, j, c, open, s, vs, mid);
      var s2 := Exec(body, s.(env := s.env[LoopI := Obj(Atom(Num(j)))])).value;
      var s3 := s2.(env := Leave(s.env, s2.env, {LoopI} + Locals(body)));
      HoldsAssigned(l, p, Agg(vs[..j]), Agg(vs[..j + 1]), s.env, s3.env, c, open, c, open);
      EntriesRead(t, l, p, j + 1, c, open, s3, vs, rest);
      AssignedTwice(s.env, s3.env, EachIdx(LoopI, j + 1, |vs|, body, s3).value.env, p, Agg(vs[..j + 1]), Agg(vs),
                    c, open, c, open);
    }
  }

  lemma {:induction false} DeMarshalMapReads(t: Type, l: LVal, c: nat, open: bool, s: State, p: Path,
                                             cur: seq<Value>, vs: seq<Value>, rest: seq<Datum>)
    requires t.Container? && t.kind.Map? && Plain(t) && CaptureFree(t, open) && NotIndexedBy(l, p.root)
    requires Typed(t, Agg(vs))
    requires Holds(l, p, Agg(cur), s.env, c, open) && s.wire == Wire(t, Agg(vs)) + rest
    ensures Took(s, Exec(DeMarshalCode(t, l, None, c).0, s), p, Agg(vs), rest, c, open)
    decreases t, 1
  {
    assert s.wire == [Num(|vs|)] + (WireAll(t.elem, vs) + rest);
    MapRead(t.elem, l, c, open, s, p, cur, vs, rest);
    PlainIs(t);
    MapCode(t, l, c);
  }

  lemma {:induction false} MapRead(u: Type, l: LVal, c: nat, open: bool, s: State, p: Path,
                                   cur: seq<Value>, vs: seq<Value>, rest: seq<Datum>)
    requires u.Pair? && Plain(u) && CaptureFree(u, false) && NotIndexedBy(l, p.root)
    requires AllTyped(u, vs) && Ascending(vs)
    requires Holds(l, p, Agg(cur), s.env, c, open) && s.wire == [Num(|vs|)] + (WireAll(u, vs) + rest)
    ensures Took(s, Exec(MapHead(u, c) + MapTail(u, l, c), s), p, Agg(vs), rest, c, open)
    decreases u, 7 + |vs|
  {
    MapStart(l, u, c, open, s, p, cur, |vs|, WireAll(u, vs) + rest);
    var s1 := Exec(MapHead(u, c), s).value;
    MapBody(u, l, c, open, s1, p, cur, vs, rest);
    ExecConcat(MapHead(u, c), MapTail(u, l, c), s);
    AfterKept(s.env, s1.env, Exec(MapTail(u, l, c), s1).value.env, p, Agg(vs), c, open);
  }

  lemma AfterKept(a: Env, b: Env, e: Env, p: Path, v: Value, c: nat, open: bool)
    requires Kept(a, b, c, open) && Assigned(b, e, p, v, c, open) && Older(p.root, c, open)
    ensures Assigned(a, e, p, v, c, open)
  {
    assert SameAt(a, b, p.root);
    forall n | Older(n, c, open) && n != p.root ensures SameAt(a, e, n) {
      assert SameAt(a, b, n) && SameAt(b, e, n);
    }
  }

  /** The front of a map's code: its three locals, and the length read in. */
  lemma MapStart(l: LVal, u: Type, c: nat, open: bool, s: State, p: Path, cur: seq<Value>, n: nat, tail: seq<Datum>)
    requires u.Pair? && Plain(u) && Holds(l, p, Agg(cur), s.env, c, open) && s.wire == [Num(n)] + tail
    ensures var r := Exec(MapHead(u, c), s);
      && r.Some? && r.value.wire == tail && r.value.depth == s.depth && Kept(s.env, r.value.env, c, open)
      && Holds(l, p, Agg(cur), r.value.env, c, open)
      && SizeVal(Of(ElemSize(c)), r.value.env) == Some(n)
      && ElemKey(c) in r.value.env && r.value.env[ElemKey(c)] == Obj(Default(u.key))
      && ElemValue(c) in r.value.env && r.value.env[ElemValue(c)] == Obj(Default(u.value))
  {
    var (sz, decls) := (ElemSize(c), MapDecls(u, c));
    MapDeclared(u, c, s);
    var s1 := Exec(decls, s).value;
    SizeRead(n, c, open, s1, tail);
    ExecConcat(decls, StdIn(Var(sz), One), s);
    var s2 := s1.(wire := tail, env := s1.env[sz := Obj(Atom(Num(n)))]);
    StillHolds(l, p, Agg(cur), s.env, s2.env, c, open, c, open);
  }

  function MapDecls(u: Type, c: nat): Code
    requires u.Pair?
  {
    [DeclInt(ElemSize(c))] + [DeclObj(ElemKey(c), u.key)] + [DeclObj(ElemValue(c), u.value)]
  }

  lemma MapDeclared(u: Type, c: nat, s: State)
    requires u.Pair?
    ensures
      var sized := s.env[ElemSize(c) := Obj(Atom(Num(0)))];
      var vars := sized[ElemKey(c) := Obj(Default(u.key))][ElemValue(c) := Obj(Default(u.value))];
      Exec(MapDecls(u, c), s) == Some(s.(env := vars))
  {
    var (a, b, d) := (DeclInt(ElemSize(c)), DeclObj(ElemKey(c), u.key), DeclObj(ElemValue(c), u.value));
    var s1 := Step(a, s).value;
    var s2 := Step(b, s1).value;
    ExecOne(a, s);
    ExecOne(b, s1);
    ExecOne(d, s2);
    ExecConcat([a], [b], s);
    ExecConcat([a] + [b], [d], s);
  }

  lemma Cleared(l: LVal, c: nat, open: bool, s: State, p: Path, cur: seq<Value>)
    requires NotIndexedBy(l, p.root) && Holds(l, p, Agg(cur), s.env, c, open)
    ensures
      var t := s.(env := Store(p, s.env, Agg([])));
      Exec([Clear(l)], s) == Some(t) && Assigned(s.env, t.env, p, Agg([]), c, open)
      && Holds(l, p, Agg([]), t.env, c, open)
  {
    var t := s.(env := Store(p, s.env, Agg([])));
    ExecOne(Clear(l), s);
    assert Assigned(s.env, t.env, p, Agg([]), c, open);
    HoldsAssigned(l, p, Agg(cur), Agg([]), s.env, t.env, c, open, c, open);
  }

  ghost predicate MapReady(u: Type, l: LVal, c: nat, open: bool, s: State, p: Path, cur: seq<Value>, n: nat)
    requires u.Pair?
  {
    && Holds(l, p, Agg(cur), s.env, c, open) && SizeVal(Of(ElemSize(c)), s.env) == Some(n)
    && ElemKey(c) in s.env && s.env[ElemKey(c)] == Obj(Default(u.key))
    && ElemValue(c) in s.env && s.env[ElemValue(c)] == Obj(Default(u.value))
  }

  lemma {:induction false} MapBody(u: Type, l: LVal, c: nat, open: bool, s: State, p: Path,
                                   cur: seq<Value>, vs: seq<Value>, rest: seq<Datum>)
    requires u.Pair? && Plain(u) && CaptureFree(u, false) && NotIndexedBy(l, p.root)
    requires AllTyped(u, vs) && Ascending(vs)
    requires MapReady(u, l, c, open, s, p, cur, |vs|) && s.wire == WireAll(u, vs) + rest
    ensures Took(s, Exec(MapTail(u, l, c), s), p, Agg(vs), rest, c, open)
    decreases u, 6 + |vs|
  {
    var (sz, loop) := (Of(ElemSize(c)), ForIdx(LoopI, Of(ElemSize(c)), InsertEntry(u, l, c)));
    MapFilled(u, l, c, open, s.(depth := s.depth + 1), p, cur, vs, rest);
    Bracket(sz, [Clear(l)] + [loop], s);
    assert MapTail(u, l, c) == [Push(sz)] + ([Clear(l)] + [loop]) + [Pop];
  }

  lemma {:induction false} MapFilled(u: Type, l: LVal, c: nat, open: bool, s: State, p: Path,
                                     cur: seq<Value>, vs: seq<Value>, rest: seq<Datum>)
    requires u.Pair? && Plain(u) && CaptureFree(u, false) && NotIndexedBy(l, p.root)
    requires AllTyped(u, vs) && Ascending(vs)
    requires MapReady(u, l, c, open, s, p, cur, |vs|) && s.wire == WireAll(u, vs) + rest
    ensures var loop := ForIdx(LoopI, Of(ElemSize(c)), InsertEntry(u, l, c));
      Took(s, Exec([Clear(l)] + [loop], s), p, Agg(vs), rest, c, open)
    decreases u, 5 + |vs|
  {
    var s1 := s.(env := Store(p, s.env, Agg([])));
    var loop := ForIdx(LoopI, Of(ElemSize(c)), InsertEntry(u, l, c));
    Cleared(l, c, open, s, p, cur);
    assert vs[..0] == [] && vs[0..] == vs;
    DefaultTyped(u.key);
    DefaultTyped(u.value);
    EntriesRead(u, l, p, 0, c, open, s1, vs, rest);
    IdxStep(LoopI, Of(ElemSize(c)), InsertEntry(u, l, c), s1, |vs|);
    ExecOne(loop, s1);
    TookTwice([Clear(l)], [loop], s, p, Agg([]), Agg(vs), s.wire, rest, c, open);
  }
}
