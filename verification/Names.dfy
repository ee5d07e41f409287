/** The names the emitted code binds, at whatever depth: no two bindings share a name exactly
    where no array loop directly encloses the number of another. */
module Names {
  import opened Types
  import opened Emit
  import opened Sequences
  import opened Codec

  /** The names an instruction binds: declared ones, and loop variables with what their bodies
      bind. The index `i` of map loops is the one name that carries no number. A loop over an
      array also declares a counter `_paroc_count<k>`, beside its pointer `_pop_elem<k>` and with
      the same number: the two stand or fall together, and only the pointer is listed. */
  function BoundBy(i: Instr): seq<Name>
    decreases i, 0
  {
    match i
    case DeclSize(n, _) => [n]
    case DeclInt(n) => [n]
    case DeclObj(n, _) => [n]
    case DeclExpr(n, _) => [n]
    case ForIter(n, _, body) => [n] + Bound(body)
    case ForPtr(n, _, _, body) => [n] + Bound(body)
    case ForIdx(n, _, body) => (if n == LoopI then [] else [n]) + Bound(body)
    case _ => []
  }

  function Bound(code: Code): seq<Name>
    decreases code, 0
  {
    if code == [] then [] else BoundBy(code[0]) + Bound(code[1..])
  }

  lemma {:induction false} BoundJoin(a: Code, b: Code)
    ensures Bound(a + b) == Bound(a) + Bound(b)
    decreases |a|
  {
    if a == [] {
      assert a + b == b;
    } else {
      assert (a + b)[0] == a[0] && (a + b)[1..] == a[1..] + b;
      BoundJoin(a[1..], b);
    }
  }

  lemma BoundOne(i: Instr)
    ensures Bound([i]) == BoundBy(i)
  {
    assert [i][1..] == [];
  }

  lemma BoundThree(a: Instr, b: Instr, c: Instr)
    ensures Bound([a, b, c]) == BoundBy(a) + BoundBy(b) + BoundBy(c)
  {
    BoundOne(c);
    assert [a, b, c][1..] == [b, c] && [b, c][1..] == [c];
  }

  // ---------------------------------------------------------------- numbers

  /** The number a generated name carries. */
  function Number(n: Name): int {
    match n
    case Elem(k) => k
    case ItElem(k) => k
    case ElemSize(k) => k
    case ElemKey(k) => k
    case ElemValue(k) => k
    case PopElem(k) => k
    case _ => -1
  }

  /** All names carry numbers from c up to d. */
  ghost predicate Between(names: seq<Name>, c: nat, d: nat) {
    forall n <- names :: c <= Number(n) < d
  }

  lemma BetweenJoin(p: seq<Name>, q: seq<Name>, c: nat, m: nat, d: nat)
    requires Between(p, c, m) && Between(q, m, d) && c <= m <= d
    ensures Between(p + q, c, d)
    ensures Distinct(p + q) <==> Distinct(p) && Distinct(q)
  {
    DistinctJoin(p, q);
  }

  // ---------------------------------------------------------------- writing code

  /** What the code for t binds: numbers from c on, each in one place. */
  ghost predicate Fresh(names: seq<Name>, c: nat, count: nat, open: bool, free: bool) {
    && Between(names, c, c + count)
    && (free <==> Distinct(names) && (open ==> PopElem(c) !in names))
  }

  lemma {:induction false} MarshalNames(t: Type, l: LVal, c: nat, open: bool)
    requires Shaped(t)
    ensures Fresh(Bound(MarshalCode(t, l, None, c).0), c, Count(t), open, CaptureFree(t, open))
    decreases t, 2
  {
    match t
    case Void =>
    case Std(_) => BlockNames(l, One);
    case ParClass(_) => BlockNames(l, One);
    case Alias(u) => MarshalNames(u, l, c, open);
    case Ptr(_, u) => MarshalNames(u, First(l), c, open);
    case Struct(ts) =>
      MarshalFieldNames(ts, l, 0, c, open);
      BoundBracket(One, MarshalFields(ts, l, 0, c).0);
    case Array(_, _) => MarshalArrayNames(t, l, c, open);
    case Container(_, _) => MarshalContainerNames(t, l, c, open);
    case Pair(_, _) => MarshalPairNames(t, l, c, open);
  }

  lemma {:induction false} MarshalPairNames(t: Type, l: LVal, c: nat, open: bool)
    requires t.Pair? && Shaped(t)
    ensures Fresh(Bound(MarshalCode(t, l, None, c).0), c, Count(t), open, CaptureFree(t, open))
    decreases t, 1
  {
    var (a, b) := (t.key, t.value);
    var (d, open') := (c + Count(a), open && Count(a) == 0);
    MarshalNames(a, Mem(l, 0), c, open);
    CountersOf(a, Mem(l, 0), c);
    MarshalNames(b, Mem(l, 1), d, open');
    BothNames(MarshalCode(a, Mem(l, 0), None, c).0, MarshalCode(b, Mem(l, 1), None, d).0,
              c, Count(a), Count(b), open, CaptureFree(a, open), CaptureFree(b, open'));
  }

  lemma BoundBracket(sz: Size, code: Code)
    ensures Bound([Push(sz)] + code + [Pop]) == Bound(code)
  {
    BoundOne(Push(sz));
    BoundOne(Pop);
    BoundJoin([Push(sz)] + code, [Pop]);
    BoundJoin([Push(sz)], code);
  }

  /** One piece of code after the other. */
  lemma Sides(p: seq<Name>, q: seq<Name>, c: nat, m: nat, k: nat, open: bool, free: bool, free': bool)
    requires Fresh(p, c, m, open, free) && Fresh(q, c + m, k, open && m == 0, free')
    ensures Fresh(p + q, c, m + k, open, free && free')
  {
    BetweenJoin(p, q, c, c + m, c + m + k);
    if m > 0 {
      assert PopElem(c) !in q;
    } else {
      assert PopElem(c) !in p;
    }
  }

  lemma BothNames(a: Code, b: Code, c: nat, m: nat, k: nat, open: bool, free: bool, free': bool)
    requires Fresh(Bound(a), c, m, open, free) && Fresh(Bound(b), c + m, k, open && m == 0, free')
    ensures Fresh(Bound(a + b), c, m + k, open, free && free')
  {
    Sides(Bound(a), Bound(b), c, m, k, open, free, free');
    BoundJoin(a, b);
  }

  lemma {:induction false} MarshalFieldNames(ts: seq<Type>, l: LVal, i: nat, c: nat, open: bool)
    requires forall k :: 0 <= k < |ts| ==> Shaped(ts[k])
    ensures Fresh(Bound(MarshalFields(ts, l, i, c).0), c, CountFields(ts), open, FieldsCaptureFree(ts, open))
    decreases ts, 1
  {
    if ts != [] {
      var (d, open') := (c + Count(ts[0]), open && Count(ts[0]) == 0);
      MarshalNames(ts[0], Mem(l, i), c, open);
      CountersOf(ts[0], Mem(l, i), c);
      MarshalFieldNames(ts[1..], l, i + 1, d, open');
      BothNames(MarshalCode(ts[0], Mem(l, i), None, c).0, MarshalFields(ts[1..], l, i + 1, d).0, c, Count(ts[0]),
                CountFields(ts[1..]), open, CaptureFree(ts[0], open), FieldsCaptureFree(ts[1..], open'));
    }
  }

  /** A loop over an array binds its pointer under the number its body goes on with. */
  lemma LoopNames(l: LVal, size: Size, body: Code, c: nat, count: nat, open: bool, free: bool)
    requires Fresh(Bound(body), c, count, true, free)
    ensures Fresh(Bound([Push(size), ForPtr(PopElem(c), l, size, body), Pop]), c, count + 1, open, !open && free)
  {
    BoundThree(Push(size), ForPtr(PopElem(c), l, size, body), Pop);
    assert [] + ([PopElem(c)] + Bound(body)) + [] == [PopElem(c)] + Bound(body);
    DistinctJoin([PopElem(c)], Bound(body));
    assert PopElem(c) in [PopElem(c)] + Bound(body);
  }

  lemma {:induction false} MarshalArrayNames(t: Type, l: LVal, c: nat, open: bool)
    requires t.Array? && Shaped(t)
    ensures Fresh(Bound(MarshalCode(t, l, None, c).0), c, Count(t), open, CaptureFree(t, open))
    decreases t, 1
  {
    var (n, u) := (t.card, t.base);
    if u.Void? {
      assert MarshalCode(t, l, None, c).0 == MarshalCode(u, First(l), Some(Card(n)), c).0 == [];
    } else if u.Std? {
      BlockNames(First(l), Card(n));
    } else {
      var body := MarshalCode(u, Star(PopElem(c)), None, c).0;
      MarshalNames(u, Star(PopElem(c)), c, true);
      LoopNames(l, Card(n), body, c, Count(u), open, CaptureFree(u, true));
    }
  }

  /** A container binds its names under a number of its own. */
  lemma OwnNames(own: seq<Name>, body: seq<Name>, c: nat, count: nat, open: bool, free: bool)
    requires Fresh(body, c + 1, count, false, free)
    requires Distinct(own) && (forall n <- own :: Number(n) == c && !n.PopElem?)
    ensures Fresh(own + body, c, 1 + count, open, free)
  {
    BetweenJoin(own, body, c, c + 1, c + 1 + count);
  }

  lemma WrittenSizeNames(l: LVal, sz: Name, tail: Code)
    ensures Bound([DeclSize(sz, l)] + StdOut(Var(sz), One) + tail) == [sz] + Bound(tail)
  {
    BoundOne(DeclSize(sz, l));
    BoundThree(Push(One), Pack(Var(sz), One), Pop);
    BoundJoin([DeclSize(sz, l)], StdOut(Var(sz), One));
    BoundJoin([DeclSize(sz, l)] + StdOut(Var(sz), One), tail);
  }

  lemma IterNames(it: Name, sz: Name, l: LVal, body: Code)
    ensures Bound([Push(Of(sz)), ForIter(it, l, body), Pop]) == [it] + Bound(body)
  {
    BoundThree(Push(Of(sz)), ForIter(it, l, body), Pop);
  }

  lemma BlockNames(l: LVal, size: Size)
    ensures Bound(StdOut(l, size)) == [] && Bound(StdIn(l, size)) == []
  {
    BoundThree(Push(size), Pack(l, size), Pop);
    BoundThree(Push(size), UnPack(l, size), Pop);
  }

  lemma ElementNames(sz: Name, it: Name, body: seq<Name>, c: nat, count: nat, open: bool, free: bool)
    requires Fresh(body, c + 1, count, false, free)
    requires sz == ElemSize(c) && (it == Elem(c) || it == ItElem(c))
    ensures Fresh([sz] + ([it] + body), c, 1 + count, open, free)
  {
    OwnNames([sz, it], body, c, count, open, free);
    assert [sz] + ([it] + body) == [sz, it] + body;
  }

  lemma {:induction false} MarshalContainerNames(t: Type, l: LVal, c: nat, open: bool)
    requires t.Container? && Shaped(t)
    ensures Fresh(Bound(MarshalCode(t, l, None, c).0), c, Count(t), open, CaptureFree(t, open))
    decreases t, 1
  {
    var (k, u, sz, it) := (t.kind, t.elem, ElemSize(c), Iterator(t.kind, c));
    var body := MarshalCode(u, Star(it), None, c + 1).0;
    MarshalNames(u, Star(it), c + 1, false);
    if BlockVector(k, u) {
      BlockNames(Star(it), One);
      BlockNames(First(l), Of(sz));
      WrittenSizeNames(l, sz, StdOut(First(l), Of(sz)));
      OwnNames([sz], Bound(body), c, Count(u), open, CaptureFree(u, false));
    } else {
      IterNames(it, sz, l, body);
      WrittenSizeNames(l, sz, [Push(Of(sz)), ForIter(it, l, body), Pop]);
      ElementNames(sz, it, Bound(body), c, Count(u), open, CaptureFree(u, false));
    }
  }

  // ---------------------------------------------------------------- reading code

  lemma {:induction false} DeMarshalNames(t: Type, l: LVal, c: nat, open: bool)
    requires Shaped(t)
    ensures Fresh(Bound(DeMarshalCode(t, l, None, c).0), c, Count(t), open, CaptureFree(t, open))
    decreases t, 2
  {
    match t
    case Void =>
    case Std(_) => BlockNames(l, One);
    case ParClass(_) => BlockNames(l, One);
    case Alias(u) => DeMarshalNames(u, l, c, open);
    case Ptr(_, u) => DeMarshalNames(u, First(l), c, open);
    case Struct(ts) =>
      DeMarshalFieldNames(ts, l, 0, c, open);
      BoundBracket(One, DeMarshalFields(ts, l, 0, c).0);
    case Array(_, _) => DeMarshalArrayNames(t, l, c, open);
    case Container(_, u) => if u.Pair? { MapNames(t, l, c, open); } else { ListNames(t, l, c, open); }
    case Pair(_, _) => DeMarshalPairNames(t, Mem(l, 0), Mem(l, 1), c, open);
  }

  lemma {:induction false} DeMarshalPairNames(t: Type, l: LVal, l': LVal, c: nat, open: bool)
    requires t.Pair? && Shaped(t)
    ensures
      var (ca, d) := DeMarshalCode(t.key, l, None, c);
      Fresh(Bound(ca + DeMarshalCode(t.value, l', None, d).0), c, Count(t), open, CaptureFree(t, open))
    decreases t, 1
  {
    var (a, b) := (t.key, t.value);
    var (d, open') := (c + Count(a), open && Count(a) == 0);
    DeMarshalNames(a, l, c, open);
    CountersOf(a, l, c);
    DeMarshalNames(b, l', d, open');
    BothNames(DeMarshalCode(a, l, None, c).0, DeMarshalCode(b, l', None, d).0,
              c, Count(a), Count(b), open, CaptureFree(a, open), CaptureFree(b, open'));
  }

  lemma {:induction false} DeMarshalFieldNames(ts: seq<Type>, l: LVal, i: nat, c: nat, open: bool)
    requires forall k :: 0 <= k < |ts| ==> Shaped(ts[k])
    ensures Fresh(Bound(DeMarshalFields(ts, l, i, c).0), c, CountFields(ts), open, FieldsCaptureFree(ts, open))
    decreases ts, 1
  {
    if ts != [] {
      var (d, open') := (c + Count(ts[0]), open && Count(ts[0]) == 0);
      DeMarshalNames(ts[0], Mem(l, i), c, open);
      CountersOf(ts[0], Mem(l, i), c);
      DeMarshalFieldNames(ts[1..], l, i + 1, d, open');
      BothNames(DeMarshalCode(ts[0], Mem(l, i), None, c).0, DeMarshalFields(ts[1..], l, i + 1, d).0, c, Count(ts[0]),
                CountFields(ts[1..]), open, CaptureFree(ts[0], open), FieldsCaptureFree(ts[1..], open'));
    }
  }

  lemma {:induction false} DeMarshalArrayNames(t: Type, l: LVal, c: nat, open: bool)
    requires t.Array? && Shaped(t)
    ensures Fresh(Bound(DeMarshalCode(t, l, None, c).0), c, Count(t), open, CaptureFree(t, open))
    decreases t, 1
  {
    var (n, u) := (t.card, t.base);
    if u.Void? {
      assert DeMarshalCode(t, l, None, c).0 == DeMarshalCode(u, First(l), Some(Card(n)), c).0 == [];
    } else if u.Std? {
      BlockNames(First(l), Card(n));
    } else {
      var body := DeMarshalCode(u, Star(PopElem(c)), None, c).0;
      DeMarshalNames(u, Star(PopElem(c)), c, true);
      LoopNames(l, Card(n), body, c, Count(u), open, CaptureFree(u, true));
    }
  }

  lemma ReadSizeNames(u: Type, l: LVal, c: nat, tail: Code)
    ensures Bound(ListHead(u, l, c) + tail) == [ElemSize(c)] + Bound(tail)
  {
    var (decl, size, resize) := (DeclInt(ElemSize(c)), StdIn(Var(ElemSize(c)), One), Resize(l, Of(ElemSize(c)), u));
    BoundOne(decl);
    BoundOne(resize);
    BlockNames(Var(ElemSize(c)), One);
    BoundJoin([decl], size);
    BoundJoin([decl] + size, [resize]);
    BoundJoin(ListHead(u, l, c), tail);
  }

  lemma {:induction false} ListNames(t: Type, l: LVal, c: nat, open: bool)
    requires t.Container? && Shaped(t) && !t.elem.Pair?
    ensures Fresh(Bound(DeMarshalCode(t, l, None, c).0), c, Count(t), open, CaptureFree(t, open))
    decreases t, 1
  {
    var (k, u, sz) := (t.kind, t.elem, ElemSize(c));
    var body := DeMarshalCode(u, Star(Elem(c)), None, c + 1).0;
    DeMarshalNames(u, Star(Elem(c)), c + 1, false);
    if BlockVector(k, u) {
      BlockNames(Star(Elem(c)), One);
      BlockNames(First(l), Of(sz));
      ReadSizeNames(u, l, c, StdIn(First(l), Of(sz)));
      OwnNames([sz], Bound(body), c, Count(u), open, CaptureFree(u, false));
    } else {
      IterNames(Elem(c), sz, l, body);
      ReadSizeNames(u, l, c, [Push(Of(sz)), ForIter(Elem(c), l, body), Pop]);
      ElementNames(sz, Elem(c), Bound(body), c, Count(u), open, CaptureFree(u, false));
    }
  }

  lemma MapHeadNames(u: Type, c: nat, tail: Code)
    requires u.Pair?
    ensures Bound(MapHead(u, c) + tail) == [ElemSize(c), ElemKey(c), ElemValue(c)] + Bound(tail)
  {
    var (a, b) := (DeclInt(ElemSize(c)), DeclObj(ElemKey(c), u.key));
    var (d, size) := (DeclObj(ElemValue(c), u.value), StdIn(Var(ElemSize(c)), One));
    BoundOne(a);
    BoundOne(b);
    BoundOne(d);
    BlockNames(Var(ElemSize(c)), One);
    BoundJoin([a], [b]);
    BoundJoin([a] + [b], [d]);
    BoundJoin([a] + [b] + [d], size);
    BoundJoin(MapHead(u, c), tail);
  }

  lemma EntryLoopNames(l: LVal, c: nat, entry: Code)
    ensures
      var put := [Insert(l, ElemKey(c), ElemValue(c))];
      Bound([Push(Of(ElemSize(c))), Clear(l), ForIdx(LoopI, Of(ElemSize(c)), entry + put), Pop]) == Bound(entry)
  {
    var put := Insert(l, ElemKey(c), ElemValue(c));
    var (push, loop) := (Push(Of(ElemSize(c))), ForIdx(LoopI, Of(ElemSize(c)), entry + [put]));
    BoundOne(put);
    BoundJoin(entry, [put]);
    BoundThree(Clear(l), loop, Pop);
    assert [push, Clear(l), loop, Pop] == [push] + [Clear(l), loop, Pop];
    BoundOne(push);
    BoundJoin([push], [Clear(l), loop, Pop]);
  }

  lemma {:induction false} MapNames(t: Type, l: LVal, c: nat, open: bool)
    requires t.Container? && Shaped(t) && t.elem.Pair?
    ensures Fresh(Bound(DeMarshalCode(t, l, None, c).0), c, Count(t), open, CaptureFree(t, open))
    decreases t, 1
  {
    var (u, own) := (t.elem, [ElemSize(c), ElemKey(c), ElemValue(c)]);
    var (kc, d) := DeMarshalCode(u.key, Var(ElemKey(c)), None, c + 1);
    var entry := kc + DeMarshalCode(u.value, Var(ElemValue(c)), None, d).0;
    DeMarshalPairNames(u, Var(ElemKey(c)), Var(ElemValue(c)), c + 1, false);
    EntryLoopNames(l, c, entry);
    var put := Insert(l, ElemKey(c), ElemValue(c));
    MapHeadNames(u, c, [Push(Of(ElemSize(c))), Clear(l), ForIdx(LoopI, Of(ElemSize(c)), entry + [put]), Pop]);
    OwnNames(own, Bound(entry), c, Count(u), open, CaptureFree(u, false));
  }

  // ---------------------------------------------------------------- the result

  /** In the code for a type, writing or reading, all bindings have different names (but for the
      `i` of map loops) if and only if the type is free of capture. */
  lemma NamesDistinctIffCaptureFree(t: Type, l: LVal, c: nat)
    requires Shaped(t)
    ensures Distinct(Bound(MarshalCode(t, l, None, c).0)) <==> CaptureFree(t, false)
    ensures Distinct(Bound(DeMarshalCode(t, l, None, c).0)) <==> CaptureFree(t, false)
  {
    MarshalNames(t, l, c, false);
    DeMarshalNames(t, l, c, false);
  }

  /** A type without loops over arrays: templates, structs, pointers and typedefs in any nesting. */
  predicate NoArrayLoop(t: Type)
    decreases t
  {
    match t
    case Struct(ts) => forall i :: 0 <= i < |ts| ==> NoArrayLoop(ts[i])
    case Alias(u) => NoArrayLoop(u)
    case Array(_, u) => IsStandard(u)
    case Container(_, u) => NoArrayLoop(u)
    case Pair(a, b) => NoArrayLoop(a) && NoArrayLoop(b)
    case Ptr(_, u) => NoArrayLoop(u)
    case _ => true
  }

  lemma {:induction false} NoCapture(t: Type, open: bool)
    requires NoArrayLoop(t)
    ensures CaptureFree(t, open)
    decreases t, 1
  {
    match t
    case Struct(ts) => NoCaptureFields(ts, open);
    case Alias(u) => NoCapture(u, open);
    case Ptr(_, u) => NoCapture(u, open);
    case Container(_, u) => NoCapture(u, false);
    case Pair(a, b) =>
      NoCapture(a, open);
      NoCapture(b, open && Count(a) == 0);
    case _ =>
  }

  lemma {:induction false} NoCaptureFields(ts: seq<Type>, open: bool)
    requires forall i :: 0 <= i < |ts| ==> NoArrayLoop(ts[i])
    ensures FieldsCaptureFree(ts, open)
    decreases ts, 0
  {
    if ts != [] {
      NoCapture(ts[0], open);
      NoCaptureFields(ts[1..], open && Count(ts[0]) == 0);
    }
  }

  /** For every nesting of templates the size, iterator, key and value names are pairwise
      distinct: each template takes its number before its element is generated. */
  lemma TemplateNamesDistinct(t: Type, l: LVal, c: nat)
    requires Shaped(t) && NoArrayLoop(t)
    ensures Distinct(Bound(MarshalCode(t, l, None, c).0)) && Distinct(Bound(DeMarshalCode(t, l, None, c).0))
  {
    NoCapture(t, false);
    NamesDistinctIffCaptureFree(t, l, c);
  }
}
