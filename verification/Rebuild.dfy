/** Reading code never sets a pointer; what that means for types and for sized parameters. */
module Rebuild {
  import opened Types
  import opened Emit
  import opened Machine
  import opened Scopes
  import opened Codec
  import opened CodecRead
  import opened Capture
  import opened Survival

  /** v has the shape of t, no pointer in it is set, and `void` cells are as declared. */
  ghost predicate Bare(t: Type, v: Value)
    decreases t
  {
    match t
    case Void => v == Default(t)
    case Std(_) => v.Atom?
    case ParClass(_) => v.Atom?
    case Struct(ts) => v.Agg? && |v.elems| == |ts| && forall i :: 0 <= i < |ts| ==> Bare(ts[i], v.elems[i])
    case Alias(u) => Bare(u, v)
    case Array(n, u) => v.Agg? && |v.elems| == n && forall i :: 0 <= i < n ==> Bare(u, v.elems[i])
    case Ptr(_, _) => v.Wild?
    case Container(_, u) => v.Agg? && forall i :: 0 <= i < |v.elems| ==> Bare(u, v.elems[i])
    case Pair(a, b) => v.Agg? && |v.elems| == 2 && Bare(a, v.elems[0]) && Bare(b, v.elems[1])
  }

  ghost predicate AllBare(u: Type, vs: seq<Value>) {
    forall i :: 0 <= i < |vs| ==> Bare(u, vs[i])
  }

  lemma {:induction false} DefaultBare(t: Type)
    ensures Bare(t, Default(t))
    decreases t
  {
    match t
    case Struct(ts) => forall i | 0 <= i < |ts| ensures Bare(ts[i], Default(ts[i])) { DefaultBare(ts[i]); }
    case Alias(u) => DefaultBare(u);
    case Array(_, u) => DefaultBare(u);
    case Pair(a, b) => DefaultBare(a); DefaultBare(b);
    case _ =>
  }

  /** A type with a pointer or `void` in it has values that are not bare. */
  lemma {:induction false} SampleNotBare(t: Type)
    requires Shaped(t) && Sized(t) && !Plain(t)
    ensures !Bare(t, Sample(t))
    decreases t
  {
    match t
    case Struct(ts) =>
      var i :| 0 <= i < |ts| && !Plain(ts[i]);
      SampleNotBare(ts[i]);
      assert Sample(t).elems[i] == Sample(ts[i]);
    case Alias(u) => SampleNotBare(u);
    case Array(n, u) =>
      SampleNotBare(u);
      assert Sample(t).elems[0] == Sample(u);
    case Container(_, u) =>
      SampleNotBare(u);
      assert Sample(t).elems[0] == Sample(u);
    case Pair(a, b) => if !Plain(a) { SampleNotBare(a); } else { SampleNotBare(b); }
    case _ =>
  }

  // ---------------------------------------------------------------- code that keeps a place bare

  /** If the code runs to its end, the object at p is still a bare value of the type, and other
      older variables are as before. */
  ghost predicate Bares(t: Type, s: State, r: Option<State>, p: Path, c: nat, open: bool) {
    r.Some? ==> exists w :: BareAs(t, w) && Assigned(s.env, r.value.env, p, w, c, open)
  }

  ghost predicate BareAs(t: Type, w: Value) {
    Bare(t, w)
  }

  /** The same for a block of n elements. */
  ghost predicate BaresBlock(u: Type, s: State, r: Option<State>, p: Path, n: nat, c: nat, open: bool) {
    r.Some? ==> exists ws :: AllBare(u, ws) && |ws| == n && Assigned(s.env, r.value.env, p, Agg(ws), c, open)
  }

  lemma BracketBares(sz: Size, code: Code, t: Type, s: State, p: Path, c: nat, open: bool)
    requires Bares(t, s, Exec(code, s.(depth := s.depth + 1)), p, c, open)
    ensures Bares(t, s, Exec([Push(sz)] + code + [Pop], s), p, c, open)
  {
    BracketEnv(sz, code, s);
  }

  lemma ScalarBares(t: Type, l: LVal, s: State, p: Path, was: Value, c: nat, open: bool)
    requires (t.Std? || t.ParClass?) && !l.First? && Holds(l, p, was, s.env, c, open)
    ensures Bares(t, s, Exec(StdIn(l, One), s), p, c, open)
  {
    var get := UnPack(l, One);
    LoopEnv(One, get, s);
    if Step(get, s.(depth := s.depth + 1)).Some? {
      assert BareAs(t, Atom(s.wire[0]));
    }
  }

  /** Reading code of a pointer that is not set leaves it so. */
  lemma PointerBares(t: Type, l: LVal, s: State, p: Path, c: nat, open: bool)
    requires t.Ptr? && Shaped(t) && Holds(l, p, Wild, s.env, c, open)
    ensures Bares(t, s, Exec(DeMarshalCode(t, l, None, c).0, s), p, c, open)
  {
    var r := Exec(DeMarshalCode(t.base, First(l), None, c).0, s);
    BeyondPath(p, s.env, 0);
    ReadGone(t.base, First(l), c, open, s);
    if r.Some? {
      PutSame(s.env[p.root].v, p.steps);
      assert SameAt(s.env, r.value.env, p.root);
      assert BareAs(t, Wild) && Assigned(s.env, r.value.env, p, Wild, c, open);
    }
  }

  /** Elements read as one block become scalars. */
  lemma BlockBares(u: Type, l: LVal, sz: Size, s: State, p: Path, es: seq<Value>, c: nat, open: bool)
    requires u.Std? && Holds(l, p, Agg(es), s.env, c, open) && AllBare(u, es)
    ensures BaresBlock(u, s, Exec(StdIn(First(l), sz), s), p, |es|, c, open)
  {
    var (s1, get) := (s.(depth := s.depth + 1), UnPack(First(l), sz));
    LoopEnv(sz, get, s);
    if Step(get, s1).Some? {
      var n := SizeVal(sz, s1.env).value;
      var ws := Atoms(s.wire[..n]) + es[n..];
      assert |ws| == |es| && AllBare(u, ws);
      assert Assigned(s.env, Step(get, s1).value.env, p, Agg(ws), c, open);
    }
  }

  /** Every reading code keeps its place bare, or fails. Where a loop pointer is captured it fails. */
  lemma {:induction false} ReadBare(t: Type, l: LVal, c: nat, open: bool, s: State, p: Path, was: Value)
    requires Shaped(t) && Bare(t, was) && Holds(l, p, was, s.env, c, open)
    requires !l.First? && NotIndexedBy(l, p.root) && (open ==> Through(l, PopElem(c)))
    ensures Bares(t, s, Exec(DeMarshalCode(t, l, None, c).0, s), p, c, open)
    decreases t, 2
  {
    match t
    case Void =>
      PutSame(s.env[p.root].v, p.steps);
      assert BareAs(t, was);
    case Std(_) => ScalarBares(t, l, s, p, was, c, open);
    case ParClass(_) => ScalarBares(t, l, s, p, was, c, open);
    case Alias(u) =>
      ReadBare(u, l, c, open, s, p, was);
      SameBares(u, t, s, Exec(DeMarshalCode(t, l, None, c).0, s), p, c, open);
    case Ptr(_, _) => PointerBares(t, l, s, p, c, open);
    case Struct(ts) => StructBares(t, l, c, open, s, p, was.elems);
    case Array(_, _) => ArrayBares(t, l, c, open, s, p, was.elems);
    case Container(_, u) =>
      if u.Pair? { MapBares(t, l, c, open, s, p, was.elems); } else { ListBares(t, l, c, open, s, p, was.elems); }
    case Pair(_, _) => PairBares(t, l, c, open, s, p, was.elems);
  }

  lemma SameBares(u: Type, t: Type, s: State, r: Option<State>, p: Path, c: nat, open: bool)
    requires Bares(u, s, r, p, c, open) && forall w :: Bare(u, w) ==> Bare(t, w)
    ensures Bares(t, s, r, p, c, open)
  {
    if r.Some? {
      var w :| BareAs(u, w) && Assigned(s.env, r.value.env, p, w, c, open);
      assert BareAs(t, w);
    }
  }

  // ---------------------------------------------------------------- one part after the other

  ghost predicate BareFrom(ts: seq<Type>, vs: seq<Value>, i: nat) {
    |vs| == i + |ts| && forall k :: 0 <= k < |ts| ==> Bare(ts[k], vs[i + k])
  }

  /** After the parts from i on have been read. */
  ghost predicate BaresFrom(ts: seq<Type>, s: State, r: Option<State>, p: Path, es: seq<Value>, i: nat,
                            c: nat, open: bool)
    requires i <= |es|
  {
    r.Some? ==> exists ws :: BareFrom(ts, ws, i) && ws[..i] == es[..i]
                             && Assigned(s.env, r.value.env, p, Agg(ws), c, open)
  }

  /** Part i has been read: the whole value, and where the rest finds it. */
  lemma PartRead(l: LVal, s: State, s1: State, p: Path, es: seq<Value>, i: nat, w: Value,
                 c: nat, open: bool, d: nat, open': bool)
    requires Holds(l, p, Agg(es), s.env, c, open) && NotIndexedBy(l, p.root) && i < |es|
    requires Assigned(s.env, s1.env, Path(p.root, p.steps + [i]), w, c, open) && NoLater(c, open, d, open')
    ensures Assigned(s.env, s1.env, p, Agg(es[i := w]), c, open)
    ensures Holds(l, p, Agg(es[i := w]), s1.env, d, open')
  {
    AssignedElem(s.env, s1.env, p, es, i, w, c, open);
    HoldsAssigned(l, p, Agg(es), Agg(es[i := w]), s.env, s1.env, c, open, d, open');
  }

  lemma {:induction false} FieldsBare(ts: seq<Type>, l: LVal, i: nat, c: nat, open: bool, s: State, p: Path,
                                      es: seq<Value>)
    requires (forall k :: 0 <= k < |ts| ==> Shaped(ts[k])) && BareFrom(ts, es, i)
    requires Holds(l, p, Agg(es), s.env, c, open)
    requires NotIndexedBy(l, p.root) && (open ==> Through(l, PopElem(c)))
    ensures BaresFrom(ts, s, Exec(DeMarshalFields(ts, l, i, c).0, s), p, es, i, c, open)
    decreases ts, 1
  {
    if ts == [] {
      PutSame(s.env[p.root].v, p.steps);
      assert BareFrom(ts, es, i) && Assigned(s.env, s.env, p, Agg(es), c, open);
    } else {
      var (d, open') := (c + Count(ts[0]), open && Count(ts[0]) == 0);
      var (head, tail) := (DeMarshalCode(ts[0], Mem(l, i), None, c).0, DeMarshalFields(ts[1..], l, i + 1, d).0);
      var q := Path(p.root, p.steps + [i]);
      assert Bare(ts[0], es[i + 0]);
      LoadElem(p, s.env, es, i);
      ReadBare(ts[0], Mem(l, i), c, open, s, q, es[i]);
      CountersOf(ts[0], Mem(l, i), c);
      ExecConcat(head, tail, s);
      if Exec(head, s).Some? {
        var s1 := Exec(head, s).value;
        var w :| BareAs(ts[0], w) && Assigned(s.env, s1.env, q, w, c, open);
        var es1 := es[i := w];
        PartRead(l, s, s1, p, es, i, w, c, open, d, open');
        BareTail(ts, es, i, w);
        FieldsBare(ts[1..], l, i + 1, d, open', s1, p, es1);
        FieldsJoin(ts, s, s1, Exec(tail, s1), p, es, es1, i, c, open, d, open');
      }
    }
  }

  lemma BareTail(ts: seq<Type>, es: seq<Value>, i: nat, w: Value)
    requires ts != [] && BareFrom(ts, es, i)
    ensures BareFrom(ts[1..], es[i := w], i + 1)
  {
    forall k | 0 <= k < |ts[1..]| ensures Bare(ts[1..][k], es[i := w][i + 1 + k]) {
      assert Bare(ts[k + 1], es[i + (k + 1)]);
    }
  }

  lemma FieldsJoin(ts: seq<Type>, s: State, s1: State, r: Option<State>, p: Path, es: seq<Value>, es1: seq<Value>,
                   i: nat, c: nat, open: bool, d: nat, open': bool)
    requires ts != [] && i < |es| == |es1| && Bare(ts[0], es1[i]) && es1[..i] == es[..i]
    requires Load(p, s.env).Some? && Assigned(s.env, s1.env, p, Agg(es1), c, open) && NoLater(c, open, d, open')
    requires BaresFrom(ts[1..], s1, r, p, es1, i + 1, d, open')
    ensures BaresFrom(ts, s, r, p, es, i, c, open)
  {
    if r.Some? {
      var ws :| BareFrom(ts[1..], ws, i + 1) && ws[..i + 1] == es1[..i + 1]
                && Assigned(s1.env, r.value.env, p, Agg(ws), d, open');
      AssignedTwice(s.env, s1.env, r.value.env, p, Agg(es1), Agg(ws), c, open, d, open');
      assert ws[i] == ws[..i + 1][i] == es1[i];
      assert ws[..i] == ws[..i + 1][..i] == es[..i];
      assert BareFrom(ts, ws, i) by {
        forall k | 0 <= k < |ts| ensures Bare(ts[k], ws[i + k]) {
          assert k > 0 ==> Bare(ts[1..][k - 1], ws[i + 1 + (k - 1)]);
        }
      }
    }
  }

  lemma {:induction false} StructBares(t: Type, l: LVal, c: nat, open: bool, s: State, p: Path, es: seq<Value>)
    requires t.Struct? && Shaped(t) && Bare(t, Agg(es)) && Holds(l, p, Agg(es), s.env, c, open)
    requires NotIndexedBy(l, p.root) && (open ==> Through(l, PopElem(c)))
    ensures Bares(t, s, Exec(DeMarshalCode(t, l, None, c).0, s), p, c, open)
    decreases t, 1
  {
    var (ts, s1) := (t.fields, s.(depth := s.depth + 1));
    var code := DeMarshalFields(ts, l, 0, c).0;
    FieldsBare(ts, l, 0, c, open, s1, p, es);
    if Exec(code, s1).Some? {
      var ws :| BareFrom(ts, ws, 0) && Assigned(s.env, Exec(code, s1).value.env, p, Agg(ws), c, open);
      assert BareAs(t, Agg(ws)) by {
        forall i | 0 <= i < |ts| ensures Bare(ts[i], ws[i]) { assert Bare(ts[i], ws[0 + i]); }
      }
    }
    BracketBares(One, code, t, s, p, c, open);
  }

  lemma {:induction false} PairBares(t: Type, l: LVal, c: nat, open: bool, s: State, p: Path, es: seq<Value>)
    requires t.Pair? && Shaped(t) && Bare(t, Agg(es)) && Holds(l, p, Agg(es), s.env, c, open)
    requires NotIndexedBy(l, p.root) && (open ==> Through(l, PopElem(c)))
    ensures Bares(t, s, Exec(DeMarshalCode(t, l, None, c).0, s), p, c, open)
    decreases t, 1
  {
    var (d, open') := (c + Count(t.key), open && Count(t.key) == 0);
    var (ca, cb) := (DeMarshalCode(t.key, Mem(l, 0), None, c).0, DeMarshalCode(t.value, Mem(l, 1), None, d).0);
    LoadElem(p, s.env, es, 0);
    ReadBare(t.key, Mem(l, 0), c, open, s, Path(p.root, p.steps + [0]), es[0]);
    CountersOf(t.key, Mem(l, 0), c);
    ExecConcat(ca, cb, s);
    if Exec(ca, s).Some? {
      var s1 := Exec(ca, s).value;
      var k :| BareAs(t.key, k) && Assigned(s.env, s1.env, Path(p.root, p.steps + [0]), k, c, open);
      PartRead(l, s, s1, p, es, 0, k, c, open, d, open');
      SecondBares(t, l, d, open', s1, p, es[0 := k]);
      BaresAfter(t, s, s1, Exec(cb, s1), p, Agg(es[0 := k]), c, open, d, open');
    }
  }

  lemma {:induction false} SecondBares(t: Type, l: LVal, c: nat, open: bool, s: State, p: Path, es: seq<Value>)
    requires t.Pair? && Shaped(t) && Bare(t, Agg(es)) && Holds(l, p, Agg(es), s.env, c, open)
    requires NotIndexedBy(l, p.root) && (open ==> Through(l, PopElem(c)))
    ensures Bares(t, s, Exec(DeMarshalCode(t.value, Mem(l, 1), None, c).0, s), p, c, open)
    decreases t, 0
  {
    var (code, q) := (DeMarshalCode(t.value, Mem(l, 1), None, c).0, Path(p.root, p.steps + [1]));
    LoadElem(p, s.env, es, 1);
    ReadBare(t.value, Mem(l, 1), c, open, s, q, es[1]);
    if Exec(code, s).Some? {
      var v :| BareAs(t.value, v) && Assigned(s.env, Exec(code, s).value.env, q, v, c, open);
      AssignedElem(s.env, Exec(code, s).value.env, p, es, 1, v, c, open);
      assert BareAs(t, Agg(es[1 := v]));
    }
  }

  lemma BaresAfter(t: Type, s: State, s1: State, r: Option<State>, p: Path, v: Value,
                   c: nat, open: bool, d: nat, open': bool)
    requires Load(p, s.env).Some? && Assigned(s.env, s1.env, p, v, c, open) && NoLater(c, open, d, open')
    requires Bares(t, s1, r, p, d, open')
    ensures Bares(t, s, r, p, c, open)
  {
    if r.Some? {
      var w :| BareAs(t, w) && Assigned(s1.env, r.value.env, p, w, d, open');
      AssignedTwice(s.env, s1.env, r.value.env, p, v, w, c, open, d, open');
    }
  }

  // ---------------------------------------------------------------- loops over a block

  /** One iteration: element j is still bare afterwards. */
  lemma {:induction false} OneBare(u: Type, x: Name, p: Path, j: nat, c: nat, open: bool, d: nat, open': bool, s: State,
                                   es: seq<Value>)
    returns (w: Value)
    requires Shaped(u) && AllBare(u, es) && j < |es|
    requires Load(p, s.env) == Some(Agg(es)) && Older(p.root, c, open)
    requires NoLater(c, open, d, open') && !Older(x, c, open) && Older(x, d, open') && (open' ==> x == PopElem(d))
    ensures
      var body := DeMarshalCode(u, Star(x), None, d).0;
      var r := Exec(body, s.(env := s.env[x := Ref(p.root, p.steps + [j])]));
      OneLeft(u, s, r, {x} + Locals(body), p, es, j, w, c, open)
    decreases u, 3
  {
    var (body, q) := (DeMarshalCode(u, Star(x), None, d).0, Path(p.root, p.steps + [j]));
    var s1 := s.(env := s.env[x := Ref(p.root, p.steps + [j])]);
    LoadElem(p, s1.env, es, j);
    ReadBare(u, Star(x), d, open', s1, q, es[j]);
    if p.root in Locals(body) { LocalsNewerOf(u, Star(x), d, open', p.root); }
    w := OneTaken(u, s, s1, Exec(body, s1), x, {x} + Locals(body), p, es, j, c, open, d, open');
  }

  /** Element j is w after the body of a loop, if that runs to its end. */
  ghost predicate OneLeft(u: Type, s: State, r: Option<State>, locals: set<Name>, p: Path, es: seq<Value>, j: nat,
                          w: Value, c: nat, open: bool)
    requires j < |es|
  {
    r.Some? ==>
      var e := Leave(s.env, r.value.env, locals);
      AllBare(u, es[j := w]) && Assigned(s.env, e, p, Agg(es[j := w]), c, open)
      && Load(p, e) == Some(Agg(es[j := w]))
  }

  lemma OneTaken(u: Type, s: State, s1: State, r: Option<State>, x: Name, locals: set<Name>, p: Path, es: seq<Value>,
                 j: nat, c: nat, open: bool, d: nat, open': bool)
    returns (w: Value)
    requires AllBare(u, es) && Load(p, s.env) == Some(Agg(es)) && j < |es|
    requires Bares(u, s1, r, Path(p.root, p.steps + [j]), d, open') && forall n :: n != x ==> SameAt(s.env, s1.env, n)
    requires NoLater(c, open, d, open') && !Older(x, c, open) && Older(p.root, c, open) && p.root !in locals
    ensures OneLeft(u, s, r, locals, p, es, j, w, c, open)
  {
    w := es[j];
    if r.Some? {
      w :| BareAs(u, w) && Assigned(s1.env, r.value.env, Path(p.root, p.steps + [j]), w, d, open');
      LeftElem(s.env, s1.env, r.value.env, x, locals, p, es, j, w, c, open, d, open');
    }
  }

  lemma {:induction false} EachBare(u: Type, x: Name, p: Path, j: nat, c: nat, open: bool, d: nat, open': bool,
                                    s: State, es: seq<Value>)
    requires Shaped(u) && AllBare(u, es) && j <= |es|
    requires Load(p, s.env) == Some(Agg(es)) && Older(p.root, c, open)
    requires NoLater(c, open, d, open') && !Older(x, c, open) && Older(x, d, open') && (open' ==> x == PopElem(d))
    ensures BaresBlock(u, s, EachRef(x, p, j, |es|, DeMarshalCode(u, Star(x), None, d).0, s), p, |es|, c, open)
    decreases u, 4 + |es| - j
  {
    if j == |es| {
      PutSame(s.env[p.root].v, p.steps);
      assert Assigned(s.env, s.env, p, Agg(es), c, open);
    } else {
      var body := DeMarshalCode(u, Star(x), None, d).0;
      var s1 := s.(env := s.env[x := Ref(p.root, p.steps + [j])]);
      var w := OneBare(u, x, p, j, c, open, d, open', s, es);
      if Exec(body, s1).Some? {
        var s2 := Exec(body, s1).value;
        var s3 := s2.(env := Leave(s.env, s2.env, {x} + Locals(body)));
        EachBare(u, x, p, j + 1, c, open, d, open', s3, es[j := w]);
        BlockAfter(u, s, s3, EachRef(x, p, j + 1, |es|, body, s3), p, Agg(es[j := w]), |es|, c, open);
      }
    }
  }

  lemma BlockAfter(u: Type, s: State, s1: State, r: Option<State>, p: Path, v: Value, n: nat, c: nat, open: bool)
    requires Load(p, s.env).Some? && Assigned(s.env, s1.env, p, v, c, open)
    requires BaresBlock(u, s1, r, p, n, c, open)
    ensures BaresBlock(u, s, r, p, n, c, open)
  {
    if r.Some? {
      var ws :| AllBare(u, ws) && |ws| == n && Assigned(s1.env, r.value.env, p, Agg(ws), c, open);
      AssignedTwice(s.env, s1.env, r.value.env, p, v, Agg(ws), c, open, c, open);
    }
  }

  lemma LoopBlock(sz: Size, i: Instr, u: Type, s: State, p: Path, n: nat, c: nat, open: bool)
    requires BaresBlock(u, s, Step(i, s.(depth := s.depth + 1)), p, n, c, open)
    ensures BaresBlock(u, s, Exec([Push(sz), i, Pop], s), p, n, c, open)
  {
    LoopEnv(sz, i, s);
  }

  /** What was proved of the elements, as a statement about the aggregate. */
  lemma BlockIs(t: Type, u: Type, s: State, r: Option<State>, p: Path, n: nat, c: nat, open: bool)
    requires t == Array(n, u) || (t.Container? && t.elem == u)
    requires BaresBlock(u, s, r, p, n, c, open)
    ensures Bares(t, s, r, p, c, open)
  {
    if r.Some? {
      var ws :| AllBare(u, ws) && |ws| == n && Assigned(s.env, r.value.env, p, Agg(ws), c, open);
      assert BareAs(t, Agg(ws));
    }
  }

  lemma {:induction false} ArrayBares(t: Type, l: LVal, c: nat, open: bool, s: State, p: Path, es: seq<Value>)
    requires t.Array? && Shaped(t) && Bare(t, Agg(es)) && Holds(l, p, Agg(es), s.env, c, open)
    requires NotIndexedBy(l, p.root) && (open ==> Through(l, PopElem(c)))
    ensures Bares(t, s, Exec(DeMarshalCode(t, l, None, c).0, s), p, c, open)
    decreases t, 1
  {
    var (n, u, code) := (t.card, t.base, DeMarshalCode(t, l, None, c).0);
    if u.Void? {
      assert code == DeMarshalCode(u, First(l), Some(Card(n)), c).0 == [];
      PutSame(s.env[p.root].v, p.steps);
      assert BareAs(t, Agg(es));
    } else {
      if u.Std? {
        assert code == DeMarshalCode(u, First(l), Some(Card(n)), c).0 == StdIn(First(l), Card(n));
        BlockBares(u, l, Card(n), s, p, es, c, open);
      } else {
        ArrayLoopBares(t, l, c, open, s, p, es);
      }
      BlockIs(t, u, s, Exec(code, s), p, n, c, open);
    }
  }

  lemma {:induction false} ArrayLoopBares(t: Type, l: LVal, c: nat, open: bool, s: State, p: Path, es: seq<Value>)
    requires t.Array? && !IsStandard(t.base) && Shaped(t) && Bare(t, Agg(es)) && Holds(l, p, Agg(es), s.env, c, open)
    requires open ==> Through(l, PopElem(c))
    ensures BaresBlock(t.base, s, Exec(DeMarshalCode(t, l, None, c).0, s), p, |es|, c, open)
    decreases t, 0
  {
    var (n, u, x, s1) := (t.card, t.base, PopElem(c), s.(depth := s.depth + 1));
    var body := DeMarshalCode(u, Star(x), None, c).0;
    if open {
      Unresolved(l, x, s1.env - {x});
    } else {
      PtrStep(l, Card(n), body, c, s1, p, Agg(es), n);
      EachBare(u, x, p, 0, c, open, c, true, s1, es);
    }
    LoopBlock(Card(n), ForPtr(x, l, Card(n), body), u, s, p, |es|, c, open);
  }

  // ---------------------------------------------------------------- lists

  /** Making room adds elements as they are declared: pointers among them point nowhere. */
  lemma RoomBare(es: seq<Value>, n: nat, u: Type)
    requires AllBare(u, es)
    ensures AllBare(u, Resized(es, n, u))
  {
    DefaultBare(u);
  }

  lemma RoomMade(u: Type, l: LVal, c: nat, open: bool, s: State, p: Path, es: seq<Value>)
    returns (room: seq<Value>)
    requires Holds(l, p, Agg(es), s.env, c, open) && NotIndexedBy(l, p.root) && AllBare(u, es)
    ensures
      var r := Exec(ListHead(u, l, c), s);
      r.Some? ==> AllBare(u, room) && Assigned(s.env, r.value.env, p, Agg(room), c, open)
                  && Holds(l, p, Agg(room), r.value.env, c, open)
  {
    var (size, resize) := ([DeclInt(ElemSize(c))] + StdIn(Var(ElemSize(c)), One), Resize(l, Of(ElemSize(c)), u));
    room := [];
    SizeSpares(c, open, s);
    ExecConcat(size, [resize], s);
    if Exec(size, s).Some? {
      var s1 := Exec(size, s).value;
      StillHolds(l, p, Agg(es), s.env, s1.env, c, open, c, open);
      ExecOne(resize, s1);
      if Step(resize, s1).Some? {
        var n := SizeVal(Of(ElemSize(c)), s1.env).value;
        room := Resized(es, n, u);
        RoomBare(es, n, u);
        AfterKept(s.env, s1.env, Step(resize, s1).value.env, p, Agg(room), c, open);
        HoldsAssigned(l, p, Agg(es), Agg(room), s.env, Step(resize, s1).value.env, c, open, c, open);
      }
    }
  }

  lemma {:induction false} ListBares(t: Type, l: LVal, c: nat, open: bool, s: State, p: Path, es: seq<Value>)
    requires t.Container? && Shaped(t) && !t.elem.Pair? && Bare(t, Agg(es)) && Holds(l, p, Agg(es), s.env, c, open)
    requires NotIndexedBy(l, p.root)
    ensures Bares(t, s, Exec(DeMarshalCode(t, l, None, c).0, s), p, c, open)
    decreases t, 1
  {
    var (u, sz, head) := (t.elem, ElemSize(c), ListHead(t.elem, l, c));
    var room := RoomMade(u, l, c, open, s, p, es);
    var tail := if BlockVector(t.kind, u) then StdIn(First(l), Of(sz))
                else [Push(Of(sz)), ForIter(Elem(c), l, DeMarshalCode(u, Star(Elem(c)), None, c + 1).0), Pop];
    ExecConcat(head, tail, s);
    if Exec(head, s).Some? {
      var s1 := Exec(head, s).value;
      if BlockVector(t.kind, u) {
        BlockBares(u, l, Of(sz), s1, p, room, c, open);
      } else {
        ListLoopBares(u, l, c, open, s1, p, room);
      }
      BlockAfter(u, s, s1, Exec(tail, s1), p, Agg(room), |room|, c, open);
      BlockIs(t, u, s, Exec(head + tail, s), p, |room|, c, open);
    }
  }

  lemma {:induction false} ListLoopBares(u: Type, l: LVal, c: nat, open: bool, s: State, p: Path, es: seq<Value>)
    requires Shaped(u) && AllBare(u, es) && Holds(l, p, Agg(es), s.env, c, open)
    ensures
      var loop := ForIter(Elem(c), l, DeMarshalCode(u, Star(Elem(c)), None, c + 1).0);
      BaresBlock(u, s, Exec([Push(Of(ElemSize(c))), loop, Pop], s), p, |es|, c, open)
    decreases u, 5 + |es|
  {
    var (s1, sz) := (s.(depth := s.depth + 1), Of(ElemSize(c)));
    var body := DeMarshalCode(u, Star(Elem(c)), None, c + 1).0;
    IterStep(Elem(c), l, body, s1, p, |es|);
    EachBare(u, Elem(c), p, 0, c, open, c + 1, false, s1, es);
    LoopBlock(sz, ForIter(Elem(c), l, body), u, s, p, |es|, c, open);
  }

  // ---------------------------------------------------------------- maps

  ghost predicate BareVars(t: Type, env: Env, c: nat)
    requires t.Pair?
  {
    && ElemKey(c) in env && env[ElemKey(c)].Obj? && Bare(t.key, env[ElemKey(c)].v)
    && ElemValue(c) in env && env[ElemValue(c)].Obj? && Bare(t.value, env[ElemValue(c)].v)
  }

  lemma {:induction false} InsertBare(t: Type, es: seq<Value>, k: Value, v: Value)
    requires t.Pair? && AllBare(t, es) && Bare(t.key, k) && Bare(t.value, v)
    ensures AllBare(t, MapInsert(es, k, v))
    decreases |es|
  {
    if es != [] { InsertBare(t, es[1..], k, v); }
  }

  /** Reading one entry keeps the two variables bare and touches nothing older. */
  lemma {:induction false} EntryBare(t: Type, c: nat, s: State)
    requires t.Pair? && Shaped(t) && BareVars(t, s.env, c)
    ensures
      var r := Exec(EntryCode(t, c), s);
      r.Some? ==>
        BareVars(t, r.value.env, c)
        && forall n :: Older(n, c + 1, false) && n != ElemKey(c) && n != ElemValue(c) ==> SameAt(s.env, r.value.env, n)
    decreases t, 0
  {
    var (lk, lv, d) := (Var(ElemKey(c)), Var(ElemValue(c)), c + 1 + Count(t.key));
    var (kc, vc) := (DeMarshalCode(t.key, lk, None, c + 1).0, DeMarshalCode(t.value, lv, None, d).0);
    ReadBare(t.key, lk, c + 1, false, s, Path(ElemKey(c), []), s.env[ElemKey(c)].v);
    ExecConcat(kc, vc, s);
    if Exec(kc, s).Some? {
      var s1 := Exec(kc, s).value;
      assert SameAt(s.env, s1.env, ElemValue(c));
      ReadBare(t.value, lv, d, false, s1, Path(ElemValue(c), []), s.env[ElemValue(c)].v);
      BothBare(t, c, d, s, s1, Exec(vc, s1));
    }
  }

  lemma BothBare(t: Type, c: nat, d: nat, s: State, s1: State, r: Option<State>)
    requires t.Pair? && BareVars(t, s.env, c) && d > c
    requires Bares(t.key, s, Some(s1), Path(ElemKey(c), []), c + 1, false)
    requires Bares(t.value, s1, r, Path(ElemValue(c), []), d, false)
    ensures
      r.Some? ==>
        BareVars(t, r.value.env, c)
        && forall n :: Older(n, c + 1, false) && n != ElemKey(c) && n != ElemValue(c) ==> SameAt(s.env, r.value.env, n)
  {
    if r.Some? {
      assert SameAt(s1.env, r.value.env, ElemKey(c));
      forall n | Older(n, c + 1, false) && n != ElemKey(c) && n != ElemValue(c) ensures SameAt(s.env, r.value.env, n) {
        assert SameAt(s.env, s1.env, n) && SameAt(s1.env, r.value.env, n);
      }
    }
  }

  /** One iteration of a map's loop. */
  lemma {:induction false} EntryPut(t: Type, l: LVal, p: Path, j: nat, c: nat, open: bool, s: State, es: seq<Value>)
    returns (ws: seq<Value>)
    requires t.Pair? && Shaped(t) && AllBare(t, es) && NotIndexedBy(l, p.root)
    requires Holds(l, p, Agg(es), s.env, c, open) && BareVars(t, s.env, c)
    ensures
      var r := Exec(InsertEntry(t, l, c), s.(env := s.env[LoopI := Obj(Atom(Num(j)))]));
      r.Some? ==>
        var e := Leave(s.env, r.value.env, {LoopI} + Locals(InsertEntry(t, l, c)));
        AllBare(t, ws) && Assigned(s.env, e, p, Agg(ws), c, open) && Holds(l, p, Agg(ws), e, c, open)
        && BareVars(t, e, c)
    decreases t, 1
  {
    var s1 := s.(env := s.env[LoopI := Obj(Atom(Num(j)))]);
    ws := [];
    EntryBare(t, c, s1);
    InsertRun(t, l, c, s1);
    if Exec(EntryCode(t, c), s1).Some? {
      var s2 := Exec(EntryCode(t, c), s1).value;
      EntryKept(s.env, s1.env, s2.env, c, open);
      ws := Inserted(t, l, p, c, open, s, s2, es);
    }
  }

  lemma Inserted(t: Type, l: LVal, p: Path, c: nat, open: bool, s: State, s2: State, es: seq<Value>)
    returns (ws: seq<Value>)
    requires t.Pair? && Shaped(t) && AllBare(t, es) && NotIndexedBy(l, p.root)
    requires Holds(l, p, Agg(es), s.env, c, open) && Kept(s.env, s2.env, c, open) && BareVars(t, s2.env, c)
    ensures
      var r := Step(Insert(l, ElemKey(c), ElemValue(c)), s2);
      r.Some?
      && var e := Leave(s.env, r.value.env, {LoopI} + Locals(InsertEntry(t, l, c)));
         AllBare(t, ws) && Assigned(s.env, e, p, Agg(ws), c, open) && Holds(l, p, Agg(ws), e, c, open)
         && BareVars(t, e, c)
  {
    var (k, v) := (s2.env[ElemKey(c)].v, s2.env[ElemValue(c)].v);
    StillHolds(l, p, Agg(es), s.env, s2.env, c, open, c, open);
    ws := MapInsert(es, k, v);
    InsertBare(t, es, k, v);
    EntryLeft(t, l, p, c, open, s.env, s2.env, k, v, Agg(ws));
    var e := Leave(s.env, Store(p, s2.env, Agg(ws)), {LoopI} + Locals(InsertEntry(t, l, c)));
    HoldsAssigned(l, p, Agg(es), Agg(ws), s.env, e, c, open, c, open);
  }

  lemma {:induction false} EntriesBare(t: Type, l: LVal, p: Path, j: nat, n: nat, c: nat, open: bool, s: State,
                                       es: seq<Value>)
    requires t.Pair? && Shaped(t) && AllBare(t, es) && NotIndexedBy(l, p.root)
    requires Holds(l, p, Agg(es), s.env, c, open) && BareVars(t, s.env, c)
    ensures BaresList(t, s, EachIdx(LoopI, j, n, InsertEntry(t, l, c), s), p, c, open)
    decreases t, 2, if j < n then n - j else 0
  {
    if j >= n {
      PutSame(s.env[p.root].v, p.steps);
      assert Assigned(s.env, s.env, p, Agg(es), c, open);
    } else {
      var (body, s1) := (InsertEntry(t, l, c), s.(env := s.env[LoopI := Obj(Atom(Num(j)))]));
      var ws := EntryPut(t, l, p, j, c, open, s, es);
      if Exec(body, s1).Some? {
        var s2 := Exec(body, s1).value;
        var s3 := s2.(env := Leave(s.env, s2.env, {LoopI} + Locals(body)));
        EntriesBare(t, l, p, j + 1, n, c, open, s3, ws);
        ListAfter(t, s, s3, EachIdx(LoopI, j + 1, n, body, s3), p, Agg(ws), c, open);
      }
    }
  }

  /** A block of bare elements, of whatever length. */
  ghost predicate BaresList(u: Type, s: State, r: Option<State>, p: Path, c: nat, open: bool) {
    r.Some? ==> exists ws :: AllBare(u, ws) && Assigned(s.env, r.value.env, p, Agg(ws), c, open)
  }

  lemma ListAfter(u: Type, s: State, s1: State, r: Option<State>, p: Path, v: Value, c: nat, open: bool)
    requires Load(p, s.env).Some? && Assigned(s.env, s1.env, p, v, c, open)
    requires BaresList(u, s1, r, p, c, open)
    ensures BaresList(u, s, r, p, c, open)
  {
    if r.Some? {
      var ws :| AllBare(u, ws) && Assigned(s1.env, r.value.env, p, Agg(ws), c, open);
      AssignedTwice(s.env, s1.env, r.value.env, p, v, Agg(ws), c, open, c, open);
    }
  }

  lemma {:induction false} MapLoopBares(u: Type, l: LVal, c: nat, open: bool, s: State, p: Path, es: seq<Value>)
    requires u.Pair? && Shaped(u) && NotIndexedBy(l, p.root)
    requires Holds(l, p, Agg(es), s.env, c, open) && BareVars(u, s.env, c)
    ensures BaresList(u, s, Exec(MapTail(u, l, c), s), p, c, open)
    decreases u, 4
  {
    var (sz, loop) := (Of(ElemSize(c)), ForIdx(LoopI, Of(ElemSize(c)), InsertEntry(u, l, c)));
    ClearedBares(u, l, c, open, s.(depth := s.depth + 1), p, es);
    BracketEnv(sz, [Clear(l)] + [loop], s);
    assert MapTail(u, l, c) == [Push(sz)] + ([Clear(l)] + [loop]) + [Pop];
  }

  lemma {:induction false} ClearedBares(u: Type, l: LVal, c: nat, open: bool, s: State, p: Path, es: seq<Value>)
    requires u.Pair? && Shaped(u) && NotIndexedBy(l, p.root)
    requires Holds(l, p, Agg(es), s.env, c, open) && BareVars(u, s.env, c)
    ensures
      var loop := ForIdx(LoopI, Of(ElemSize(c)), InsertEntry(u, l, c));
      BaresList(u, s, Exec([Clear(l)] + [loop], s), p, c, open)
    decreases u, 3
  {
    var (sz, s1) := (Of(ElemSize(c)), s.(env := Store(p, s.env, Agg([]))));
    var loop := ForIdx(LoopI, sz, InsertEntry(u, l, c));
    Cleared(l, c, open, s, p, es);
    ExecOne(loop, s1);
    ExecConcat([Clear(l)], [loop], s);
    if SizeVal(sz, s1.env).Some? {
      EntriesBare(u, l, p, 0, SizeVal(sz, s1.env).value, c, open, s1, []);
    }
    ListAfter(u, s, s1, Step(loop, s1), p, Agg([]), c, open);
  }

  lemma {:induction false} MapBares(t: Type, l: LVal, c: nat, open: bool, s: State, p: Path, es: seq<Value>)
    requires t.Container? && Shaped(t) && t.elem.Pair? && Bare(t, Agg(es)) && Holds(l, p, Agg(es), s.env, c, open)
    requires NotIndexedBy(l, p.root)
    ensures Bares(t, s, Exec(DeMarshalCode(t, l, None, c).0, s), p, c, open)
    decreases t, 1
  {
    MapCode(t, l, c);
    MapPartsBare(t, l, c, open, s, p, es);
  }

  lemma {:induction false} MapPartsBare(t: Type, l: LVal, c: nat, open: bool, s: State, p: Path, es: seq<Value>)
    requires t.Container? && Shaped(t) && t.elem.Pair? && Holds(l, p, Agg(es), s.env, c, open)
    requires NotIndexedBy(l, p.root)
    ensures Bares(t, s, Exec(MapHead(t.elem, c) + MapTail(t.elem, l, c), s), p, c, open)
    decreases t, 0
  {
    var (u, head, tail) := (t.elem, MapHead(t.elem, c), MapTail(t.elem, l, c));
    MapHeadSpares(u, c, open, s);
    ExecConcat(head, tail, s);
    if Exec(head, s).Some? {
      var s1 := Exec(head, s).value;
      StillHolds(l, p, Agg(es), s.env, s1.env, c, open, c, open);
      DefaultBare(u.key);
      DefaultBare(u.value);
      MapLoopBares(u, l, c, open, s1, p, es);
      MapIs(t, s, s1, Exec(tail, s1), p, c, open);
    }
  }

  lemma MapIs(t: Type, s: State, s1: State, r: Option<State>, p: Path, c: nat, open: bool)
    requires t.Container? && Kept(s.env, s1.env, c, open) && Older(p.root, c, open)
    requires BaresList(t.elem, s1, r, p, c, open)
    ensures Bares(t, s, r, p, c, open)
  {
    if r.Some? {
      var ws :| AllBare(t.elem, ws) && Assigned(s1.env, r.value.env, p, Agg(ws), c, open);
      AfterKept(s.env, s1.env, r.value.env, p, Agg(ws), c, open);
      assert BareAs(t, Agg(ws));
    }
  }
}
