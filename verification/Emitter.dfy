/** The generators as the compiler runs them: appending to one output and counting in
    one counter. */
module Emitter {
  import opened Types
  import opened Emit

  class Generator {
    var output: Code
    var counter: nat    // DataType::counter

    constructor ()
      ensures output == [] && counter == 0
    {
      output, counter := [], 0;
    }

    method Append(code: Code)
      modifies this`output
      ensures output == old(output) + code
    {
      output := output + code;
    }

    /** Emits the code of a loop body on the side. */
    method MarshalBody(t: Type, l: LVal) returns (body: Code)
      modifies this
      ensures output == old(output)
      ensures (body, counter) == MarshalCode(t, l, None, old(counter))
      decreases t, 1
    {
      var outer := output;
      output := [];
      Marshal(t, l, None);
      assert [] + MarshalCode(t, l, None, old(counter)).0 == MarshalCode(t, l, None, old(counter)).0;
      body := output;
      output := outer;
    }

    method Marshal(t: Type, l: LVal, sz: Option<Size>)
      modifies this
      ensures output == old(output) + MarshalCode(t, l, sz, old(counter)).0
      ensures counter == MarshalCode(t, l, sz, old(counter)).1
      decreases t, 0
    {
      match t {
        case Void =>
        case Std(_) => Append(StdOut(l, Sz(sz)));
        case ParClass(_) => Append(StdOut(l, One));
        case Alias(u) => Marshal(u, l, sz);
        case Struct(ts) => MarshalAttributes(ts, l);
        case Array(n, u) =>
          var s := ArraySize(n, sz);
          if !ArrayLoops(u, s) {
            Marshal(u, First(l), Some(s));
          } else {
            var x := PopElem(counter);
            var body := MarshalBody(u, Star(x));
            Append([Push(s), ForPtr(x, l, s, body), Pop]);
            counter := counter + 1;
          }
        case Ptr(_, u) =>
          if IsStandard(u) || sz.None? || sz == Some(One) {
            Marshal(u, First(l), sz);
          } else {
            var body := MarshalBody(u, At(l, PopItem));
            Append([Push(sz.value), ForIdx(PopItem, sz.value, body), Pop]);
          }
        case Container(k, u) =>
          var c := counter;
          counter := counter + 1;
          var body := MarshalBody(u, Star(Iterator(k, c)));
          Append(ContainerOut(k, u, l, body, c));
        case Pair(a, b) =>
          ghost var was := output;
          Marshal(a, Mem(l, 0), None);
          Marshal(b, Mem(l, 1), None);
          assert output == was + MarshalCode(t, l, sz, old(counter)).0;
      }
    }

    /** The attribute loop of a struct. */
    method MarshalAttributes(ts: seq<Type>, l: LVal)
      modifies this
      ensures output == old(output) + [Push(One)] + MarshalFields(ts, l, 0, old(counter)).0 + [Pop]
      ensures counter == MarshalFields(ts, l, 0, old(counter)).1
      decreases ts, 0
    {
      Append([Push(One)]);
      ghost var (start, c) := (output, counter);
      var i := 0;
      while i < |ts|
        invariant 0 <= i <= |ts|
        invariant counter == MarshalFields(ts[..i], l, 0, c).1
        invariant output == start + MarshalFields(ts[..i], l, 0, c).0
      {
        FieldsAppend(ts[..i], ts[i], l, 0, c);
        assert ts[..i + 1] == ts[..i] + [ts[i]];
        Marshal(ts[i], Mem(l, i), None);
        i := i + 1;
      }
      assert ts[..i] == ts;
      Append([Pop]);
    }

    method DeMarshalBody(t: Type, l: LVal) returns (body: Code)
      modifies this
      ensures output == old(output)
      ensures (body, counter) == DeMarshalCode(t, l, None, old(counter))
      decreases t, 1
    {
      var outer := output;
      output := [];
      DeMarshal(t, l, None);
      assert [] + DeMarshalCode(t, l, None, old(counter)).0 == DeMarshalCode(t, l, None, old(counter)).0;
      body := output;
      output := outer;
    }

    method DeMarshal(t: Type, l: LVal, sz: Option<Size>)
      modifies this
      ensures output == old(output) + DeMarshalCode(t, l, sz, old(counter)).0
      ensures counter == DeMarshalCode(t, l, sz, old(counter)).1
      decreases t, 0
    {
      match t {
        case Void =>
        case Std(_) => Append(StdIn(l, Sz(sz)));
        case ParClass(_) => Append(StdIn(l, One));
        case Alias(u) => DeMarshal(u, l, sz);
        case Struct(ts) => DeMarshalAttributes(ts, l);
        case Array(n, u) =>
          var s := ArraySize(n, sz);
          if !ArrayLoops(u, s) {
            DeMarshal(u, First(l), Some(s));
          } else {
            var x := PopElem(counter);
            var body := DeMarshalBody(u, Star(x));
            Append([Push(s), ForPtr(x, l, s, body), Pop]);
            counter := counter + 1;
          }
        case Ptr(_, u) =>
          if IsStandard(u) || sz.None? || sz == Some(One) {
            DeMarshal(u, First(l), sz);
          } else {
            var body := DeMarshalBody(u, At(l, PopItem));
            Append([Push(sz.value), ForIdx(PopItem, sz.value, body), Pop]);
          }
        case Container(k, u) => DeMarshalContainer(k, u, l);
        case Pair(a, b) =>
          ghost var was := output;
          DeMarshal(a, Mem(l, 0), None);
          DeMarshal(b, Mem(l, 1), None);
          assert output == was + DeMarshalCode(t, l, sz, old(counter)).0;
      }
    }

    /** The code of a template. */
    method DeMarshalContainer(k: Stl, u: Type, l: LVal)
      modifies this
      ensures output == old(output) + DeMarshalCode(Container(k, u), l, None, old(counter)).0
      ensures counter == DeMarshalCode(Container(k, u), l, None, old(counter)).1
      decreases u, 2
    {
      var c := counter;
      counter := counter + 1;
      if k.Map? && u.Pair? {
        var key := DeMarshalBody(u.key, Var(ElemKey(c)));
        var value := DeMarshalBody(u.value, Var(ElemValue(c)));
        Append(MapIn(u, l, key + value, c));
      } else {
        var body := DeMarshalBody(u, Star(Elem(c)));
        Append(ListIn(k, u, l, body, c));
      }
    }

    method DeMarshalAttributes(ts: seq<Type>, l: LVal)
      modifies this
      ensures output == old(output) + [Push(One)] + DeMarshalFields(ts, l, 0, old(counter)).0 + [Pop]
      ensures counter == DeMarshalFields(ts, l, 0, old(counter)).1
      decreases ts, 0
    {
      Append([Push(One)]);
      ghost var (start, c) := (output, counter);
      var i := 0;
      while i < |ts|
        invariant 0 <= i <= |ts|
        invariant counter == DeMarshalFields(ts[..i], l, 0, c).1
        invariant output == start + DeMarshalFields(ts[..i], l, 0, c).0
      {
        DeFieldsAppend(ts[..i], ts[i], l, 0, c);
        assert ts[..i + 1] == ts[..i] + [ts[i]];
        DeMarshal(ts[i], Mem(l, i), None);
        i := i + 1;
      }
      assert ts[..i] == ts;
      Append([Pop]);
    }
  }

  /** One more attribute is emitted with the counter the earlier ones left. */
  lemma {:induction false} FieldsAppend(ts: seq<Type>, t: Type, l: LVal, i: nat, c: nat)
    ensures var (code, d) := MarshalFields(ts, l, i, c);
      var (last, e) := MarshalCode(t, Mem(l, i + |ts|), None, d);
      MarshalFields(ts + [t], l, i, c) == (code + last, e)
    decreases |ts|
  {
    if ts == [] {
      assert ts + [t] == [t] && [t][1..] == [];
      var (last, e) := MarshalCode(t, Mem(l, i), None, c);
      assert MarshalFields([], l, i + 1, e) == ([], e);
      assert [] + last == last + [] == last;
    } else {
      assert (ts + [t])[0] == ts[0] && (ts + [t])[1..] == ts[1..] + [t];
      var (head, d) := MarshalCode(ts[0], Mem(l, i), None, c);
      FieldsAppend(ts[1..], t, l, i + 1, d);
      var (tail, e) := MarshalFields(ts[1..], l, i + 1, d);
      var last := MarshalCode(t, Mem(l, i + |ts|), None, e).0;
      assert head + (tail + last) == (head + tail) + last;
    }
  }

  lemma {:induction false} DeFieldsAppend(ts: seq<Type>, t: Type, l: LVal, i: nat, c: nat)
    ensures var (code, d) := DeMarshalFields(ts, l, i, c);
      var (last, e) := DeMarshalCode(t, Mem(l, i + |ts|), None, d);
      DeMarshalFields(ts + [t], l, i, c) == (code + last, e)
    decreases |ts|
  {
    if ts == [] {
      assert ts + [t] == [t] && [t][1..] == [];
      var (last, e) := DeMarshalCode(t, Mem(l, i), None, c);
      assert DeMarshalFields([], l, i + 1, e) == ([], e);
      assert [] + last == last + [] == last;
    } else {
      assert (ts + [t])[0] == ts[0] && (ts + [t])[1..] == ts[1..] + [t];
      var (head, d) := DeMarshalCode(ts[0], Mem(l, i), None, c);
      DeFieldsAppend(ts[1..], t, l, i + 1, d);
      var (tail, e) := DeMarshalFields(ts[1..], l, i + 1, d);
      var last := DeMarshalCode(t, Mem(l, i + |ts|), None, e).0;
      assert head + (tail + last) == (head + tail) + last;
    }
  }
}
