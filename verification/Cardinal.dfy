/** Turning the dimensions of an array declarator into the expression for its size. */
module Cardinal {
  import opened Sequences
  import opened Types

  /** The scan: brackets open, inside a string literal, no dimension begun yet. */
  datatype Scan = Scan(open: int, quoted: bool, firstDim: bool)

  /** The characters one round of the scan takes: an escape in a literal is taken whole. */
  function Width(c: char, at: Scan): (n: nat)
    ensures n > 0
  {
    if at.quoted && c == '\\' then 2 else 1
  }

  function After(c: char, at: Scan): Scan {
    if at.quoted && c == '\\' then at
    else if c == '"' then at.(quoted := !at.quoted)
    else if !at.quoted && c == '[' then at.(open := at.open + 1, firstDim := at.firstDim && at.open != 0)
    else if !at.quoted && c == ']' then at.(open := at.open - 1)
    else at
  }

  /** What one round writes for what it takes. */
  function Written(taken: string, at: Scan): string
    requires taken != ""
  {
    if !at.quoted && taken[0] == '[' && at.open == 0 then (if at.firstDim then "(" else "*(")
    else if !at.quoted && taken[0] == ']' && at.open == 1 then ")"
    else taken
  }

  /** s ends inside no escape. */
  predicate Whole(s: string, at: Scan)
    decreases |s|
  {
    s != "" ==> |s| >= Width(s[0], at) && Whole(s[Width(s[0], at)..], After(s[0], at))
  }

  function Converted(s: string, at: Scan): string
    requires Whole(s, at)
    decreases |s|
  {
    if s == "" then ""
    else
      var n := Width(s[0], at);
      Written(s[..n], at) + Converted(s[n..], After(s[0], at))
  }

  /** `None` where the scan steps over the end of the text: exactly if that ends inside an escape. */
  method GetCardinalSize(cardinal: string) returns (size: Option<string>)
    ensures size.Some? <==> Whole(cardinal, Scan(0, false, true))
    ensures size.Some? ==> size.value == Converted(cardinal, Scan(0, false, true))
  {
    var out := "";
    var openBracket, ignore, firstDim, i := 0, false, true, 0;
    while i < |cardinal|
      invariant i <= |cardinal|
      invariant GoesOn(cardinal, out, cardinal[i..], Scan(openBracket, ignore, firstDim))
    {
      ghost var (rest, at, before) := (cardinal[i..], Scan(openBracket, ignore, firstDim), out);
      var c := cardinal[i];
      if ignore && c == '\\' && i + 1 == |cardinal| { return None; }
      ghost var wrote := Written(rest[..Width(c, at)], at);
      if ignore && c == '\\' {
        out := out + [c];
        i := i + 1;
        out := out + [cardinal[i]];
        assert wrote == [c] + [cardinal[i]];
      } else if c == '"' {
        ignore := !ignore;
        out := out + [c];
        assert wrote == [c];
      } else if !ignore && c == '[' {
        if openBracket == 0 {
          if !firstDim {
            out := out + ['*'];
          } else {
            firstDim := false;
          }
          out := out + ['('];
          assert wrote == (if at.firstDim then [] else ['*']) + ['('];
        } else {
          out := out + [c];
          assert wrote == [c];
        }
        openBracket := openBracket + 1;
      } else if !ignore && c == ']' {
        openBracket := openBracket - 1;
        out := out + [if openBracket == 0 then ')' else c];
        assert wrote == [if at.open == 1 then ')' else c];
      } else {
        out := out + [c];
        assert wrote == [c];
      }
      i := i + 1;
      assert Scan(openBracket, ignore, firstDim) == After(c, at);
      assert out == before + wrote;
      assert cardinal[i..] == rest[Width(c, at)..];
      OneRound(cardinal, before, rest, at);
    }
    return Some(out);
  }

  /** What is written when `rest` is still to be scanned. */
  ghost predicate GoesOn(cardinal: string, out: string, rest: string, at: Scan) {
    var start := Scan(0, false, true);
    && (Whole(cardinal, start) <==> Whole(rest, at))
    && (Whole(cardinal, start) ==> out + Converted(rest, at) == Converted(cardinal, start))
  }

  lemma OneRound(cardinal: string, out: string, s: string, at: Scan)
    requires s != "" && Width(s[0], at) <= |s| && GoesOn(cardinal, out, s, at)
    ensures
      var n := Width(s[0], at);
      GoesOn(cardinal, out + Written(s[..n], at), s[n..], After(s[0], at))
  {
    var n := Width(s[0], at);
    if Whole(s, at) {
      Assoc(out, Written(s[..n], at), Converted(s[n..], After(s[0], at)));
    }
  }

  // ---------------------------------------------------------------- dimensions

  /** The rest of a dimension: every bracket outside string literals has its partner, and the
      dimension's own bracket stays open. */
  predicate Balanced(e: string, at: Scan)
    decreases |e|
  {
    at.open >= 1
    && if e == "" then at.open == 1 && !at.quoted
       else |e| >= Width(e[0], at) && Balanced(e[Width(e[0], at)..], After(e[0], at))
  }

  /** A dimension, from its opening bracket on. */
  const Inside := Scan(1, false, false)
  const Outside := Scan(0, false, false)

  /** The declarator's text: every dimension in brackets. */
  function Brackets(dims: seq<string>): string {
    if dims == [] then "" else "[" + dims[0] + "]" + Brackets(dims[1..])
  }

  /** The product: every dimension in parentheses. */
  function Product(dims: seq<string>): string {
    if dims == [] then ""
    else "(" + dims[0] + ")" + (if |dims| == 1 then "" else "*") + Product(dims[1..])
  }

  lemma TakenAlike(e: string, more: string, n: nat)
    requires n <= |e|
    ensures (e + more)[..n] == e[..n] && (e + more)[n..] == e[n..] + more
  {
  }

  /** The scan copies a dimension, closes its parenthesis and goes on. */
  lemma {:induction false} DimensionCopied(e: string, rest: string, at: Scan)
    requires Balanced(e, at) && !at.firstDim && Whole(rest, Outside)
    ensures Whole(e + ("]" + rest), at)
    ensures Converted(e + ("]" + rest), at) == e + (")" + Converted(rest, Outside))
    decreases |e|
  {
    var (more, tail) := ("]" + rest, ")" + Converted(rest, Outside));
    if e == "" {
      assert e + more == more && more[1..] == rest && more[..1] == "]";
      assert After(']', at) == Outside;
    } else {
      var n := Width(e[0], at);
      DimensionCopied(e[n..], rest, After(e[0], at));
      InsideKept(e[..n], at);
      OneCopied(e, more, at, e[n..] + tail);
      Assoc(e[..n], e[n..], tail);
      CutJoined(e, n);
    }
  }

  lemma CutJoined(e: string, n: nat)
    requires n <= |e|
    ensures e[..n] + e[n..] == e
  {
  }

  /** One round that copies what it takes. */
  lemma OneCopied(e: string, more: string, at: Scan, next: string)
    requires e != "" && Width(e[0], at) <= |e| && Written(e[..Width(e[0], at)], at) == e[..Width(e[0], at)]
    requires
      var n := Width(e[0], at);
      Whole(e[n..] + more, After(e[0], at)) && Converted(e[n..] + more, After(e[0], at)) == next
    ensures Whole(e + more, at) && Converted(e + more, at) == e[..Width(e[0], at)] + next
  {
    TakenAlike(e, more, Width(e[0], at));
  }

  /** Within a dimension the scan copies what it takes, as long as it does not close it. */
  lemma InsideKept(taken: string, at: Scan)
    requires taken != "" && at.open >= 1 && After(taken[0], at).open >= 1
    ensures Written(taken, at) == taken
  {
  }

  lemma DimensionOpened(s: string, firstDim: bool)
    requires Whole(s, Inside)
    ensures Whole("[" + s, Scan(0, false, firstDim))
    ensures Converted("[" + s, Scan(0, false, firstDim)) == (if firstDim then "(" else "*(") + Converted(s, Inside)
  {
    assert ("[" + s)[1..] == s && ("[" + s)[..1] == "[";
    assert After('[', Scan(0, false, firstDim)) == Inside;
  }

  lemma {:induction false} BracketsConverted(dims: seq<string>, firstDim: bool)
    requires forall e <- dims :: Balanced(e, Inside)
    ensures Whole(Brackets(dims), Scan(0, false, firstDim))
    ensures Converted(Brackets(dims), Scan(0, false, firstDim))
         == (if dims == [] || firstDim then "" else "*") + Product(dims)
    decreases |dims|
  {
    if dims != [] {
      var (e, rest) := (dims[0], Brackets(dims[1..]));
      BracketsConverted(dims[1..], false);
      DimensionCopied(e, rest, Inside);
      DimensionOpened(e + ("]" + rest), firstDim);
      assert Brackets(dims) == "[" + (e + ("]" + rest));
      Joined(e, dims, firstDim);
    }
  }

  lemma Flat(a: string, b: string, c: string, d: string, e: string)
    ensures a + b + c + d + e == a + (b + (c + (d + e)))
  {
  }

  lemma Joined(e: string, dims: seq<string>, firstDim: bool)
    requires dims != [] && e == dims[0]
    ensures (if firstDim then "(" else "*(")
            + (e + (")" + ((if |dims| == 1 then "" else "*") + Product(dims[1..]))))
         == (if firstDim then "" else "*") + Product(dims)
  {
    var star := if |dims| == 1 then "" else "*";
    var tail := e + (")" + (star + Product(dims[1..])));
    assert Product(dims) == "(" + tail by {
      Flat("(", e, ")", star, Product(dims[1..]));
    }
    assert "" + ("(" + tail) == "(" + tail;
    Assoc("*", "(", tail);
    assert "*" + "(" == "*(";
  }

  lemma {:induction false} ProductLength(dims: seq<string>)
    requires dims != []
    ensures |Product(dims)| == |Brackets(dims)| + |dims| - 1
    decreases |dims|
  {
    if |dims| > 1 {
      ProductLength(dims[1..]);
    }
  }

  /** For k dimensions the size is their product, k - 1 characters longer than the declarator. */
  lemma CardinalIsProduct(dims: seq<string>)
    requires dims != [] && forall e <- dims :: Balanced(e, Inside)
    ensures Whole(Brackets(dims), Scan(0, false, true))
    ensures
      var size := Converted(Brackets(dims), Scan(0, false, true));
      size == Product(dims) && |size| == |Brackets(dims)| + |dims| - 1
  {
    BracketsConverted(dims, true);
    ProductLength(dims);
  }

  // ---------------------------------------------------------------- what a dimension may look like

  /** Inside a string literal: a character, or one behind a backslash. */
  datatype Lit = Chr(c: char) | Esc(c: char)

  /** In a dimension: a character, a string literal, or something in brackets. */
  datatype Piece = Other(c: char) | Quoted(items: seq<Lit>) | Group(inner: seq<Piece>)

  predicate WellWritten(x: Piece)
    decreases x
  {
    match x
    case Other(c) => c != '"' && c != '[' && c != ']'
    case Quoted(items) => forall i :: 0 <= i < |items| && items[i].Chr? ==> items[i].c != '"' && items[i].c != '\\'
    case Group(inner) => forall i :: 0 <= i < |inner| ==> WellWritten(inner[i])
  }

  function LitText(items: seq<Lit>): string {
    if items == [] then ""
    else (if items[0].Chr? then [items[0].c] else ['\\', items[0].c]) + LitText(items[1..])
  }

  function Text(x: Piece): string
    decreases x, 0
  {
    match x
    case Other(c) => [c]
    case Quoted(items) => "\"" + LitText(items) + "\""
    case Group(inner) => "[" + TextOf(inner) + "]"
  }

  function TextOf(xs: seq<Piece>): string
    decreases xs, 1
  {
    if xs == [] then "" else Text(xs[0]) + TextOf(xs[1..])
  }

  /** One character that the scan takes alone. */
  lemma TakesOne(c: char, rest: string, at: Scan)
    requires at.open >= 1 && !(at.quoted && c == '\\') && Balanced(rest, After(c, at))
    ensures Balanced([c] + rest, at)
  {
    assert ([c] + rest)[1..] == rest;
  }

  lemma Around(a: string, mid: string, b: string, rest: string)
    ensures a + mid + b + rest == a + (mid + (b + rest))
  {
  }

  /** An escape is taken whole. */
  lemma TakesEscape(c: char, rest: string, at: Scan)
    requires at.open >= 1 && at.quoted && Balanced(rest, at)
    ensures Balanced(['\\', c] + rest, at)
  {
    assert (['\\', c] + rest)[2..] == rest;
  }

  lemma {:induction false} LitBalanced(items: seq<Lit>, rest: string, at: Scan)
    requires forall i :: 0 <= i < |items| && items[i].Chr? ==> items[i].c != '"' && items[i].c != '\\'
    requires at.open >= 1 && at.quoted && Balanced(rest, at)
    ensures Balanced(LitText(items) + rest, at)
    decreases |items|
  {
    if items == [] {
      assert LitText(items) + rest == rest;
    } else {
      var more := LitText(items[1..]) + rest;
      LitBalanced(items[1..], rest, at);
      if items[0].Chr? {
        TakesOne(items[0].c, more, at);
        Assoc([items[0].c], LitText(items[1..]), rest);
      } else {
        TakesEscape(items[0].c, more, at);
        Assoc(['\\', items[0].c], LitText(items[1..]), rest);
      }
    }
  }

  lemma {:induction false} PieceBalanced(x: Piece, rest: string, at: Scan)
    requires WellWritten(x) && at.open >= 1 && !at.quoted && Balanced(rest, at)
    ensures Balanced(Text(x) + rest, at)
    decreases x, 0
  {
    match x
    case Other(c) => TakesOne(c, rest, at);
    case Quoted(items) => QuotedBalanced(items, rest, at);
    case Group(inner) =>
      var inside := at.(open := at.open + 1);
      TakesOne(']', rest, inside);
      PiecesBalanced(inner, "]" + rest, inside);
      Enclosed(TextOf(inner), rest, at);
  }

  lemma QuotedBalanced(items: seq<Lit>, rest: string, at: Scan)
    requires forall i :: 0 <= i < |items| && items[i].Chr? ==> items[i].c != '"' && items[i].c != '\\'
    requires at.open >= 1 && !at.quoted && Balanced(rest, at)
    ensures Balanced("\"" + LitText(items) + "\"" + rest, at)
  {
    var inside := at.(quoted := true);
    TakesOne('"', rest, inside);
    LitBalanced(items, "\"" + rest, inside);
    TakesOne('"', LitText(items) + ("\"" + rest), at);
    Around("\"", LitText(items), "\"", rest);
  }

  lemma Enclosed(mid: string, rest: string, at: Scan)
    requires at.open >= 1 && !at.quoted && Balanced(mid + ("]" + rest), at.(open := at.open + 1))
    ensures Balanced("[" + mid + "]" + rest, at)
  {
    TakesOne('[', mid + ("]" + rest), at);
    Around("[", mid, "]", rest);
  }

  lemma {:induction false} PiecesBalanced(xs: seq<Piece>, rest: string, at: Scan)
    requires (forall i :: 0 <= i < |xs| ==> WellWritten(xs[i])) && at.open >= 1 && !at.quoted && Balanced(rest, at)
    ensures Balanced(TextOf(xs) + rest, at)
    decreases xs, 1
  {
    if xs == [] {
      assert TextOf(xs) + rest == rest;
    } else {
      PiecesBalanced(xs[1..], rest, at);
      PieceBalanced(xs[0], TextOf(xs[1..]) + rest, at);
      Assoc(Text(xs[0]), TextOf(xs[1..]), rest);
    }
  }

  /** Every dimension, of whatever characters, string literals and nested brackets, goes into the
      product as it is written. */
  lemma WrittenDimensions(dims: seq<seq<Piece>>)
    requires dims != [] && forall d <- dims :: forall i :: 0 <= i < |d| ==> WellWritten(d[i])
    ensures
      var texts := seq(|dims|, i requires 0 <= i < |dims| => TextOf(dims[i]));
      && Whole(Brackets(texts), Scan(0, false, true))
      && Converted(Brackets(texts), Scan(0, false, true)) == Product(texts)
  {
    var texts := seq(|dims|, i requires 0 <= i < |dims| => TextOf(dims[i]));
    forall e | e in texts ensures Balanced(e, Inside) {
      var i :| 0 <= i < |dims| && e == texts[i];
      assert dims[i] in dims;
      PiecesBalanced(dims[i], "", Inside);
      assert TextOf(dims[i]) + "" == e;
    }
    CardinalIsProduct(texts);
  }
}
