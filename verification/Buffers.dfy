/** A message buffer: strings packed as C strings, and exceptions sent and thrown again. */
module Buffers {
  import opened CStrings
  import opened Types

  datatype Item = Number(n: int) | Chr(c: char)

  /** The types a scalar exception can have. */
  datatype Kind = Int | UInt | Long | ULong | Short | UShort | Bool | Char | UChar | Float | Double

  /** CharText(None) is a null `char *`. */
  datatype Thrown =
    | Scalar(kind: Kind, value: int)
    | CharText(text: Option<string>)
    | Exception(code: int, info: string)

  /** What the header of a message says about it. */
  datatype Header = Reply | ScalarThrown(kind: Kind) | TextThrown | ExceptionThrown

  datatype Outcome = Nothing | Throws(what: Thrown)

  function Chars2Items(s: string): seq<Item> {
    if s == "" then [] else [Chr(s[0])] + Chars2Items(s[1..])
  }

  /** A string: its length with the closing NUL, then as many characters. */
  function PackedString(s: string): seq<Item> {
    [Number(|s| + 1)] + Chars2Items(s + "\0")
  }

  function PackedStrings(list: seq<string>): seq<Item> {
    if list == [] then [] else PackedStrings(list[..|list| - 1]) + PackedString(list[|list| - 1])
  }

  function CStrs(list: seq<string>): seq<string> {
    if list == [] then [] else [CStr(list[0])] + CStrs(list[1..])
  }

  lemma {:induction false} ItemsLength(s: string)
    ensures |Chars2Items(s)| == |s| && forall i :: 0 <= i < |s| ==> Chars2Items(s)[i] == Chr(s[i])
    decreases |s|
  {
    if s != "" {
      ItemsLength(s[1..]);
    }
  }

  lemma {:induction false} CStrClosed(s: string)
    ensures CStr(s + "\0") == CStr(s)
    decreases |s|
  {
    if s != "" {
      assert (s + "\0")[1..] == s[1..] + "\0";
      CStrClosed(s[1..]);
    }
  }

  /** Strings survive if and only if none holds a NUL. */
  lemma {:induction false} CStrsWhole(list: seq<string>)
    ensures CStrs(list) == list <==> forall i :: 0 <= i < |list| ==> NoNul(list[i])
    decreases |list|
  {
    if list != [] {
      CStrsWhole(list[1..]);
      CStrWhole(list[0]);
      assert list == [list[0]] + list[1..];
      assert (forall i :: 0 <= i < |list| ==> NoNul(list[i]))
         <==> NoNul(list[0]) && forall i :: 0 <= i < |list[1..]| ==> NoNul(list[1..][i]) by {
        assert forall i :: 0 < i < |list| ==> list[i] == list[1..][i - 1];
      }
    }
  }

  lemma {:induction false} PackedHead(list: seq<string>)
    requires list != []
    ensures PackedStrings(list) == PackedString(list[0]) + PackedStrings(list[1..])
    decreases |list|
  {
    var init := list[..|list| - 1];
    if |list| > 1 {
      PackedHead(init);
      assert list[1..][..|list| - 2] == init[1..];
      assert PackedString(list[0]) + PackedStrings(init[1..]) + PackedString(list[|list| - 1])
          == PackedString(list[0]) + (PackedStrings(init[1..]) + PackedString(list[|list| - 1]));
    } else {
      assert [] + PackedString(list[0]) == PackedString(list[0]) + [];
    }
  }

  class Buffer {
    var header: Header
    var data: seq<Item>

    constructor ()
      ensures header == Reply && data == []
    {
      header, data := Reply, [];
    }

    method Reset()
      modifies this`data
      ensures data == []
    {
      data := [];
    }

    method PackNum(n: int)
      modifies this`data
      ensures data == old(data) + [Number(n)]
    {
      data := data + [Number(n)];
    }

    method PackChars(s: string)
      modifies this`data
      ensures data == old(data) + Chars2Items(s)
    {
      data := data + Chars2Items(s);
    }

    method UnPackNum() returns (n: int)
      requires data != [] && data[0].Number?
      modifies this`data
      ensures Number(n) == old(data)[0] && data == old(data)[1..]
    {
      n := data[0].n;
      data := data[1..];
    }

    method UnPackChars(len: nat) returns (s: string)
      requires len <= |data| && forall i :: 0 <= i < len ==> data[i].Chr?
      modifies this`data
      ensures Chars2Items(s) == old(data)[..len] && data == old(data)[len..]
    {
      s := seq(len, i requires 0 <= i < len <= |data| && data[i].Chr? reads this => data[i].c);
      ItemsLength(s);
      data := data[len..];
    }

    method PackStrings(list: seq<string>)
      modifies this`data
      ensures data == old(data) + PackedStrings(list)
    {
      var i := 0;
      while i < |list|
        invariant i <= |list| && data == old(data) + PackedStrings(list[..i])
      {
        PackNum(|list[i]| + 1);
        PackChars(list[i] + "\0");
        assert list[..i + 1][..i] == list[..i];
        i := i + 1;
      }
      assert list[..i] == list;
    }

    /** One string from a buffer that begins with a packed one. */
    method UnPackString(ghost was: string, ghost rest: seq<Item>) returns (s: string)
      requires data == PackedString(was) + rest
      modifies this`data
      ensures s == CStr(was) && data == rest
    {
      ItemsLength(was + "\0");
      assert data[1..] == Chars2Items(was + "\0") + rest;
      var len := UnPackNum();
      if len > 0 {
        var tmp := UnPackChars(len);
        SameItems(tmp, was + "\0");
        CStrClosed(was);
        s := CStr(tmp);
      } else {
        s := "";
      }
    }

    /** n strings from a buffer that begins with as many packed ones: each as a C string, and
        nothing of what follows. */
    method UnPackStrings(n: nat, ghost was: seq<string>, ghost rest: seq<Item>) returns (list: seq<string>)
      requires |was| == n && data == PackedStrings(was) + rest
      modifies this`data
      ensures list == CStrs(was) && data == rest
    {
      list := [];
      var i := 0;
      while i < n
        invariant i <= n && data == PackedStrings(was[i..]) + rest && list + CStrs(was[i..]) == CStrs(was)
      {
        PackedHead(was[i..]);
        assert was[i..][1..] == was[i + 1..];
        assert data == PackedString(was[i]) + (PackedStrings(was[i + 1..]) + rest);
        var s := UnPackString(was[i], PackedStrings(was[i + 1..]) + rest);
        list := list + [s];
        i := i + 1;
      }
    }

    method SendException(x: Thrown)
      modifies this
      ensures header == HeaderOf(x) && data == Encoded(x)
    {
      Reset();
      header := HeaderOf(x);
      match x {
        case Scalar(_, value) => PackNum(value);
        case CharText(None) => PackNum(0);
        case CharText(Some(s)) =>
          var shown := CStr(s) + "\0";
          PackNum(|shown|);
          PackChars(shown);
        case Exception(code, info) =>
          PackNum(code);
          PackStrings([info]);
      }
    }

    /** The exception a message carries, if it carries one. */
    method CheckAndThrow(ghost sent: Thrown) returns (r: Outcome)
      requires header != Reply ==> header == HeaderOf(sent) && data == Encoded(sent)
      modifies this`data
      ensures r == if header == Reply then Nothing else Throws(Shown(sent))
      ensures header != Reply ==> data == []
    {
      match header {
        case Reply =>
          r := Nothing;
        case ScalarThrown(kind) =>
          var value := UnPackNum();
          r := Throws(Scalar(kind, value));
        case TextThrown =>
          var len := UnPackNum();
          if len <= 0 {
            r := Throws(CharText(None));
          } else {
            ItemsLength(CStr(sent.text.value) + "\0");
            var t := UnPackChars(len);
            SameItems(t, CStr(sent.text.value) + "\0");
            CStrClosed(CStr(sent.text.value));
            CStrNoNul(sent.text.value);
            CStrWhole(CStr(sent.text.value));
            r := Throws(CharText(Some(CStr(t))));
          }
        case ExceptionThrown =>
          var code := UnPackNum();
          assert data == PackedStrings([sent.info]) + [];
          var info := UnPackStrings(1, [sent.info], []);
          assert [sent.info][1..] == [];
          r := Throws(Exception(code, info[0]));
      }
    }
  }

  lemma SameItems(s: string, t: string)
    requires Chars2Items(s) == Chars2Items(t)
    ensures s == t
  {
    ItemsLength(s);
    ItemsLength(t);
    forall i | 0 <= i < |s| ensures s[i] == t[i] {
      assert Chars2Items(s)[i] == Chars2Items(t)[i];
    }
  }

  function HeaderOf(x: Thrown): Header {
    match x
    case Scalar(kind, _) => ScalarThrown(kind)
    case CharText(_) => TextThrown
    case Exception(_, _) => ExceptionThrown
  }

  function Encoded(x: Thrown): seq<Item> {
    match x
    case Scalar(_, value) => [Number(value)]
    case CharText(None) => [Number(0)]
    case CharText(Some(s)) => [Number(|CStr(s)| + 1)] + Chars2Items(CStr(s) + "\0")
    case Exception(code, info) => [Number(code)] + PackedStrings([info])
  }

  /** What is thrown again: the same, every text as a C string. */
  function Shown(x: Thrown): Thrown {
    match x
    case Scalar(_, _) => x
    case CharText(None) => x
    case CharText(Some(s)) => CharText(Some(CStr(s)))
    case Exception(code, info) => Exception(code, CStr(info))
  }

  /** An exception sent is thrown again, with the same kind and value if its text has no NUL. */
  method Rethrow(x: Thrown) returns (y: Outcome)
    ensures y == Throws(Shown(x))
    ensures y == Throws(x) <==>
      match x
      case Scalar(_, _) => true
      case CharText(None) => true
      case CharText(Some(s)) => NoNul(s)
      case Exception(_, info) => NoNul(info)
  {
    var b := new Buffer();
    b.SendException(x);
    y := b.CheckAndThrow(x);
    match x {
      case CharText(Some(s)) => CStrWhole(s);
      case Exception(_, info) => CStrWhole(info);
      case _ =>
    }
  }
}
