/** How a byte stream is dealt over the strips of a parallel file: blocks of B bytes,
    round robin over N strips. */
module Layout {

  lemma MulMono(x: int, y: int, d: int)
    requires d >= 0 && x <= y
    ensures x * d <= y * d
  {
    assert (y - x) * d >= 0;
  }

  lemma MulLess(x: int, y: int, d: int)
    requires d >= 0
    ensures x < y ==> x * d + d <= y * d
  {
    if x < y {
      MulMono(x + 1, y, d);
      assert (x + 1) * d == x * d + d;
    }
  }

  lemma DivUnique(x: int, d: int, q: int, r: int)
    requires d > 0 && x == q * d + r && 0 <= r < d
    ensures x / d == q && x % d == r
  {
    var y := x / d;
    assert x == y * d + x % d;
    MulLess(y, q, d);
    MulLess(q, y, d);
  }

  /** The place of byte p inside its block. */
  function Within(p: nat, b: nat): (r: nat)
    requires b > 0
    ensures r < b
  {
    if p < b then p else Within(p - b, b)
  }

  /** Round robin. */
  function Next(i: nat, n: nat): nat
    requires i < n
  {
    if i + 1 == n then 0 else i + 1
  }

  /** The strip byte p belongs to: one strip further for every block before it. */
  function Home(p: nat, b: nat, n: nat): (r: nat)
    requires b > 0 && n > 0
    ensures r < n
  {
    if p < b then 0 else Next(Home(p - b, b, n), n)
  }

  lemma {:induction false} WithinIsMod(p: nat, b: nat)
    requires b > 0
    ensures Within(p, b) == p % b
  {
    if p < b {
      DivUnique(p, b, 0, p);
    } else {
      WithinIsMod(p - b, b);
      DivUnique(p, b, (p - b) / b + 1, (p - b) % b);
    }
  }

  lemma NextIsMod(i: nat, n: nat)
    requires n > 0
    ensures Next(i % n, n) == (i + 1) % n
  {
    if i % n + 1 == n {
      assert i + 1 == (i / n + 1) * n + 0;
      DivUnique(i + 1, n, i / n + 1, 0);
    } else {
      DivUnique(i + 1, n, i / n, i % n + 1);
    }
  }

  /** Block k = p / B is dealt to strip k mod N. */
  lemma {:induction false} HomeIsRoundRobin(p: nat, b: nat, n: nat)
    requires b > 0 && n > 0
    ensures Home(p, b, n) == (p / b) % n
  {
    if p < b {
      DivUnique(p, b, 0, p);
      DivUnique(0, n, 0, 0);
    } else {
      HomeIsRoundRobin(p - b, b, n);
      DivUnique(p, b, (p - b) / b + 1, (p - b) % b);
      NextIsMod((p - b) / b, n);
    }
  }

  /** Inside a block the strip stays, and the place advances with the bytes. */
  lemma {:induction false} SameBlock(p: nat, v: nat, b: nat, n: nat)
    requires b > 0 && n > 0 && Within(p, b) + v < b
    ensures Within(p + v, b) == Within(p, b) + v && Home(p + v, b, n) == Home(p, b, n)
  {
    if p >= b {
      SameBlock(p - b, v, b, n);
    }
  }

  /** A whole block later the next strip is current and a fresh block begins. */
  lemma {:induction false} NextBlock(p: nat, v: nat, b: nat, n: nat)
    requires b > 0 && n > 0 && Within(p, b) + v == b
    ensures Within(p + v, b) == 0 && Home(p + v, b, n) == Next(Home(p, b, n), n)
  {
    if p >= b {
      NextBlock(p - b, v, b, n);
    }
  }

  /** The bytes of d that belong to strip s, in order. */
  function Strip(d: string, b: nat, n: nat, s: nat): string
    requires b > 0 && n > 0
  {
    if d == "" then ""
    else Strip(d[..|d| - 1], b, n, s) + if Home(|d| - 1, b, n) == s then [d[|d| - 1]] else ""
  }

  /** All strips of d. */
  function Dealt(d: string, b: nat, n: nat): (r: seq<string>)
    requires b > 0 && n > 0
    ensures |r| == n && forall i :: 0 <= i < n ==> r[i] == Strip(d, b, n, i)
  {
    seq(n, i requires 0 <= i < n => Strip(d, b, n, i))
  }

  /** The bytes below p in strip s. */
  function Length(p: nat, b: nat, n: nat, s: nat): nat
    requires b > 0 && n > 0
  {
    if p == 0 then 0 else Length(p - 1, b, n, s) + if Home(p - 1, b, n) == s then 1 else 0
  }

  lemma {:induction false} StripLength(d: string, b: nat, n: nat, s: nat)
    requires b > 0 && n > 0
    ensures |Strip(d, b, n, s)| == Length(|d|, b, n, s)
    decreases |d|
  {
    if d != "" {
      StripLength(d[..|d| - 1], b, n, s);
    }
  }

  lemma StripSnoc(d: string, c: char, b: nat, n: nat, s: nat)
    requires b > 0 && n > 0
    ensures Strip(d + [c], b, n, s) == Strip(d, b, n, s) + if Home(|d|, b, n) == s then [c] else ""
  {
    assert (d + [c])[..|d|] == d;
  }

  /** Byte p of the stream is found in its strip, right behind the strip's earlier bytes. */
  lemma {:induction false} StripByte(d: string, b: nat, n: nat, p: nat)
    requires b > 0 && n > 0 && p < |d|
    ensures
      var s := Home(p, b, n);
      Length(p, b, n, s) < |Strip(d, b, n, s)| && Strip(d, b, n, s)[Length(p, b, n, s)] == d[p]
    decreases |d|
  {
    var (s, last) := (Home(p, b, n), |d| - 1);
    if p == last {
      StripLength(d[..last], b, n, s);
    } else {
      StripByte(d[..last], b, n, p);
    }
  }

  lemma LengthWithin(p: nat, v: nat, b: nat, n: nat, s: nat)
    requires b > 0 && n > 0 && Within(p, b) + v <= b
    ensures Length(p + v, b, n, s) == Length(p, b, n, s) + if Home(p, b, n) == s then v else 0
  {
    if v > 0 {
      LengthWithin(p, v - 1, b, n, s);
      SameBlock(p, v - 1, b, n);
    }
  }

  lemma NextBlockStart(p: nat, b: nat, n: nat, s: nat)
    requires b > 0 && n > 0 && Within(p, b) == 0
    ensures Within(p + b, b) == 0 && Home(p + b, b, n) == Next(Home(p, b, n), n)
    ensures Length(p + b, b, n, s) == Length(p, b, n, s) + if Home(p, b, n) == s then b else 0
  {
    NextBlock(p, b, b, n);
    LengthWithin(p, b, b, n, s);
  }

  lemma NextRound(j: nat, n: nat, b: nat, s: nat)
    requires n > 0 && s < n
    ensures ((j + 1) / n) * b + (if s < (j + 1) % n then b else 0)
         == (j / n) * b + (if s < j % n then b else 0) + if j % n == s then b else 0
  {
    if j % n + 1 == n {
      DivUnique(j + 1, n, j / n + 1, 0);
      assert (j / n + 1) * b == (j / n) * b + b;
    } else {
      DivUnique(j + 1, n, j / n, j % n + 1);
    }
  }

  lemma BlockBefore(k: nat, b: nat, start: nat)
    requires k > 0 && start == k * b
    ensures start - b == (k - 1) * b && start >= b
  {
    MulMono(1, k, b);
  }

  /** Where block k begins: in strip k mod N, behind the k / N blocks dealt to it before. */
  lemma {:induction false} BlockStart(k: nat, b: nat, n: nat, s: nat, start: nat)
    requires b > 0 && n > 0 && s < n && start == k * b
    ensures Within(start, b) == 0 && Home(start, b, n) == k % n
    ensures Length(start, b, n, s) == (k / n) * b + if s < k % n then b else 0
    decreases k
  {
    if k == 0 {
      DivUnique(0, n, 0, 0);
    } else {
      BlockBefore(k, b, start);
      BlockStart(k - 1, b, n, s, start - b);
      NextBlockStart(start - b, b, n, s);
      NextIsMod(k - 1, n);
      NextRound(k - 1, n, b, s);
    }
  }

  lemma {:induction false} LengthGrows(p: nat, q: nat, b: nat, n: nat, s: nat)
    requires b > 0 && n > 0 && p <= q
    ensures Length(p, b, n, s) <= Length(q, b, n, s)
    decreases q
  {
    if p < q {
      LengthGrows(p, q - 1, b, n, s);
    }
  }

  /** The len elements of s from position `at`. */
  predicate Slice(s: string, at: nat, len: nat, v: string) {
    at + len <= |s| && s[at..at + len] == v
  }

  lemma SliceStep(s: string, at: nat, len: nat, v: string, c: char)
    requires Slice(s, at, len, v) && at + len < |s| && s[at + len] == c
    ensures Slice(s, at, len + 1, v + [c])
  {
    assert s[at..at + len + 1] == s[at..at + len] + [s[at + len]];
  }

  lemma {:induction false} PartOfBlock(d: string, b: nat, n: nat, p: nat, len: nat, at: nat, s: nat)
    requires b > 0 && n > 0 && Within(p, b) == 0 && len <= b && p + len <= |d|
    requires s == Home(p, b, n) && at == Length(p, b, n, s)
    ensures Slice(Strip(d, b, n, s), at, len, d[p..p + len])
    decreases len
  {
    if len == 0 {
      StripLength(d, b, n, s);
      LengthGrows(p, |d|, b, n, s);
    } else {
      var o := len - 1;
      PartOfBlock(d, b, n, p, o, at, s);
      SameBlock(p, o, b, n);
      LengthWithin(p, o, b, n, s);
      StripByte(d, b, n, p + o);
      SliceStep(Strip(d, b, n, s), at, o, d[p..p + o], d[p + o]);
      SliceStep(d, p, o, d[p..p + o], d[p + o]);
    }
  }

  /** Block k, which starts at byte k * B of the stream, is contiguous in strip k mod N,
      at offset (k / N) * B. */
  lemma BlockInStrip(d: string, b: nat, n: nat, k: nat, len: nat, start: nat, at: nat)
    requires b > 0 && n > 0 && len <= b && start == k * b && at == (k / n) * b && start + len <= |d|
    ensures Slice(Strip(d, b, n, k % n), at, len, d[start..start + len])
  {
    BlockStart(k, b, n, k % n, start);
    PartOfBlock(d, b, n, start, len, at, k % n);
  }

  /** Writing on inside the current block extends one strip only. */
  lemma {:induction false} StripAppend(d: string, v: string, b: nat, n: nat, s: nat)
    requires b > 0 && n > 0 && Within(|d|, b) + |v| <= b
    ensures Strip(d + v, b, n, s) == Strip(d, b, n, s) + if Home(|d|, b, n) == s then v else ""
    decreases |v|
  {
    if v == "" {
      assert d + v == d;
    } else {
      var m := |v| - 1;
      StripAppend(d, v[..m], b, n, s);
      assert d + v == (d + v[..m]) + [v[m]];
      StripSnoc(d + v[..m], v[m], b, n, s);
      SameBlock(|d|, m, b, n);
      assert v == v[..m] + [v[m]];
    }
  }
}
