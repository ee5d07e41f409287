/** A byte that a write or a flush drops is never made up for: the layout is kept over a
    history of sessions exactly when no write of it drops anything. */
module PopFileLoss {
  import opened Layout
  import opened CStrings
  import opened PopFile
  import opened PopFileProof

  function Total(q: seq<string>): nat {
    if q == [] then 0 else |q[0]| + Total(q[1..])
  }

  lemma {:induction false} TotalUpdate(q: seq<string>, i: nat, x: string)
    requires i < |q|
    ensures Total(q[i := x]) == Total(q) - |q[i]| + |x|
    decreases |q|
  {
    if i == 0 {
      assert q[i := x] == [x] + q[1..];
    } else {
      assert q[i := x] == [q[0]] + q[1..][i - 1 := x];
      TotalUpdate(q[1..], i - 1, x);
    }
  }

  lemma {:induction false} TotalEmpty(q: seq<string>)
    requires forall i :: 0 <= i < |q| ==> q[i] == ""
    ensures Total(q) == 0
    decreases |q|
  {
    if q != [] {
      TotalEmpty(q[1..]);
    }
  }

  /** Dealing neither drops nor repeats a byte. */
  lemma {:induction false} DealtTotal(d: string, b: nat, n: nat)
    requires b > 0 && n > 0
    ensures Total(Dealt(d, b, n)) == |d|
    decreases |d|
  {
    if d == "" {
      TotalEmpty(Dealt(d, b, n));
    } else {
      var (p, before) := (|d| - 1, Dealt(d[..|d| - 1], b, n));
      var h := Home(p, b, n);
      DealtTotal(d[..p], b, n);
      TotalUpdate(before, h, before[h] + [d[p]]);
      forall i | 0 <= i < n
        ensures Dealt(d, b, n)[i] == before[h := before[h] + [d[p]]][i]
      {
        assert before[i] + "" == before[i];
      }
      assert Dealt(d, b, n) == before[h := before[h] + [d[p]]];
    }
  }

  /** The strips as closing the file now would leave them. */
  function Durable(s: Session): (r: seq<string>)
    requires |s.strips| == |s.bufs|
    ensures |r| == |s.bufs| && forall i :: 0 <= i < |r| ==> r[i] == s.strips[i] + CStr(s.bufs[i].out)
  {
    seq(|s.bufs|, i requires 0 <= i < |s.bufs| => s.strips[i] + CStr(s.bufs[i].out))
  }

  lemma CloseLeavesDurable(s: Session)
    requires Sound(s)
    ensures Close(s).strips == Durable(s)
  {
    assert forall i :: 0 <= i < |s.bufs| ==> Close(s).strips[i] == Durable(s)[i];
  }

  lemma OpenDurable(d: Disk)
    requires Usable(d)
    ensures Durable(Open(d)) == d.strips
  {
    forall i | 0 <= i < |d.strips| ensures Durable(Open(d))[i] == d.strips[i] {
      assert d.strips[i] + "" == d.strips[i];
    }
  }

  lemma PlacedDurable(s: Session, data: string)
    requires Placed(s, data)
    ensures Total(Durable(s)) == |data|
  {
    forall i | 0 <= i < |s.bufs| ensures Durable(s)[i] == Layers(s)[i] {
      CStrWhole(s.bufs[i].out);
    }
    assert Durable(s) == Layers(s);
    DealtTotal(data, s.block, |s.bufs|);
  }

  /** At most so many bytes of v reach the strips. */
  function Landed(v: string, room: nat, block: nat): (r: int)
    requires room > 0 && block > 0
    ensures r <= |v|
  {
    |Stored(v, room, block)| - Hole(v)
  }

  function Hole(v: string): nat {
    if NoNul(v) then 0 else 1
  }

  lemma CStrHole(v: string)
    ensures |CStr(v)| <= |v| - Hole(v)
  {
    CStrWhole(v);
    CStrPrefix(v);
  }

  lemma AddTotal(s: Session, v: string)
    requires Sound(s) && s.first == 0
    ensures
      var piece := if |v| < Room(s) then v else v[..Room(s)];
      Total(Durable(Add(s, v))) <= Total(Durable(s)) + |piece| - Hole(piece)
  {
    var piece := if |v| < Room(s) then v else v[..Room(s)];
    var (t, i, out) := (Add(s, v), s.current, s.bufs[s.current].out);
    CStrJoin(out, piece);
    CStrHole(piece);
    var x := s.strips[i] + CStr(out + piece);
    TotalUpdate(Durable(s), i, x);
    assert x + "" == x;
    assert Durable(t)[i] == x;
    assert Durable(t) == Durable(s)[i := x];
  }

  lemma AdvanceTotal(s: Session)
    requires Sound(s) && s.first == 0 && s.bufs[s.current].out == ""
    ensures Durable(Advance(s)) == Durable(s)
  {
  }

  lemma NarrowedTotal(s: Session, total: nat)
    requires Sound(s)
    ensures Durable(Narrowed(s).(total := total)) == Durable(s)
  {
  }

  lemma HoleSplit(v: string, k: nat)
    requires k <= |v|
    ensures Hole(v) <= Hole(v[..k]) + Hole(v[k..])
  {
    if NoNul(v[..k]) && NoNul(v[k..]) {
      forall i | 0 <= i < |v| ensures v[i] != '\0' {
        assert v[i] == if i < k then v[..k][i] else v[k..][i - k];
      }
    }
  }

  /** What ends up on the strips is at most what is stored, and less if v holds a NUL. */
  lemma {:induction false} SettledTotal(s: Session, v: string)
    requires Sound(s) && s.first == 0
    ensures Total(Durable(Settled(s, v))) <= Total(Durable(s)) + Landed(v, Room(s), s.block)
    decreases |v|
  {
    var room := Room(s);
    AddTotal(s, v);
    if |v| >= room {
      var t := Add(s, v);
      HoleSplit(v, room);
      AdvanceTotal(t);
      if v[room..] == "" {
        assert v[..room] == v;
      } else if v[room..] != Full {
        SettledTotal(Advance(t), v[room..]);
      }
    }
  }

  lemma WriteTotal(s: Session, v: string)
    requires Sound(s)
    ensures Total(Durable(Write(s, v))) <= Total(Durable(s)) + Landed(v, Room(s), s.block)
  {
    var t := Narrowed(s).(total := s.total + |v|);
    assert Durable(t) == Durable(s) by {
      NarrowedTotal(s, s.total + |v|);
    }
    assert Total(Durable(Settled(t, v))) <= Total(Durable(t)) + Landed(v, Room(t), t.block) by {
      SettledTotal(t, v);
    }
    assert Write(s, v) == Settled(t, v);
  }

  lemma {:induction false} WriteAllTotal(s: Session, vs: seq<string>)
    requires Sound(s)
    ensures Total(Durable(WriteAll(s, vs))) <= Total(Durable(s)) + |Joined(vs)|
    decreases |vs|
  {
    if vs != [] {
      WriteTotal(s, vs[0]);
      WriteAllTotal(Write(s, vs[0]), vs[1..]);
    }
  }

  lemma AppendTotal(d: Disk, vs: seq<string>)
    requires Usable(d)
    ensures Total(Append(d, vs).strips) <= Total(d.strips) + |Joined(vs)|
  {
    OpenDurable(d);
    WriteAllTotal(Open(d), vs);
    CloseLeavesDurable(WriteAll(Open(d), vs));
  }

  lemma {:induction false} SessionsTotal(d: Disk, runs: seq<seq<string>>)
    requires Usable(d)
    ensures Total(Sessions(d, runs).strips) <= Total(d.strips) + |AllJoined(runs)|
    decreases |runs|
  {
    if runs != [] {
      AppendTotal(d, runs[0]);
      SessionsTotal(Append(d, runs[0]), runs[1..]);
    }
  }

  lemma UnsafeStored(v: string, p: nat, block: nat)
    requires block > 0 && !SafeAt(v, p, block)
    ensures Landed(v, block - Within(p, block), block) < |v|
  {
    StoredWhole(v, block - Within(p, block), block);
  }

  lemma UnsafeLanded(s: Session, data: string, v: string)
    requires Placed(s, data) && !SafeAt(v, |data|, s.block)
    ensures Room(s) > 0 && s.block > 0 && Landed(v, Room(s), s.block) < |v|
  {
    UnsafeStored(v, |data|, s.block);
  }

  /** The first unsafe write drops something. */
  lemma UnsafeWrite(s: Session, data: string, v: string)
    requires Placed(s, data) && !SafeAt(v, |data|, s.block)
    ensures Total(Durable(Write(s, v))) < Total(Durable(s)) + |v|
  {
    UnsafeLanded(s, data, v);
    WriteTotal(s, v);
  }

  lemma UnsafeNext(data: string, vs: seq<string>, block: nat)
    requires block > 0 && !Safe(vs, |data|, block)
    ensures vs != [] && |Joined(vs)| == |vs[0]| + |Joined(vs[1..])|
    ensures SafeAt(vs[0], |data|, block) ==> !Safe(vs[1..], |data + vs[0]|, block)
  {
  }

  lemma {:induction false} UnsafeLoses(s: Session, data: string, vs: seq<string>)
    requires Placed(s, data) && !Safe(vs, |data|, s.block)
    ensures Total(Durable(WriteAll(s, vs))) < |data| + |Joined(vs)|
    decreases |vs|
  {
    PlacedDurable(s, data);
    UnsafeNext(data, vs, s.block);
    var v := vs[0];
    if SafeAt(v, |data|, s.block) {
      SafeWrite(s, data, v);
      UnsafeLoses(Write(s, v), data + v, vs[1..]);
    } else {
      UnsafeWrite(s, data, v);
      WriteAllTotal(Write(s, v), vs[1..]);
    }
  }

  lemma HoldsTotal(d: Disk, data: string)
    requires Holds(d, data)
    ensures Total(d.strips) == |data|
  {
    DealtTotal(data, d.block, |d.strips|);
  }

  lemma UnsafeAppend(d: Disk, data: string, vs: seq<string>)
    requires Holds(d, data) && !Safe(vs, |data|, d.block)
    ensures Total(Append(d, vs).strips) < |data| + |Joined(vs)|
  {
    OpenPlaced(d, data);
    UnsafeLoses(Open(d), data, vs);
    CloseLeavesDurable(WriteAll(Open(d), vs));
  }

  lemma UnsafeRunsNext(data: string, runs: seq<seq<string>>, block: nat)
    requires block > 0 && !AllSafe(runs, |data|, block)
    ensures runs != [] && |AllJoined(runs)| == |Joined(runs[0])| + |AllJoined(runs[1..])|
    ensures Safe(runs[0], |data|, block) ==> !AllSafe(runs[1..], |data + Joined(runs[0])|, block)
  {
  }

  lemma {:induction false} UnsafeSessions(d: Disk, data: string, runs: seq<seq<string>>)
    requires Holds(d, data) && !AllSafe(runs, |data|, d.block)
    ensures Total(Sessions(d, runs).strips) < |data| + |AllJoined(runs)|
    decreases |runs|
  {
    UnsafeRunsNext(data, runs, d.block);
    var vs := runs[0];
    if Safe(vs, |data|, d.block) {
      AppendHolds(d, data, vs);
      UnsafeSessions(Append(d, vs), data + Joined(vs), runs[1..]);
    } else {
      UnsafeAppend(d, data, vs);
      SessionsTotal(Append(d, vs), runs[1..]);
    }
  }

  /** After any history of sessions the file holds the concatenated writes if and only if no
      write holds a NUL or ends in FULL at the start of a block. */
  lemma SessionsHoldIffSafe(d: Disk, data: string, runs: seq<seq<string>>)
    requires Holds(d, data)
    ensures Holds(Sessions(d, runs), data + AllJoined(runs)) <==> AllSafe(runs, |data|, d.block)
  {
    if AllSafe(runs, |data|, d.block) {
      SessionsHold(d, data, runs);
    } else {
      UnsafeSessions(d, data, runs);
      if Holds(Sessions(d, runs), data + AllJoined(runs)) {
        HoldsTotal(Sessions(d, runs), data + AllJoined(runs));
      }
    }
  }

  /** Whatever was written, the metadata counts every byte passed to a write. */
  lemma {:induction false} EndPointerCounts(d: Disk, runs: seq<seq<string>>)
    requires Usable(d)
    ensures Sessions(d, runs).endPointer == d.endPointer + |AllJoined(runs)|
    decreases |runs|
  {
    if runs != [] {
      EndPointerCounts(Append(d, runs[0]), runs[1..]);
    }
  }

  /** After reopening, the next byte goes to strip (p / B) mod N, with B - p mod B bytes of
      room in its block, p being the number of bytes in the file. */
  lemma Reopened(d: Disk, data: string)
    requires Holds(d, data)
    ensures
      var (s, p) := (Open(d), |data|);
      s.current == (p / d.block) % |d.strips| && Room(s) == d.block - p % d.block
  {
    HomeIsRoundRobin(|data|, d.block, |d.strips|);
  }

  /** Four letters are enough: written after a full block they vanish. */
  lemma FullVanishes(d: Disk, data: string, v: string)
    requires Holds(d, data) && Within(|data|, d.block) + |v| == d.block && NoNul(v)
    ensures Total(Append(d, [v + Full]).strips) == |data| + |v|
    ensures Append(d, [v + Full]).endPointer == |data| + |v| + 4
  {
    var (s, w) := (Open(d), v + Full);
    FullWritten(d, data, v);
    PlacedDurable(Write(s, w), data + v);
    assert WriteAll(s, [w]) == Write(s, w);
    CloseLeavesDurable(Write(s, w));
  }

  /** A NUL is counted, and nothing is stored for it. */
  lemma NulVanishes(d: Disk, data: string)
    requires Holds(d, data)
    ensures Total(Append(d, ["\0"]).strips) <= |data| && Append(d, ["\0"]).endPointer == |data| + 1
  {
    var w := ["\0"];
    assert w[1..] == [] && Joined(w) == "\0";
    assert !NoNul(w[0]) by { assert w[0][0] == '\0'; }
    UnsafeAppend(d, data, w);
    assert [w][1..] == [] && AllJoined([w]) == "\0";
    EndPointerCounts(d, [w]);
    assert Sessions(d, [w]) == Append(d, w);
  }

  lemma FullBehind(v: string)
    requires NoNul(v)
    ensures (v + Full)[..|v|] == v && (v + Full)[|v|..] == Full && NoNul(v + Full)
  {
  }

  lemma FullWritten(d: Disk, data: string, v: string)
    requires Holds(d, data) && Within(|data|, d.block) + |v| == d.block && NoNul(v)
    ensures
      var s := Write(Open(d), v + Full);
      Placed(s, data + v) && s.total == |data| + |v| + 4
  {
    var (s, w) := (Open(d), v + Full);
    OpenPlaced(d, data);
    FullBehind(v);
    WritePlaced(s, data, w);
  }
}
