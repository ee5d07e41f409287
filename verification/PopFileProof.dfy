/** Writes, closes and reopenings keep the round-robin layout; what is lost is lost for good. */
module PopFileProof {
  import opened Layout
  import opened CStrings
  import opened PopFile

  /** The current block is full and flushed; the next buffer is not yet current. */
  ghost predicate Filled(s: Session, data: string) {
    && Sound(s)
    && s.first == 0
    && Within(|data|, s.block) == 0
    && Next(s.current, |s.bufs|) == Home(|data|, s.block, |s.bufs|)
    && s.bufs[s.current].out == ""
    && s.strips == Dealt(data, s.block, |s.bufs|)
  }

  lemma EmptyLayers(s: Session)
    requires |s.strips| == |s.bufs| && forall i :: 0 <= i < |s.bufs| ==> s.bufs[i].out == ""
    ensures Layers(s) == s.strips
  {
    forall i | 0 <= i < |s.bufs| ensures Layers(s)[i] == s.strips[i] {
      assert s.strips[i] + "" == s.strips[i];
    }
  }

  lemma AdvancePlaced(s: Session, data: string)
    requires Filled(s, data)
    ensures Placed(Advance(s), data)
  {
    EmptyLayers(Advance(s));
  }

  lemma NarrowedPlaced(s: Session, data: string, total: nat)
    requires Placed(s, data)
    ensures
      var t := Narrowed(s).(total := total);
      Placed(t, data) && Room(t) == Room(s) && t.first == 0 && t.block == s.block
  {
    assert Layers(Narrowed(s).(total := total)) == Layers(s);
  }

  /** Bytes that stay in the current block go to one strip only. */
  lemma DealtOn(data: string, w: string, b: nat, n: nat, before: seq<string>, after: seq<string>)
    requires b > 0 && n > 0 && Within(|data|, b) + |w| <= b && before == Dealt(data, b, n)
    requires after == before[Home(|data|, b, n) := before[Home(|data|, b, n)] + w]
    ensures after == Dealt(data + w, b, n)
  {
    forall i | 0 <= i < n
      ensures after[i] == Dealt(data + w, b, n)[i]
    {
      StripAppend(data, w, b, n, i);
      assert before[i] + "" == before[i];
    }
  }

  lemma AddFits(s: Session, data: string, v: string)
    requires Placed(s, data) && s.first == 0 && NoNul(v) && |v| < Room(s)
    ensures Placed(Add(s, v), data + v)
  {
    var (t, i) := (Add(s, v), s.current);
    SameBlock(|data|, |v|, s.block, |s.bufs|);
    assert s.strips[i] + (s.bufs[i].out + v) == (s.strips[i] + s.bufs[i].out) + v;
    assert Layers(t) == Layers(s)[i := Layers(s)[i] + v];
    DealtOn(data, v, s.block, |s.bufs|, Layers(s), Layers(t));
  }

  lemma FilledStrips(s: Session, v: string)
    requires Sound(s) && s.first == 0 && |v| >= Room(s)
    requires NoNul(s.bufs[s.current].out) && NoNul(v)
    ensures
      var (t, i) := (Add(s, v), s.current);
      t.bufs[i].out == "" && t.strips == Layers(s)[i := Layers(s)[i] + v[..Room(s)]]
  {
    var (t, i, w) := (Add(s, v), s.current, v[..Room(s)]);
    CStrWhole(s.bufs[i].out + w);
    assert s.strips[i] + (s.bufs[i].out + w) == (s.strips[i] + s.bufs[i].out) + w;
    forall j | 0 <= j < |s.bufs| && j != i ensures Layers(s)[j] == t.strips[j] {
      assert s.strips[j] + "" == s.strips[j];
    }
  }

  lemma AddFills(s: Session, data: string, v: string)
    requires Placed(s, data) && s.first == 0 && NoNul(v) && |v| >= Room(s)
    ensures Filled(Add(s, v), data + v[..Room(s)])
  {
    var (t, w) := (Add(s, v), v[..Room(s)]);
    NextBlock(|data|, |w|, s.block, |s.bufs|);
    FilledStrips(s, v);
    DealtOn(data, w, s.block, |s.bufs|, Layers(s), t.strips);
  }

  lemma {:induction false} PourPlaced(s: Session, data: string, rem: string)
    requires Filled(s, data) && NoNul(rem) && rem != "" && rem != Full
    ensures Placed(Pour(s, rem), data + Stored(rem, s.block, s.block))
    decreases |rem|, 2
  {
    AdvancePlaced(s, data);
    AddPlaced(Advance(s), data, rem);
  }

  lemma JoinStored(data: string, v: string, room: nat, block: nat)
    requires 0 < room <= |v| && block > 0 && v[room..] != "" && v[room..] != Full
    ensures data + v[..room] + Stored(v[room..], block, block) == data + Stored(v, room, block)
  {
  }

  /** Adding v and pouring what is left over keeps the layout of what is stored. */
  lemma {:induction false} AddPlaced(s: Session, data: string, v: string)
    requires Placed(s, data) && s.first == 0 && NoNul(v)
    ensures Placed(Settled(s, v), data + Stored(v, Room(s), s.block))
    decreases |v|, 1
  {
    var room := Room(s);
    if |v| < room {
      AddFits(s, data, v);
    } else {
      AddFills(s, data, v);
      if v[room..] == "" || v[room..] == Full {
        assert v[room..] == "" ==> v[..room] == v;
        AdvancePlaced(Add(s, v), data + v[..room]);
      } else {
        PourPlaced(Add(s, v), data + v[..room], v[room..]);
        JoinStored(data, v, room, s.block);
      }
    }
  }

  lemma WriteIsSettled(s: Session, v: string)
    requires Sound(s)
    ensures Write(s, v) == Settled(Narrowed(s).(total := s.total + |v|), v)
  {
  }

  /** A write of NUL-free data extends the layout by exactly what it stores. */
  lemma WritePlaced(s: Session, data: string, v: string)
    requires Placed(s, data) && NoNul(v)
    ensures Placed(Write(s, v), data + Stored(v, Room(s), s.block))
  {
    NarrowedPlaced(s, data, s.total + |v|);
    AddPlaced(Narrowed(s).(total := s.total + |v|), data, v);
    WriteIsSettled(s, v);
  }

  function AllJoined(runs: seq<seq<string>>): string {
    if runs == [] then "" else Joined(runs[0]) + AllJoined(runs[1..])
  }

  /** A write at byte p that holds no NUL and does not end in FULL at the start of a block. */
  predicate SafeAt(v: string, p: nat, block: nat)
    requires block > 0
  {
    NoNul(v) && !EndsInFull(v, block - Within(p, block), block)
  }

  /** The writes vs, the first of which starts at byte p, are all safe. */
  ghost predicate Safe(vs: seq<string>, p: nat, block: nat)
    requires block > 0
  {
    vs != [] ==> SafeAt(vs[0], p, block) && Safe(vs[1..], p + |vs[0]|, block)
  }

  ghost predicate AllSafe(runs: seq<seq<string>>, p: nat, block: nat)
    requires block > 0
  {
    runs != [] ==> Safe(runs[0], p, block) && AllSafe(runs[1..], p + |Joined(runs[0])|, block)
  }

  lemma SafeWrite(s: Session, data: string, v: string)
    requires Placed(s, data) && SafeAt(v, |data|, s.block)
    ensures Placed(Write(s, v), data + v)
  {
    WritePlaced(s, data, v);
    StoredWhole(v, Room(s), s.block);
  }

  lemma SafeNext(data: string, vs: seq<string>, block: nat)
    requires block > 0 && Safe(vs, |data|, block) && vs != []
    ensures Safe(vs[1..], |data + vs[0]|, block)
    ensures data + Joined(vs) == (data + vs[0]) + Joined(vs[1..])
  {
  }

  lemma FirstPlaced(s: Session, data: string, vs: seq<string>)
    requires Placed(s, data) && Safe(vs, |data|, s.block) && vs != []
    ensures Placed(Write(s, vs[0]), data + vs[0])
  {
    SafeWrite(s, data, vs[0]);
  }

  lemma {:induction false} WriteAllPlaced(s: Session, data: string, vs: seq<string>)
    requires Placed(s, data) && Safe(vs, |data|, s.block)
    ensures Placed(WriteAll(s, vs), data + Joined(vs))
    decreases |vs|
  {
    if vs == [] {
      assert data + "" == data;
    } else {
      FirstPlaced(s, data, vs);
      SafeNext(data, vs, s.block);
      WriteAllPlaced(Write(s, vs[0]), data + vs[0], vs[1..]);
    }
  }

  lemma OpenPlaced(d: Disk, data: string)
    requires Holds(d, data)
    ensures Placed(Open(d), data) && Open(d).total == |data|
  {
    WithinIsMod(|data|, d.block);
    EmptyLayers(Open(d));
  }

  lemma ClosePlaced(s: Session, data: string)
    requires Placed(s, data) && s.total == |data|
    ensures Holds(Close(s), data)
  {
    CStrWhole(s.bufs[s.current].out);
    forall i | 0 <= i < |s.bufs|
      ensures Close(s).strips[i] == Layers(s)[i]
    {
      assert s.strips[i] + "" == s.strips[i];
    }
    assert Close(s).strips == Layers(s);
  }

  lemma AppendHolds(d: Disk, data: string, vs: seq<string>)
    requires Holds(d, data) && Safe(vs, |data|, d.block)
    ensures Holds(Append(d, vs), data + Joined(vs))
  {
    OpenPlaced(d, data);
    WriteAllPlaced(Open(d), data, vs);
    ClosePlaced(WriteAll(Open(d), vs), data + Joined(vs));
  }

  lemma AllSafeNext(data: string, runs: seq<seq<string>>, block: nat)
    requires block > 0 && AllSafe(runs, |data|, block) && runs != []
    ensures AllSafe(runs[1..], |data + Joined(runs[0])|, block)
    ensures data + AllJoined(runs) == (data + Joined(runs[0])) + AllJoined(runs[1..])
  {
  }

  /** Over any number of sessions the strips hold the concatenated writes. */
  lemma {:induction false} SessionsHold(d: Disk, data: string, runs: seq<seq<string>>)
    requires Holds(d, data) && AllSafe(runs, |data|, d.block)
    ensures Holds(Sessions(d, runs), data + AllJoined(runs))
    decreases |runs|
  {
    if runs == [] {
      assert data + "" == data;
    } else {
      AppendHolds(d, data, runs[0]);
      AllSafeNext(data, runs, d.block);
      SessionsHold(Append(d, runs[0]), data + Joined(runs[0]), runs[1..]);
    }
  }
}
