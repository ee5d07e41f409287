/** The write side of a parallel file, as values: what buffering, flushing, closing and
    reopening do to the strips. */
module PopFile {
  import opened Layout
  import opened CStrings

  /** One output buffer: the bytes it holds, its capacity and the room left. */
  datatype Buffer = Buffer(out: string, capacity: nat, remaining: nat)

  /** What a closed file leaves behind: its strips and its metadata. */
  datatype Disk = Disk(block: nat, strips: seq<string>, endPointer: nat, endStrip: nat)

  /** An open file. `first` is the room in the current block found on reopening, until the
      first write uses it; 0 afterwards. */
  datatype Session = Session(block: nat, strips: seq<string>, bufs: seq<Buffer>,
                             current: nat, first: nat, total: nat)

  const Full := "FULL"

  // ---------------------------------------------------------------- one buffer

  function Flushed(b: Buffer): Buffer {
    if b.remaining < b.capacity then Buffer("", b.capacity, b.capacity) else b
  }

  /** What a flush appends to the strip. */
  function Sent(b: Buffer): string {
    if b.remaining < b.capacity then CStr(b.out) else ""
  }

  /** The buffer once it has taken v or the part of v it has room for, before any flush. */
  function Taken(b: Buffer, v: string): Buffer {
    if |v| < b.remaining then Buffer(b.out + v, b.capacity, b.remaining - |v|)
    else Buffer(b.out + v[..b.remaining], b.capacity, 0)
  }

  /** The string that buffer_add hands back. */
  function Leftover(b: Buffer, v: string): string {
    if |v| < b.remaining then "" else if v[b.remaining..] == "" then Full else v[b.remaining..]
  }

  // ---------------------------------------------------------------- the stream

  function Fresh(block: nat): Buffer {
    Buffer("", block, block)
  }

  /** What every reachable session satisfies, whatever was written. */
  ghost predicate Sound(s: Session) {
    && s.block > 0
    && |s.strips| == |s.bufs|
    && s.current < |s.bufs|
    && (forall i :: 0 <= i < |s.bufs| && i != s.current ==> s.bufs[i] == Fresh(s.block))
    && s.bufs[s.current].capacity <= s.block
    && 0 < s.bufs[s.current].remaining
    && s.bufs[s.current].remaining + |s.bufs[s.current].out| == s.bufs[s.current].capacity
    && (s.first != 0 ==> s.first <= s.block && s.bufs[s.current] == Fresh(s.block))
  }

  predicate SameShape(s: Session, t: Session) {
    t.block == s.block && |t.bufs| == |s.bufs|
  }

  /** The bytes that still fit in the current block. */
  function Room(s: Session): (r: nat)
    requires s.current < |s.bufs|
  {
    if s.first != 0 then s.first else s.bufs[s.current].remaining
  }

  function FlushAt(s: Session, i: nat): Session
    requires i < |s.bufs| == |s.strips|
  {
    s.(strips := s.strips[i := s.strips[i] + Sent(s.bufs[i])], bufs := s.bufs[i := Flushed(s.bufs[i])])
  }

  function ResizeAt(s: Session, i: nat, capacity: nat): Session
    requires i < |s.bufs|
  {
    s.(bufs := s.bufs[i := s.bufs[i].(capacity := capacity, remaining := capacity)])
  }

  /** Adding v to the current buffer: a buffer that is filled is flushed. */
  function Add(s: Session, v: string): (t: Session)
    requires Sound(s) && s.first == 0
    ensures Sound(t) && t.first == 0 && t.total == s.total && t.current == s.current && SameShape(s, t)
    ensures Leftover(s.bufs[s.current], v) != "" ==> t.bufs[t.current].out == ""
  {
    var t := s.(bufs := s.bufs[s.current := Taken(s.bufs[s.current], v)]);
    if |v| < s.bufs[s.current].remaining then t else FlushAt(t, s.current)
  }

  /** The current buffer gets a whole block again and the next one becomes current. */
  function Advance(s: Session): (t: Session)
    requires Sound(s) && s.first == 0 && s.bufs[s.current].out == ""
    ensures Sound(t) && t.first == 0 && t.total == s.total && SameShape(s, t) && t.bufs[t.current] == Fresh(t.block)
  {
    ResizeAt(s, s.current, s.block).(current := Next(s.current, |s.bufs|))
  }

  /** The loop of a write: `rem` is what buffer_add last handed back. */
  function Pour(s: Session, rem: string): (t: Session)
    requires Sound(s) && s.first == 0 && (rem != "" ==> s.bufs[s.current].out == "")
    ensures Sound(t) && t.first == 0 && t.total == s.total && SameShape(s, t)
    decreases if rem == Full then 0 else |rem|
  {
    if rem == "" then s
    else if rem == Full then Advance(s)
    else
      var t := Advance(s);
      Pour(Add(t, rem), Leftover(t.bufs[t.current], rem))
  }

  /** Adding v, then pouring what is handed back. */
  function Settled(s: Session, v: string): (t: Session)
    requires Sound(s) && s.first == 0
    ensures Sound(t) && t.first == 0 && t.total == s.total && SameShape(s, t)
  {
    Pour(Add(s, v), Leftover(s.bufs[s.current], v))
  }

  /** The first write after reopening narrows the current buffer to the room in its block. */
  function Narrowed(s: Session): (t: Session)
    requires Sound(s)
    ensures Sound(t) && t.first == 0 && SameShape(s, t) && t.bufs[t.current].remaining == Room(s)
  {
    if s.first != 0 then ResizeAt(s, s.current, s.first).(first := 0) else s
  }

  function Write(s: Session, v: string): (t: Session)
    requires Sound(s)
    ensures Sound(t) && t.total == s.total + |v| && SameShape(s, t)
  {
    var t := Narrowed(s).(total := s.total + |v|);
    Settled(t, v)
  }

  function Joined(vs: seq<string>): string {
    if vs == [] then "" else vs[0] + Joined(vs[1..])
  }

  function WriteAll(s: Session, vs: seq<string>): (t: Session)
    requires Sound(s)
    ensures Sound(t) && SameShape(s, t) && t.total == s.total + |Joined(vs)|
    decreases |vs|
  {
    if vs == [] then s else WriteAll(Write(s, vs[0]), vs[1..])
  }

  // ---------------------------------------------------------------- closing and reopening

  function FlushFrom(s: Session, i: nat): (t: Session)
    requires i <= |s.bufs| == |s.strips|
    ensures t == s.(strips := t.strips, bufs := t.bufs)
    ensures |t.strips| == |s.strips| == |t.bufs|
    ensures forall j :: 0 <= j < |s.bufs| ==>
      t.strips[j] == if j < i then s.strips[j] else s.strips[j] + Sent(s.bufs[j])
    decreases |s.bufs| - i
  {
    if i == |s.bufs| then s else FlushFrom(FlushAt(s, i), i + 1)
  }

  function Close(s: Session): Disk
    requires |s.bufs| == |s.strips|
  {
    Disk(s.block, FlushFrom(s, 0).strips, s.total, s.current)
  }

  predicate Usable(d: Disk) {
    d.block > 0 && d.endStrip < |d.strips|
  }

  function Open(d: Disk): (s: Session)
    requires Usable(d)
    ensures Sound(s)
  {
    Session(d.block, d.strips, seq(|d.strips|, i => Fresh(d.block)), d.endStrip,
            d.block - d.endPointer % d.block, d.endPointer)
  }

  /** One session: open, write, close. */
  function Append(d: Disk, vs: seq<string>): (r: Disk)
    requires Usable(d)
    ensures Usable(r) && r.block == d.block && |r.strips| == |d.strips|
  {
    Close(WriteAll(Open(d), vs))
  }

  /** Any number of sessions. */
  function Sessions(d: Disk, runs: seq<seq<string>>): (r: Disk)
    requires Usable(d)
    ensures Usable(r) && r.block == d.block && |r.strips| == |d.strips|
    decreases |runs|
  {
    if runs == [] then d else Sessions(Append(d, runs[0]), runs[1..])
  }

  // ---------------------------------------------------------------- what is promised

  /** The closed file holds exactly the bytes of data, dealt round robin, and its metadata
      says where the next byte goes. */
  ghost predicate Holds(d: Disk, data: string) {
    && Usable(d)
    && d.endPointer == |data|
    && d.endStrip == Home(|data|, d.block, |d.strips|)
    && d.strips == Dealt(data, d.block, |d.strips|)
  }

  /** Every strip together with what its buffer still holds for it. */
  function Layers(s: Session): (r: seq<string>)
    requires |s.strips| == |s.bufs|
    ensures |r| == |s.bufs| && forall i :: 0 <= i < |r| ==> r[i] == s.strips[i] + s.bufs[i].out
  {
    seq(|s.bufs|, i requires 0 <= i < |s.bufs| => s.strips[i] + s.bufs[i].out)
  }

  /** The same for an open file, part of whose current block may still be buffered. */
  ghost predicate Placed(s: Session, data: string) {
    && Sound(s)
    && s.current == Home(|data|, s.block, |s.bufs|)
    && Room(s) == s.block - Within(|data|, s.block)
    && NoNul(s.bufs[s.current].out)
    && Layers(s) == Dealt(data, s.block, |s.bufs|)
  }

  /** The part of a write that is kept when `room` bytes fit in the current block. */
  function Stored(v: string, room: nat, block: nat): (r: string)
    requires room > 0 && block > 0
    ensures |r| <= |v|
    decreases |v|
  {
    if |v| < room then v
    else if v[room..] == Full then v[..room]
    else if v[room..] == "" then v
    else v[..room] + Stored(v[room..], block, block)
  }

  /** The write ends with the letters FULL, and these stand at the start of a block. */
  predicate EndsInFull(v: string, room: nat, block: nat)
    requires block > 0
  {
    |v| >= room + 4 && Within(|v| - 4 - room, block) == 0 && v[|v| - 4..] == Full
  }

  lemma EndsInFullLater(v: string, room: nat, block: nat)
    requires block > 0 && |v| > room && v[room..] != Full
    ensures EndsInFull(v, room, block) <==> EndsInFull(v[room..], block, block)
  {
    if |v| >= room + 4 {
      assert v[|v| - 4..] == v[room..][|v| - room - 4..];
      if |v| - 4 - room == 0 {
        assert v[|v| - 4..] == v[room..];
      }
    }
  }

  lemma EndsInFullNow(v: string, room: nat, block: nat)
    requires block > 0 && |v| >= room
    ensures v[room..] == Full ==> EndsInFull(v, room, block)
    ensures v[room..] == "" ==> !EndsInFull(v, room, block)
  {
    assert v[room..] == Full ==> |v| == room + 4;
  }

  /** A write is kept whole unless it ends in FULL at the start of a block: then exactly these
      four letters are lost. */
  lemma {:induction false} StoredWhole(v: string, room: nat, block: nat)
    requires room > 0 && block > 0
    ensures Stored(v, room, block) == v <==> !EndsInFull(v, room, block)
    ensures Stored(v, room, block) != v ==> |Stored(v, room, block)| == |v| - 4
    decreases |v|
  {
    if |v| >= room {
      EndsInFullNow(v, room, block);
      if v[room..] != Full && v[room..] != "" {
        StoredWhole(v[room..], block, block);
        EndsInFullLater(v, room, block);
        assert v == v[..room] + v[room..];
      }
    }
  }
}
