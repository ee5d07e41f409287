/** The parallel file as the program keeps it: buffers, readers and a stream that are
    updated in place, each method proved against the functions on values. */
module PopStream {
  import opened Layout
  import opened CStrings
  import opened PopFile
  import opened PopFileProof

  /** The strips on the file managers, and the metadata file. */
  class Storage {
    var block: nat
    var strips: seq<string>
    var endPointer: nat
    var endStrip: nat

    constructor (block: nat, count: nat)
      requires block > 0 && count > 0
      ensures Holds(Value(), "") && this.block == block && |strips| == count
    {
      this.block := block;
      strips := seq(count, _ => "");
      endPointer := 0;
      endStrip := 0;
    }

    function Value(): Disk
      reads this
    {
      Disk(block, strips, endPointer, endStrip)
    }
  }

  /** The output side of a strip's buffer. */
  class OutputBuffer {
    var out: string
    var capacity: nat
    var remaining: nat
    const id: nat
    const storage: Storage

    constructor (storage: Storage, id: nat, capacity: nat)
      ensures this.storage == storage && this.id == id && Value() == Fresh(capacity)
    {
      this.storage := storage;
      this.id := id;
      out := "";
      this.capacity := capacity;
      remaining := capacity;
    }

    function Value(): Buffer
      reads this
    {
      Buffer(out, capacity, remaining)
    }

    method SetCapacity(value: nat)
      modifies this
      ensures Value() == Buffer(old(out), value, value)
    {
      capacity := value;
      remaining := capacity;
    }

    method Flush()
      requires id < |storage.strips|
      modifies this, storage`strips
      ensures Value() == Flushed(old(Value()))
      ensures storage.strips == old(storage.strips)[id := old(storage.strips)[id] + Sent(old(Value()))]
    {
      if remaining < capacity {
        storage.strips := storage.strips[id := storage.strips[id] + CStr(out)];
        out := "";
        remaining := capacity;
      } else {
        assert storage.strips[id] + "" == storage.strips[id];
      }
    }

    method Add(value: string) returns (rest: string)
      requires id < |storage.strips|
      modifies this, storage`strips
      ensures rest == Leftover(old(Value()), value)
      ensures
        var taken := Taken(old(Value()), value);
        if |value| < old(remaining) then Value() == taken && storage.strips == old(storage.strips)
        else
          Value() == Flushed(taken)
          && storage.strips == old(storage.strips)[id := old(storage.strips)[id] + Sent(taken)]
    {
      rest := "";
      if |value| < remaining {
        out := out + value;
        remaining := remaining - |value|;
      } else {
        rest := value[remaining..];
        var toAdd := value[..remaining];
        remaining := remaining - |toAdd|;
        out := out + toAdd;
        Flush();
        if rest == "" {
          rest := Full;
        }
      }
    }
  }

  function Values(bufs: seq<OutputBuffer>): (r: seq<Buffer>)
    reads bufs
    ensures |r| == |bufs| && forall i :: 0 <= i < |bufs| ==> r[i] == bufs[i].Value()
  {
    seq(|bufs|, i requires 0 <= i < |bufs| reads bufs => bufs[i].Value())
  }

  /** A file opened in parallel mode. */
  class Stream {
    const storage: Storage
    var bufs: seq<OutputBuffer>
    var current: nat
    var first: nat
    var total: nat

    function Value(): Session
      reads this, storage, bufs
    {
      Session(storage.block, storage.strips, Values(bufs), current, first, total)
    }

    ghost predicate Wired()
      reads this`bufs, bufs
    {
      && (forall i :: 0 <= i < |bufs| ==> bufs[i].storage == storage && bufs[i].id == i)
      && forall i, j :: 0 <= i < j < |bufs| ==> bufs[i] != bufs[j]
    }

    ghost predicate Valid()
      reads this, storage, bufs
    {
      && Sound(Value())
      && Wired()
    }

    /** Opening an existing file: fresh buffers of one block each, and the place to go on
        writing taken from the metadata. */
    constructor (storage: Storage)
      requires Usable(storage.Value())
      ensures Valid() && this.storage == storage && fresh(bufs)
      ensures Value() == Open(storage.Value())
    {
      this.storage := storage;
      bufs := [];
      new;
      var i := 0;
      while i < |storage.strips|
        invariant i <= |storage.strips| && |bufs| == i && fresh(bufs) && this.storage == storage
        invariant forall k :: 0 <= k < i ==>
          bufs[k].storage == storage && bufs[k].id == k && bufs[k].Value() == Fresh(storage.block)
        invariant forall j, k :: 0 <= j < k < i ==> bufs[j] != bufs[k]
        modifies this
      {
        var b := new OutputBuffer(storage, i, storage.block);
        bufs := bufs + [b];
        i := i + 1;
      }
      current := storage.endStrip;
      total := storage.endPointer;
      first := storage.endPointer;
      first := storage.block - first % storage.block;
      assert Value().bufs == Open(storage.Value()).bufs;
    }

    method AddToCurrent(value: string) returns (rest: string)
      requires Valid() && first == 0
      modifies bufs[current], storage`strips
      ensures Valid() && Value() == Add(old(Value()), value)
      ensures rest == Leftover(old(Value()).bufs[current], value)
    {
      rest := bufs[current].Add(value);
      assert Values(bufs) == old(Values(bufs))[current := bufs[current].Value()];
    }

    method Narrow()
      requires Valid()
      modifies this`first, bufs[current]
      ensures Valid() && Value() == Narrowed(old(Value()))
    {
      if first != 0 {
        bufs[current].SetCapacity(first);
        first := 0;
      }
      assert Values(bufs) == Narrowed(old(Value())).bufs;
    }

    method Count(length: nat)
      requires Valid()
      modifies this`total
      ensures Valid() && Value() == old(Value()).(total := old(total) + length)
    {
      total := total + length;
    }

    method NextBuffer()
      requires current < |bufs|
      modifies this`current
      ensures current == Next(old(current), |bufs|)
    {
      current := current + 1;
      DivUnique(current, |bufs|, if current == |bufs| then 1 else 0, if current == |bufs| then 0 else current);
      if current % |bufs| == 0 {
        current := 0;
      }
    }

    method StartNextBlock()
      requires Valid() && first == 0 && bufs[current].out == ""
      modifies this`current, bufs[current]
      ensures Valid() && Value() == Advance(old(Value()))
    {
      bufs[current].SetCapacity(storage.block);
      NextBuffer();
      assert Values(bufs) == Advance(old(Value())).bufs;
    }

    method PourOut(left: string)
      requires Valid() && first == 0 && (left != "" ==> bufs[current].out == "")
      modifies this`current, bufs, storage`strips
      ensures Valid() && Value() == Pour(old(Value()), left)
    {
      ghost var s, goal := Value(), Pour(Value(), left);
      var rest := left;
      while |rest| != 0
        invariant Valid() && Value() == s && s.first == 0 && (rest != "" ==> s.bufs[s.current].out == "")
        invariant Pour(s, rest) == goal
        decreases if rest == "" then 0 else if rest == Full then 1 else |rest| + 1
      {
        rest := PourNext(rest);
        s := Value();
      }
    }

    /** One round: the next block, and what is left after it. */
    method PourNext(left: string) returns (rest: string)
      requires Valid() && first == 0 && left != "" && bufs[current].out == ""
      modifies this`current, bufs, storage`strips
      ensures Valid() && first == 0 && (rest != "" ==> bufs[current].out == "")
      ensures Pour(Value(), rest) == Pour(old(Value()), left)
      ensures rest == "" || (left != Full && (rest == Full || |rest| < |left|))
    {
      StartNextBlock();
      if left == Full {
        rest := "";
      } else {
        rest := AddToCurrent(left);
      }
    }

    method Settle(value: string)
      requires Valid() && first == 0
      modifies this`current, bufs, storage`strips
      ensures Valid() && Value() == Settled(old(Value()), value)
    {
      var rest := AddToCurrent(value);
      PourOut(rest);
    }

    method Begin(length: nat)
      requires Valid()
      modifies this`first, this`total, bufs[current]
      ensures Valid() && Value() == Narrowed(old(Value())).(total := old(total) + length)
    {
      Narrow();
      Count(length);
    }

    method Write(value: string)
      requires Valid()
      modifies this`current, this`first, this`total, bufs, storage`strips
      ensures Valid() && Value() == PopFile.Write(old(Value()), value)
    {
      Begin(|value|);
      Settle(value);
    }

    method FlushBuffer(i: nat)
      requires Wired() && i < |bufs| == |storage.strips|
      modifies bufs[i], storage`strips
      ensures Wired() && |storage.strips| == |bufs| && Value() == FlushAt(old(Value()), i)
    {
      bufs[i].Flush();
      assert Values(bufs) == FlushAt(old(Value()), i).bufs;
    }

    /** Closing flushes every buffer and saves the metadata. */
    method FlushAll()
      requires Valid()
      modifies bufs, storage`strips
      ensures Value() == FlushFrom(old(Value()), 0)
    {
      ghost var s, goal := Value(), FlushFrom(Value(), 0);
      var i := 0;
      while i < |bufs|
        invariant Wired() && i <= |bufs| == |storage.strips|
        invariant Value() == s && FlushFrom(s, i) == goal
        modifies bufs, storage`strips
      {
        FlushBuffer(i);
        s := FlushAt(s, i);
        i := i + 1;
      }
    }

    method Close()
      requires Valid()
      modifies bufs, storage
      ensures storage.Value() == PopFile.Close(old(Value()))
    {
      FlushAll();
      storage.endPointer := total;
      storage.endStrip := current;
    }
  }
}
