/** The read side of a parallel file: blocks are requested from the strips' readers in
    order, each reader queues what it read, and the blocks are collected in the same order. */
module PopRead {
  import opened Layout
  import opened CStrings
  import opened PopFile
  import opened PopFileProof
  import opened PopStream
  import opened Types

  // ---------------------------------------------------------------- blocks of a text

  /** A text cut into blocks, the last one possibly partial. */
  function Blocks(text: string, b: nat): seq<string>
    requires b > 0
    decreases |text|
  {
    if text == "" then []
    else if |text| <= b then [text]
    else [text[..b]] + Blocks(text[b..], b)
  }

  lemma BlocksHead(text: string, b: nat)
    requires 0 < b <= |text|
    ensures Blocks(text, b) == [text[..b]] + Blocks(text[b..], b)
  {
    if |text| == b {
      assert text[..b] == text && text[b..] == "";
    }
  }

  /** What reader i queues when the blocks are dealt round robin from reader `at`. */
  function Share(blocks: seq<string>, at: nat, i: nat, n: nat): string
    requires at < n
  {
    if blocks == [] then ""
    else (if at == i then blocks[0] else "") + Share(blocks[1..], Next(at, n), i, n)
  }

  lemma ShareHead(text: string, b: nat, at: nat, i: nat, n: nat)
    requires 0 < b <= |text| && at < n
    ensures Share(Blocks(text, b), at, i, n)
         == (if at == i then text[..b] else "") + Share(Blocks(text[b..], b), Next(at, n), i, n)
  {
    BlocksHead(text, b);
    assert Blocks(text, b)[1..] == Blocks(text[b..], b);
  }

  lemma ShareLast(text: string, b: nat, at: nat, i: nat, n: nat)
    requires at < n && 0 < b && |text| <= b
    ensures Share(Blocks(text, b), at, i, n) == if at == i then text else ""
  {
    if text != "" {
      assert Blocks(text, b)[1..] == [];
    }
  }

  /** What is asked for when `first` bytes are read before whole blocks are. */
  function Pieces(first: string, rest: string, b: nat): seq<string>
    requires b > 0
  {
    (if first == "" then [] else [first]) + Blocks(rest, b)
  }

  lemma SharePieces(first: string, rest: string, b: nat, at: nat, i: nat, n: nat)
    requires b > 0 && at < n && first != ""
    ensures Share(Pieces(first, rest, b), at, i, n)
         == (if at == i then first else "") + Share(Blocks(rest, b), Next(at, n), i, n)
  {
    assert Pieces(first, rest, b)[1..] == Blocks(rest, b);
  }

  lemma NoFirst(rest: string, b: nat)
    requires b > 0
    ensures Pieces("", rest, b) == Blocks(rest, b)
  {
  }

  // ---------------------------------------------------------------- what a read amounts to

  /** Whether a read asks for whole blocks from the position it starts at. After a read that
      ended inside a block (`pointer` bytes short of its end) a read of a block or more does not. */
  predicate Straight(pointer: nat, size: nat, b: nat) {
    pointer == 0 || size < b
  }

  /** The bytes a read asks for lie in the file. */
  predicate InFile(data: string, p: nat, pointer: nat, size: nat, b: nat) {
    if Straight(pointer, size, b) then p + size <= |data| else p + b + (size - pointer) <= |data|
  }

  /** The first piece of a read that is not straight: so many bytes as the last read left of the
      block at p, but from the beginning of that block. */
  function FirstPiece(data: string, p: nat, pointer: nat, size: nat, b: nat): string
    requires pointer < b && InFile(data, p, pointer, size, b)
  {
    if Straight(pointer, size, b) then "" else data[p..p + pointer]
  }

  /** Where the whole blocks of a read begin, and how many bytes it reads from there. */
  function Onward(p: nat, pointer: nat, size: nat, b: nat): (nat, nat)
    requires pointer < b
  {
    if Straight(pointer, size, b) then (p, size) else (p + b, size - pointer)
  }

  function RestPiece(data: string, p: nat, pointer: nat, size: nat, b: nat): string
    requires pointer < b && InFile(data, p, pointer, size, b)
  {
    var (q, len) := Onward(p, pointer, size, b);
    data[q..q + len]
  }

  /** What a read returns; None if it waits for ever. */
  function ReadResult(data: string, p: nat, pointer: nat, size: nat, b: nat, n: nat): Option<string>
    requires pointer < b && InFile(data, p, pointer, size, b)
  {
    if !Straight(pointer, size, b) && size == b && n > 1 then None
    else Some(FirstPiece(data, p, pointer, size, b) + RestPiece(data, p, pointer, size, b))
  }

  // ---------------------------------------------------------------- positions

  /** Byte p starts a block, and `off` is where that block lies in its strip. */
  ghost predicate Aligned(p: nat, b: nat, n: nat, off: nat)
    requires b > 0 && n > 0
  {
    && Within(p, b) == 0
    && forall i :: 0 <= i < n ==> Length(p, b, n, i) == off + if i < Home(p, b, n) then b else 0
  }

  lemma AlignedStart(b: nat, n: nat)
    requires b > 0 && n > 0
    ensures Aligned(0, b, n, 0) && Home(0, b, n) == 0
  {
  }

  lemma AlignedNext(p: nat, b: nat, n: nat, off: nat)
    requires b > 0 && n > 0 && Aligned(p, b, n, off)
    ensures Home(p + b, b, n) == Next(Home(p, b, n), n)
    ensures Aligned(p + b, b, n, if Home(p, b, n) + 1 == n then off + b else off)
  {
    forall i | 0 <= i < n
      ensures Length(p + b, b, n, i) == Length(p, b, n, i) + if i == Home(p, b, n) then b else 0
    {
      NextBlockStart(p, b, n, i);
    }
    NextBlock(p, b, b, n);
    var (h, q, off') := (Home(p, b, n), p + b, if Home(p, b, n) + 1 == n then off + b else off);
    forall i | 0 <= i < n
      ensures Length(q, b, n, i) == off' + if i < Home(q, b, n) then b else 0
    {
      assert Length(p, b, n, i) == off + if i < h then b else 0;
    }
  }

  /** The block at p, read from its strip. */
  lemma BlockRead(d: string, b: nat, n: nat, p: nat, len: nat, off: nat)
    requires b > 0 && n > 0 && Aligned(p, b, n, off) && len <= b && p + len <= |d|
    ensures Slice(Strip(d, b, n, Home(p, b, n)), off, len, d[p..p + len])
  {
    PartOfBlock(d, b, n, p, len, off, Home(p, b, n));
  }

  // ---------------------------------------------------------------- one reader

  /** Writing data into a string stream at `put`. */
  function Overwritten(s: string, put: nat, data: string): string
    requires put <= |s|
  {
    s[..put] + data + if put + |data| <= |s| then s[put + |data|..] else ""
  }

  /** Reading len bytes of a strip: nothing from behind its end, and where it ends too early
      what the memory held that was not overwritten. */
  function ReadFromStrip(strip: string, start: nat, len: nat, memory: string): string
    requires |memory| == len
  {
    if start >= |strip| then "" else CStr(Obtained(strip, start, len, memory))
  }

  /** The memory after a read of len bytes from inside a strip. */
  function Obtained(strip: string, start: nat, len: nat, memory: string): (r: string)
    requires |memory| == len && start < |strip|
    ensures |r| == len
  {
    var got := if start + len <= |strip| then len else |strip| - start;
    strip[start..start + got] + memory[got..]
  }

  class Reader {
    const storage: Storage
    const id: nat
    const capacity: nat
    var input: string
    var put: nat

    constructor (storage: Storage, id: nat, capacity: nat)
      ensures this.storage == storage && this.id == id && this.capacity == capacity
      ensures input == "" && put == 0
    {
      this.storage := storage;
      this.id := id;
      this.capacity := capacity;
      input := "";
      put := 0;
    }

    method ReadInStrip(start: nat, len: nat, memory: string)
      requires put <= |input| && id < |storage.strips| && |memory| == len
      modifies this
      ensures
        var data := ReadFromStrip(storage.strips[id], start, len, memory);
        input == Overwritten(old(input), old(put), data) && put == old(put) + |data|
    {
      var data := ReadFromStrip(storage.strips[id], start, len, memory);
      input := Overwritten(input, put, data);
      put := put + |data|;
    }

    /** -1 stands for a whole block. None: there is not enough data and none is under way, so
        that the reader waits for ever (or, for a whole block, returns no string at all). */
    method ReadCurrentBuffer(size: int) returns (data: Option<string>)
      requires size >= -1
      modifies this
      ensures
        var len := if size == -1 then capacity else size;
        if |old(input)| < len then data == None && input == old(input) && put == old(put)
        else data == Some(CStr(old(input)[..len])) && input == old(input)[len..] && put == 0
    {
      var len := if size == -1 then capacity else size;
      if |input| < len {
        return None;
      }
      data := Some(CStr(input[..len]));
      input := input[len..];
      put := 0;
    }
  }

  // ---------------------------------------------------------------- the stream

  datatype Grip = Grip(size: nat, firstReader: nat, firstRead: nat, order: nat)

  class ReadStream {
    const storage: Storage
    const offset: nat
    const count: nat
    const total: nat
    var readers: seq<Reader>
    var currentReader: nat
    var readerOffset: nat
    var readPointer: nat
    var issued: nat
    var served: nat
    var bad: bool

    constructor (storage: Storage, ghost data: string)
      requires Holds(storage.Value(), data) && NoNul(data)
      ensures this.storage == storage && offset == storage.block && count == |storage.strips| && total == |data|
      ensures readers == [] && readPointer == 0 && issued == served && Ready(data, 0)
    {
      this.storage := storage;
      offset := storage.block;
      count := |storage.strips|;
      total := storage.endPointer;
      readers := [];
      currentReader, readerOffset, readPointer := 0, 0, 0;
      issued, served, bad := 0, 0, false;
      new;
      AlignedStart(offset, count);
    }

    ghost predicate Wired()
      reads this`readers, this`currentReader, readers
    {
      && offset > 0 && currentReader < count
      && (readers == [] || |readers| == count)
      && (forall i :: 0 <= i < |readers| ==>
            readers[i].storage == storage && readers[i].id == i && readers[i].capacity == offset)
      && forall i, j :: 0 <= i < j < |readers| ==> readers[i] != readers[j]
    }

    /** The readers hold the pieces, dealt from reader `at`, and nothing else. */
    ghost predicate Queued(pieces: seq<string>, at: nat)
      requires at < count
      reads this`readers, readers
    {
      forall i :: 0 <= i < |readers| ==>
        readers[i].put <= |readers[i].input| && readers[i].input == Share(pieces, at, i, count)
    }

    /** The readers hold what comes before `rest`, which is still to be asked for, in the pieces. */
    ghost predicate Filling(pieces: seq<string>, at: nat, rest: string)
      requires offset > 0 && at < count && currentReader < count
      reads this`readers, this`currentReader, readers
    {
      forall i :: 0 <= i < |readers| ==>
        readers[i].put == |readers[i].input|
        && readers[i].input + Share(Blocks(rest, offset), currentReader, i, count) == Share(pieces, at, i, count)
    }

    /** The file holds data, and the block at byte p is the next one to be asked for. */
    ghost predicate At(data: string, p: nat)
      reads this`readers, this`currentReader, this`readerOffset, readers, storage
    {
      && Wired()
      && Holds(storage.Value(), data) && offset == storage.block && count == |storage.strips|
      && NoNul(data)
      && p <= |data|
      && currentReader == Home(p, offset, count)
      && Aligned(p, offset, count, readerOffset)
    }

    ghost predicate Idle()
      reads this`readers, readers
    {
      forall i :: 0 <= i < |readers| ==> readers[i].input == "" && readers[i].put == 0
    }

    /** Between reads. */
    ghost predicate Ready(data: string, p: nat)
      reads this`readers, this`currentReader, this`readerOffset, readers, storage
    {
      At(data, p) && Idle()
    }

    method StartReaders(ghost data: string, ghost p: nat)
      requires Ready(data, p)
      modifies this`readers
      ensures Ready(data, p) && |readers| == count
      ensures if old(readers) == [] then fresh(readers) else readers == old(readers)
    {
      if readers == [] {
        var i := 0;
        var made: seq<Reader> := [];
        while i < count
          invariant i <= count && |made| == i && fresh(made)
          invariant forall k :: 0 <= k < i ==>
            made[k].storage == storage && made[k].id == k && made[k].capacity == offset
            && made[k].input == "" && made[k].put == 0
          invariant forall j, k :: 0 <= j < k < i ==> made[j] != made[k]
        {
          var r := new Reader(storage, i, offset);
          made := made + [r];
          i := i + 1;
        }
        readers := made;
      }
    }

    method NextReader()
      requires currentReader < count
      modifies this`currentReader, this`readerOffset
      ensures currentReader == Next(old(currentReader), count)
      ensures readerOffset == old(readerOffset) + if old(currentReader) + 1 == count then offset else 0
    {
      currentReader := currentReader + 1;
      DivUnique(currentReader, count, if currentReader == count then 1 else 0,
                if currentReader == count then 0 else currentReader);
      if currentReader % count == 0 {
        currentReader := 0;
        readerOffset := readerOffset + offset;
      }
    }

    lemma RequestYields(len: nat, memory: string, data: string, p: nat)
      requires At(data, p) && len <= offset && p + len <= |data| && |memory| == len
      ensures ReadFromStrip(storage.strips[currentReader], readerOffset, len, memory) == data[p..p + len]
    {
      BlockRead(data, offset, count, p, len, readerOffset);
      CStrWhole(data[p..p + len]);
      var strip := storage.strips[currentReader];
      if readerOffset < |strip| {
        assert strip[readerOffset..readerOffset + len] + memory[len..] == data[p..p + len];
      }
    }

    /** Asking the current reader for the beginning of the block at p. */
    method Request(len: nat, ghost data: string, ghost p: nat)
      requires At(data, p) && |readers| == count && len <= offset && p + len <= |data|
      requires readers[currentReader].put == |readers[currentReader].input|
      modifies readers[currentReader]
      ensures At(data, p)
      ensures
        var r := readers[currentReader];
        r.input == old(r.input) + data[p..p + len] && r.put == |r.input|
    {
      var memory := seq(len, _ => '?');
      RequestYields(len, memory, data, p);
      readers[currentReader].ReadInStrip(readerOffset, len, memory);
    }

    method RequestBlock(ghost data: string, ghost p: nat, ghost pieces: seq<string>, ghost at: nat, ghost rest: string)
      requires At(data, p) && |readers| == count && at < count && Filling(pieces, at, rest)
      requires offset <= |rest| && p + |rest| <= |data| && rest == data[p..p + |rest|]
      modifies this`currentReader, this`readerOffset, readers[currentReader]
      ensures At(data, p + offset) && Filling(pieces, at, rest[offset..])
    {
      ghost var c := currentReader;
      Request(offset, data, p);
      AlignedNext(p, offset, count, readerOffset);
      NextReader();
      forall i | 0 <= i < count
        ensures readers[i].input + Share(Blocks(rest[offset..], offset), currentReader, i, count)
             == Share(pieces, at, i, count)
      {
        ShareHead(rest, offset, c, i, count);
        assert data[p..p + offset] == rest[..offset];
        Fold(old(readers[i].input), if c == i then rest[..offset] else "",
             Share(Blocks(rest[offset..], offset), currentReader, i, count));
      }
    }

    /** The first piece of a read that is not straight, from the beginning of the block at p. */
    method RequestFirst(len: nat, ghost data: string, ghost p: nat, ghost rest: string)
      requires Ready(data, p) && |readers| == count && 0 < len <= offset && p + offset <= |data|
      modifies this`currentReader, this`readerOffset, readers[currentReader]
      ensures At(data, p + offset) && Filling(Pieces(data[p..p + len], rest, offset), old(currentReader), rest)
    {
      ghost var c := currentReader;
      Request(len, data, p);
      AlignedNext(p, offset, count, readerOffset);
      NextReader();
      forall i | 0 <= i < count
        ensures readers[i].input + Share(Blocks(rest, offset), currentReader, i, count)
             == Share(Pieces(data[p..p + len], rest, offset), c, i, count)
      {
        SharePieces(data[p..p + len], rest, offset, c, i, count);
        Fold("", data[p..p + len], "");
      }
    }

    lemma IdleIsFilling(text: string)
      requires offset > 0 && currentReader < count && Idle()
      ensures Filling(Pieces("", text, offset), currentReader, text)
    {
      NoFirst(text, offset);
      forall i | 0 <= i < |readers|
        ensures readers[i].input + Share(Blocks(text, offset), currentReader, i, count)
             == Share(Blocks(text, offset), currentReader, i, count)
      {
      }
    }

    lemma FilledIsQueued(pieces: seq<string>, at: nat)
      requires offset > 0 && at < count && currentReader < count && Filling(pieces, at, "")
      ensures Queued(pieces, at)
    {
      forall i | 0 <= i < |readers|
        ensures readers[i].input == Share(pieces, at, i, count)
      {
        assert readers[i].input + "" == readers[i].input;
      }
    }

    lemma WithinLess(todo: nat)
      requires todo >= offset > 0
      ensures Within(todo - offset, offset) == Within(todo, offset)
    {
    }

    /** The whole blocks of size bytes from p on; `todo` bytes of a last block are left. */
    method RequestBlocks(size: nat, ghost data: string, ghost p: nat, ghost pieces: seq<string>, ghost at: nat)
        returns (todo: nat, ghost q: nat)
      requires At(data, p) && |readers| == count && at < count && p + size <= |data|
      requires Filling(pieces, at, data[p..p + size])
      modifies this`currentReader, this`readerOffset, readers
      ensures todo == Within(size, offset) <= size && q + todo == p + size && At(data, q)
      ensures Filling(pieces, at, data[q..q + todo])
    {
      todo, q := size, p;
      ghost var end := p + size;
      while todo >= offset
        invariant Midway(data, q, end, pieces, at) && q + todo == end
        invariant Within(todo, offset) == Within(size, offset)
      {
        WithinLess(todo);
        q := RequestNext(data, q, end, pieces, at);
        todo := todo - offset;
      }
    }

    /** What there is to read up to `end` has been asked for up to the block at p. */
    ghost predicate Midway(data: string, p: nat, end: nat, pieces: seq<string>, at: nat)
      reads this, storage, readers
    {
      && At(data, p) && |readers| == count && at < count && p <= end <= |data|
      && Filling(pieces, at, data[p..end])
    }

    /** The block at p. */
    method RequestNext(ghost data: string, ghost p: nat, ghost end: nat, ghost pieces: seq<string>, ghost at: nat)
        returns (ghost q: nat)
      requires Midway(data, p, end, pieces, at) && p + offset <= end
      modifies this`currentReader, this`readerOffset, readers
      ensures Midway(data, q, end, pieces, at) && q == p + offset
    {
      RequestBlock(data, p, pieces, at, data[p..end]);
      SliceRest(data, p, end, offset);
      q := p + offset;
    }

    method RequestRest(todo: nat, ghost data: string, ghost p: nat, ghost pieces: seq<string>, ghost at: nat)
      requires At(data, p) && |readers| == count && todo < offset && p + todo <= |data| && at < count
      requires Filling(pieces, at, data[p..p + todo])
      modifies readers[currentReader], this`readPointer
      ensures At(data, p) && Queued(pieces, at)
      ensures readPointer == if todo == 0 then old(readPointer) else offset - todo
    {
      if todo > 0 {
        Request(todo, data, p);
        readPointer := offset - todo;
      }
      forall i | 0 <= i < count
        ensures readers[i].input + "" == Share(pieces, at, i, count)
      {
        ShareLast(data[p..p + todo], offset, currentReader, i, count);
      }
      FilledIsQueued(pieces, at);
    }

    method RequestAll(size: nat, ghost data: string, ghost p: nat, ghost pieces: seq<string>, ghost at: nat)
        returns (ghost left: nat, ghost q: nat)
      requires At(data, p) && |readers| == count && at < count && p + size <= |data|
      requires Filling(pieces, at, data[p..p + size])
      modifies this`currentReader, this`readerOffset, this`readPointer, readers
      ensures left == Within(size, offset) && q + left == p + size && At(data, q) && Queued(pieces, at)
      ensures readPointer == if left == 0 then old(readPointer) else offset - left
    {
      var todo;
      todo, q := RequestBlocks(size, data, p, pieces, at);
      RequestRest(todo, data, q, pieces, at);
      left := todo;
    }

    method TakeGrip(size: nat) returns (grip: Grip)
      modifies this`issued, this`bad
      ensures grip == Grip(size, currentReader, 0, old(issued)) && issued == old(issued) + 1 && !bad
    {
      bad := false;
      grip := Grip(size, currentReader, 0, issued);
      issued := issued + 1;
    }

    method RequestCrooked(size: nat, ghost data: string, ghost p: nat, ghost first: string, ghost rest: string)
        returns (ghost left: nat, ghost q: nat)
      requires Ready(data, p) && |readers| == count && 0 < readPointer < offset <= size
      requires p + offset + |rest| <= |data| && size == readPointer + |rest|
      requires first == data[p..p + readPointer] && rest == data[p + offset..p + offset + |rest|]
      modifies this`currentReader, this`readerOffset, this`readPointer, readers
      ensures left == Within(|rest|, offset) && q + left == p + offset + |rest| && At(data, q)
      ensures Queued(Pieces(first, rest, offset), old(currentReader))
      ensures readPointer == if left > 0 then offset - left else 0
    {
      var f, at := readPointer, currentReader;
      readPointer := 0;
      RequestFirst(f, data, p, rest);
      left, q := RequestAll(size - f, data, p + offset, Pieces(first, rest, offset), at);
    }

    method RequestStraight(size: nat, ghost data: string, ghost p: nat, ghost rest: string)
        returns (ghost left: nat, ghost q: nat)
      requires Ready(data, p) && |readers| == count && p + size <= |data| && rest == data[p..p + size]
      modifies this`currentReader, this`readerOffset, this`readPointer, readers
      ensures left == Within(size, offset) && q + left == p + size && At(data, q)
      ensures Queued(Pieces("", rest, offset), old(currentReader))
      ensures readPointer == if left > 0 then offset - left else old(readPointer)
    {
      IdleIsFilling(rest);
      left, q := RequestAll(size, data, p, Pieces("", rest, offset), currentReader);
    }

    /** Asking for size bytes: whole blocks from byte p on, then what is left. A read of a block
        or more behind one that ended inside a block asks for the block's beginning first. */
    method ReadInBackground(size: nat, ghost data: string, ghost p: nat)
        returns (grip: Grip, ghost left: nat, ghost q: nat, ghost first: string, ghost rest: string)
      requires Ready(data, p) && readPointer < offset && InFile(data, p, readPointer, size, offset)
      modifies this`readers, this`currentReader, this`readerOffset, this`readPointer, this`issued, this`bad, readers
      ensures |readers| == count && (fresh(readers) || readers == old(readers))
      ensures first == FirstPiece(data, p, old(readPointer), size, offset)
      ensures rest == RestPiece(data, p, old(readPointer), size, offset)
      ensures Queued(Pieces(first, rest, offset), old(currentReader))
      ensures grip == Grip(size, old(currentReader), |first|, old(issued)) && issued == old(issued) + 1 && !bad
      ensures left == Within(|rest|, offset) && At(data, q)
      ensures q + left == Onward(p, old(readPointer), size, offset).0 + |rest|
      ensures readPointer == if left > 0 then offset - left
                             else if Straight(old(readPointer), size, offset) then old(readPointer) else 0
    {
      first := FirstPiece(data, p, readPointer, size, offset);
      rest := RestPiece(data, p, readPointer, size, offset);
      StartReaders(data, p);
      grip := TakeGrip(size);
      if size >= offset && readPointer != 0 {
        grip := grip.(firstRead := readPointer);
        left, q := RequestCrooked(size, data, p, first, rest);
      } else {
        left, q := RequestStraight(size, data, p, rest);
      }
    }

    /** Collecting a whole block from reader `at`. */
    method TakeBlock(at: nat, ghost rest: string) returns (data: string)
      requires Wired() && |readers| == count && at < count && Queued(Blocks(rest, offset), at)
      requires |rest| >= offset && NoNul(rest)
      modifies readers[at]
      ensures Wired() && data == rest[..offset] && Queued(Blocks(rest[offset..], offset), Next(at, count))
    {
      ShareHead(rest, offset, at, at, count);
      CStrWhole(rest[..offset]);
      var block := readers[at].ReadCurrentBuffer(-1);
      data := block.value;
      forall i | 0 <= i < count
        ensures readers[i].put <= |readers[i].input|
        ensures readers[i].input == Share(Blocks(rest[offset..], offset), Next(at, count), i, count)
      {
        ShareHead(rest, offset, at, i, count);
        assert "" + readers[i].input == readers[i].input;
      }
    }

    /** Collecting the first piece from reader `at`. */
    method TakeFirst(at: nat, size: nat, ghost first: string, ghost rest: string) returns (data: string)
      requires Wired() && |readers| == count && at < count && Queued(Pieces(first, rest, offset), at)
      requires size == |first| > 0 && NoNul(first)
      modifies readers[at]
      ensures Wired() && data == first && Queued(Blocks(rest, offset), Next(at, count))
    {
      SharePieces(first, rest, offset, at, at, count);
      CStrWhole(first);
      var piece := readers[at].ReadCurrentBuffer(size);
      data := piece.value;
      forall i | 0 <= i < count
        ensures readers[i].put <= |readers[i].input|
        ensures readers[i].input == Share(Blocks(rest, offset), Next(at, count), i, count)
      {
        SharePieces(first, rest, offset, at, i, count);
        assert "" + readers[i].input == readers[i].input;
      }
    }

    /** Collecting the last block, which is all that is left. */
    method TakeLast(at: nat, size: nat, ghost rest: string) returns (data: string)
      requires Wired() && |readers| == count && at < count && Queued(Blocks(rest, offset), at)
      requires size == |rest| <= offset && NoNul(rest)
      modifies readers[at]
      ensures Wired() && data == rest && Idle()
    {
      forall i | 0 <= i < count ensures readers[i].input == if i == at then rest else "" {
        ShareLast(rest, offset, at, i, count);
      }
      CStrWhole(rest);
      var last := readers[at].ReadCurrentBuffer(size);
      data := last.value;
    }

    /** A first piece and the rest, together one block long, asked of one reader: it has them all
        if it is the only one, and waits for ever otherwise. */
    method TakeBoth(at: nat, size: nat, ghost first: string, ghost rest: string) returns (data: Option<string>)
      requires Wired() && |readers| == count && at < count && Queued(Pieces(first, rest, offset), at)
      requires first != "" && size == offset == |first| + |rest| && |first| < offset && NoNul(first + rest)
      modifies readers[at]
      ensures data == if count == 1 then Some(first + rest) else None
      ensures count == 1 ==> Wired() && Idle()
    {
      SharePieces(first, rest, offset, at, at, count);
      ShareLast(rest, offset, Next(at, count), at, count);
      CStrWhole(first + rest);
      Fold("", first, "");
      assert readers[at].input == if count == 1 then first + rest else first;
      assert (first + rest)[..size] == first + rest;
      data := readers[at].ReadCurrentBuffer(size);
    }

    function NextInput(at: nat): (r: nat)
      requires at < count
      ensures r == Next(at, count)
    {
      DivUnique(at + 1, count, if at + 1 == count then 1 else 0, if at + 1 == count then 0 else at + 1);
      if (at + 1) % count == 0 then 0 else at + 1
    }

    /** Collecting what a grip of more than a block asked for. */
    method CollectBlocks(grip: Grip, ghost first: string, ghost text: string) returns (data: string)
      requires Wired() && |readers| == count && grip.firstReader < count
      requires Queued(Pieces(first, text, offset), grip.firstReader)
      requires |first| == grip.firstRead < offset < grip.size == |first| + |text| && NoNul(first) && NoNul(text)
      modifies readers
      ensures Wired() && data == first + text && Idle()
    {
      var size: nat, at: nat, firstRead: nat := grip.size, grip.firstReader, grip.firstRead;
      ghost var rest := text;
      data := "";
      NoFirst(text, offset);
      while size > offset
        invariant Wired() && at < count && NoNul(rest)
        invariant if firstRead != 0 then Queued(Pieces(first, rest, offset), at) else Queued(Blocks(rest, offset), at)
        invariant firstRead != 0 ==> firstRead == |first| && data == "" && rest == text && size > offset
        invariant firstRead == 0 ==> data + rest == first + text
        invariant size == firstRead + |rest| > 0
        modifies readers
      {
        if firstRead != 0 {
          data := TakeFirst(at, firstRead, first, rest);
          size := size - firstRead;
          firstRead := 0;
        } else {
          var block := TakeBlock(at, rest);
          assert rest == block + rest[offset..];
          Fold(data, block, rest[offset..]);
          data := data + block;
          size, rest := size - offset, rest[offset..];
        }
        at := NextInput(at);
      }
      if size > 0 {
        var last := TakeLast(at, size, rest);
        data := data + last;
        at := NextInput(at);
      }
    }

    /** Collecting what a grip asked for. A grip used out of order yields nothing. */
    method GetRead(grip: Grip, ghost first: string, ghost rest: string) returns (data: Option<string>)
      requires Wired() && |readers| == count
      requires grip.order == served ==>
        grip.firstReader < count && Queued(Pieces(first, rest, offset), grip.firstReader)
        && |first| == grip.firstRead < offset && grip.size == |first| + |rest| && NoNul(first + rest)
        && (first != "" ==> grip.size >= offset)
      modifies this`served, this`bad, readers
      ensures grip.order != old(served) ==> data == Some("") && bad && served == old(served) && Wired()
      ensures grip.order == old(served) ==>
        data == if first != "" && grip.size == offset && count > 1 then None else Some(first + rest)
      ensures grip.order == old(served) && data.Some? ==>
        Wired() && Idle() && served == old(served) + 1 && bad == old(bad)
    {
      if grip.order != served {
        bad := true;
        return Some("");
      }
      NoNulParts(first, rest);
      NoFirst(rest, offset);
      if grip.size > offset {
        var text := CollectBlocks(grip, first, rest);
        data := Some(text);
      } else if grip.firstRead == 0 {
        assert first + rest == rest;
        var text := TakeLast(grip.firstReader, grip.size, rest);
        data := Some(text);
      } else {
        data := TakeBoth(grip.firstReader, grip.size, first, rest);
        if data.None? {
          return;
        }
      }
      served := served + 1;
    }

    /** A read from a block boundary returns the bytes from there. It moves on by its whole blocks
        only: what it takes of a last block does not count, and the next read starts there. */
    method Read(size: nat, ghost data: string, ghost p: nat) returns (r: Option<string>)
      requires Ready(data, p) && readPointer < offset && InFile(data, p, readPointer, size, offset)
      requires issued == served
      modifies this, readers
      ensures r == ReadResult(data, p, old(readPointer), size, offset, count)
      ensures
        var (q, len) := Onward(p, old(readPointer), size, offset);
        r.Some? ==>
          !bad && issued == served && Within(len, offset) <= len && Ready(data, q + (len - Within(len, offset)))
          && readPointer == if Within(len, offset) > 0 then offset - Within(len, offset)
                            else if Straight(old(readPointer), size, offset) then old(readPointer) else 0
      ensures fresh(readers) || readers == old(readers)
    {
      ghost var left, q, first, rest;
      var grip;
      NoNulSlices(data, p, readPointer, size, offset);
      grip, left, q, first, rest := ReadInBackground(size, data, p);
      r := GetRead(grip, first, rest);
    }

    /** The whole file, read block by block. */
    method Gather(ghost data: string) returns (file: string)
      requires Ready(data, 0) && total == |data| && readPointer == 0 && issued == served
      modifies this, readers
      ensures file == data
    {
      file := "";
      var fullSize: nat := total;
      ghost var p: nat := 0;
      while fullSize > offset
        invariant Ready(data, p) && p + fullSize == |data| && file == data[..p]
        invariant readPointer == 0 && issued == served
        invariant readers == old(readers) || fresh(readers)
      {
        assert Within(offset, offset) == Within(0, offset) == 0;
        var part := Read(offset, data, p);
        file := file + part.value;
        fullSize, p := fullSize - offset, p + offset;
      }
      if fullSize > 0 {
        var part := Read(fullSize, data, p);
        file := file + part.value;
      }
    }
  }

  lemma SliceRest(data: string, p: nat, end: nat, k: nat)
    requires p + k <= end <= |data|
    ensures data[p..end][k..] == data[p + k..end]
  {
  }

  lemma Fold(a: string, b: string, c: string)
    ensures a + (b + c) == (a + b) + c && a + "" == a
  {
  }

  lemma NoNulParts(a: string, b: string)
    requires NoNul(a + b)
    ensures NoNul(a) && NoNul(b)
  {
    forall i | 0 <= i < |a| ensures a[i] != '\0' { assert (a + b)[i] == a[i]; }
    forall i | 0 <= i < |b| ensures b[i] != '\0' { assert (a + b)[|a| + i] == b[i]; }
  }

  lemma NoNulSlices(data: string, p: nat, pointer: nat, size: nat, b: nat)
    requires NoNul(data) && pointer < b && InFile(data, p, pointer, size, b)
    ensures NoNul(FirstPiece(data, p, pointer, size, b) + RestPiece(data, p, pointer, size, b))
  {
  }

  // ---------------------------------------------------------------- one read after another

  /** What the second of two reads, of a and c bytes, returns when the first starts at byte p. */
  function SecondRead(data: string, p: nat, a: nat, c: nat, b: nat, n: nat): Option<string>
    requires b > 0 && Within(a, b) <= a && SecondInFile(data, p, a, c, b)
  {
    var w := Within(a, b);
    ReadResult(data, p + (a - w), if w == 0 then 0 else b - w, c, b, n)
  }

  predicate SecondInFile(data: string, p: nat, a: nat, c: nat, b: nat)
    requires b > 0 && Within(a, b) <= a
  {
    var w := Within(a, b);
    InFile(data, p + (a - w), if w == 0 then 0 else b - w, c, b)
  }

  lemma {:induction false} WithinAtMost(a: nat, b: nat)
    requires b > 0
    ensures Within(a, b) <= a
  {
    if a >= b {
      WithinAtMost(a - b, b);
    }
  }

  /** Two reads in a row. */
  method ReadTwice(s: ReadStream, a: nat, c: nat, ghost data: string, ghost p: nat)
      returns (x: Option<string>, y: Option<string>)
    requires s.Ready(data, p) && s.readPointer == 0 && s.issued == s.served && p + a <= |data|
    requires Within(a, s.offset) <= a && SecondInFile(data, p, a, c, s.offset)
    modifies s, s.readers
    ensures x == Some(data[p..p + a]) && y == SecondRead(data, p, a, c, s.offset, s.count)
  {
    x := s.Read(a, data, p);
    Fold("", data[p..p + a], "");
    assert "" + data[p..p + a] == data[p..p + a];
    y := s.Read(c, data, p + (a - Within(a, s.offset)));
  }

  /** The second of two reads returns the bytes behind the first, whatever the file holds and
      however many are asked for, if and only if the first ended at the end of a block. */
  lemma ConsecutiveIff(p: nat, a: nat, b: nat, n: nat)
    requires b > 0 && Within(a, b) <= a
    ensures (forall data: string, c: nat :: SecondInFile(data, p, a, c, b) && p + a + c <= |data| ==>
              SecondRead(data, p, a, c, b, n) == Some(data[p + a..p + a + c]))
       <==> Within(a, b) == 0
  {
    if Within(a, b) == 0 {
      forall data: string, c: nat | SecondInFile(data, p, a, c, b) && p + a + c <= |data|
        ensures SecondRead(data, p, a, c, b, n) == Some(data[p + a..p + a + c])
      {
        assert "" + data[p + a..p + a + c] == data[p + a..p + a + c];
      }
    } else {
      var data := seq(p + a + 1, i => if i == p + a then 'x' else 'y');
      var q := p + (a - Within(a, b));
      assert SecondInFile(data, p, a, 1, b);
      assert SecondRead(data, p, a, 1, b, n) == Some("" + data[q..q + 1]);
      assert data[q..q + 1][0] == 'y' && data[p + a..p + a + 1][0] == 'x';
      assert ("" + data[q..q + 1])[0] == 'y';
    }
  }

  /** A read of one byte, and then of a whole block of a file of several strips, waits for ever. */
  lemma PartialThenBlockHangs(data: string, p: nat, b: nat, n: nat)
    requires b > 1 && n > 1 && p + b + 1 <= |data|
    ensures Within(1, b) == 1 && SecondInFile(data, p, 1, b, b) && SecondRead(data, p, 1, b, b, n) == None
  {
  }

  /** One request, collected. It may reach past the end of the strip: it waits for ever if and only
      if it begins there, or a NUL is among what the memory holds then; else it yields that. */
  method RequestAndCollect(r: Reader, start: nat, len: nat, memory: string) returns (data: Option<string>)
    requires r.input == "" && r.put == 0 && r.id < |r.storage.strips| && |memory| == len
    modifies r
    ensures
      var strip := r.storage.strips[r.id];
      && (data.None? <==> len > 0 && (start >= |strip| || !NoNul(Obtained(strip, start, len, memory))))
      && (data.Some? && len > 0 ==> data.value == Obtained(strip, start, len, memory))
  {
    ghost var strip := r.storage.strips[r.id];
    r.ReadInStrip(start, len, memory);
    assert r.input == ReadFromStrip(strip, start, len, memory);
    if start < |strip| {
      CutShort(Obtained(strip, start, len, memory));
    }
    data := r.ReadCurrentBuffer(len);
  }

  lemma CutShort(s: string)
    ensures |CStr(s)| == |s| <==> NoNul(s)
    ensures NoNul(s) ==> CStr(s) == s && CStr(s[..|s|]) == s
  {
    CStrPrefix(s);
    CStrWhole(s);
    assert s[..|s|] == s;
  }
}
