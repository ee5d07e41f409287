/** A whole history: create, any number of sessions of writes, reopen, gather. */
module PopHistory {
  import opened Layout
  import opened CStrings
  import opened PopFile
  import opened PopFileProof
  import opened PopFileLoss
  import opened PopStream
  import opened PopRead

  method WriteEach(s: Stream, vs: seq<string>)
    requires s.Valid()
    modifies s`current, s`first, s`total, s.bufs, s.storage`strips
    ensures s.Valid() && s.Value() == WriteAll(old(s.Value()), vs)
  {
    ghost var v, goal := s.Value(), WriteAll(s.Value(), vs);
    var i := 0;
    while i < |vs|
      invariant i <= |vs| && s.Valid() && s.Value() == v && WriteAll(v, vs[i..]) == goal
    {
      s.Write(vs[i]);
      assert vs[i..][1..] == vs[i + 1..];
      v, i := PopFile.Write(v, vs[i]), i + 1;
    }
  }

  /** One session on a closed file. */
  method WriteSession(storage: Storage, vs: seq<string>)
    requires Usable(storage.Value())
    modifies storage
    ensures storage.Value() == Append(old(storage.Value()), vs)
  {
    var s := new Stream(storage);
    WriteEach(s, vs);
    s.Close();
  }

  /** What is written over any number of safe sessions is what gathering the file yields. */
  method WriteAndGather(block: nat, count: nat, runs: seq<seq<string>>) returns (file: string)
    requires block > 0 && count > 0 && AllSafe(runs, 0, block)
    ensures file == AllJoined(runs)
  {
    var storage := new Storage(block, count);
    ghost var empty := storage.Value();
    var i := 0;
    while i < |runs|
      invariant i <= |runs| && Usable(storage.Value()) && fresh(storage)
      invariant Sessions(storage.Value(), runs[i..]) == Sessions(empty, runs)
    {
      WriteSession(storage, runs[i]);
      assert runs[i..][1..] == runs[i + 1..];
      i := i + 1;
    }
    SessionsHold(empty, "", runs);
    SafeNoNul(runs, 0, block);
    assert "" + AllJoined(runs) == AllJoined(runs);
    var r := new ReadStream(storage, AllJoined(runs));
    file := r.Gather(AllJoined(runs));
  }

  lemma NoNulJoin(a: string, b: string)
    requires NoNul(a) && NoNul(b)
    ensures NoNul(a + b)
  {
  }

  lemma {:induction false} SafeNoNulRun(vs: seq<string>, p: nat, block: nat)
    requires block > 0 && Safe(vs, p, block)
    ensures NoNul(Joined(vs))
    decreases |vs|
  {
    if vs != [] {
      SafeNoNulRun(vs[1..], p + |vs[0]|, block);
      NoNulJoin(vs[0], Joined(vs[1..]));
    }
  }

  lemma {:induction false} SafeNoNul(runs: seq<seq<string>>, p: nat, block: nat)
    requires block > 0 && AllSafe(runs, p, block)
    ensures NoNul(AllJoined(runs))
    decreases |runs|
  {
    if runs != [] {
      SafeNoNulRun(runs[0], p, block);
      SafeNoNul(runs[1..], p + |Joined(runs[0])|, block);
      NoNulJoin(Joined(runs[0]), AllJoined(runs[1..]));
    }
  }
}
