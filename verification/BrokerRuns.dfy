/** Runs that lead somewhere in particular, and how a broker stops. */
module BrokerRuns {
  import opened Broker
  import opened BrokerInvariant
  import opened BrokerOrder

  /** One step more. */
  lemma {:induction false} Extend(s: State, steps: seq<Step>, t: State, step: Step)
    requires Runs(s, steps, t) && Enabled(t, step)
    ensures Runs(s, steps + [step], Apply(t, step))
    decreases |steps|
  {
    if steps == [] {
      assert steps + [step] == [step];
      assert [step][1..] == [];
    } else {
      assert (steps + [step])[1..] == steps[1..] + [step];
      Extend(Apply(s, steps[0]), steps[1..], t, step);
    }
  }

  ghost predicate Reaches(s: State, t: State) {
    exists steps :: Runs(s, steps, t)
  }

  lemma Go(s: State, t: State, step: Step) returns (u: State)
    requires Reaches(s, t) && Enabled(t, step)
    ensures Reaches(s, u) && u == Apply(t, step)
  {
    u := Apply(t, step);
    var steps :| Runs(s, steps, t);
    Extend(s, steps, t, step);
  }

  /** A concurrent request that had to be queued, and is not yet counted. */
  lemma PushedUncounted(s: State, m: Request, c: Request) returns (t: State)
    requires Initial(s) && m == Request(1, Mutex, false) && c == Request(2, Concurrent, false)
    ensures Reaches(s, t) && t.fifo == [c] && t.holder == Pushed(c) && t.concPendings == 0
    ensures t.server == Polling && t.phase == Running
  {
    assert Runs(s, [], s);
    t := Go(s, s, ArriveMutex(m));
    t := Go(s, t, ArriveConcurrent(c));
    t := Go(s, t, PushConcurrent);
  }

  /** concPendings need not be the number of concurrent requests in the queue, even when no
      thread is under way: one taken before it was counted is counted for good. */
  lemma PendingsDrift(s: State) returns (t: State)
    requires Initial(s)
    ensures Reaches(s, t) && t.fifo == [] && t.holder == Free && t.concPendings == 1
  {
    t := PushedUncounted(s, Request(1, Mutex, false), Request(2, Concurrent, false));
    t := Go(s, t, Poll);
    t := Go(s, t, Take);
    t := Go(s, t, CountPending);
  }

  /** A concurrent request queued behind a mutex request. */
  lemma BothQueued(s: State, m: Request, c: Request) returns (t: State)
    requires Initial(s) && m == Request(1, Mutex, false) && c == Request(2, Concurrent, false)
    ensures Reaches(s, t) && t.fifo == t.arrivals == [m, c] && t.starts == [] && t.registered == {m, c}
    ensures t.server == Polling && t.phase == Running && t.holder == Free
    ensures t.mutexCount == 1 && t.concPendings == 1 && t.instanceCount == 0
  {
    assert Runs(s, [], s);
    t := Go(s, s, ArriveMutex(m));
    t := Go(s, t, PushMutex(m));
    t := Go(s, t, ArriveConcurrent(c));
    t := Go(s, t, PushConcurrent);
    t := Go(s, t, CountPending);
  }

  lemma OneTaken(s: State, m: Request, c: Request) returns (t: State)
    requires Initial(s) && m == Request(1, Mutex, false) && c == Request(2, Concurrent, false)
    ensures Reaches(s, t) && t.fifo == [c] && t.arrivals == [m, c] && t.starts == [m] && t.registered == {m, c}
    ensures t.server == Invoking(m) && t.holder == Free && t.mutexCount == 1
  {
    t := BothQueued(s, m, c);
    t := Go(s, t, Poll);
    t := Go(s, t, Take);
    t := Go(s, t, Enter);
  }

  /** A concurrent request that had to be queued can be overtaken by one that comes later. */
  lemma ConcurrentOvertaken(s: State) returns (t: State)
    requires Initial(s)
    ensures Reaches(s, t) && |t.arrivals| == 3
    ensures
      var (c, d) := (t.arrivals[1], t.arrivals[2]);
      c.kind == Concurrent && d.kind == Concurrent && d in t.starts && c !in t.starts && c in t.fifo
  {
    t := OneTaken(s, Request(1, Mutex, false), Request(2, Concurrent, false));
    t := Go(s, t, Return(false));
    t := Go(s, t, Release);
    t := Go(s, t, ArriveConcurrent(Request(3, Concurrent, false)));
  }

  // ---------------------------------------------------------------- draining

  /** A request that comes in while the broker drains is never served, and the broker never exits. */
  lemma {:induction false} DrainingHangs(s: State, steps: seq<Step>, t: State)
    requires s.server.Draining? && s.fifo != [] && Runs(s, steps, t)
    ensures t.server.Draining? && |t.fifo| >= |s.fifo| && t.fifo[..|s.fifo|] == s.fifo
    decreases |steps|
  {
    if steps != [] {
      var u := Apply(s, steps[0]);
      DrainingStep(s, steps[0]);
      DrainingHangs(u, steps[1..], t);
      assert t.fifo[..|s.fifo|] == t.fifo[..|u.fifo|][..|s.fifo|];
    }
  }

  lemma DrainingStep(s: State, step: Step)
    requires s.server.Draining? && s.fifo != [] && Enabled(s, step)
    ensures
      var u := Apply(s, step);
      u.server.Draining? && |u.fifo| >= |s.fifo| && u.fifo[..|s.fifo|] == s.fifo
  {
    match step
    case ArriveSequential(r) =>
    case PushMutex(r) =>
    case PushConcurrent =>
    case _ => assert Apply(s, step).fifo == s.fifo;
  }

  /** Ends what is live, one invocation after the other, and stops. */
  lemma DrainDown(s: State, t: State) returns (u: State)
    requires Reaches(s, t) && Inv(t) && t.server.Draining? && t.fifo == []
    ensures Reaches(s, u) && u.server.Exited?
    decreases |t.live| + if t.holder.Counted? then 1 else 0
  {
    if t.holder.Counted? {
      StepInv(t, SpawnDirect(false));
      u := Go(s, t, SpawnDirect(false));
      u := DrainDown(s, u);
    } else if t.live != multiset{} {
      var r :| r in t.live;
      StepInv(t, WorkerEnds(r));
      u := Go(s, t, WorkerEnds(r));
      u := DrainDown(s, u);
    } else {
      u := Go(s, t, DrainEnd);
    }
  }

  /** A draining broker can still exit if and only if nothing is queued. */
  lemma DrainingExits(s: State, steps: seq<Step>, t: State)
    requires Initial(s) && Runs(s, steps, t) && t.server.Draining?
    ensures (exists u :: Reaches(t, u) && u.server.Exited?) <==> t.fifo == []
  {
    Reached(s, steps, t);
    if t.fifo == [] {
      assert Runs(t, [], t);
      var u := DrainDown(t, t);
    } else if u :| Reaches(t, u) && u.server.Exited? {
      var on :| Runs(t, on, u);
      DrainingHangs(t, on, u);
    }
  }

  /** A broker whose object lost its last reference drains, and can still be sent a request. */
  lemma HangReached(s: State) returns (t: State)
    requires Initial(s) && s.hasObject
    ensures Reaches(s, t) && t.server.Draining? && t.fifo != []
  {
    assert Runs(s, [], s);
    t := Go(s, s, SetRefs(0));
    t := Go(s, t, Poll);
    t := Go(s, t, GiveUp);
    t := Go(s, t, ArriveSequential(Request(1, Sequential, false)));
  }

  // ---------------------------------------------------------------- after the exit

  /** A normal stop with an object: nothing is queued or live. What is registered is all finished
      if and only if no receive thread has a request in hand. */
  lemma DrainedExit(s: State, steps: seq<Step>, t: State)
    requires Initial(s) && Runs(s, steps, t) && Enabled(t, DrainEnd)
    ensures t.live == multiset{} && !t.holder.Counted?
    ensures multiset(t.registered) == t.posting + HeldBy(t.holder) + t.finished
    ensures multiset(t.registered) == t.finished <==>
      t.posting == multiset{} && (t.holder.Free? || t.holder.Pushed?)
  {
    Reached(s, steps, t);
    assert |t.live| <= 0;
    Remainder(t.posting, HeldBy(t.holder), t.finished);
  }

  lemma Remainder(a: multiset<Request>, b: multiset<Request>, c: multiset<Request>)
    ensures a + b + c == c <==> a == multiset{} && b == multiset{}
  {
    if a + b + c == c {
      forall r ensures a[r] == 0 && b[r] == 0 {
        assert (a + b + c)[r] == c[r];
      }
    }
  }

  /** A registered request that no thread will start any more. */
  predicate Lost(s: State, r: Request) {
    s.server.Exited? && r in s.registered && r !in s.starts
  }

  lemma LostStep(s: State, step: Step, r: Request)
    requires Lost(s, r) && Enabled(s, step)
    ensures Lost(Apply(s, step), r)
  {
    match step
    case ArriveConcurrent(x) => assert x != r;
    case _ =>
  }

  lemma {:induction false} LostForEver(s: State, steps: seq<Step>, t: State, r: Request)
    requires Lost(s, r) && Runs(s, steps, t)
    ensures Lost(t, r)
    decreases |steps|
  {
    if steps != [] {
      LostStep(s, steps[0], r);
      LostForEver(Apply(s, steps[0]), steps[1..], t, r);
    }
  }

  /** A request that a receive thread had counted or had to queue, or that was queued, when the
      broker exited is never started. */
  lemma ExitLoses(s: State, steps: seq<Step>, t: State, on: seq<Step>, u: State, r: Request)
    requires Initial(s) && Runs(s, steps, t) && t.server.Exited? && Runs(t, on, u)
    requires r in t.posting || t.holder == MustQueue(r) || r in t.fifo
    ensures r !in u.starts && u.server.Exited?
  {
    InitialOrder(s);
    RunOrder(s, steps, t);
    if r in t.fifo {
      PendingWithin(t.arrivals, t.starts, r);
      InArrivals(t, r);
    } else {
      NotArrived(t, r);
      InHand(t, r);
    }
    LostForEver(t, on, u, r);
  }

  lemma InArrivals(t: State, r: Request)
    requires Logged(t) && r in t.arrivals
    ensures r in t.registered
  {
    assert multiset(t.arrivals)[r] > 0;
    assert multiset(t.registered)[r] > 0;
  }

  lemma InHand(t: State, r: Request)
    requires Conserved(t) && (r in t.posting || t.holder == MustQueue(r))
    ensures r in t.registered
  {
    assert (t.posting + HeldBy(t.holder))[r] > 0;
    assert multiset(t.registered)[r] > 0;
  }

  /** The guard of the exit does not see a concurrent request that a receive thread is about to
      start: it runs on after the exit. */
  lemma ExitWhileStarting(s: State) returns (t: State)
    requires Initial(s) && s.hasObject
    ensures Reaches(s, t) && t.server.Exited? && t.live != multiset{}
  {
    assert Runs(s, [], s);
    t := Go(s, s, SetRefs(0));
    t := Go(s, t, Poll);
    t := Go(s, t, GiveUp);
    t := Go(s, t, ArriveConcurrent(Request(1, Concurrent, false)));
    t := Go(s, t, DrainEnd);
    t := Go(s, t, CountDirect);
    t := Go(s, t, SpawnDirect(true));
  }
}
