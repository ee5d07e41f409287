/** Which queued requests can still be started. */
module BrokerProgress {
  import opened Broker
  import opened BrokerInvariant
  import opened BrokerOrder
  import opened BrokerRuns

  /** The constructor call has failed, and the serving loop is about to leave. */
  predicate Failed(s: State) {
    (s.server.Releasing? || s.server.Served?) && s.server.r.builds && !s.hasObject
  }

  /** The serving loop goes on taking requests. */
  predicate Serving(s: State) {
    s.phase == Running && !s.server.Draining? && !s.server.Exited? && !Failed(s)
  }

  /** One step more, with everything that holds in reachable states. */
  lemma On(s: State, t: State, step: Step) returns (u: State)
    requires Reaches(s, t) && Inv(t) && Enabled(t, step)
    ensures Reaches(s, u) && Inv(u) && u == Apply(t, step)
  {
    u := Go(s, t, step);
    StepInv(t, step);
  }

  // ---------------------------------------------------------------- receive threads

  /** The receive thread that holds the lock comes to its end. */
  lemma FreeHolder(s: State, t: State) returns (u: State)
    requires Reaches(s, t) && Inv(t)
    ensures Reaches(s, u) && Inv(u) && u.holder == Free && t.fifo <= u.fifo && t.starts == u.starts
    ensures u.server == t.server && u.phase == t.phase && u.hasObject == t.hasObject
  {
    u := t;
    if u.holder.Seen? {
      u := On(s, u, CountDirect);
    }
    if u.holder.Counted? {
      u := On(s, u, SpawnDirect(false));
    }
    if u.holder.MustQueue? {
      u := On(s, u, PushConcurrent);
    }
    if u.holder.Pushed? {
      u := On(s, u, CountPending);
    }
  }

  // ---------------------------------------------------------------- the serving loop

  /** Nothing but the invocations that are live changes. */
  predicate SameButLive(t: State, u: State) {
    u == t.(live := u.live, finished := u.finished, instanceCount := u.instanceCount)
  }

  lemma EndLive(s: State, t: State) returns (u: State)
    requires Reaches(s, t) && Inv(t)
    ensures Reaches(s, u) && Inv(u) && u.live == multiset{} && SameButLive(t, u)
    decreases |t.live|
  {
    if t.live == multiset{} {
      u := t;
    } else {
      var r :| r in t.live;
      u := On(s, t, WorkerEnds(r));
      u := EndLive(s, u);
    }
  }

  function Rank(v: Server): nat {
    match v
    case Getting => 0
    case Polling => 1
    case Served(_) => 2
    case Releasing(_) => 3
    case Invoking(_) => 4
    case Awaiting(_) => 5
    case Spawning(_) => 3
    case Starting(_) => 4
    case _ => 6
  }

  /** The serving loop comes back to where it takes a request. */
  lemma {:induction false} ToGetting(s: State, t: State) returns (u: State)
    requires Reaches(s, t) && Inv(t) && Serving(t) && t.holder == Free
    ensures Reaches(s, u) && Inv(u) && Serving(u) && u.holder == Free && u.server == Getting
    ensures u.fifo == t.fifo && u.starts == t.starts
    decreases Rank(t.server)
  {
    if t.server == Getting {
      u := t;
    } else {
      var v := t;
      if t.server.Awaiting? {
        v := EndLive(s, t);
      }
      u := LoopStep(s, v);
      u := ToGetting(s, u);
    }
  }

  /** The next step of the serving loop, outside the taking of a request. */
  function NextStep(v: Server): Step {
    match v
    case Polling => Poll
    case Served(_) => Next
    case Releasing(_) => Release
    case Invoking(r) => Return(r.builds)
    case Awaiting(_) => Enter
    case Starting(_) => CountSpawn
    case _ => Spawn(true)
  }

  lemma LoopStep(s: State, t: State) returns (u: State)
    requires Reaches(s, t) && Inv(t) && Serving(t) && t.holder == Free && t.server != Getting
    requires t.server.Awaiting? ==> t.live == multiset{}
    ensures Reaches(s, u) && Inv(u) && Serving(u) && u.holder == Free && Rank(u.server) < Rank(t.server)
    ensures u.fifo == t.fifo && u.starts == t.starts
  {
    NextStepServes(t);
    u := On(s, t, NextStep(t.server));
  }

  /** This step is possible and brings the serving loop closer to the queue. */
  ghost predicate Advances(t: State, step: Step) {
    && Enabled(t, step)
    && var u := Apply(t, step);
       && Serving(u) && u.holder == Free && Rank(u.server) < Rank(t.server)
       && u.fifo == t.fifo && u.starts == t.starts
  }

  lemma NextStepServes(t: State)
    requires Inv(t) && Serving(t) && t.holder == Free && t.server != Getting
    requires t.server.Awaiting? ==> t.live == multiset{}
    ensures Advances(t, NextStep(t.server))
  {
    match t.server
    case Invoking(r) => ReturnServes(t);
    case Spawning(r) => SpawnServes(t);
    case _ => NextEnabled(t); PlainServes(t);
  }

  lemma PlainServes(t: State)
    requires Enabled(t, NextStep(t.server)) && Serving(t) && t.holder == Free
    requires t.server != Getting && !t.server.Invoking? && !t.server.Spawning?
    ensures Advances(t, NextStep(t.server))
  {
  }

  lemma SpawnServes(t: State)
    requires Inv(t) && Serving(t) && t.holder == Free && t.server.Spawning?
    ensures Advances(t, Spawn(true))
  {
    BuildersAreMutex(t, t.server.r);
  }

  lemma ReturnServes(t: State)
    requires Serving(t) && t.holder == Free && t.server.Invoking?
    ensures Advances(t, Return(t.server.r.builds))
  {
  }

  lemma BuildersAreMutex(t: State, r: Request)
    requires Inv(t) && ServedBy(t.server)[r] > 0 && r.kind != Mutex
    ensures !r.builds
  {
    assert multiset(t.registered)[r] > 0;
    assert r in t.registered;
  }

  /** A queued request is started in the end, whatever is queued with it. */
  lemma {:induction false} StartQueued(s: State, t: State, r: Request) returns (u: State)
    requires Reaches(s, t) && Inv(t) && Serving(t) && t.holder == Free && r in t.fifo
    ensures Reaches(s, u) && r in u.starts
    decreases |t.fifo|
  {
    var v := ToGetting(s, t);
    TakeServes(v, r);
    u := On(s, v, Take);
    if r !in u.starts {
      u := StartQueued(s, u, r);
    }
  }

  /** The loop takes r or another request, and goes on. */
  lemma TakeServes(t: State, r: Request)
    requires Serving(t) && t.holder == Free && t.server == Getting && r in t.fifo
    ensures
      var u := Apply(t, Take);
      Serving(u) && u.holder == Free && |u.fifo| < |t.fifo| && (r in u.starts || r in u.fifo)
  {
    var i := Choice(t.fifo, t.concPendings);
    ChoiceIs(t.fifo, t.concPendings, i);
    TakesFirstThatMayPass(t, i);
    if t.fifo[i] != r {
      StillQueued(t.fifo, i, r);
    }
  }

  lemma StillQueued(q: seq<Request>, i: nat, r: Request)
    requires i < |q| && r in q && q[i] != r
    ensures r in q[..i] + q[i + 1..]
  {
    var j :| 0 <= j < |q| && q[j] == r;
    assert (q[..i] + q[i + 1..])[if j < i then j else j - 1] == r;
  }

  // ---------------------------------------------------------------- when it does not

  /** The serving loop takes nothing any more. */
  predicate Over(s: State) {
    s.server.Exited? || (s.server.Draining? && s.fifo != []) || Failed(s)
  }

  lemma OverStep(s: State, step: Step)
    requires Over(s) && Enabled(s, step)
    ensures
      var t := Apply(s, step);
      Over(t) && |t.fifo| >= |s.fifo| && t.fifo[..|s.fifo|] == s.fifo
  {
    match step
    case ArriveSequential(r) =>
    case PushMutex(r) =>
    case PushConcurrent =>
    case _ => assert Apply(s, step).fifo == s.fifo;
  }

  lemma {:induction false} OverForEver(s: State, steps: seq<Step>, t: State)
    requires Over(s) && Runs(s, steps, t)
    ensures Over(t) && |t.fifo| >= |s.fifo| && t.fifo[..|s.fifo|] == s.fifo
    decreases |steps|
  {
    if steps != [] {
      var u := Apply(s, steps[0]);
      OverStep(s, steps[0]);
      OverForEver(u, steps[1..], t);
      assert t.fifo[..|s.fifo|] == t.fifo[..|u.fifo|][..|s.fifo|];
    }
  }

  lemma {:induction false} RunsOn(s: State, steps: seq<Step>, t: State, more: seq<Step>, u: State)
    requires Runs(s, steps, t) && Runs(t, more, u)
    ensures Runs(s, steps + more, u)
    decreases |steps|
  {
    if steps == [] {
      assert steps + more == more;
    } else {
      assert (steps + more)[1..] == steps[1..] + more;
      RunsOn(Apply(s, steps[0]), steps[1..], t, more, u);
    }
  }

  /** In every reachable state of a running broker, a queued request can still be started if and
      only if the broker does not drain and its constructor call has not failed. */
  lemma QueuedCanStart(s: State, steps: seq<Step>, t: State, r: Request)
    requires Initial(s) && Runs(s, steps, t) && t.phase == Running && r in t.fifo
    ensures (exists u :: Reaches(t, u) && r in u.starts) <==> !t.server.Draining? && !t.server.Exited? && !Failed(t)
  {
    Reached(s, steps, t);
    if Serving(t) {
      assert Runs(t, [], t);
      var v := FreeHolder(t, t);
      assert r in v.fifo;
      var u := StartQueued(t, v, r);
    } else if u :| Reaches(t, u) && r in u.starts {
      var on :| Runs(t, on, u);
      OverForEver(t, on, u);
      RunsOn(s, steps, t, on, u);
      InitialOrder(s);
      RunOrder(s, steps + on, u);
      assert r in u.fifo[..|t.fifo|];
      PendingWithin(u.arrivals, u.starts, r);
    }
  }

  // ---------------------------------------------------------------- a broker that is to stop

  /** How far the serving loop is from leaving once the broker is to stop. */
  function Distance(v: Server): nat {
    match v
    case Exited => 0
    case Getting => 7
    case _ => Rank(v)
  }

  predicate Nearer(t: State, u: State) {
    u.phase != Running && !u.server.Draining? && u.holder == Free && Distance(u.server) < Distance(t.server)
  }

  lemma StopGetting(t: State)
    requires t.phase != Running && t.server == Getting && t.holder == Free
    ensures
      var step := if t.fifo == [] then GiveUp else Take;
      Enabled(t, step) && Nearer(t, Apply(t, step))
  {
    if t.fifo != [] {
      ChoiceIs(t.fifo, t.concPendings, Choice(t.fifo, t.concPendings));
      TakesFirstThatMayPass(t, Choice(t.fifo, t.concPendings));
    }
  }

  /** The server's place after its next step, if the broker is to stop. */
  lemma StopMoves(t: State)
    requires t.phase != Running && Enabled(t, NextStep(t.server)) && NextStep(t.server) != GiveUp
    ensures
      var u := Apply(t, NextStep(t.server));
      u.phase != Running && u.holder == t.holder
  {
  }

  lemma StopElsewhere(t: State)
    requires Inv(t) && t.phase != Running && t.holder == Free
    requires !t.server.Draining? && !t.server.Exited? && t.server != Getting
    requires t.server.Awaiting? ==> t.live == multiset{}
    ensures Enabled(t, NextStep(t.server)) && Nearer(t, Apply(t, NextStep(t.server)))
  {
    NextEnabled(t);
    StopMoves(t);
    if t.server == Polling || t.server.Served? {
      StopLeaves(t);
    } else {
      StopWorks(t);
    }
  }

  lemma StopLeaves(t: State)
    requires t.phase != Running && (t.server == Polling || t.server.Served?)
    ensures
      var u := Apply(t, NextStep(t.server));
      u.server.Exited? || (t.server.Served? && u.server == Polling)
  {
  }

  lemma StopWorks(t: State)
    requires Enabled(t, NextStep(t.server)) && !t.server.Draining? && !t.server.Exited?
    requires t.server != Getting && t.server != Polling && !t.server.Served?
    ensures
      var u := Apply(t, NextStep(t.server));
      !u.server.Draining? && Distance(u.server) < Distance(t.server)
  {
  }

  lemma NextEnabled(t: State)
    requires Inv(t) && t.holder == Free && !t.server.Draining? && !t.server.Exited? && t.server != Getting
    requires t.server.Awaiting? ==> t.live == multiset{}
    ensures Enabled(t, NextStep(t.server))
  {
  }

  lemma {:induction false} StopOn(s: State, t: State) returns (u: State)
    requires Reaches(s, t) && Inv(t) && t.phase != Running && !t.server.Draining? && t.holder == Free
    ensures Reaches(s, u) && u.server.Exited?
    decreases Distance(t.server)
  {
    if t.server.Exited? {
      u := t;
    } else {
      var v := t;
      if t.server.Awaiting? {
        v := EndLive(s, t);
      }
      if v.server == Getting {
        StopGetting(v);
        u := On(s, v, if v.fifo == [] then GiveUp else Take);
      } else {
        StopElsewhere(v);
        u := On(s, v, NextStep(v.server));
      }
      u := StopOn(s, u);
    }
  }

  /** A broker that has been told to stop, and does not drain, can always leave. */
  lemma StopsWhenTold(s: State, steps: seq<Step>, t: State)
    requires Initial(s) && Runs(s, steps, t) && t.phase != Running && !t.server.Draining?
    ensures exists u :: Reaches(t, u) && u.server.Exited?
  {
    Reached(s, steps, t);
    assert Runs(t, [], t);
    var v := FreeHolder(t, t);
    var u := StopOn(t, v);
  }
}
