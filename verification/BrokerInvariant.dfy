/** What every step of the broker keeps: counters, exclusion, and each request in one place. */
module BrokerInvariant {
  import opened Broker

  function Mutexes(q: seq<Request>): nat {
    if q == [] then 0 else (if q[0].kind == Mutex then 1 else 0) + Mutexes(q[1..])
  }

  function Concurrents(q: seq<Request>): nat {
    if q == [] then 0 else (if q[0].kind == Concurrent then 1 else 0) + Concurrents(q[1..])
  }

  lemma {:induction false} CountJoin(p: seq<Request>, q: seq<Request>)
    ensures Mutexes(p + q) == Mutexes(p) + Mutexes(q)
    ensures Concurrents(p + q) == Concurrents(p) + Concurrents(q)
    decreases |p|
  {
    if p == [] {
      assert p + q == q;
    } else {
      assert (p + q)[1..] == p[1..] + q;
      CountJoin(p[1..], q);
    }
  }

  lemma CountPush(q: seq<Request>, r: Request)
    ensures Mutexes(q + [r]) == Mutexes(q) + if r.kind == Mutex then 1 else 0
    ensures Concurrents(q + [r]) == Concurrents(q) + if r.kind == Concurrent then 1 else 0
  {
    CountJoin(q, [r]);
  }

  lemma CountRemove(q: seq<Request>, i: nat)
    requires i < |q|
    ensures Mutexes(q) == Mutexes(Without(q, i)) + if q[i].kind == Mutex then 1 else 0
    ensures Concurrents(q) == Concurrents(Without(q, i)) + if q[i].kind == Concurrent then 1 else 0
  {
    CountJoin(q[..i], q[i + 1..]);
    CountJoin(q[..i], [q[i]]);
    CountJoin(q[..i] + [q[i]], q[i + 1..]);
    assert q == q[..i] + [q[i]] + q[i + 1..];
  }

  lemma RemoveOne(q: seq<Request>, i: nat)
    requires i < |q|
    ensures multiset(q) == multiset(Without(q, i)) + multiset{q[i]}
  {
    assert q == q[..i] + [q[i]] + q[i + 1..];
  }

  lemma Hand(a: multiset<Request>, b: multiset<Request>, c: multiset<Request>,
             d: multiset<Request>, e: multiset<Request>, f: multiset<Request>, r: Request)
    ensures a + b + c + d + e + f + multiset{r} == a + (b + multiset{r}) + c + d + e + f
    ensures a + b + (c + multiset{r}) + d + e + f == a + b + c + (d + multiset{r}) + e + f
    ensures a + b + c + (d + multiset{r}) + e + f == a + b + c + d + e + (f + multiset{r})
  {
  }

  /** The request a thread has in hand. */
  function HeldBy(h: Holder): multiset<Request> {
    match h
    case Seen(r) => multiset{r}
    case Counted(r) => multiset{r}
    case MustQueue(r) => multiset{r}
    case _ => multiset{}
  }

  function ServedBy(v: Server): multiset<Request> {
    match v
    case Awaiting(r) => multiset{r}
    case Invoking(r) => multiset{r}
    case Starting(r) => multiset{r}
    case Spawning(r) => multiset{r}
    case _ => multiset{}
  }

  /** Whether the serving loop holds a mutex request whose count still stands. */
  predicate HoldsMutex(v: Server) {
    v.Awaiting? || v.Releasing? || (v.Invoking? && v.r.kind == Mutex)
  }

  /** Every thread has in hand the kind of request its code path is for. */
  ghost predicate Kinds(s: State) {
    && (forall r <- s.posting :: r.kind == Mutex)
    && (forall r <- s.live :: r.kind == Concurrent)
    && (s.holder != Free ==> s.holder.r.kind == Concurrent)
    && (s.server.Awaiting? || s.server.Releasing? ==> s.server.r.kind == Mutex)
    && (s.server.Invoking? ==> s.server.r.kind != Concurrent)
    && (s.server.Starting? || s.server.Spawning? ==> s.server.r.kind == Concurrent)
    && forall r <- s.registered :: r.builds ==> r.kind == Mutex
  }

  ghost predicate Counters(s: State) {
    && s.mutexCount == Mutexes(s.fifo) + |s.posting| + (if HoldsMutex(s.server) then 1 else 0)
    && s.instanceCount == |s.live| + (if s.holder.Counted? then 1 else 0) + (if s.server.Spawning? then 1 else 0)
    && s.concPendings == Concurrents(s.fifo) + s.stolen - (if s.holder.Pushed? then 1 else 0)
    && s.concPendings >= 0
    && s.stolen <= 1
  }

  /** A receive thread starts a concurrent request only while no mutex request is pending, and a
      mutex request runs alone. */
  ghost predicate Exclusion(s: State) {
    && (s.holder.Seen? || s.holder.Counted? ==> s.mutexCount <= 0)
    && (s.server.Invoking? && s.server.r.kind == Mutex ==> s.instanceCount <= 0)
  }

  /** Every registered request is in exactly one place. */
  ghost predicate Conserved(s: State) {
    multiset(s.registered)
      == s.posting + HeldBy(s.holder) + multiset(s.fifo) + ServedBy(s.server) + s.live + s.finished
  }

  ghost predicate Rest(s: State) {
    Kinds(s) && Counters(s) && Exclusion(s)
  }

  ghost predicate Inv(s: State) {
    Rest(s) && Conserved(s)
  }

  lemma InitialInv(s: State)
    requires Initial(s)
    ensures Inv(s)
  {
  }

  lemma NewRequest(registered: set<Request>, r: Request)
    requires r !in registered
    ensures multiset(registered + {r}) == multiset(registered) + multiset{r}
  {
  }

  lemma ArriveSequentialKeeps(s: State, r: Request)
    requires Inv(s) && Enabled(s, ArriveSequential(r))
    ensures Inv(Apply(s, ArriveSequential(r)))
  {
    CountPush(s.fifo, r);
    NewRequest(s.registered, r);
  }

  lemma ArriveMutexKeeps(s: State, r: Request)
    requires Inv(s) && Enabled(s, ArriveMutex(r))
    ensures Inv(Apply(s, ArriveMutex(r)))
  {
    NewRequest(s.registered, r);
  }

  lemma PushMutexKeeps(s: State, r: Request)
    requires Inv(s) && Enabled(s, PushMutex(r))
    ensures Rest(Apply(s, PushMutex(r)))
  {
    CountPush(s.fifo, r);
  }

  lemma PushMutexConserves(s: State, r: Request)
    requires Conserved(s) && Enabled(s, PushMutex(r))
    ensures Conserved(Apply(s, PushMutex(r)))
  {
    assert s.posting == s.posting - multiset{r} + multiset{r};
  }

  lemma ArriveConcurrentKeeps(s: State, r: Request)
    requires Inv(s) && Enabled(s, ArriveConcurrent(r))
    ensures Rest(Apply(s, ArriveConcurrent(r)))
  {
    assert s.mutexCount <= 0 ==> Apply(s, ArriveConcurrent(r)).holder == Seen(r);
    assert s.mutexCount > 0 ==> Apply(s, ArriveConcurrent(r)).holder == MustQueue(r);
  }

  lemma ArrivedPlaces(s: State, r: Request)
    requires Enabled(s, ArriveConcurrent(r))
    ensures
      var t := Apply(s, ArriveConcurrent(r));
      HeldBy(s.holder) == multiset{} && HeldBy(t.holder) == multiset{r} && t.fifo == s.fifo
      && t.registered == s.registered + {r} && t.posting == s.posting && t.server == s.server
      && t.live == s.live && t.finished == s.finished
  {
  }

  lemma ArriveConcurrentConserves(s: State, r: Request)
    requires Conserved(s) && Enabled(s, ArriveConcurrent(r))
    ensures Conserved(Apply(s, ArriveConcurrent(r)))
  {
    var none: multiset<Request> := multiset{};
    ArrivedPlaces(s, r);
    NewRequest(s.registered, r);
    assert none + multiset{r} == multiset{r};
    Hand(s.posting, none, multiset(s.fifo), ServedBy(s.server), s.live, s.finished, r);
  }

  lemma CountDirectKeeps(s: State)
    requires Inv(s) && Enabled(s, CountDirect)
    ensures Inv(Apply(s, CountDirect))
  {
  }

  lemma SpawnDirectKeeps(s: State, created: bool)
    requires Inv(s) && Enabled(s, SpawnDirect(created))
    ensures Inv(Apply(s, SpawnDirect(created)))
  {
  }

  lemma PushConcurrentKeeps(s: State)
    requires Inv(s) && Enabled(s, PushConcurrent)
    ensures Inv(Apply(s, PushConcurrent))
  {
    CountPush(s.fifo, s.holder.r);
  }

  lemma CountPendingKeeps(s: State)
    requires Inv(s) && Enabled(s, CountPending)
    ensures Inv(Apply(s, CountPending))
  {
  }

  /** A serving loop with no request in hand. */
  predicate Idle(v: Server) {
    v.Polling? || v.Getting? || v.Served? || v.Draining? || v.Exited?
  }

  lemma LoopKeeps(s: State, v: Server, phase: Phase)
    requires Inv(s) && Idle(s.server) && Idle(v)
    ensures Inv(s.(server := v, phase := phase))
  {
    assert ServedBy(s.server) == ServedBy(v);
  }

  lemma LeaveKeeps(s: State)
    requires Inv(s) && Idle(s.server)
    ensures Inv(Leave(s))
  {
    LoopKeeps(s, Draining, s.phase);
    LoopKeeps(s, Exited, Exit);
  }

  lemma PollKeeps(s: State)
    requires Inv(s) && Enabled(s, Poll)
    ensures Inv(Apply(s, Poll))
  {
    LoopKeeps(s, Getting, s.phase);
    LeaveKeeps(s);
  }

  lemma TakeKeeps(s: State)
    requires Inv(s) && Enabled(s, Take)
    ensures Rest(Apply(s, Take))
  {
    CountRemove(s.fifo, Choice(s.fifo, s.concPendings));
    FirstConcurrentIs(s.fifo);
  }

  lemma TakenPlaces(s: State)
    requires s.fifo != []
    ensures
      var (t, r) := (Taken(s), s.fifo[Choice(s.fifo, s.concPendings)]);
      multiset(s.fifo) == multiset(t.fifo) + multiset{r} && ServedBy(t.server) == multiset{r}
      && t.registered == s.registered && t.posting == s.posting && t.holder == s.holder
      && t.live == s.live && t.finished == s.finished
  {
    RemoveOne(s.fifo, Choice(s.fifo, s.concPendings));
  }

  lemma TakeConserves(s: State)
    requires Conserved(s) && Enabled(s, Take)
    ensures Conserved(Apply(s, Take))
  {
    var (t, r) := (Taken(s), s.fifo[Choice(s.fifo, s.concPendings)]);
    var none: multiset<Request> := multiset{};
    TakenPlaces(s);
    assert ServedBy(s.server) == none && none + multiset{r} == multiset{r};
    Hand(s.posting, HeldBy(s.holder), multiset(t.fifo), none, s.live, s.finished, r);
  }

  lemma GiveUpKeeps(s: State)
    requires Inv(s) && Enabled(s, GiveUp)
    ensures Inv(Apply(s, GiveUp))
  {
    LeaveKeeps(s);
  }

  lemma EnterKeeps(s: State)
    requires Inv(s) && Enabled(s, Enter)
    ensures Inv(Apply(s, Enter))
  {
    assert ServedBy(s.server) == ServedBy(Apply(s, Enter).server);
  }

  lemma ReturnKeeps(s: State, made: bool)
    requires Inv(s) && Enabled(s, Return(made))
    ensures Rest(Apply(s, Return(made)))
  {
  }

  lemma ReturnConserves(s: State, made: bool)
    requires Conserved(s) && Enabled(s, Return(made))
    ensures Conserved(Apply(s, Return(made)))
  {
    var none: multiset<Request> := multiset{};
    var r := s.server.r;
    assert none + multiset{r} == multiset{r};
    Hand(s.posting, HeldBy(s.holder), multiset(s.fifo), none, s.live, s.finished, r);
  }

  lemma ReleaseKeeps(s: State)
    requires Inv(s) && Enabled(s, Release)
    ensures Inv(Apply(s, Release))
  {
    assert ServedBy(s.server) == ServedBy(Apply(s, Release).server);
  }

  lemma CountSpawnKeeps(s: State)
    requires Inv(s) && Enabled(s, CountSpawn)
    ensures Inv(Apply(s, CountSpawn))
  {
    assert ServedBy(s.server) == ServedBy(Apply(s, CountSpawn).server);
  }

  lemma SpawnKeeps(s: State, created: bool)
    requires Inv(s) && Enabled(s, Spawn(created))
    ensures Inv(Apply(s, Spawn(created)))
  {
  }

  lemma NextKeeps(s: State)
    requires Inv(s) && Enabled(s, Next)
    ensures Inv(Apply(s, Next))
  {
    LoopKeeps(s, Polling, s.phase);
    LeaveKeeps(s);
  }

  lemma DrainEndKeeps(s: State)
    requires Inv(s) && Enabled(s, DrainEnd)
    ensures Inv(Apply(s, DrainEnd))
  {
    LoopKeeps(s, Exited, Exit);
  }

  lemma WorkerEndsKeeps(s: State, r: Request)
    requires Inv(s) && Enabled(s, WorkerEnds(r))
    ensures Rest(Apply(s, WorkerEnds(r)))
  {
  }

  lemma WorkerEndsConserves(s: State, r: Request)
    requires Conserved(s) && Enabled(s, WorkerEnds(r))
    ensures Conserved(Apply(s, WorkerEnds(r)))
  {
    assert s.live == s.live - multiset{r} + multiset{r};
  }

  lemma FailKeeps(s: State)
    requires Inv(s) && Enabled(s, Fail)
    ensures Inv(Apply(s, Fail))
  {
  }

  lemma SetRefsKeeps(s: State, n: int)
    requires Inv(s) && Enabled(s, SetRefs(n))
    ensures Inv(Apply(s, SetRefs(n)))
  {
  }

  lemma StepInv(s: State, step: Step)
    requires Inv(s) && Enabled(s, step)
    ensures Inv(Apply(s, step))
  {
    match step
    case ArriveSequential(r) => ArriveSequentialKeeps(s, r);
    case ArriveMutex(r) => ArriveMutexKeeps(s, r);
    case PushMutex(r) => PushMutexKeeps(s, r); PushMutexConserves(s, r);
    case ArriveConcurrent(r) => ArriveConcurrentKeeps(s, r); ArriveConcurrentConserves(s, r);
    case CountDirect => CountDirectKeeps(s);
    case SpawnDirect(created) => SpawnDirectKeeps(s, created);
    case PushConcurrent => PushConcurrentKeeps(s);
    case CountPending => CountPendingKeeps(s);
    case Poll => PollKeeps(s);
    case Take => TakeKeeps(s); TakeConserves(s);
    case GiveUp => GiveUpKeeps(s);
    case Enter => EnterKeeps(s);
    case Return(made) => ReturnKeeps(s, made); ReturnConserves(s, made);
    case Release => ReleaseKeeps(s);
    case CountSpawn => CountSpawnKeeps(s);
    case Spawn(created) => SpawnKeeps(s, created);
    case Next => NextKeeps(s);
    case DrainEnd => DrainEndKeeps(s);
    case WorkerEnds(r) => WorkerEndsKeeps(s, r); WorkerEndsConserves(s, r);
    case Fail => FailKeeps(s);
    case SetRefs(n) => SetRefsKeeps(s, n);
  }

  /** Every state of every run satisfies the invariant. */
  lemma {:induction false} RunInv(s: State, steps: seq<Step>, t: State)
    requires Inv(s) && Runs(s, steps, t)
    ensures Inv(t)
    decreases |steps|
  {
    if steps != [] {
      StepInv(s, steps[0]);
      RunInv(Apply(s, steps[0]), steps[1..], t);
    }
  }

  // ---------------------------------------------------------------- in every run

  lemma Reached(s: State, steps: seq<Step>, t: State)
    requires Initial(s) && Runs(s, steps, t)
    ensures Inv(t)
  {
    InitialInv(s);
    RunInv(s, steps, t);
  }

  /** The serving loop executes requests that are not concurrent, one at a time, and the
      invocation threads concurrent ones only. While it executes a mutex request (a constructor
      call is one), no concurrent invocation is live, none is being started, and none that arrives
      is started. */
  lemma MutexRunsAlone(s: State, steps: seq<Step>, t: State, r: Request)
    requires Initial(s) && Runs(s, steps, t) && t.server.Invoking?
    ensures t.server.r.kind != Concurrent && t.server.r !in t.live && forall x <- t.live :: x.kind == Concurrent
    ensures t.server.r.kind == Mutex || t.server.r.builds ==>
      t.live == multiset{} && !t.holder.Seen? && !t.holder.Counted?
    ensures t.server.r.kind == Mutex || t.server.r.builds ==>
      Enabled(t, ArriveConcurrent(r)) ==> Apply(t, ArriveConcurrent(r)).holder == MustQueue(r)
  {
    Reached(s, steps, t);
    if t.server.r.builds {
      assert ServedBy(t.server)[t.server.r] == 1;
      assert multiset(t.registered)[t.server.r] >= 1;
      assert t.server.r in t.registered;
    }
    if t.server.r.kind == Mutex || t.server.r.builds {
      assert |t.live| <= 0;
    }
  }

  /** concPendings misses the concurrent requests in the queue exactly while one of two things
      holds and not the other: one of them is not counted yet, one was taken uncounted. */
  lemma PendingsExact(s: State, steps: seq<Step>, t: State)
    requires Initial(s) && Runs(s, steps, t)
    ensures t.concPendings == Concurrents(t.fifo) <==> (t.holder.Pushed? <==> t.stolen == 1)
    ensures 0 <= t.concPendings <= Concurrents(t.fifo) + 1
  {
    Reached(s, steps, t);
  }

  /** The invocations that are live or whose thread is being created are counted, each once,
      also when creation fails. */
  lemma InstancesCounted(s: State, steps: seq<Step>, t: State)
    requires Initial(s) && Runs(s, steps, t)
    ensures t.instanceCount
         == |t.live| + (if t.holder.Counted? then 1 else 0) + (if t.server.Spawning? then 1 else 0)
    ensures t.mutexCount == Mutexes(t.fifo) + |t.posting| + (if HoldsMutex(t.server) then 1 else 0)
    ensures t.mutexCount == 0 <==> Mutexes(t.fifo) == 0 && t.posting == multiset{} && !HoldsMutex(t.server)
  {
    Reached(s, steps, t);
  }

  /** The pop from the front takes a concurrent request exactly if that is at the front and
      none is counted: only in one window, the one between a push and its count, and at most
      once in a run. */
  lemma FrontPopTakesConcurrent(s: State, steps: seq<Step>, t: State)
    requires Initial(s) && Runs(s, steps, t) && Enabled(t, Take)
    ensures Apply(t, Take).stolen != t.stolen <==> t.concPendings == 0 && t.fifo[0].kind == Concurrent
    ensures Apply(t, Take).stolen != t.stolen ==>
      t.holder.Pushed? && t.stolen == 0 && t.concPendings == 0 && Concurrents(t.fifo) == 1
  {
    Reached(s, steps, t);
    if t.concPendings != 0 && t.fifo[0].kind == Concurrent {
      assert FirstConcurrent(t.fifo) == 0;
    }
    CountRemove(t.fifo, 0);
  }

  /** Every registered request is queued, in hand, executing or finished, and only one of these. */
  lemma OnePlace(s: State, steps: seq<Step>, t: State, r: Request)
    requires Initial(s) && Runs(s, steps, t) && r in t.registered
    ensures
      t.posting[r] + HeldBy(t.holder)[r] + multiset(t.fifo)[r] + ServedBy(t.server)[r] + t.live[r] + t.finished[r] == 1
  {
    Reached(s, steps, t);
    assert multiset(t.registered)[r] == 1;
  }
}
