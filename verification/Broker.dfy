/** The broker of one parallel object: receive threads, one serving loop and invocation
    threads share a FIFO and counters. A step is what one thread does under one lock. */
module Broker {

  datatype Kind = Sequential | Concurrent | Mutex

  /** `builds` marks the constructor call. */
  datatype Request = Request(id: nat, kind: Kind, builds: bool)

  /** The receive thread that holds the mutex lock, if any. */
  datatype Holder =
    | Free
    | Seen(r: Request)      // saw no mutex request pending
    | Counted(r: Request)   // counted as an instance, its thread being created
    | MustQueue(r: Request) // saw a mutex request pending
    | Pushed(r: Request)    // queued, not yet counted as pending

  /** Where the serving loop stands. */
  datatype Server =
    | Polling
    | Getting
    | Awaiting(r: Request)     // took a mutex request, waits for the instances to end
    | Invoking(r: Request)
    | Releasing(r: Request)    // a mutex invocation is over, its count still stands
    | Starting(r: Request)     // took a concurrent request
    | Spawning(r: Request)     // counted as an instance, its thread being created
    | Served(r: Request)
    | Draining
    | Exited

  datatype Phase = Running | Exit | Abort

  /** `posting` are the mutex requests that are counted and not yet queued, one per receive
      thread. `registered`, `arrivals`, `starts`, `direct` and `stolen` only record history. */
  datatype State = State(
    fifo: seq<Request>,
    mutexCount: int,
    concPendings: int,
    instanceCount: int,
    holder: Holder,
    posting: multiset<Request>,
    server: Server,
    live: multiset<Request>,
    finished: multiset<Request>,
    hasObject: bool,
    refs: int,
    phase: Phase,
    registered: set<Request>,
    arrivals: seq<Request>,
    starts: seq<Request>,
    direct: set<Request>,
    stolen: nat)

  datatype Step =
    | ArriveSequential(r: Request)
    | ArriveMutex(r: Request)
    | PushMutex(r: Request)
    | ArriveConcurrent(r: Request)
    | CountDirect
    | SpawnDirect(created: bool)
    | PushConcurrent
    | CountPending
    | Poll
    | Take
    | GiveUp
    | Enter
    | Return(made: bool)
    | Release
    | CountSpawn
    | Spawn(created: bool)
    | Next
    | DrainEnd
    | WorkerEnds(r: Request)
    | Fail
    | SetRefs(n: int)

  // ---------------------------------------------------------------- taking a request

  /** The first concurrent request that no mutex request precedes, if any. */
  function FirstConcurrent(fifo: seq<Request>): (i: nat)
    ensures i <= |fifo|
  {
    if fifo == [] || fifo[0].kind == Mutex then |fifo|
    else if fifo[0].kind == Concurrent then 0
    else
      var i := FirstConcurrent(fifo[1..]);
      if i == |fifo| - 1 then |fifo| else i + 1
  }

  /** The position of the request that the serving loop takes. */
  function Choice(fifo: seq<Request>, concPendings: int): (i: nat)
    requires fifo != []
    ensures i < |fifo|
  {
    if concPendings != 0 && FirstConcurrent(fifo) < |fifo| then FirstConcurrent(fifo) else 0
  }

  /** Position i holds a concurrent request that no mutex request precedes. */
  predicate MayPass(fifo: seq<Request>, i: nat) {
    i < |fifo| && fifo[i].kind == Concurrent && forall j :: 0 <= j < i ==> fifo[j].kind != Mutex
  }

  /** The request to take is at position i: the first that may pass those before it, if requests
      are counted as pending and there is one, else the one in front. */
  predicate ToTake(fifo: seq<Request>, concPendings: int, i: nat) {
    && i < |fifo|
    && if concPendings != 0 && exists j :: 0 <= j < |fifo| && MayPass(fifo, j)
       then MayPass(fifo, i) && forall j :: 0 <= j < i ==> !MayPass(fifo, j)
       else i == 0
  }

  lemma {:induction false} FirstConcurrentIs(fifo: seq<Request>)
    ensures
      var i := FirstConcurrent(fifo);
      && (i < |fifo| ==> MayPass(fifo, i))
      && forall j :: 0 <= j < |fifo| && MayPass(fifo, j) ==> i <= j
    decreases |fifo|
  {
    if fifo != [] {
      var rest := fifo[1..];
      FirstConcurrentIs(rest);
      forall j | 0 <= j < |fifo| && MayPass(fifo, j) ensures FirstConcurrent(fifo) <= j {
        if j > 0 {
          assert forall l :: 0 <= l < j - 1 ==> rest[l] == fifo[l + 1];
          assert MayPass(rest, j - 1);
        }
      }
      var i := FirstConcurrent(fifo);
      if 0 < i < |fifo| {
        assert MayPass(rest, i - 1);
        assert forall l :: 0 < l < i ==> fifo[l] == rest[l - 1];
      }
    }
  }

  /** The choice is the request to take, and there is only one. */
  lemma ChoiceIs(fifo: seq<Request>, concPendings: int, i: nat)
    requires fifo != []
    ensures ToTake(fifo, concPendings, i) <==> i == Choice(fifo, concPendings)
  {
    FirstConcurrentIs(fifo);
    var f := FirstConcurrent(fifo);
    if concPendings != 0 && f < |fifo| {
      assert MayPass(fifo, f);
      if MayPass(fifo, i) && i > f {
        assert !ToTake(fifo, concPendings, i);
      }
    }
  }

  function Without<T>(q: seq<T>, i: nat): seq<T>
    requires i < |q|
  {
    q[..i] + q[i + 1..]
  }

  /** Leaving the main loop: a normal stop with an object drains first. */
  function Leave(s: State): State {
    if s.hasObject && s.phase == Running then s.(server := Draining) else s.(server := Exited, phase := Exit)
  }

  // ---------------------------------------------------------------- the steps

  predicate Enabled(s: State, step: Step) {
    match step
    case ArriveSequential(r) => r.kind == Sequential && !r.builds && r !in s.registered
    case ArriveMutex(r) => r.kind == Mutex && r !in s.registered && s.holder == Free
    case PushMutex(r) => r in s.posting
    case ArriveConcurrent(r) => r.kind == Concurrent && !r.builds && r !in s.registered && s.holder == Free
    case CountDirect => s.holder.Seen?
    case SpawnDirect(_) => s.holder.Counted?
    case PushConcurrent => s.holder.MustQueue?
    case CountPending => s.holder.Pushed?
    case Poll => s.server.Polling?
    case Take => s.server.Getting? && s.fifo != []
    case GiveUp => s.server.Getting? && s.fifo == [] && ((s.hasObject && s.refs <= 0) || s.phase != Running)
    case Enter => s.server.Awaiting? && s.instanceCount <= 0
    case Return(made) => s.server.Invoking? && (made ==> s.server.r.builds)
    case Release => s.server.Releasing? && s.holder == Free
    case CountSpawn => s.server.Starting?
    case Spawn(_) => s.server.Spawning?
    case Next => s.server.Served?
    case DrainEnd => s.server.Draining? && s.instanceCount <= 0 && s.fifo == []
    case WorkerEnds(r) => r in s.live
    case Fail => s.server.Invoking? || s.live != multiset{}
    case SetRefs(_) => s.hasObject
  }

  function Apply(s: State, step: Step): State
    requires Enabled(s, step)
  {
    match step
    case ArriveSequential(r) =>
      s.(registered := s.registered + {r}, fifo := s.fifo + [r], arrivals := s.arrivals + [r])
    case ArriveMutex(r) =>
      s.(registered := s.registered + {r}, mutexCount := s.mutexCount + 1, posting := s.posting + multiset{r})
    case PushMutex(r) =>
      s.(posting := s.posting - multiset{r}, fifo := s.fifo + [r], arrivals := s.arrivals + [r])
    case ArriveConcurrent(r) =>
      if s.mutexCount <= 0 then
        s.(registered := s.registered + {r}, holder := Seen(r), arrivals := s.arrivals + [r],
           starts := s.starts + [r], direct := s.direct + {r})
      else s.(registered := s.registered + {r}, holder := MustQueue(r))
    case CountDirect => s.(holder := Counted(s.holder.r), instanceCount := s.instanceCount + 1)
    case SpawnDirect(created) =>
      if created then s.(holder := Free, live := s.live + multiset{s.holder.r})
      else s.(holder := Free, finished := s.finished + multiset{s.holder.r}, instanceCount := s.instanceCount - 1)
    case PushConcurrent =>
      s.(holder := Pushed(s.holder.r), fifo := s.fifo + [s.holder.r], arrivals := s.arrivals + [s.holder.r])
    case CountPending => s.(holder := Free, concPendings := s.concPendings + 1)
    case Poll => if s.phase == Running then s.(server := Getting) else Leave(s)
    case Take => Taken(s)
    case GiveUp => Leave(s)
    case Enter => s.(server := Invoking(s.server.r))
    case Return(made) =>
      s.(server := if s.server.r.kind == Mutex then Releasing(s.server.r) else Served(s.server.r),
         finished := s.finished + multiset{s.server.r}, hasObject := s.hasObject || made)
    case Release => s.(server := Served(s.server.r), mutexCount := s.mutexCount - 1)
    case CountSpawn => s.(server := Spawning(s.server.r), instanceCount := s.instanceCount + 1)
    case Spawn(created) =>
      if created then s.(server := Served(s.server.r), live := s.live + multiset{s.server.r})
      else s.(server := Served(s.server.r), finished := s.finished + multiset{s.server.r},
              instanceCount := s.instanceCount - 1)
    case Next => if s.server.r.builds && !s.hasObject then Leave(s) else s.(server := Polling)
    case DrainEnd => s.(server := Exited, phase := Exit)
    case WorkerEnds(r) =>
      s.(live := s.live - multiset{r}, finished := s.finished + multiset{r}, instanceCount := s.instanceCount - 1)
    case Fail => s.(phase := Abort)
    case SetRefs(n) => s.(refs := n)
  }

  /** The serving loop takes the chosen request. Only the scan counts it as no longer pending:
      a concurrent request that is merely in front is taken without. */
  function Taken(s: State): State
    requires s.fifo != []
  {
    var i := Choice(s.fifo, s.concPendings);
    var (r, found) := (s.fifo[i], s.concPendings != 0 && FirstConcurrent(s.fifo) < |s.fifo|);
    s.(fifo := Without(s.fifo, i), starts := s.starts + [r],
       concPendings := if found then s.concPendings - 1 else s.concPendings,
       stolen := if !found && r.kind == Concurrent then s.stolen + 1 else s.stolen,
       server := match r.kind
                 case Concurrent => Starting(r)
                 case Mutex => Awaiting(r)
                 case Sequential => Invoking(r))
  }

  /** A broker that has just been set up; its object exists already if the constructor was
      called while setting up. */
  predicate Initial(s: State) {
    && s.fifo == [] && s.mutexCount == s.concPendings == s.instanceCount == 0
    && s.holder == Free && s.posting == multiset{} && s.server == Polling
    && s.live == multiset{} && s.finished == multiset{}
    && s.phase == Running && s.registered == {} && s.arrivals == [] && s.starts == []
    && s.direct == {} && s.stolen == 0
  }

  /** The state after the given steps, each of which must be enabled. */
  predicate Runs(s: State, steps: seq<Step>, t: State)
    decreases |steps|
  {
    if steps == [] then s == t else Enabled(s, steps[0]) && Runs(Apply(s, steps[0]), steps[1..], t)
  }

  /** What the serving loop takes, and what is left in the queue. */
  lemma TakesFirstThatMayPass(s: State, i: nat)
    requires Enabled(s, Take) && ToTake(s.fifo, s.concPendings, i)
    ensures
      var t := Apply(s, Take);
      && t.fifo == s.fifo[..i] + s.fifo[i + 1..] && t.starts == s.starts + [s.fifo[i]]
      && t.server == (match s.fifo[i].kind
                      case Concurrent => Starting(s.fifo[i])
                      case Mutex => Awaiting(s.fifo[i])
                      case Sequential => Invoking(s.fifo[i]))
      && t.concPendings == s.concPendings
         - if s.concPendings != 0 && exists j :: 0 <= j < |s.fifo| && MayPass(s.fifo, j) then 1 else 0
  {
    ChoiceIs(s.fifo, s.concPendings, i);
    FirstConcurrentIs(s.fifo);
  }
}
