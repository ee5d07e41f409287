/** In which order requests are started. */
module BrokerOrder {
  import opened Broker
  import opened BrokerInvariant
  import opened Sequences

  /** The arrived requests that are not started, in the order of their arrival. */
  function Pending(arrivals: seq<Request>, starts: seq<Request>): seq<Request> {
    if arrivals == [] then []
    else (if arrivals[0] in starts then [] else [arrivals[0]]) + Pending(arrivals[1..], starts)
  }

  lemma {:induction false} PendingPush(arrivals: seq<Request>, starts: seq<Request>, r: Request)
    ensures Pending(arrivals + [r], starts) == Pending(arrivals, starts) + if r in starts then [] else [r]
    decreases |arrivals|
  {
    if arrivals != [] {
      assert (arrivals + [r])[1..] == arrivals[1..] + [r];
      PendingPush(arrivals[1..], starts, r);
    }
  }

  lemma {:induction false} PendingOther(arrivals: seq<Request>, starts: seq<Request>, r: Request)
    requires r !in arrivals
    ensures Pending(arrivals, starts + [r]) == Pending(arrivals, starts)
    decreases |arrivals|
  {
    if arrivals != [] {
      PendingOther(arrivals[1..], starts, r);
    }
  }

  lemma {:induction false} PendingWithin(arrivals: seq<Request>, starts: seq<Request>, r: Request)
    ensures r in Pending(arrivals, starts) <==> r in arrivals && r !in starts
    decreases |arrivals|
  {
    if arrivals != [] {
      PendingWithin(arrivals[1..], starts, r);
    }
  }

  lemma WithoutTail(a: Request, rest: seq<Request>, i: nat)
    requires 0 < i <= |rest|
    ensures ([a] + rest)[i] == rest[i - 1] && Without([a] + rest, i) == [a] + Without(rest, i - 1)
  {
    var q := [a] + rest;
    assert q[..i] == [a] + rest[..i - 1] && q[i + 1..] == rest[i..];
  }

  lemma PendingHead(arrivals: seq<Request>, starts: seq<Request>)
    requires arrivals != [] && arrivals[0] !in starts
    ensures Pending(arrivals, starts) == [arrivals[0]] + Pending(arrivals[1..], starts)
  {
  }

  lemma PendingSkip(arrivals: seq<Request>, starts: seq<Request>)
    requires arrivals != [] && arrivals[0] in starts
    ensures Pending(arrivals, starts) == Pending(arrivals[1..], starts)
  {
  }

  /** Starting the pending request at i takes it out of its place. */
  lemma {:induction false} PendingTake(arrivals: seq<Request>, starts: seq<Request>, i: nat)
    requires Distinct(arrivals) && i < |Pending(arrivals, starts)|
    ensures
      var q := Pending(arrivals, starts);
      Pending(arrivals, starts + [q[i]]) == Without(q, i)
    decreases |arrivals|
  {
    if arrivals[0] in starts {
      PendingTake(arrivals[1..], starts, i);
      PendingSkip(arrivals, starts);
      PendingSkip(arrivals, starts + [Pending(arrivals, starts)[i]]);
    } else {
      PendingHead(arrivals, starts);
      if i == 0 {
        PendingTakeFirst(arrivals, starts);
      } else {
        PendingTake(arrivals[1..], starts, i - 1);
        PendingTakeLater(arrivals, starts, i);
      }
    }
  }

  lemma PendingTakeFirst(arrivals: seq<Request>, starts: seq<Request>)
    requires Distinct(arrivals) && arrivals != [] && arrivals[0] !in starts
    ensures Pending(arrivals, starts + [arrivals[0]]) == Without(Pending(arrivals, starts), 0)
  {
    PendingHead(arrivals, starts);
    PendingOther(arrivals[1..], starts, arrivals[0]);
    assert Without([arrivals[0]] + Pending(arrivals[1..], starts), 0) == Pending(arrivals[1..], starts);
  }

  lemma PendingTakeLater(arrivals: seq<Request>, starts: seq<Request>, i: nat)
    requires Distinct(arrivals) && arrivals != [] && arrivals[0] !in starts
    requires 0 < i <= |Pending(arrivals[1..], starts)|
    requires
      var rest := Pending(arrivals[1..], starts);
      Pending(arrivals[1..], starts + [rest[i - 1]]) == Without(rest, i - 1)
    ensures
      var q := Pending(arrivals, starts);
      i < |q| && Pending(arrivals, starts + [q[i]]) == Without(q, i)
  {
    var rest := Pending(arrivals[1..], starts);
    PendingHead(arrivals, starts);
    PendingWithin(arrivals[1..], starts, rest[i - 1]);
    WithoutTail(arrivals[0], rest, i);
    PendingHead(arrivals, starts + [rest[i - 1]]);
  }

  /** Of two pending requests the one that arrived first is ahead. */
  lemma {:induction false} PendingAhead(arrivals: seq<Request>, starts: seq<Request>, i: nat, j: nat, k: nat)
    requires Distinct(arrivals) && i < j < |arrivals| && arrivals[i] !in starts
    requires k < |Pending(arrivals, starts)| && arrivals[j] == Pending(arrivals, starts)[k]
    ensures exists m :: 0 <= m < k && Pending(arrivals, starts)[m] == arrivals[i]
    decreases |arrivals|
  {
    var (q, a, rest) := (Pending(arrivals, starts), arrivals[0], Pending(arrivals[1..], starts));
    if i == 0 {
      assert q[0] == arrivals[i];
    } else if a in starts {
      PendingAhead(arrivals[1..], starts, i - 1, j - 1, k);
      assert q == rest;
    } else {
      assert q == [a] + rest;
      assert k > 0;
      PendingAhead(arrivals[1..], starts, i - 1, j - 1, k - 1);
      var m :| 0 <= m < k - 1 && rest[m] == arrivals[i];
      assert q[m + 1] == arrivals[i];
    }
  }

  // ---------------------------------------------------------------- overtaking

  /** a is started, and b is not started before it. */
  ghost predicate StartedFirst(starts: seq<Request>, a: Request, b: Request) {
    exists p :: 0 <= p < |starts| && starts[p] == a && b !in starts[..p]
  }

  /** When b may be started although a, which arrived before it, is not. */
  predicate MayOvertake(a: Request, b: Request, direct: set<Request>) {
    b.kind == Concurrent && a.kind != Mutex && (a.kind == Concurrent ==> b in direct)
  }

  /** Every overtaking so far was allowed. */
  ghost predicate Ordered(arrivals: seq<Request>, starts: seq<Request>, direct: set<Request>) {
    forall i, j :: 0 <= i < j < |arrivals| && arrivals[j] in starts ==>
      StartedFirst(starts, arrivals[i], arrivals[j]) || MayOvertake(arrivals[i], arrivals[j], direct)
  }

  function Unqueued(h: Holder): multiset<Request> {
    if h.MustQueue? then multiset{h.r} else multiset{}
  }

  /** The queue holds the arrived requests that are not started, in order of arrival. */
  ghost predicate Logged(s: State) {
    && s.fifo == Pending(s.arrivals, s.starts)
    && (forall r <- s.starts :: r in s.arrivals)
    && multiset(s.registered) == multiset(s.arrivals) + s.posting + Unqueued(s.holder)
  }

  ghost predicate OrderInv(s: State) {
    Inv(s) && Logged(s) && Ordered(s.arrivals, s.starts, s.direct)
  }

  lemma TwiceCounted(q: seq<Request>, i: nat, j: nat)
    requires i < j < |q|
    ensures q[i] == q[j] ==> multiset(q)[q[i]] >= 2
  {
    assert q == q[..i] + [q[i]] + q[i + 1..];
    assert q[i + 1..][j - i - 1] == q[j];
  }

  lemma DistinctIfOnce(q: seq<Request>, all: set<Request>)
    requires multiset(q) <= multiset(all)
    ensures Distinct(q)
  {
    forall i, j | 0 <= i < j < |q| ensures q[i] != q[j] {
      TwiceCounted(q, i, j);
    }
  }

  lemma StartedFirstKept(starts: seq<Request>, c: Request, a: Request, b: Request)
    requires StartedFirst(starts, a, b)
    ensures StartedFirst(starts + [c], a, b)
  {
    var p :| 0 <= p < |starts| && starts[p] == a && b !in starts[..p];
    assert (starts + [c])[..p] == starts[..p] && (starts + [c])[p] == a;
  }

  lemma AlreadyStarted(starts: seq<Request>, a: Request, c: Request)
    requires a in starts && c !in starts
    ensures StartedFirst(starts + [c], a, c)
  {
    var p :| 0 <= p < |starts| && starts[p] == a;
    assert (starts + [c])[..p] == starts[..p] && (starts + [c])[p] == a;
  }

  /** Starting c, which may overtake every request that arrived before it and is not started. */
  lemma StartOrdered(arrivals: seq<Request>, starts: seq<Request>, direct: set<Request>, c: Request)
    requires Ordered(arrivals, starts, direct) && c !in starts
    requires forall i, j :: 0 <= i < j < |arrivals| && arrivals[j] == c && arrivals[i] !in starts ==>
      MayOvertake(arrivals[i], c, direct)
    ensures Ordered(arrivals, starts + [c], direct)
  {
    forall i, j | 0 <= i < j < |arrivals| && arrivals[j] in starts + [c]
      ensures StartedFirst(starts + [c], arrivals[i], arrivals[j]) || MayOvertake(arrivals[i], arrivals[j], direct)
    {
      var (a, b) := (arrivals[i], arrivals[j]);
      if b in starts {
        if StartedFirst(starts, a, b) {
          StartedFirstKept(starts, c, a, b);
        }
      } else if a in starts {
        AlreadyStarted(starts, a, c);
      }
    }
  }

  lemma ArriveOrdered(arrivals: seq<Request>, starts: seq<Request>, direct: set<Request>, r: Request)
    requires Ordered(arrivals, starts, direct) && r !in starts
    ensures Ordered(arrivals + [r], starts, direct)
  {
  }

  lemma DirectMonotone(arrivals: seq<Request>, starts: seq<Request>, direct: set<Request>, r: Request)
    requires Ordered(arrivals, starts, direct)
    ensures Ordered(arrivals, starts, direct + {r})
  {
  }

  // ---------------------------------------------------------------- steps

  lemma NotArrived(s: State, r: Request)
    requires Logged(s)
    requires r !in s.registered || r in s.posting || (s.holder.MustQueue? && s.holder.r == r)
    ensures r !in s.arrivals && r !in s.starts
  {
    assert multiset(s.registered)[r] <= 1;
    assert multiset(s.arrivals)[r] == 0;
  }

  /** Queueing a request that is registered but has not arrived. */
  lemma QueueOrdered(s: State, r: Request, t: State)
    requires OrderInv(s) && r !in s.arrivals && r !in s.starts
    requires t.fifo == s.fifo + [r] && t.arrivals == s.arrivals + [r] && t.starts == s.starts && t.direct == s.direct
    ensures t.fifo == Pending(t.arrivals, t.starts) && (forall x <- t.starts :: x in t.arrivals)
    ensures Ordered(t.arrivals, t.starts, t.direct)
  {
    PendingPush(s.arrivals, s.starts, r);
    ArriveOrdered(s.arrivals, s.starts, s.direct, r);
  }

  lemma ArriveSequentialLogged(s: State, r: Request)
    requires OrderInv(s) && Enabled(s, ArriveSequential(r))
    ensures OrderInv(Apply(s, ArriveSequential(r)))
  {
    StepInv(s, ArriveSequential(r));
    NotArrived(s, r);
    NewRequest(s.registered, r);
    QueueOrdered(s, r, Apply(s, ArriveSequential(r)));
  }

  lemma PushMutexLogged(s: State, r: Request)
    requires OrderInv(s) && Enabled(s, PushMutex(r))
    ensures OrderInv(Apply(s, PushMutex(r)))
  {
    StepInv(s, PushMutex(r));
    NotArrived(s, r);
    MutexFrom(s, r);
    QueueOrdered(s, r, Apply(s, PushMutex(r)));
  }

  lemma MutexFrom(s: State, r: Request)
    requires Logged(s) && Enabled(s, PushMutex(r))
    ensures
      var t := Apply(s, PushMutex(r));
      multiset(t.registered) == multiset(t.arrivals) + t.posting + Unqueued(t.holder)
  {
    assert s.posting == s.posting - multiset{r} + multiset{r};
    assert multiset(s.arrivals + [r]) == multiset(s.arrivals) + multiset{r};
  }

  lemma PushedFrom(s: State)
    requires Logged(s) && Enabled(s, PushConcurrent)
    ensures
      var t := Apply(s, PushConcurrent);
      multiset(t.registered) == multiset(t.arrivals) + t.posting + Unqueued(t.holder)
  {
    assert multiset(s.arrivals + [s.holder.r]) == multiset(s.arrivals) + multiset{s.holder.r};
  }

  lemma PushConcurrentLogged(s: State)
    requires OrderInv(s) && Enabled(s, PushConcurrent)
    ensures OrderInv(Apply(s, PushConcurrent))
  {
    StepInv(s, PushConcurrent);
    NotArrived(s, s.holder.r);
    PushedFrom(s);
    QueueOrdered(s, s.holder.r, Apply(s, PushConcurrent));
  }

  lemma ArriveMutexLogged(s: State, r: Request)
    requires OrderInv(s) && Enabled(s, ArriveMutex(r))
    ensures OrderInv(Apply(s, ArriveMutex(r)))
  {
    StepInv(s, ArriveMutex(r));
    NewRequest(s.registered, r);
  }

  lemma {:induction false} NoMutexQueued(q: seq<Request>)
    requires Mutexes(q) == 0
    ensures forall r <- q :: r.kind != Mutex
    decreases |q|
  {
    if q != [] {
      NoMutexQueued(q[1..]);
    }
  }

  lemma DirectPending(s: State, r: Request)
    requires Logged(s) && r !in s.arrivals && r !in s.starts
    ensures Pending(s.arrivals + [r], s.starts + [r]) == s.fifo
  {
    PendingOther(s.arrivals, s.starts, r);
    PendingPush(s.arrivals, s.starts + [r], r);
  }

  lemma NonePassed(s: State, r: Request)
    requires OrderInv(s) && s.mutexCount <= 0 && r.kind == Concurrent
    ensures forall x <- s.arrivals :: x !in s.starts ==> MayOvertake(x, r, s.direct + {r})
  {
    NoMutexQueued(s.fifo);
    forall x | x in s.arrivals && x !in s.starts ensures MayOvertake(x, r, s.direct + {r}) {
      PendingWithin(s.arrivals, s.starts, x);
    }
  }

  /** A concurrent request started on arrival overtakes no mutex request: none is queued. */
  lemma DirectOrdered(s: State, r: Request)
    requires OrderInv(s) && r !in s.arrivals && r !in s.starts && r.kind == Concurrent && s.mutexCount <= 0
    ensures Ordered(s.arrivals + [r], s.starts + [r], s.direct + {r})
  {
    NonePassed(s, r);
    DirectMonotone(s.arrivals, s.starts, s.direct, r);
    ArriveOrdered(s.arrivals, s.starts, s.direct + {r}, r);
    StartOrdered(s.arrivals + [r], s.starts, s.direct + {r}, r);
  }

  lemma OneMore(a: multiset<Request>, p: multiset<Request>, none: multiset<Request>, r: Request)
    requires none == multiset{}
    ensures a + p + none + multiset{r} == (a + multiset{r}) + p + none
    ensures a + p + none + multiset{r} == a + p + multiset{r}
  {
  }

  lemma ArrivedRegistered(s: State, r: Request)
    requires Logged(s) && Enabled(s, ArriveConcurrent(r))
    ensures
      var t := Apply(s, ArriveConcurrent(r));
      multiset(t.registered) == multiset(t.arrivals) + t.posting + Unqueued(t.holder)
  {
    var t := Apply(s, ArriveConcurrent(r));
    NewRequest(s.registered, r);
    OneMore(multiset(s.arrivals), s.posting, Unqueued(s.holder), r);
    assert t.registered == s.registered + {r} && t.posting == s.posting;
    if s.mutexCount <= 0 {
      assert t.arrivals == s.arrivals + [r] && Unqueued(t.holder) == Unqueued(s.holder);
    } else {
      assert t.arrivals == s.arrivals && Unqueued(t.holder) == multiset{r};
    }
  }

  lemma ArriveConcurrentLogged(s: State, r: Request)
    requires OrderInv(s) && Enabled(s, ArriveConcurrent(r))
    ensures OrderInv(Apply(s, ArriveConcurrent(r)))
  {
    StepInv(s, ArriveConcurrent(r));
    ArrivedRegistered(s, r);
    NotArrived(s, r);
    DirectPending(s, r);
    if s.mutexCount <= 0 {
      DirectOrdered(s, r);
    }
  }

  /** What the choice passes over is sequential, and only a concurrent request passes anything. */
  lemma {:induction false} ChoicePasses(q: seq<Request>, m: nat)
    requires m < FirstConcurrent(q) < |q|
    ensures q[m].kind == Sequential && q[FirstConcurrent(q)].kind == Concurrent
    decreases |q|
  {
    if m > 0 {
      ChoicePasses(q[1..], m - 1);
    } else if FirstConcurrent(q[1..]) > 0 {
      ChoicePasses(q[1..], 0);
    }
  }

  lemma TakeLogged(s: State)
    requires OrderInv(s) && Enabled(s, Take)
    ensures OrderInv(Apply(s, Take))
  {
    StepInv(s, Take);
    var i := Choice(s.fifo, s.concPendings);
    var c := s.fifo[i];
    DistinctIfOnce(s.arrivals, s.registered);
    PendingTake(s.arrivals, s.starts, i);
    PendingWithin(s.arrivals, s.starts, c);
    forall k, j | 0 <= k < j < |s.arrivals| && s.arrivals[j] == c && s.arrivals[k] !in s.starts
      ensures MayOvertake(s.arrivals[k], c, s.direct)
    {
      PendingAhead(s.arrivals, s.starts, k, j, i);
      var m :| 0 <= m < i && s.fifo[m] == s.arrivals[k];
      ChoicePasses(s.fifo, m);
    }
    StartOrdered(s.arrivals, s.starts, s.direct, c);
  }

  /** The steps that leave the queue and the records alone. */
  predicate Quiet(step: Step) {
    !step.ArriveSequential? && !step.ArriveMutex? && !step.PushMutex? && !step.ArriveConcurrent?
    && !step.PushConcurrent? && !step.Take?
  }

  /** s with the counters, threads and phase of t. */
  function Moved(s: State, t: State): State {
    t.(fifo := s.fifo, posting := s.posting, registered := s.registered, arrivals := s.arrivals,
       starts := s.starts, direct := s.direct)
  }

  lemma QuietStep(s: State, step: Step)
    requires Enabled(s, step) && Quiet(step)
    ensures Apply(s, step) == Moved(s, Apply(s, step))
  {
  }

  lemma QuietHolder(s: State, step: Step)
    requires Enabled(s, step) && Quiet(step)
    ensures Unqueued(Apply(s, step).holder) == Unqueued(s.holder)
  {
  }

  lemma QuietLogged(s: State, step: Step)
    requires OrderInv(s) && Enabled(s, step) && Quiet(step)
    ensures OrderInv(Apply(s, step))
  {
    StepInv(s, step);
    QuietStep(s, step);
    QuietHolder(s, step);
  }

  lemma StepOrder(s: State, step: Step)
    requires OrderInv(s) && Enabled(s, step)
    ensures OrderInv(Apply(s, step))
  {
    match step
    case ArriveSequential(r) => ArriveSequentialLogged(s, r);
    case ArriveMutex(r) => ArriveMutexLogged(s, r);
    case PushMutex(r) => PushMutexLogged(s, r);
    case ArriveConcurrent(r) => ArriveConcurrentLogged(s, r);
    case PushConcurrent => PushConcurrentLogged(s);
    case Take => TakeLogged(s);
    case _ => QuietLogged(s, step);
  }

  /** In every run, b is started before a that arrived earlier only if b is concurrent, a is
      not a mutex request, and, should a be concurrent too, b never was in the queue. */
  lemma {:induction false} RunOrder(s: State, steps: seq<Step>, t: State)
    requires OrderInv(s) && Runs(s, steps, t)
    ensures OrderInv(t)
    decreases |steps|
  {
    if steps != [] {
      StepOrder(s, steps[0]);
      RunOrder(Apply(s, steps[0]), steps[1..], t);
    }
  }

  lemma InitialOrder(s: State)
    requires Initial(s)
    ensures OrderInv(s)
  {
    InitialInv(s);
  }

  /** The order in which a broker starts requests, in any run: b comes before a although it
      arrived later only if b is concurrent, a is not a mutex request, and, should a be
      concurrent too, b was started on arrival. */
  lemma OvertakingIsRare(s: State, steps: seq<Step>, t: State, i: nat, j: nat)
    requires Initial(s) && Runs(s, steps, t)
    requires i < j < |t.arrivals| && t.arrivals[j] in t.starts
    ensures StartedFirst(t.starts, t.arrivals[i], t.arrivals[j])
         || MayOvertake(t.arrivals[i], t.arrivals[j], t.direct)
  {
    InitialOrder(s);
    RunOrder(s, steps, t);
  }
}
