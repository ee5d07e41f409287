/** When concurrent requests are first-in first-out among themselves. */
module BrokerFifo {
  import opened Broker
  import opened BrokerInvariant
  import opened BrokerOrder

  /** Two concurrent requests, the i-th arrived before the j-th. */
  predicate Pair(arrivals: seq<Request>, i: nat, j: nat) {
    i < j < |arrivals| && arrivals[i].kind == Concurrent && arrivals[j].kind == Concurrent
  }

  /** No concurrent request was started before a concurrent one that arrived earlier. */
  ghost predicate InOrder(arrivals: seq<Request>, starts: seq<Request>) {
    forall i: nat, j: nat :: Pair(arrivals, i, j) && arrivals[j] in starts ==>
      StartedFirst(starts, arrivals[i], arrivals[j])
  }

  /** A concurrent request arrives and no mutex request is pending, but a concurrent one waits
      in the queue. */
  predicate Jumps(s: State, step: Step) {
    step.ArriveConcurrent? && s.mutexCount <= 0 && Concurrents(s.fifo) > 0
  }

  predicate NoneJumps(s: State, steps: seq<Step>)
    decreases |steps|
  {
    steps != [] ==>
      Enabled(s, steps[0]) && !Jumps(s, steps[0]) && NoneJumps(Apply(s, steps[0]), steps[1..])
  }

  // ---------------------------------------------------------------- such a step overtakes

  lemma {:induction false} SomeConcurrent(q: seq<Request>) returns (r: Request)
    requires Concurrents(q) > 0
    ensures r in q && r.kind == Concurrent
    decreases |q|
  {
    if q[0].kind == Concurrent {
      r := q[0];
    } else {
      r := SomeConcurrent(q[1..]);
    }
  }

  lemma JumpOvertakes(s: State, step: Step)
    requires OrderInv(s) && Enabled(s, step) && Jumps(s, step)
    ensures !InOrder(Apply(s, step).arrivals, Apply(s, step).starts)
  {
    var (t, r) := (Apply(s, step), step.r);
    var a := SomeConcurrent(s.fifo);
    PendingWithin(s.arrivals, s.starts, a);
    NotArrived(s, r);
    var i :| 0 <= i < |s.arrivals| && s.arrivals[i] == a;
    assert t.arrivals[i] == a && t.arrivals[|s.arrivals|] == r && a !in t.starts;
    assert Pair(t.arrivals, i, |s.arrivals|);
  }

  lemma OvertakenFor(starts: seq<Request>, more: seq<Request>, a: Request, b: Request)
    requires starts <= more && b in starts && !StartedFirst(starts, a, b)
    ensures !StartedFirst(more, a, b)
  {
    forall p | 0 <= p < |more| && more[p] == a ensures b in more[..p] {
      assert if p < |starts| then more[..p] == starts[..p] && starts[p] == a else more[..p][..|starts|] == starts;
    }
  }

  lemma LogsGrow(s: State, step: Step)
    requires Enabled(s, step)
    ensures s.arrivals <= Apply(s, step).arrivals && s.starts <= Apply(s, step).starts
  {
    if Quiet(step) {
      QuietStep(s, step);
    }
  }

  lemma OutOfOrderStays(s: State, step: Step)
    requires Enabled(s, step) && !InOrder(s.arrivals, s.starts)
    ensures !InOrder(Apply(s, step).arrivals, Apply(s, step).starts)
  {
    LogsGrow(s, step);
    var t := Apply(s, step);
    var i: nat, j: nat :| Pair(s.arrivals, i, j) && s.arrivals[j] in s.starts
      && !StartedFirst(s.starts, s.arrivals[i], s.arrivals[j]);
    OvertakenFor(s.starts, t.starts, s.arrivals[i], s.arrivals[j]);
    assert Pair(t.arrivals, i, j) && t.arrivals[i] == s.arrivals[i] && t.arrivals[j] == s.arrivals[j];
  }

  lemma {:induction false} OutOfOrderForEver(s: State, steps: seq<Step>, t: State)
    requires Runs(s, steps, t) && !InOrder(s.arrivals, s.starts)
    ensures !InOrder(t.arrivals, t.starts)
    decreases |steps|
  {
    if steps != [] {
      OutOfOrderStays(s, steps[0]);
      OutOfOrderForEver(Apply(s, steps[0]), steps[1..], t);
    }
  }

  // ---------------------------------------------------------------- no other step does

  /** Starting c keeps the order if every concurrent request that arrived before it is started. */
  lemma StartInOrder(arrivals: seq<Request>, starts: seq<Request>, c: Request)
    requires InOrder(arrivals, starts) && c !in starts
    requires forall i: nat, j: nat :: Pair(arrivals, i, j) && arrivals[j] == c ==> arrivals[i] in starts
    ensures InOrder(arrivals, starts + [c])
  {
    forall i: nat, j: nat | Pair(arrivals, i, j) && arrivals[j] in starts + [c]
      ensures StartedFirst(starts + [c], arrivals[i], arrivals[j])
    {
      if arrivals[j] in starts {
        StartedFirstKept(starts, c, arrivals[i], arrivals[j]);
      } else {
        AlreadyStarted(starts, arrivals[i], c);
      }
    }
  }

  lemma ArriveInOrder(arrivals: seq<Request>, starts: seq<Request>, r: Request)
    requires InOrder(arrivals, starts) && r !in starts
    ensures InOrder(arrivals + [r], starts)
  {
    forall i: nat, j: nat | Pair(arrivals + [r], i, j) && (arrivals + [r])[j] in starts
      ensures StartedFirst(starts, (arrivals + [r])[i], (arrivals + [r])[j])
    {
      assert Pair(arrivals, i, j);
    }
  }

  lemma {:induction false} NoneConcurrent(q: seq<Request>)
    requires Concurrents(q) == 0
    ensures forall r <- q :: r.kind != Concurrent
    decreases |q|
  {
    if q != [] {
      NoneConcurrent(q[1..]);
    }
  }

  lemma DirectInOrder(s: State, r: Request)
    requires OrderInv(s) && Enabled(s, ArriveConcurrent(r)) && Concurrents(s.fifo) == 0
    requires InOrder(s.arrivals, s.starts)
    ensures InOrder(s.arrivals + [r], s.starts + [r])
  {
    NotArrived(s, r);
    NoneConcurrent(s.fifo);
    ArriveInOrder(s.arrivals, s.starts, r);
    var arrivals := s.arrivals + [r];
    forall i: nat, j: nat | Pair(arrivals, i, j) && arrivals[j] == r
      ensures arrivals[i] in s.starts
    {
      PendingWithin(s.arrivals, s.starts, arrivals[i]);
    }
    StartInOrder(arrivals, s.starts, r);
  }

  lemma TakeInOrder(s: State)
    requires OrderInv(s) && Enabled(s, Take) && InOrder(s.arrivals, s.starts)
    ensures InOrder(Apply(s, Take).arrivals, Apply(s, Take).starts)
  {
    var i := Choice(s.fifo, s.concPendings);
    var c := s.fifo[i];
    PendingWithin(s.arrivals, s.starts, c);
    DistinctIfOnce(s.arrivals, s.registered);
    forall k: nat, j: nat | Pair(s.arrivals, k, j) && s.arrivals[j] == c
      ensures s.arrivals[k] in s.starts
    {
      if s.arrivals[k] !in s.starts {
        PendingAhead(s.arrivals, s.starts, k, j, i);
        var m :| 0 <= m < i && s.fifo[m] == s.arrivals[k];
        ChoicePasses(s.fifo, m);
      }
    }
    StartInOrder(s.arrivals, s.starts, c);
  }

  lemma StepInOrder(s: State, step: Step)
    requires OrderInv(s) && Enabled(s, step) && InOrder(s.arrivals, s.starts) && !Jumps(s, step)
    ensures InOrder(Apply(s, step).arrivals, Apply(s, step).starts)
  {
    match step
    case ArriveSequential(r) =>
      NotArrived(s, r);
      ArriveInOrder(s.arrivals, s.starts, r);
    case PushMutex(r) =>
      NotArrived(s, r);
      ArriveInOrder(s.arrivals, s.starts, r);
    case PushConcurrent =>
      NotArrived(s, s.holder.r);
      ArriveInOrder(s.arrivals, s.starts, s.holder.r);
    case ArriveConcurrent(r) =>
      if s.mutexCount <= 0 {
        DirectInOrder(s, r);
      }
    case Take => TakeInOrder(s);
    case ArriveMutex(_) =>
    case _ => QuietStep(s, step);
  }

  lemma {:induction false} RunInOrder(s: State, steps: seq<Step>, t: State)
    requires OrderInv(s) && InOrder(s.arrivals, s.starts) && Runs(s, steps, t)
    ensures InOrder(t.arrivals, t.starts) <==> NoneJumps(s, steps)
    decreases |steps|
  {
    if steps != [] {
      var u := Apply(s, steps[0]);
      StepOrder(s, steps[0]);
      if Jumps(s, steps[0]) {
        JumpOvertakes(s, steps[0]);
        OutOfOrderForEver(u, steps[1..], t);
      } else {
        StepInOrder(s, steps[0]);
        RunInOrder(u, steps[1..], t);
      }
    }
  }

  /** In every run the concurrent requests are started in the order of their arrival if and only
      if none arrives, with no mutex request pending, while another is queued. */
  lemma ConcurrentsInOrderIff(s: State, steps: seq<Step>, t: State)
    requires Initial(s) && Runs(s, steps, t)
    ensures InOrder(t.arrivals, t.starts) <==> NoneJumps(s, steps)
  {
    InitialOrder(s);
    RunInOrder(s, steps, t);
  }
}
