/** Which forwarding nodes of an MPI run can go on, and which wait for ever. */
module Waiting {
  import opened Interconnector

  /** What a node waits for is under way, between nodes that exist. */
  predicate WaitsRightly(s: State, n: nat)
    requires n < |s.main|
  {
    match s.main[n]
    case Idle => true
    case Asking(k) => k.src == n && k.dst < |s.main| && AskedOn(s, k)
    case Answering(k) => k.src == n && AnsweredOn(s, k)
  }

  ghost predicate WaitInv(s: State) {
    Inv(s) && forall n :: 0 <= n < |s.main| ==> WaitsRightly(s, n)
  }

  lemma InitialWaits(s: State)
    requires Initial(s)
    ensures WaitInv(s)
  {
    InitialInv(s);
  }

  lemma ForwardWaits(s: State, a: nat, fd: nat, b: nat, id: nat, n: nat)
    requires WaitInv(s) && Enabled(s, Forward(a, fd, b, id)) && n < |s.main|
    ensures WaitsRightly(Apply(s, Forward(a, fd, b, id)), n)
  {
    assert WaitsRightly(s, n);
    assert Key(a, s.nextTag[a]) in s.place ==> Known(s, Key(a, s.nextTag[a]));
  }

  lemma DeliverWaits(s: State, c: Command, fd: nat, n: nat)
    requires WaitInv(s) && Enabled(s, Deliver(c, fd)) && n < |s.main|
    ensures WaitsRightly(Apply(s, Deliver(c, fd)), n)
  {
    assert WaitsRightly(s, n);
    assert Carries(s, Of(c)) && c == Command(c.src, c.dst, c.tag, true);
    assert AskedOn(s, Of(c));
  }

  lemma RespondWaits(s: State, b: nat, fd: nat, n: nat)
    requires WaitInv(s) && Enabled(s, Respond(b, fd)) && n < |s.main|
    ensures WaitsRightly(Apply(s, Respond(b, fd)), n)
  {
    assert WaitsRightly(s, n);
    assert Connected(s, Key(b, fd));
  }

  lemma TakeResponseWaits(s: State, c: Command, n: nat)
    requires WaitInv(s) && Enabled(s, TakeResponse(c)) && n < |s.main|
    ensures WaitsRightly(Apply(s, TakeResponse(c)), n)
  {
    assert WaitsRightly(s, n);
    assert Carries(s, Of(c)) && c == Command(c.src, c.dst, c.tag, false);
    assert AnsweredOn(s, Of(c));
  }

  lemma StepWaits(s: State, step: Step)
    requires WaitInv(s) && Enabled(s, step)
    ensures WaitInv(Apply(s, step))
  {
    StepInv(s, step);
    var t := Apply(s, step);
    forall n | 0 <= n < |t.main| ensures WaitsRightly(t, n) {
      assert WaitsRightly(s, n);
      match step
      case Forward(a, fd, b, id) => ForwardWaits(s, a, fd, b, id, n);
      case TakeRequest(_) =>
      case Deliver(c, fd) => DeliverWaits(s, c, fd, n);
      case Respond(b, fd) => RespondWaits(s, b, fd, n);
      case TakeResponse(c) => TakeResponseWaits(s, c, n);
    }
  }

  lemma {:induction false} RunWaits(s: State, steps: seq<Step>, t: State)
    requires WaitInv(s) && Runs(s, steps, t)
    ensures WaitInv(t)
    decreases |steps|
  {
    if steps != [] {
      StepWaits(s, steps[0]);
      RunWaits(Apply(s, steps[0]), steps[1..], t);
    }
  }

  // ---------------------------------------------------------------- who waits for whom

  /** n links from node a on, along what asking nodes wait for. */
  function Follow(main: seq<Main>, a: nat, n: nat): nat
    decreases n
  {
    if n == 0 || a >= |main| || !main[a].Asking? then a else Follow(main, main[a].channel.dst, n - 1)
  }

  /** Following the links from a leads to a node that does not ask. */
  ghost predicate Freed(main: seq<Main>, a: nat) {
    exists n :: FreedIn(main, a, n)
  }

  predicate FreedIn(main: seq<Main>, a: nat, n: nat) {
    var z := Follow(main, a, n);
    z < |main| && !main[z].Asking?
  }

  // ---------------------------------------------------------------- otherwise it waits for ever

  /** A step changes what an asking node waits for only if that node's request is delivered, to
      a node that is idle. */
  lemma AskingStays(s: State, step: Step, n: nat)
    requires WaitInv(s) && Enabled(s, step) && n < |s.main| && s.main[n].Asking?
    requires var b := s.main[n].channel.dst; b < |s.main| ==> s.main[b].Asking?
    ensures |Apply(s, step).main| == |s.main| && Apply(s, step).main[n] == s.main[n]
  {
    assert WaitsRightly(s, n);
  }

  lemma {:induction false} LinksStay(s: State, step: Step, a: nat, n: nat)
    requires WaitInv(s) && Enabled(s, step) && a < |s.main| && !Freed(s.main, a)
    ensures a < |Apply(s, step).main| && Apply(s, step).main[a] == s.main[a]
    ensures !FreedIn(Apply(s, step).main, a, n)
    decreases n
  {
    var t := Apply(s, step);
    assert WaitsRightly(s, a);
    assert !FreedIn(s.main, a, 0);
    var b := s.main[a].channel.dst;
    forall m: nat ensures !FreedIn(s.main, b, m) {
      assert Follow(s.main, a, m + 1) == Follow(s.main, b, m);
      assert !FreedIn(s.main, a, m + 1);
    }
    assert !FreedIn(s.main, b, 0);
    AskingStays(s, step, a);
    if n > 0 {
      LinksStay(s, step, b, n - 1);
    }
  }

  lemma {:induction false} WaitsForEver(s: State, steps: seq<Step>, t: State, a: nat)
    requires WaitInv(s) && Runs(s, steps, t) && a < |s.main| && !Freed(s.main, a)
    ensures a < |t.main| && t.main[a] == s.main[a] && !Freed(t.main, a)
    decreases |steps|
  {
    if steps != [] {
      var u := Apply(s, steps[0]);
      forall n: nat ensures !FreedIn(u.main, a, n) {
        LinksStay(s, steps[0], a, n);
      }
      LinksStay(s, steps[0], a, 0);
      StepWaits(s, steps[0]);
      WaitsForEver(u, steps[1..], t, a);
    }
  }

  // ---------------------------------------------------------------- a run that wakes it

  lemma {:induction false} Extend(s: State, steps: seq<Step>, t: State, step: Step)
    requires Runs(s, steps, t) && Enabled(t, step)
    ensures Runs(s, steps + [step], Apply(t, step))
    decreases |steps|
  {
    if steps == [] {
      assert steps + [step] == [step];
      assert [step][1..] == [];
    } else {
      assert (steps + [step])[1..] == steps[1..] + [step];
      Extend(Apply(s, steps[0]), steps[1..], t, step);
    }
  }

  ghost predicate Reaches(s: State, t: State) {
    exists steps :: Runs(s, steps, t)
  }

  lemma Go(s: State, t: State, step: Step) returns (u: State)
    requires Reaches(s, t) && WaitInv(t) && Enabled(t, step)
    ensures Reaches(s, u) && u == Apply(t, step) && WaitInv(u)
  {
    u := Apply(t, step);
    var steps :| Runs(s, steps, t);
    Extend(s, steps, t, step);
    StepWaits(t, step);
  }

  lemma {:induction false} Above(keys: set<Key>) returns (n: nat)
    ensures forall k <- keys :: k.n < n
    decreases |keys|
  {
    if keys == {} {
      n := 0;
    } else {
      var k :| k in keys;
      var m := Above(keys - {k});
      n := if m <= k.n then k.n + 1 else m;
    }
  }

  /** The steps of these runs only end waiting. */
  predicate Eased(main: seq<Main>, after: seq<Main>) {
    |after| == |main| && forall n :: 0 <= n < |main| ==> after[n] == main[n] || after[n] == Idle
  }

  /** The receive thread of the other node takes the response. */
  lemma WakeAnswering(s: State, t: State, b: nat) returns (u: State)
    requires Reaches(s, t) && WaitInv(t) && b < |t.main| && t.main[b].Answering?
    ensures Reaches(s, u) && WaitInv(u) && Eased(t.main, u.main) && u.main[b] == Idle
  {
    assert WaitsRightly(t, b);
    var k := t.main[b].channel;
    assert Carries(t, k);
    u := Go(s, t, TakeResponse(Command(k.src, k.dst, k.tag, false)));
  }

  /** The receive thread of the idle node hands the request on, and its main thread takes it. */
  lemma WakeAsking(s: State, t: State, a: nat) returns (u: State)
    requires Reaches(s, t) && WaitInv(t) && a < |t.main| && t.main[a].Asking?
    requires var b := t.main[a].channel.dst; b < |t.main| && t.main[b] == Idle
    ensures Reaches(s, u) && WaitInv(u) && Eased(t.main, u.main) && u.main[a] == Idle
  {
    assert WaitsRightly(t, a);
    var k := t.main[a].channel;
    assert Carries(t, k);
    var c := Command(k.src, k.dst, k.tag, true);
    u := Received(s, t, c);
    u := Delivered(s, u, a);
  }

  /** What is in the inbox of an idle node goes to the object, over a new connection. */
  lemma Delivered(s: State, t: State, a: nat) returns (u: State)
    requires Reaches(s, t) && WaitInv(t) && a < |t.main| && t.main[a].Asking?
    requires var k := t.main[a].channel;
      k.dst < |t.main| && t.main[k.dst] == Idle && Command(k.src, k.dst, k.tag, true) in t.inbox
    ensures Reaches(s, u) && WaitInv(u) && Eased(t.main, u.main) && u.main[a] == Idle
  {
    var k := t.main[a].channel;
    assert WaitsRightly(t, a) && Carries(t, k);
    var fd := Above(t.outgoing.Keys);
    u := Go(s, t, Deliver(Command(k.src, k.dst, k.tag, true), fd));
  }

  /** A request under way can be in the other node's inbox. */
  lemma Received(s: State, t: State, c: Command) returns (u: State)
    requires Reaches(s, t) && WaitInv(t) && (c in t.inbox || Enabled(t, TakeRequest(c)))
    ensures Reaches(s, u) && WaitInv(u) && c in u.inbox && u.main == t.main
  {
    u := t;
    if c !in t.inbox {
      u := Go(s, t, TakeRequest(c));
    }
  }

  lemma {:induction false} Wake(s: State, t: State, a: nat, n: nat) returns (u: State)
    requires Reaches(s, t) && WaitInv(t) && a < |t.main| && t.main[a].Asking? && FreedIn(t.main, a, n)
    ensures Reaches(s, u) && WaitInv(u) && Eased(t.main, u.main) && u.main[a] == Idle
    decreases n
  {
    assert WaitsRightly(t, a);
    var b := t.main[a].channel.dst;
    u := t;
    if t.main[b].Asking? {
      u := Wake(s, t, b, n - 1);
    } else if t.main[b].Answering? {
      u := WakeAnswering(s, t, b);
    }
    if u.main[a] != Idle {
      var v := WakeAsking(s, u, a);
      u := v;
    }
  }

  /** In every reachable state, a node that asks can go on in some continuation if and only if
      following what asking nodes wait for leads from it to a node that does not ask. */
  lemma AskingWakesIff(s: State, steps: seq<Step>, t: State, a: nat)
    requires Initial(s) && Runs(s, steps, t) && a < |t.main| && t.main[a].Asking?
    ensures (exists u :: Reaches(t, u) && a < |u.main| && u.main[a] == Idle) <==> Freed(t.main, a)
  {
    InitialWaits(s);
    RunWaits(s, steps, t);
    assert Runs(t, [], t);
    if n: nat :| FreedIn(t.main, a, n) {
      var u := Wake(t, t, a, n);
    } else if u :| Reaches(t, u) && a < |u.main| && u.main[a] == Idle {
      var on :| Runs(t, on, u);
      WaitsForEver(t, on, u, a);
    }
  }

  /** A node that answers can always go on. */
  lemma AnsweringWakes(s: State, steps: seq<Step>, t: State, a: nat)
    requires Initial(s) && Runs(s, steps, t) && a < |t.main| && t.main[a].Answering?
    ensures exists u :: Reaches(t, u) && a < |u.main| && u.main[a] == Idle
  {
    InitialWaits(s);
    RunWaits(s, steps, t);
    assert Runs(t, [], t);
    var u := WakeAnswering(t, t, a);
  }

  // ---------------------------------------------------------------- one call

  lemma ReachesOn(s: State, t: State, step: Step)
    requires Reaches(s, t) && Enabled(t, step)
    ensures Reaches(s, Apply(t, step))
  {
    var steps :| Runs(s, steps, t);
    Extend(s, steps, t, step);
  }

  /** The states of a run with one call: asked for, delivered, answered. */
  function AskedState(s: State, call: Call): State
    requires call.node < |s.main| == |s.nextTag|
  {
    var (k, key) := (Channel(call.node, call.dest, 1000), Key(call.node, 1000));
    s.(main := s.main[call.node := Asking(k)], nextTag := s.nextTag[call.node := 1001],
       incomingTag := map[key := call.fd], data := map[k := [ObjectId(call.id), Length, Ask(call)]],
       calls := map[key := call], place := map[key := Asked(call.dest)],
       inbox := multiset{Command(call.node, call.dest, 1000, true)})
  }

  function AtObjectState(s: State, call: Call, at: nat): State
    requires call.node < |s.main| == |s.nextTag|
  {
    var key := Key(call.node, 1000);
    AskedState(s, call).(main := s.main, data := map[Channel(call.node, call.dest, 1000) := []], inbox := multiset{},
       outgoing := map[Key(call.dest, at) := key], received := map[Key(call.dest, at) := Ask(call)],
       place := map[key := AtObject(call.dest, at)])
  }

  lemma Asks(s: State, call: Call)
    requires Initial(s) && call.node < |s.main| && call.dest < |s.main| && call.node != call.dest && call.tag == 1000
    ensures Reaches(s, AskedState(s, call))
  {
    var (x, y) := (Forward(call.node, call.fd, call.dest, call.id),
                   TakeRequest(Command(call.node, call.dest, 1000, true)));
    assert Runs(s, [], s);
    Forwarded(s, call);
    ReachesOn(s, s, x);
    ReachesOn(s, Apply(s, x), y);
    Announced(s, call);
  }

  /** Before its announcement is taken. */
  function ForwardedState(s: State, call: Call): State
    requires call.node < |s.main| == |s.nextTag|
  {
    AskedState(s, call).(inbox := multiset{}, commands := multiset{Command(call.node, call.dest, 1000, true)})
  }

  lemma Forwarded(s: State, call: Call)
    requires Initial(s) && call.node < |s.main| && call.dest < |s.main| && call.tag == 1000
    ensures
      var x := Forward(call.node, call.fd, call.dest, call.id);
      Enabled(s, x) && Apply(s, x) == ForwardedState(s, call)
  {
    var (t, u) := (Apply(s, Forward(call.node, call.fd, call.dest, call.id)), ForwardedState(s, call));
    var k := Channel(call.node, call.dest, 1000);
    assert Items(s, k) == [] && call == Call(call.node, call.fd, 1000, call.dest, call.id);
    assert [] + [ObjectId(call.id), Length, Ask(call)] == [ObjectId(call.id), Length, Ask(call)];
    assert t.data == u.data && t.calls == u.calls && t.place == u.place && t.incomingTag == u.incomingTag;
    assert t.main == u.main && t.nextTag == u.nextTag && t.commands == u.commands && t.inbox == u.inbox;
  }

  lemma Announced(s: State, call: Call)
    requires call.node < |s.main| == |s.nextTag| && s.commands == multiset{}
    ensures
      var (t, y) := (ForwardedState(s, call), TakeRequest(Command(call.node, call.dest, 1000, true)));
      Enabled(t, y) && Apply(t, y) == AskedState(s, call)
  {
    var (t, y) := (ForwardedState(s, call), TakeRequest(Command(call.node, call.dest, 1000, true)));
    assert Apply(t, y).commands == multiset{} == AskedState(s, call).commands;
    assert Apply(t, y).inbox == AskedState(s, call).inbox;
  }

  lemma Delivers(s: State, call: Call, at: nat)
    requires Initial(s) && call.node < |s.main| && call.dest < |s.main| && call.node != call.dest
    ensures
      var (t, step) := (AskedState(s, call), Deliver(Command(call.node, call.dest, 1000, true), at));
      Enabled(t, step) && Apply(t, step) == AtObjectState(s, call, at)
  {
    var (t, c) := (AskedState(s, call), Command(call.node, call.dest, 1000, true));
    assert Items(t, Of(c)) == [ObjectId(call.id), Length, Ask(call)];
    assert t.main[call.node := Idle] == s.main;
  }

  lemma Answers(s: State, call: Call, at: nat) returns (t: State)
    requires Initial(s) && call.node < |s.main| && call.dest < |s.main| && call.node != call.dest
    ensures
      var (u, step) := (AtObjectState(s, call, at), Respond(call.dest, at));
      && Enabled(u, step) && t == Apply(u, step)
      && t.commands == multiset{Command(call.dest, call.node, 1000, false)}
      && Items(t, Channel(call.dest, call.node, 1000)) == [Length, Answer(call)]
      && t.main == s.main[call.dest := Answering(Channel(call.dest, call.node, 1000))]
      && t.incomingTag == map[Key(call.node, 1000) := call.fd] && t.written == []
      && t.place == map[Key(call.node, 1000) := Answered(call.dest)]
  {
    var u := AtObjectState(s, call, at);
    assert Items(u, Channel(call.dest, call.node, 1000)) == [];
    t := Apply(u, Respond(call.dest, at));
  }

  /** A request from any node to any other one goes through, and its answer comes back. */
  lemma AnswerArrives(s: State, call: Call, at: nat) returns (t: State)
    requires Initial(s) && call.node < |s.main| && call.dest < |s.main| && call.node != call.dest && call.tag == 1000
    ensures Reaches(s, t) && t.written == [Written(call.node, call.fd, Answer(call))]
    ensures t.place == map[] && t.main == s.main
  {
    Asks(s, call);
    Delivers(s, call, at);
    ReachesOn(s, AskedState(s, call), Deliver(Command(call.node, call.dest, 1000, true), at));
    var u := Answers(s, call, at);
    ReachesOn(s, AtObjectState(s, call, at), Respond(call.dest, at));
    t := TakesAnswer(s, u, call);
  }

  lemma TakesAnswer(s: State, u: State, call: Call) returns (t: State)
    requires Initial(s) && Reaches(s, u) && call.node < |s.main| && call.dest < |s.main|
    requires |u.nextTag| == |s.main| && u.commands == multiset{Command(call.dest, call.node, 1000, false)}
    requires Items(u, Channel(call.dest, call.node, 1000)) == [Length, Answer(call)]
    requires u.main == s.main[call.dest := Answering(Channel(call.dest, call.node, 1000))]
    requires u.incomingTag == map[Key(call.node, 1000) := call.fd] && u.written == []
    requires u.place == map[Key(call.node, 1000) := Answered(call.dest)]
    ensures Reaches(s, t) && t.written == [Written(call.node, call.fd, Answer(call))]
    ensures t.place == map[] && t.main == s.main
  {
    var step := TakeResponse(Command(call.dest, call.node, 1000, false));
    ReachesOn(s, u, step);
    t := Apply(u, step);
  }

  // ---------------------------------------------------------------- rings

  function After<T>(q: seq<T>, i: nat): T
    requires i < |q|
  {
    if i + 1 == |q| then q[0] else q[i + 1]
  }

  /** Every node of q asks the next one, the last the first. */
  predicate Ring(main: seq<Main>, q: seq<nat>) {
    forall i :: 0 <= i < |q| ==> q[i] < |main| && main[q[i]].Asking? && main[q[i]].channel.dst == After(q, i)
  }

  lemma {:induction false} RingStays(main: seq<Main>, q: seq<nat>, i: nat, n: nat)
    requires Ring(main, q) && i < |q|
    ensures !FreedIn(main, q[i], n)
    decreases n
  {
    if n > 0 {
      RingStays(main, q, if i + 1 == |q| then 0 else i + 1, n - 1);
    }
  }

  /** The nodes of a ring, of whatever length, wait for ever. */
  lemma RingBlocks(s: State, steps: seq<Step>, t: State, q: seq<nat>, on: seq<Step>, u: State, i: nat)
    requires Initial(s) && Runs(s, steps, t) && Ring(t.main, q) && Runs(t, on, u) && i < |q|
    ensures q[i] < |u.main| && u.main[q[i]] == t.main[q[i]]
  {
    InitialWaits(s);
    RunWaits(s, steps, t);
    forall n: nat ensures !FreedIn(t.main, q[i], n) {
      RingStays(t.main, q, i, n);
    }
    WaitsForEver(t, on, u, q[i]);
  }

  /** Two nodes that forward a request to each other before either is received are stuck; so is
      a node that forwards a request to itself. */
  lemma MutualRequestsBlock(s: State, a: nat, fd: nat, b: nat, fd': nat, id: nat, id': nat, on: seq<Step>, t: State)
    requires Initial(s) && a < |s.main| && b < |s.main|
    requires
      var first := [Forward(a, fd, b, id)];
      Runs(s, if a == b then first + on else first + [Forward(b, fd', a, id')] + on, t)
    ensures a < |t.main| && b < |t.main| && t.main[a].Asking? && t.main[b].Asking?
  {
    var (x, y) := (Forward(a, fd, b, id), Forward(b, fd', a, id'));
    if a == b {
      RunsCut(s, x, on, t);
      RingAsks(s, [x], Apply(s, x), [a], on, t, 0);
    } else {
      RunsCutTwo(s, x, y, on, t);
      Crossed(s, a, fd, b, fd', id, id');
      RingAsks(s, [x, y], Apply(Apply(s, x), y), [a, b], on, t, 0);
      RingAsks(s, [x, y], Apply(Apply(s, x), y), [a, b], on, t, 1);
    }
  }

  lemma RingAsks(s: State, steps: seq<Step>, t: State, q: seq<nat>, on: seq<Step>, u: State, i: nat)
    requires Initial(s) && Runs(s, steps, t) && Ring(t.main, q) && Runs(t, on, u) && i < |q|
    ensures q[i] < |u.main| && u.main[q[i]].Asking?
  {
    RingBlocks(s, steps, t, q, on, u, i);
  }

  /** Two nodes that ask each other are a ring. */
  lemma Crossed(s: State, a: nat, fd: nat, b: nat, fd': nat, id: nat, id': nat)
    requires a < |s.main| && b < |s.main| && a != b && Enabled(s, Forward(a, fd, b, id))
    requires Enabled(Apply(s, Forward(a, fd, b, id)), Forward(b, fd', a, id'))
    ensures Ring(Apply(Apply(s, Forward(a, fd, b, id)), Forward(b, fd', a, id')).main, [a, b])
  {
  }

  lemma RunsCut(s: State, x: Step, on: seq<Step>, t: State)
    requires Runs(s, [x] + on, t)
    ensures Enabled(s, x) && Runs(s, [x], Apply(s, x)) && Runs(Apply(s, x), on, t)
  {
    assert ([x] + on)[1..] == on && [x][1..] == [];
    assert Runs(Apply(s, x), [], Apply(s, x));
  }

  lemma RunsCutTwo(s: State, x: Step, y: Step, on: seq<Step>, t: State)
    requires Runs(s, [x] + [y] + on, t)
    ensures Enabled(s, x) && Enabled(Apply(s, x), y)
    ensures Runs(s, [x, y], Apply(Apply(s, x), y)) && Runs(Apply(Apply(s, x), y), on, t)
  {
    assert [x] + [y] + on == [x] + ([y] + on);
    RunsCut(s, x, [y] + on, t);
    RunsCut(Apply(s, x), y, on, t);
    assert [x, y][1..] == [y];
  }
}
