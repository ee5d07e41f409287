/** Requests and responses of parallel objects, redirected between the nodes of an MPI run:
    every node has a main thread, which blocks while it sends, and a receive thread. */
module Interconnector {

  /** A request from the local connection fd of a node to object `id` of node `dest`. */
  datatype Call = Call(node: nat, fd: nat, tag: nat, dest: nat, id: nat)

  datatype Item = ObjectId(id: nat) | Length | Ask(call: Call) | Answer(call: Call)

  /** A command message: 13 announces a request, 14 a response. */
  datatype Command = Command(src: nat, dst: nat, tag: nat, asks: bool)

  /** The messages from src to dst that carry the given MPI tag keep their order. */
  datatype Channel = Channel(src: nat, dst: nat, tag: nat)

  datatype Main = Idle | Asking(channel: Channel) | Answering(channel: Channel)

  /** A connection of a node, or a tag a node gave out. */
  datatype Key = Key(node: nat, n: nat)

  /** Where the call stands that a node gave a tag. */
  datatype Place = Asked(node: nat) | AtObject(node: nat, fd: nat) | Answered(node: nat)

  datatype Written = Written(node: nat, fd: nat, item: Item)

  /** `calls`, `place` and `written` only record history. */
  datatype State = State(
    main: seq<Main>,
    nextTag: seq<nat>,
    incomingTag: map<Key, nat>,
    outgoing: map<Key, Key>,
    received: map<Key, Item>,
    commands: multiset<Command>,
    inbox: multiset<Command>,
    data: map<Channel, seq<Item>>,
    calls: map<Key, Call>,
    place: map<Key, Place>,
    written: seq<Written>)

  datatype Step =
    | Forward(node: nat, fd: nat, dest: nat, id: nat)
    | TakeRequest(c: Command)
    | Deliver(c: Command, fd: nat)
    | Respond(node: nat, fd: nat)
    | TakeResponse(c: Command)

  predicate Initial(s: State) {
    && |s.main| == |s.nextTag|
    && (forall a :: 0 <= a < |s.main| ==> s.main[a] == Idle && s.nextTag[a] == 1000)
    && s.incomingTag == map[] && s.outgoing == map[] && s.received == map[]
    && s.commands == multiset{} && s.inbox == multiset{} && s.data == map[]
    && s.calls == map[] && s.place == map[] && s.written == []
  }

  function Items(s: State, k: Channel): seq<Item> {
    if k in s.data then s.data[k] else []
  }

  function Of(c: Command): Channel {
    Channel(c.src, c.dst, c.tag)
  }

  predicate Enabled(s: State, step: Step) {
    |s.main| == |s.nextTag| &&
    match step
    case Forward(a, _, b, _) => a < |s.main| && b < |s.main| && s.main[a] == Idle
    case TakeRequest(c) => c in s.commands && c.asks
    case Deliver(c, fd) =>
      c in s.inbox && c.dst < |s.main| && s.main[c.dst] == Idle && |Items(s, Of(c))| >= 3
      && Key(c.dst, fd) !in s.outgoing
    case Respond(b, fd) => b < |s.main| && s.main[b] == Idle && Key(b, fd) in s.outgoing
    case TakeResponse(c) => c in s.commands && !c.asks && |Items(s, Of(c))| >= 2
  }

  /** An object answers what it was asked. */
  function Reply(item: Item): Item {
    if item.Ask? then Answer(item.call) else item
  }

  /** A blocked sender goes on once its message is received. */
  function Woken(main: seq<Main>, node: nat, waits: Main): (r: seq<Main>)
    ensures |r| == |main|
  {
    if node < |main| && main[node] == waits then main[node := Idle] else main
  }

  function Apply(s: State, step: Step): State
    requires Enabled(s, step)
  {
    match step
    case Forward(a, fd, b, id) =>
      var t := s.nextTag[a];
      var (k, call) := (Channel(a, b, t), Call(a, fd, t, b, id));
      s.(incomingTag := s.incomingTag[Key(a, t) := fd], nextTag := s.nextTag[a := t + 1],
         commands := s.commands + multiset{Command(a, b, t, true)},
         data := s.data[k := Items(s, k) + [ObjectId(id), Length, Ask(call)]],
         main := s.main[a := Asking(k)],
         calls := s.calls[Key(a, t) := call], place := s.place[Key(a, t) := Asked(b)])
    case TakeRequest(c) => s.(commands := s.commands - multiset{c}, inbox := s.inbox + multiset{c})
    case Deliver(c, fd) =>
      var k := Of(c);
      s.(inbox := s.inbox - multiset{c}, data := s.data[k := Items(s, k)[3..]],
         outgoing := s.outgoing[Key(c.dst, fd) := Key(c.src, c.tag)],
         received := s.received[Key(c.dst, fd) := Items(s, k)[2]],
         main := Woken(s.main, c.src, Asking(k)),
         place := s.place[Key(c.src, c.tag) := AtObject(c.dst, fd)])
    case Respond(b, fd) =>
      var to := s.outgoing[Key(b, fd)];
      var k := Channel(b, to.node, to.n);
      var item := if Key(b, fd) in s.received then s.received[Key(b, fd)] else Length;
      s.(outgoing := s.outgoing - {Key(b, fd)},
         commands := s.commands + multiset{Command(b, to.node, to.n, false)},
         data := s.data[k := Items(s, k) + [Length, Reply(item)]],
         main := s.main[b := Answering(k)],
         place := s.place[to := Answered(b)])
    case TakeResponse(c) =>
      var (k, to) := (Of(c), Key(c.dst, c.tag));
      var fd := if to in s.incomingTag then s.incomingTag[to] else 0;
      s.(commands := s.commands - multiset{c}, data := s.data[k := Items(s, k)[2..]],
         written := s.written + [Written(c.dst, fd, Items(s, k)[1])],
         incomingTag := s.incomingTag - {to},
         main := Woken(s.main, c.src, Answering(k)),
         place := s.place - {to})
  }

  /** Nothing with this tag is under way from src to dst. */
  predicate Clear(s: State, k: Channel) {
    && Items(s, k) == []
    && s.commands[Command(k.src, k.dst, k.tag, true)] == 0
    && s.commands[Command(k.src, k.dst, k.tag, false)] == 0
    && s.inbox[Command(k.src, k.dst, k.tag, true)] == 0
  }

  predicate Runs(s: State, steps: seq<Step>, t: State)
    decreases |steps|
  {
    if steps == [] then s == t
    else Enabled(s, steps[0]) && Runs(Apply(s, steps[0]), steps[1..], t)
  }

  // ---------------------------------------------------------------- the invariant

  predicate AskedOn(s: State, k: Channel) {
    Key(k.src, k.tag) in s.place && s.place[Key(k.src, k.tag)] == Asked(k.dst)
  }

  predicate AnsweredOn(s: State, k: Channel) {
    Key(k.dst, k.tag) in s.place && s.place[Key(k.dst, k.tag)] == Answered(k.src)
  }

  /** A channel carries one request, or one response, which its sender waits for to be received,
      or nothing. */
  predicate Carries(s: State, k: Channel) {
    var (asks, answers) := (Command(k.src, k.dst, k.tag, true), Command(k.src, k.dst, k.tag, false));
    !(AskedOn(s, k) && AnsweredOn(s, k))
    && (AskedOn(s, k) ==>
      k.src < |s.main| && s.main[k.src] == Asking(k)
      && Key(k.src, k.tag) in s.calls
      && Items(s, k) == [ObjectId(s.calls[Key(k.src, k.tag)].id), Length, Ask(s.calls[Key(k.src, k.tag)])]
      && s.commands[asks] + s.inbox[asks] == 1 && s.commands[answers] == 0)
    && (AnsweredOn(s, k) ==>
      k.src < |s.main| && s.main[k.src] == Answering(k)
      && Key(k.dst, k.tag) in s.calls
      && Items(s, k) == [Length, Answer(s.calls[Key(k.dst, k.tag)])]
      && s.commands[asks] + s.inbox[asks] == 0 && s.commands[answers] == 1)
    && (!AskedOn(s, k) && !AnsweredOn(s, k) ==> Clear(s, k))
  }

  /** A call under way is known to its node by the tag. */
  predicate Known(s: State, key: Key)
    requires key in s.place
  {
    && key.node < |s.nextTag| && key.n < s.nextTag[key.node]
    && key in s.calls && s.calls[key].node == key.node && s.calls[key].tag == key.n
    && key in s.incomingTag && s.incomingTag[key] == s.calls[key].fd
    && (s.place[key].AtObject? ==>
          var at := Key(s.place[key].node, s.place[key].fd); at in s.outgoing && s.outgoing[at] == key)
  }

  /** A connection to an object stands for the call that it was opened for. */
  predicate Connected(s: State, at: Key)
    requires at in s.outgoing
  {
    var key := s.outgoing[at];
    && key in s.place && s.place[key] == AtObject(at.node, at.n)
    && key in s.calls && at in s.received && s.received[at] == Ask(s.calls[key])
  }

  /** What was written was the answer to a call of the connection it was written to. */
  predicate Right(w: Written) {
    w.item.Answer? && w.item.call.node == w.node && w.item.call.fd == w.fd
  }

  ghost predicate Inv(s: State) {
    && |s.main| == |s.nextTag|
    && (forall k: Channel :: Carries(s, k))
    && (forall key <- s.place :: Known(s, key))
    && (forall at <- s.outgoing :: Connected(s, at))
    && (forall w <- s.written :: Right(w))
    && (forall c <- s.inbox :: c.asks)
  }

  lemma InitialInv(s: State)
    requires Initial(s)
    ensures Inv(s)
  {
  }

  lemma ForwardCarries(s: State, a: nat, fd: nat, b: nat, id: nat, k: Channel)
    requires Inv(s) && Enabled(s, Forward(a, fd, b, id))
    ensures Carries(Apply(s, Forward(a, fd, b, id)), k)
  {
    assert Carries(s, k);
    assert Key(a, s.nextTag[a]) in s.place ==> Known(s, Key(a, s.nextTag[a]));
  }

  lemma ForwardInv(s: State, a: nat, fd: nat, b: nat, id: nat)
    requires Inv(s) && Enabled(s, Forward(a, fd, b, id))
    ensures Inv(Apply(s, Forward(a, fd, b, id)))
  {
    var t := Apply(s, Forward(a, fd, b, id));
    var new' := Key(a, s.nextTag[a]);
    assert new' in s.place ==> Known(s, new');
    forall k: Channel ensures Carries(t, k) {
      ForwardCarries(s, a, fd, b, id, k);
    }
    forall key | key in t.place ensures Known(t, key) {
      assert key != new' ==> Known(s, key);
    }
    forall at | at in t.outgoing ensures Connected(t, at) {
      assert Connected(s, at);
    }
  }

  lemma TakeRequestInv(s: State, c: Command)
    requires Inv(s) && Enabled(s, TakeRequest(c))
    ensures Inv(Apply(s, TakeRequest(c)))
  {
    var t := Apply(s, TakeRequest(c));
    forall k: Channel ensures Carries(t, k) {
      assert Carries(s, k);
    }
    forall key | key in t.place ensures Known(t, key) {
      assert Known(s, key);
    }
    forall at | at in t.outgoing ensures Connected(t, at) {
      assert Connected(s, at);
    }
  }

  lemma DeliverCarries(s: State, c: Command, fd: nat, k: Channel)
    requires Inv(s) && Enabled(s, Deliver(c, fd))
    ensures Carries(Apply(s, Deliver(c, fd)), k)
  {
    assert Carries(s, Of(c)) && c == Command(c.src, c.dst, c.tag, true);
    assert AskedOn(s, Of(c));
    assert Carries(s, k);
  }

  lemma DeliverInv(s: State, c: Command, fd: nat)
    requires Inv(s) && Enabled(s, Deliver(c, fd))
    ensures Inv(Apply(s, Deliver(c, fd)))
  {
    var t := Apply(s, Deliver(c, fd));
    assert Carries(s, Of(c)) && c == Command(c.src, c.dst, c.tag, true);
    assert AskedOn(s, Of(c));
    forall k: Channel ensures Carries(t, k) {
      DeliverCarries(s, c, fd, k);
    }
    forall key | key in t.place ensures Known(t, key) {
      assert Known(s, key);
    }
    forall at | at in t.outgoing ensures Connected(t, at) {
      assert at in s.outgoing ==> Connected(s, at);
    }
  }

  lemma RespondCarries(s: State, b: nat, fd: nat, k: Channel)
    requires Inv(s) && Enabled(s, Respond(b, fd))
    ensures Carries(Apply(s, Respond(b, fd)), k)
  {
    var to := s.outgoing[Key(b, fd)];
    assert Connected(s, Key(b, fd)) && Known(s, to);
    assert Carries(s, k);
  }

  lemma RespondInv(s: State, b: nat, fd: nat)
    requires Inv(s) && Enabled(s, Respond(b, fd))
    ensures Inv(Apply(s, Respond(b, fd)))
  {
    var t := Apply(s, Respond(b, fd));
    var to := s.outgoing[Key(b, fd)];
    assert Connected(s, Key(b, fd)) && Known(s, to);
    forall k: Channel ensures Carries(t, k) {
      RespondCarries(s, b, fd, k);
    }
    forall key | key in t.place ensures Known(t, key) {
      assert Known(s, key);
    }
    forall at | at in t.outgoing ensures Connected(t, at) {
      assert Connected(s, at);
    }
  }

  lemma TakeResponseInv(s: State, c: Command)
    requires Inv(s) && Enabled(s, TakeResponse(c))
    ensures Inv(Apply(s, TakeResponse(c)))
  {
    var t := Apply(s, TakeResponse(c));
    var to := Key(c.dst, c.tag);
    assert Carries(s, Of(c)) && c == Command(c.src, c.dst, c.tag, false);
    assert AnsweredOn(s, Of(c)) && Known(s, to);
    forall k: Channel ensures Carries(t, k) {
      TakeResponseCarries(s, c, k);
    }
    forall key | key in t.place ensures Known(t, key) {
      assert Known(s, key);
    }
    forall at | at in t.outgoing ensures Connected(t, at) {
      assert Connected(s, at);
    }
  }

  lemma TakeResponseCarries(s: State, c: Command, k: Channel)
    requires Inv(s) && Enabled(s, TakeResponse(c))
    ensures Carries(Apply(s, TakeResponse(c)), k)
  {
    assert Carries(s, Of(c)) && c == Command(c.src, c.dst, c.tag, false);
    assert AnsweredOn(s, Of(c)) && Known(s, Key(c.dst, c.tag));
    assert Carries(s, k);
  }

  lemma StepInv(s: State, step: Step)
    requires Inv(s) && Enabled(s, step)
    ensures Inv(Apply(s, step))
  {
    match step
    case Forward(a, fd, b, id) => ForwardInv(s, a, fd, b, id);
    case TakeRequest(c) => TakeRequestInv(s, c);
    case Deliver(c, fd) => DeliverInv(s, c, fd);
    case Respond(b, fd) => RespondInv(s, b, fd);
    case TakeResponse(c) => TakeResponseInv(s, c);
  }

  lemma {:induction false} RunInv(s: State, steps: seq<Step>, t: State)
    requires Inv(s) && Runs(s, steps, t)
    ensures Inv(t)
    decreases |steps|
  {
    if steps != [] {
      StepInv(s, steps[0]);
      RunInv(Apply(s, steps[0]), steps[1..], t);
    }
  }

  /** In every run, every response is written to the connection that issued the request, and
      answers that request. Two nodes may well give out the same tag: a blocked sender keeps the
      two uses apart. */
  lemma ResponsesComeBack(s: State, steps: seq<Step>, t: State)
    requires Initial(s) && Runs(s, steps, t)
    ensures forall w <- t.written :: Right(w)
  {
    InitialInv(s);
    RunInv(s, steps, t);
  }

  // ---------------------------------------------------------------- tags

  ghost predicate TagsBelow(s: State) {
    && |s.main| == |s.nextTag|
    && (forall key <- s.calls :: key.node < |s.nextTag| && key.n < s.nextTag[key.node])
    && forall a :: 0 <= a < |s.nextTag| ==> s.nextTag[a] >= 1000
  }

  lemma TagsStep(s: State, step: Step)
    requires TagsBelow(s) && Enabled(s, step)
    ensures TagsBelow(Apply(s, step))
  {
  }

  lemma {:induction false} TagsStayBelow(s: State, steps: seq<Step>, t: State)
    requires TagsBelow(s) && Runs(s, steps, t)
    ensures TagsBelow(t)
    decreases |steps|
  {
    if steps != [] {
      TagsStep(s, steps[0]);
      TagsStayBelow(Apply(s, steps[0]), steps[1..], t);
    }
  }

  /** No node gives out a tag twice, nor one that the program uses for other messages. */
  lemma TagsAreNew(s: State, steps: seq<Step>, t: State, a: nat, fd: nat, b: nat, id: nat)
    requires Initial(s) && Runs(s, steps, t) && Enabled(t, Forward(a, fd, b, id))
    ensures Key(a, t.nextTag[a]) !in t.calls && t.nextTag[a] >= 1000
    ensures Key(a, t.nextTag[a]) in Apply(t, Forward(a, fd, b, id)).calls
  {
    TagsStayBelow(s, steps, t);
  }

  // ---------------------------------------------------------------- every call is answered once

  /** What the caller of a call is to get. */
  function Due(call: Call): Written {
    Written(call.node, call.fd, Answer(call))
  }

  /** An entry that answers a call no longer under way, in the place it is due. */
  predicate Settles(s: State, w: Written) {
    && w.item.Answer? && w == Due(w.item.call)
    && var key := Key(w.item.call.node, w.item.call.tag);
       key in s.calls && s.calls[key] == w.item.call && key !in s.place
  }

  /** The answer to the call with this key was written once if the call is over, else not. */
  predicate AnsweredOnce(s: State, key: Key)
    requires key in s.calls
  {
    && s.calls[key].node == key.node && s.calls[key].tag == key.n
    && multiset(s.written)[Due(s.calls[key])] == if key in s.place then 0 else 1
  }

  ghost predicate Books(s: State) {
    && (forall w <- s.written :: Settles(s, w))
    && (forall key <- s.calls :: AnsweredOnce(s, key))
  }

  lemma WrittenOnce(q: seq<Written>, w: Written, v: Written)
    ensures multiset(q + [w])[v] == multiset(q)[v] + if v == w then 1 else 0
  {
    assert multiset(q + [w]) == multiset(q) + multiset{w};
  }

  lemma ForwardBooks(s: State, a: nat, fd: nat, b: nat, id: nat)
    requires Books(s) && TagsBelow(s) && Enabled(s, Forward(a, fd, b, id))
    ensures Books(Apply(s, Forward(a, fd, b, id)))
  {
    var (t, new') := (Apply(s, Forward(a, fd, b, id)), Key(a, s.nextTag[a]));
    assert new' !in s.calls;
    forall w | w in t.written ensures Settles(t, w) {
      assert Settles(s, w);
    }
    forall key | key in t.calls ensures AnsweredOnce(t, key) {
      if key == new' {
        assert forall w <- s.written :: Settles(s, w);
        assert Due(t.calls[key]) !in s.written;
      } else {
        assert AnsweredOnce(s, key);
      }
    }
  }

  lemma TakeResponseBooks(s: State, c: Command)
    requires Inv(s) && Books(s) && Enabled(s, TakeResponse(c))
    ensures Books(Apply(s, TakeResponse(c)))
  {
    var (t, to) := (Apply(s, TakeResponse(c)), Key(c.dst, c.tag));
    assert Carries(s, Of(c)) && c == Command(c.src, c.dst, c.tag, false);
    assert AnsweredOn(s, Of(c)) && Known(s, to) && AnsweredOnce(s, to);
    var call := s.calls[to];
    assert t.written == s.written + [Due(call)];
    forall w | w in t.written ensures Settles(t, w) {
      if w in s.written {
        assert Settles(s, w);
      } else {
        assert w == Due(call);
      }
    }
    forall key | key in t.calls ensures AnsweredOnce(t, key) {
      assert AnsweredOnce(s, key);
      WrittenOnce(s.written, Due(call), Due(s.calls[key]));
    }
  }

  lemma StepBooks(s: State, step: Step)
    requires Inv(s) && Books(s) && TagsBelow(s) && Enabled(s, step)
    ensures Books(Apply(s, step))
  {
    match step
    case Forward(a, fd, b, id) => ForwardBooks(s, a, fd, b, id);
    case TakeResponse(c) => TakeResponseBooks(s, c);
    case Deliver(c, fd) => DeliverBooks(s, c, fd);
    case Respond(b, fd) => RespondBooks(s, b, fd);
    case TakeRequest(c) => SameKeysBooks(s, Apply(s, step));
  }

  lemma DeliverBooks(s: State, c: Command, fd: nat)
    requires Inv(s) && Books(s) && Enabled(s, Deliver(c, fd))
    ensures Books(Apply(s, Deliver(c, fd)))
  {
    assert Carries(s, Of(c)) && c == Command(c.src, c.dst, c.tag, true);
    assert AskedOn(s, Of(c));
    SameKeysBooks(s, Apply(s, Deliver(c, fd)));
  }

  lemma RespondBooks(s: State, b: nat, fd: nat)
    requires Inv(s) && Books(s) && Enabled(s, Respond(b, fd))
    ensures Books(Apply(s, Respond(b, fd)))
  {
    assert Connected(s, Key(b, fd));
    SameKeysBooks(s, Apply(s, Respond(b, fd)));
  }

  lemma SameKeysBooks(s: State, t: State)
    requires Books(s) && t.calls == s.calls && t.written == s.written && t.place.Keys == s.place.Keys
    ensures Books(t)
  {
    forall w | w in t.written ensures Settles(t, w) {
      assert Settles(s, w);
    }
    forall key | key in t.calls ensures AnsweredOnce(t, key) {
      assert AnsweredOnce(s, key);
    }
  }

  lemma {:induction false} RunBooks(s: State, steps: seq<Step>, t: State)
    requires Inv(s) && Books(s) && TagsBelow(s) && Runs(s, steps, t)
    ensures Books(t)
    decreases |steps|
  {
    if steps != [] {
      StepBooks(s, steps[0]);
      StepInv(s, steps[0]);
      TagsStep(s, steps[0]);
      RunBooks(Apply(s, steps[0]), steps[1..], t);
    }
  }

  /** In every run, the answer to a call that was given a tag and is no longer under way has been
      written exactly once, to the connection that issued it; while the call is under way nothing
      has been written for it. Nothing else is ever written. */
  lemma CallsAnsweredOnce(s: State, steps: seq<Step>, t: State)
    requires Initial(s) && Runs(s, steps, t)
    ensures forall key <- t.calls ::
      multiset(t.written)[Written(t.calls[key].node, t.calls[key].fd, Answer(t.calls[key]))]
        == (if key in t.place then 0 else 1)
    ensures forall w <- t.written :: exists key ::
      key in t.calls && key !in t.place && w == Written(t.calls[key].node, t.calls[key].fd, Answer(t.calls[key]))
  {
    InitialInv(s);
    RunBooks(s, steps, t);
    forall key | key in t.calls
      ensures multiset(t.written)[Written(t.calls[key].node, t.calls[key].fd, Answer(t.calls[key]))]
           == if key in t.place then 0 else 1
    {
      assert AnsweredOnce(t, key);
    }
    forall w | w in t.written
      ensures exists key ::
        key in t.calls && key !in t.place && w == Written(t.calls[key].node, t.calls[key].fd, Answer(t.calls[key]))
    {
      assert Settles(t, w);
      var key := Key(w.item.call.node, w.item.call.tag);
      assert key in t.calls && key !in t.place;
    }
  }

  lemma {:induction false} CallsStay(s: State, steps: seq<Step>, t: State, key: Key)
    requires TagsBelow(s) && Runs(s, steps, t) && key in s.calls
    ensures key in t.calls && t.calls[key] == s.calls[key]
    decreases |steps|
  {
    if steps != [] {
      TagsStep(s, steps[0]);
      CallsStay(Apply(s, steps[0]), steps[1..], t, key);
    }
  }

  /** Every request a node forwards is such a call: whatever happens after that, its answer is
      written once it is no longer under way, and not before. */
  lemma ForwardedAnsweredOnce(s: State, steps: seq<Step>, m: State, a: nat, fd: nat, b: nat, id: nat,
                              more: seq<Step>, t: State)
    requires Initial(s) && Runs(s, steps, m) && Enabled(m, Forward(a, fd, b, id))
    requires Runs(Apply(m, Forward(a, fd, b, id)), more, t)
    ensures var tag := m.nextTag[a];
      multiset(t.written)[Written(a, fd, Answer(Call(a, fd, tag, b, id)))]
        == (if Key(a, tag) in t.place then 0 else 1)
  {
    InitialInv(s);
    RunInv(s, steps, m);
    RunBooks(s, steps, m);
    TagsStayBelow(s, steps, m);
    var (step, key) := (Forward(a, fd, b, id), Key(a, m.nextTag[a]));
    StepInv(m, step);
    StepBooks(m, step);
    TagsStep(m, step);
    CallsStay(Apply(m, step), more, t, key);
    RunBooks(Apply(m, step), more, t);
    assert AnsweredOnce(t, key);
  }
}
