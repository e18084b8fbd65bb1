/** Broadcast of events between nodes over one append-only stream.

    Publishing on a node's fanout bus delivers locally and then, as a separate
    step that may never happen, forwards to the stream. Every node reads the
    stream through its own consumer group in batches, re-injects what other
    nodes produced, and skips its own messages and kinds it cannot decode.
    Nodes crash and restart at any moment: a restart resumes after the last
    batch READ, because the consumer only ever asks for new messages (">"). For
    the same reason a batch is gone if the reply that carries it is lost. */
module EventStream {
  import opened Common

  type NodeId = nat
  type Kind = nat
  type Pub = nat   // a publication; its number is its place in `pubs`

  datatype PubInfo = PubInfo(owner: NodeId, kind: Kind)

  datatype Msg = Msg(origin: NodeId, pub: Pub, kind: Kind)

  /** `local` and `remote` are the node's delivery logs: its own publications,
      and the stream positions it re-injected. `lost` are positions read by a
      batch that a crash cut short or whose reply never arrived. */
  datatype Node = Node(
    alive: bool,
    forwarder: bool,
    decoders: set<Kind>,
    joined: bool,
    start: nat,
    read: nat,
    handled: nat,
    local: seq<Pub>,
    pending: set<Pub>,
    remote: seq<nat>,
    lost: set<nat>)

  datatype State = State(nodes: map<NodeId, Node>, pubs: seq<PubInfo>, stream: seq<Msg>, forwards: nat)

  datatype Event =
    | Publish(n: NodeId, kind: Kind)            // inner.Publish
    | Forward(n: NodeId, p: Pub, applied: bool) // the forwarder, if installed; an error of XADD is only logged
    | SetForwarder(n: NodeId, on: bool)
    | Join(n: NodeId)                           // ensureGroup at the stream tail
    | Read(n: NodeId, count: nat, ok: bool)     // XREADGROUP ">" moves the cursor; its reply may be lost
    | Handle(n: NodeId)                         // handle and XACK one message of the batch
    | Crash(n: NodeId)
    | Restart(n: NodeId)

  predicate Enabled(s: State, e: Event) {
    e.n in s.nodes &&
    var x := s.nodes[e.n];
    match e
    case Publish(_, _) => x.alive
    case Forward(_, p, _) => x.alive && p in x.pending && p < |s.pubs|
    case SetForwarder(_, _) => x.alive
    case Join(_) => x.alive
    case Read(_, count, _) => x.alive && x.joined && x.handled == x.read && 1 <= count <= 100 && x.read + count <= |s.stream|
    case Handle(_) => x.alive && x.handled < x.read && x.handled < |s.stream|
    case Crash(_) => x.alive
    case Restart(_) => !x.alive
  }

  /** `Consumer.handle` on the next message of the batch. */
  function HandleNext(n: NodeId, x: Node, stream: seq<Msg>): Node
    requires x.handled < |stream|
  {
    var m := stream[x.handled];
    x.(handled := x.handled + 1,
       remote := if m.origin == n || m.kind !in x.decoders then x.remote else x.remote + [x.handled])
  }

  function Apply(s: State, e: Event): State
    requires Enabled(s, e)
  {
    var n, x := e.n, s.nodes[e.n];
    match e
    case Publish(_, kind) =>
      s.(pubs := s.pubs + [PubInfo(n, kind)],
         nodes := s.nodes[n := x.(local := x.local + [|s.pubs|], pending := x.pending + {|s.pubs|})])
    case Forward(_, p, applied) =>
      var nodes := s.nodes[n := x.(pending := x.pending - {p})];
      if x.forwarder && applied then
        s.(nodes := nodes, stream := s.stream + [Msg(n, p, s.pubs[p].kind)], forwards := s.forwards + 1)
      else s.(nodes := nodes)
    case SetForwarder(_, on) => s.(nodes := s.nodes[n := x.(forwarder := on)])
    case Join(_) =>
      if x.joined then s
      else s.(nodes := s.nodes[n := x.(joined := true, start := |s.stream|, read := |s.stream|, handled := |s.stream|)])
    case Read(_, count, ok) =>
      s.(nodes := s.nodes[n := if ok then x.(read := x.read + count)
                               else x.(read := x.read + count, handled := x.read + count, lost := x.lost + Span(x.read, x.read + count))])
    case Handle(_) => s.(nodes := s.nodes[n := HandleNext(n, x, s.stream)])
    case Crash(_) => s.(nodes := s.nodes[n := x.(alive := false)])
    case Restart(_) =>
      s.(nodes := s.nodes[n := x.(alive := true, pending := {}, handled := x.read,
                                  lost := x.lost + Span(x.handled, x.read))])
  }

  function Span(a: nat, b: nat): (r: set<nat>)
    ensures forall i :: i in r <==> a <= i < b
    decreases b - a
  {
    if a >= b then {} else {a} + Span(a + 1, b)
  }

  predicate Fresh(x: Node) {
    && x.alive && !x.joined && x.start == x.read == x.handled == 0
    && x.local == [] && x.pending == {} && x.remote == [] && x.lost == {}
  }

  predicate Init(s: State) {
    s.pubs == [] && s.stream == [] && s.forwards == 0 && forall n :: n in s.nodes ==> Fresh(s.nodes[n])
  }

  predicate ValidRun(s: State, es: seq<Event>)
    decreases |es|
  {
    |es| == 0 || (Enabled(s, es[0]) && ValidRun(Apply(s, es[0]), es[1..]))
  }

  function Run(s: State, es: seq<Event>): State
    requires ValidRun(s, es)
    decreases |es|
  {
    if |es| == 0 then s else Run(Apply(s, es[0]), es[1..])
  }

  // ------------------------------------------------------------ invariant

  /** Position `i` is one this node must have re-injected by now. */
  predicate Due(n: NodeId, x: Node, stream: seq<Msg>, i: nat) {
    && i < |stream| && x.start <= i < x.handled && i !in x.lost
    && stream[i].origin != n && stream[i].kind in x.decoders
  }

  ghost predicate RemoteInv(n: NodeId, x: Node, stream: seq<Msg>) {
    && x.start <= x.handled <= x.read <= |stream| && (!x.joined ==> x.read == x.start)
    && StrictlyIncreasing(x.remote)
    && (forall i: nat :: i in x.remote <==> Due(n, x, stream, i))
    && (forall i: nat :: i in x.lost ==> i < x.handled)
  }

  ghost predicate LocalInv(n: NodeId, x: Node, pubs: seq<PubInfo>) {
    && StrictlyIncreasing(x.local)
    && (forall p: Pub :: p in x.local <==> p < |pubs| && pubs[p].owner == n)
    && (forall p: Pub :: p in x.pending ==> p in x.local)
  }

  ghost predicate NodesInv(s: State) {
    forall n :: n in s.nodes ==> NodeInv(n, s.nodes[n], s.pubs, s.stream)
  }

  ghost predicate StreamInv(s: State) {
    && s.forwards == |s.stream|
    && (forall i :: 0 <= i < |s.stream| ==>
          s.stream[i].pub < |s.pubs| && s.pubs[s.stream[i].pub] == PubInfo(s.stream[i].origin, s.stream[i].kind))
    && (forall i, j :: 0 <= i < j < |s.stream| ==> s.stream[i].pub != s.stream[j].pub)
    && (forall i :: 0 <= i < |s.stream| && s.stream[i].origin in s.nodes ==>
          s.stream[i].pub !in s.nodes[s.stream[i].origin].pending)
  }

  ghost predicate Inv(s: State) { NodesInv(s) && StreamInv(s) }

  lemma HandleKeeps(n: NodeId, x: Node, stream: seq<Msg>)
    requires RemoteInv(n, x, stream) && x.handled < x.read
    ensures RemoteInv(n, HandleNext(n, x, stream), stream)
  {
    var y := HandleNext(n, x, stream);
    assert forall i :: i in y.remote <==> i in x.remote || (i == x.handled && |y.remote| > |x.remote|);
    assert forall i :: 0 <= i < |x.remote| ==> x.remote[i] in x.remote;
  }

  lemma AppendKeepsRemote(n: NodeId, x: Node, stream: seq<Msg>, m: Msg)
    requires RemoteInv(n, x, stream)
    ensures RemoteInv(n, x, stream + [m])
  {
  }

  lemma PublishKeepsLocal(n: NodeId, x: Node, pubs: seq<PubInfo>, owner: NodeId, kind: Kind)
    requires LocalInv(n, x, pubs)
    ensures n != owner ==> LocalInv(n, x, pubs + [PubInfo(owner, kind)])
    ensures n == owner ==>
      LocalInv(n, x.(local := x.local + [|pubs|], pending := x.pending + {|pubs|}), pubs + [PubInfo(owner, kind)])
  {
    assert forall i :: 0 <= i < |x.local| ==> x.local[i] in x.local;
  }

  ghost predicate NodeInv(n: NodeId, x: Node, pubs: seq<PubInfo>, stream: seq<Msg>) {
    RemoteInv(n, x, stream) && LocalInv(n, x, pubs)
  }

  lemma RestartKeeps(n: NodeId, x: Node, pubs: seq<PubInfo>, stream: seq<Msg>)
    requires NodeInv(n, x, pubs, stream)
    ensures NodeInv(n, x.(alive := true, pending := {}, handled := x.read, lost := x.lost + Span(x.handled, x.read)), pubs, stream)
  {
  }

  lemma LostReplyKeeps(n: NodeId, x: Node, pubs: seq<PubInfo>, stream: seq<Msg>, count: nat)
    requires NodeInv(n, x, pubs, stream) && x.joined && x.handled == x.read && x.read + count <= |stream|
    ensures NodeInv(n, x.(read := x.read + count, handled := x.read + count, lost := x.lost + Span(x.read, x.read + count)), pubs, stream)
  {
  }

  lemma JoinKeeps(n: NodeId, x: Node, pubs: seq<PubInfo>, stream: seq<Msg>)
    requires NodeInv(n, x, pubs, stream) && !x.joined
    ensures NodeInv(n, x.(joined := true, start := |stream|, read := |stream|, handled := |stream|), pubs, stream)
  {
    assert x.remote != [] ==> x.remote[0] in x.remote;
  }

  lemma OwnPublish(s: State, n: NodeId, kind: Kind)
    requires Inv(s) && Enabled(s, Publish(n, kind))
    ensures var t := Apply(s, Publish(n, kind)); NodeInv(n, t.nodes[n], t.pubs, t.stream)
  {
    assert NodeInv(n, s.nodes[n], s.pubs, s.stream);
    PublishKeepsLocal(n, s.nodes[n], s.pubs, n, kind);
  }

  lemma OwnForward(s: State, n: NodeId, p: Pub, applied: bool)
    requires Inv(s) && Enabled(s, Forward(n, p, applied))
    ensures var t := Apply(s, Forward(n, p, applied)); NodeInv(n, t.nodes[n], t.pubs, t.stream)
  {
    assert NodeInv(n, s.nodes[n], s.pubs, s.stream);
    AppendKeepsRemote(n, s.nodes[n], s.stream, Msg(n, p, s.pubs[p].kind));
  }

  /** What an event does to the node it names. */
  lemma OwnStep(s: State, e: Event)
    requires Inv(s) && Enabled(s, e)
    ensures var t := Apply(s, e); e.n in t.nodes && NodeInv(e.n, t.nodes[e.n], t.pubs, t.stream)
  {
    var n, x := e.n, s.nodes[e.n];
    assert NodeInv(n, x, s.pubs, s.stream);
    match e
    case Publish(_, kind) => OwnPublish(s, n, kind);
    case Forward(_, p, applied) => OwnForward(s, n, p, applied);
    case Handle(_) => HandleKeeps(n, x, s.stream);
    case Join(_) => if !x.joined { JoinKeeps(n, x, s.pubs, s.stream); }
    case Restart(_) => RestartKeeps(n, x, s.pubs, s.stream);
    case Read(_, count, ok) => if !ok { LostReplyKeeps(n, x, s.pubs, s.stream, count); }
    case _ =>
  }

  /** Any other node only sees the publications and the stream grow. */
  lemma OtherStep(s: State, e: Event, n: NodeId)
    requires Inv(s) && Enabled(s, e) && n in s.nodes && n != e.n
    ensures var t := Apply(s, e); n in t.nodes && NodeInv(n, t.nodes[n], t.pubs, t.stream)
  {
    var x := s.nodes[n];
    assert NodeInv(n, x, s.pubs, s.stream);
    match e
    case Publish(owner, kind) => PublishKeepsLocal(n, x, s.pubs, owner, kind);
    case Forward(owner, p, _) => AppendKeepsRemote(n, x, s.stream, Msg(owner, p, s.pubs[p].kind));
    case _ =>
  }

  lemma NodesStep(s: State, e: Event)
    requires Inv(s) && Enabled(s, e)
    ensures NodesInv(Apply(s, e))
  {
    forall n | n in s.nodes ensures NodeInv(n, Apply(s, e).nodes[n], Apply(s, e).pubs, Apply(s, e).stream) {
      if n == e.n { OwnStep(s, e); } else { OtherStep(s, e, n); }
    }
    assert Apply(s, e).nodes.Keys == s.nodes.Keys;
  }

  lemma StreamStep(s: State, e: Event)
    requires Inv(s) && Enabled(s, e)
    ensures StreamInv(Apply(s, e))
  {
    if e.Forward? {
      assert LocalInv(e.n, s.nodes[e.n], s.pubs);
    }
  }

  lemma {:induction false} RunKeepsInv(s: State, es: seq<Event>)
    requires Inv(s) && ValidRun(s, es)
    ensures Inv(Run(s, es))
    decreases |es|
  {
    if |es| != 0 {
      NodesStep(s, es[0]);
      StreamStep(s, es[0]);
      RunKeepsInv(Apply(s, es[0]), es[1..]);
    }
  }

  // ------------------------------------------------------------- theorems

  /** How often node `n` delivered publication `p` to its local subscribers. */
  function Deliveries(n: NodeId, x: Node, stream: seq<Msg>, p: Pub): nat
    requires forall k :: 0 <= k < |x.remote| ==> x.remote[k] < |stream|
  {
    Count(p, x.local) + Count(p, RemotePubs(x.remote, stream))
  }

  function RemotePubs(remote: seq<nat>, stream: seq<Msg>): seq<Pub>
    requires forall k :: 0 <= k < |remote| ==> remote[k] < |stream|
  {
    seq(|remote|, k requires 0 <= k < |remote| => stream[remote[k]].pub)
  }

  lemma RemoteBounded(n: NodeId, x: Node, stream: seq<Msg>)
    requires RemoteInv(n, x, stream)
    ensures forall k :: 0 <= k < |x.remote| ==> x.remote[k] < |stream|
  {
    forall k | 0 <= k < |x.remote| ensures x.remote[k] < |stream| { assert x.remote[k] in x.remote; }
  }

  lemma RemoteCount(s: State, n: NodeId, i: nat)
    requires Inv(s) && n in s.nodes && i < |s.stream|
    requires forall k :: 0 <= k < |s.nodes[n].remote| ==> s.nodes[n].remote[k] < |s.stream|
    ensures Count(s.stream[i].pub, RemotePubs(s.nodes[n].remote, s.stream)) ==
            if Due(n, s.nodes[n], s.stream, i) then 1 else 0
  {
    var x := s.nodes[n];
    var rp := RemotePubs(x.remote, s.stream);
    forall a, b | 0 <= a < b < |rp| ensures rp[a] != rp[b] {
      assert x.remote[a] < x.remote[b];
    }
    CountDistinct(s.stream[i].pub, rp);
    if Due(n, x, s.stream, i) {
      var k :| 0 <= k < |x.remote| && x.remote[k] == i;
      assert rp[k] == s.stream[i].pub;
    }
    if s.stream[i].pub in rp {
      var k :| 0 <= k < |rp| && rp[k] == s.stream[i].pub;
      assert x.remote[k] == i && x.remote[k] in x.remote;
    }
  }

  /** In every run: a message on the stream was delivered exactly once at its
      origin, and at any other node exactly once if the node's group existed,
      the node has handled that position, no crash cut that batch short and the
      node decodes the kind; otherwise not at all. */
  lemma EveryMessageOncePerNode(s0: State, es: seq<Event>, n: NodeId, i: nat)
    requires Init(s0) && ValidRun(s0, es)
    requires n in Run(s0, es).nodes && i < |Run(s0, es).stream|
    ensures var s := Run(s0, es);
      var x, m := s.nodes[n], s.stream[i];
      && (forall k :: 0 <= k < |x.remote| ==> x.remote[k] < |s.stream|)
      && Deliveries(n, x, s.stream, m.pub) ==
           (if n == m.origin then 1 else if Due(n, x, s.stream, i) then 1 else 0)
  {
    RunKeepsInv(s0, es);
    var s := Run(s0, es);
    var x, m := s.nodes[n], s.stream[i];
    RemoteBounded(n, x, s.stream);
    RemoteCount(s, n, i);
    CountDistinct(m.pub, x.local);
  }

  lemma {:induction false} StartIsFixed(s: State, es: seq<Event>, n: NodeId)
    requires ValidRun(s, es) && n in s.nodes && s.nodes[n].joined
    ensures n in Run(s, es).nodes && Run(s, es).nodes[n].start == s.nodes[n].start
    decreases |es|
  {
    if |es| != 0 { StartIsFixed(Apply(s, es[0]), es[1..], n); }
  }

  /** A group begins at the tail of the stream: what was there when the node joined
      is never re-injected at it, whatever follows. */
  lemma NothingBeforeJoining(s: State, n: NodeId, es: seq<Event>, i: nat)
    requires Inv(s) && Enabled(s, Join(n)) && !s.nodes[n].joined && ValidRun(Apply(s, Join(n)), es) && i < |s.stream|
    ensures n in Run(Apply(s, Join(n)), es).nodes && i !in Run(Apply(s, Join(n)), es).nodes[n].remote
  {
    var t := Apply(s, Join(n));
    NodesStep(s, Join(n));
    StreamStep(s, Join(n));
    RunKeepsInv(t, es);
    StartIsFixed(t, es, n);
    var u := Run(t, es);
    assert NodeInv(n, u.nodes[n], u.pubs, u.stream);
  }

  /** In every run the stream grows only by forwards of local publications,
      each publication is forwarded at most once, and re-injected messages come
      in stream order: nothing a node re-injects is ever forwarded again. */
  lemma NoEcho(s0: State, es: seq<Event>)
    requires Init(s0) && ValidRun(s0, es)
    ensures var s := Run(s0, es);
      && |s.stream| == s.forwards
      && (forall i, j :: 0 <= i < j < |s.stream| ==> s.stream[i].pub != s.stream[j].pub)
      && (forall i :: 0 <= i < |s.stream| ==>
            s.stream[i].pub < |s.pubs| && s.pubs[s.stream[i].pub].owner == s.stream[i].origin)
      && (forall n :: n in s.nodes ==> StrictlyIncreasing(s.nodes[n].remote))
  {
    RunKeepsInv(s0, es);
  }

  /** No reply is lost and no node restarts in the middle of a batch. */
  predicate Uninterrupted(s: State, es: seq<Event>)
    requires ValidRun(s, es)
    decreases |es|
  {
    |es| == 0 || (!Interrupts(s, es[0]) && Uninterrupted(Apply(s, es[0]), es[1..]))
  }

  predicate Interrupts(s: State, e: Event)
    requires Enabled(s, e)
  {
    (e.Read? && !e.ok) || (e.Restart? && s.nodes[e.n].handled < s.nodes[e.n].read)
  }

  ghost predicate NothingLost(s: State) { forall n :: n in s.nodes ==> s.nodes[n].lost == {} }

  function LostBy(s: State, e: Event): set<nat>
    requires Enabled(s, e)
  {
    var x := s.nodes[e.n];
    if e.Read? && !e.ok then Span(x.read, x.read + e.count) else if e.Restart? then Span(x.handled, x.read) else {}
  }

  lemma OwnLoss(s: State, e: Event)
    requires Enabled(s, e)
    ensures var t := Apply(s, e); e.n in t.nodes && t.nodes[e.n].lost == s.nodes[e.n].lost + LostBy(s, e)
    ensures LostBy(s, e) == {} <==> !Interrupts(s, e)
  {
    var x := s.nodes[e.n];
    if e.Read? && !e.ok { assert x.read in LostBy(s, e); }
    if e.Restart? && x.handled < x.read { assert x.handled in LostBy(s, e); }
  }

  lemma OtherLoss(s: State, e: Event, n: NodeId)
    requires Enabled(s, e) && n != e.n
    ensures var t := Apply(s, e); (n in t.nodes <==> n in s.nodes) && (n in s.nodes ==> t.nodes[n] == s.nodes[n])
  {
  }

  lemma LossStep(s: State, e: Event)
    requires Enabled(s, e)
    ensures NothingLost(Apply(s, e)) <==> NothingLost(s) && !Interrupts(s, e)
  {
    OwnLoss(s, e);
    var t := Apply(s, e);
    forall n | n != e.n ensures (n in t.nodes <==> n in s.nodes) && (n in s.nodes ==> t.nodes[n] == s.nodes[n]) {
      OtherLoss(s, e, n);
    }
  }

  /** No position is ever skipped exactly if the run is uninterrupted. */
  lemma {:induction false} NothingLostIff(s: State, es: seq<Event>)
    requires Inv(s) && ValidRun(s, es)
    ensures NothingLost(Run(s, es)) <==> NothingLost(s) && Uninterrupted(s, es)
    decreases |es|
  {
    if |es| != 0 {
      LossStep(s, es[0]);
      NodesStep(s, es[0]);
      StreamStep(s, es[0]);
      NothingLostIff(Apply(s, es[0]), es[1..]);
    }
  }

  /** In an uninterrupted run, a node whose group was created on the empty stream
      has delivered every foreign message it decodes and has handled, once. */
  lemma UninterruptedIsComplete(s0: State, es: seq<Event>, n: NodeId, i: nat)
    requires Init(s0) && ValidRun(s0, es) && Uninterrupted(s0, es)
    requires n in Run(s0, es).nodes && i < |Run(s0, es).stream|
    requires var x, m := Run(s0, es).nodes[n], Run(s0, es).stream[i];
      x.start == 0 && i < x.handled && m.origin != n && m.kind in x.decoders
    ensures var s := Run(s0, es);
      && (forall k :: 0 <= k < |s.nodes[n].remote| ==> s.nodes[n].remote[k] < |s.stream|)
      && Deliveries(n, s.nodes[n], s.stream, s.stream[i].pub) == 1
  {
    NothingLostIff(s0, es);
    EveryMessageOncePerNode(s0, es, n, i);
  }

  /** A crash in the middle of a batch loses its rest for good: node 1 reads a
      message of node 0, crashes before handling it, and never delivers it. */
  lemma CrashLosesBatch(x: Node)
    requires Fresh(x) && x.forwarder && x.decoders == {0}
    ensures var s0 := State(map[0 := x, 1 := x], [], [], 0);
      var es := [Join(1), Publish(0, 0), Forward(0, 0, true), Read(1, 1, true), Crash(1), Restart(1)];
      && Init(s0) && ValidRun(s0, es)
      && var s := Run(s0, es);
         && |s.stream| == 1 && s.nodes[1].lost == {0} && s.nodes[1].alive && s.nodes[1].handled == 1
         && s.nodes[1].remote == [] && Deliveries(1, s.nodes[1], s.stream, 0) == 0
  {
    var s3 := OneForwarded(x);
    var s4 := Apply(s3, Read(1, 1, true));
    var s5 := Apply(s4, Crash(1));
    var s6 := Apply(s5, Restart(1));
    assert s6.nodes[1].lost == {0};
    RunFirst(s5, Restart(1), []);
    RunFirst(s4, Crash(1), [Restart(1)]);
    RunFirst(s3, Read(1, 1, true), [Crash(1), Restart(1)]);
    ForwardsOne(x, [Read(1, 1, true), Crash(1), Restart(1)]);
  }

  /** So does a reply that never arrives, without any crash. */
  lemma LostReplyLosesBatch(x: Node)
    requires Fresh(x) && x.forwarder && x.decoders == {0}
    ensures var s0 := State(map[0 := x, 1 := x], [], [], 0);
      var es := [Join(1), Publish(0, 0), Forward(0, 0, true), Read(1, 1, false)];
      && Init(s0) && ValidRun(s0, es)
      && var s := Run(s0, es);
         && |s.stream| == 1 && s.nodes[1].lost == {0} && s.nodes[1].handled == 1
         && s.nodes[1].remote == [] && Deliveries(1, s.nodes[1], s.stream, 0) == 0
  {
    var s3 := OneForwarded(x);
    assert Apply(s3, Read(1, 1, false)).nodes[1].lost == {0};
    RunFirst(s3, Read(1, 1, false), []);
    ForwardsOne(x, [Read(1, 1, false)]);
  }

  /** Node 1 has joined and node 0 has published and forwarded one event. */
  function OneForwarded(x: Node): State {
    State(map[0 := x.(local := [0]), 1 := x.(joined := true)], [PubInfo(0, 0)], [Msg(0, 0, 0)], 1)
  }

  function OnePublished(x: Node): State {
    State(map[0 := x.(local := [0], pending := {0}), 1 := x.(joined := true)], [PubInfo(0, 0)], [], 0)
  }

  lemma JoinsAndPublishes(x: Node)
    requires Fresh(x)
    ensures var s0 := State(map[0 := x, 1 := x], [], [], 0);
      && Enabled(s0, Join(1)) && Enabled(Apply(s0, Join(1)), Publish(0, 0))
      && Apply(Apply(s0, Join(1)), Publish(0, 0)) == OnePublished(x)
  {
    var s0 := State(map[0 := x, 1 := x], [], [], 0);
    assert Apply(s0, Join(1)) == s0.(nodes := map[0 := x, 1 := x.(joined := true)]);
    assert x.local + [0] == [0] && x.pending + {0} == {0};
  }

  lemma ForwardStep(x: Node)
    requires Fresh(x) && x.forwarder
    ensures Enabled(OnePublished(x), Forward(0, 0, true)) && Apply(OnePublished(x), Forward(0, 0, true)) == OneForwarded(x)
  {
    assert {0} - {0} == x.pending;
    assert Apply(OnePublished(x), Forward(0, 0, true)).nodes == OneForwarded(x).nodes;
  }

  lemma ForwardsOne(x: Node, es: seq<Event>)
    requires Fresh(x) && x.forwarder && ValidRun(OneForwarded(x), es)
    ensures var s0, all := State(map[0 := x, 1 := x], [], [], 0), [Join(1), Publish(0, 0), Forward(0, 0, true)] + es;
      ValidRun(s0, all) && Run(s0, all) == Run(OneForwarded(x), es)
  {
    var s0 := State(map[0 := x, 1 := x], [], [], 0);
    JoinsAndPublishes(x);
    ForwardStep(x);
    RunFirst(OnePublished(x), Forward(0, 0, true), es);
    RunFirst(Apply(s0, Join(1)), Publish(0, 0), [Forward(0, 0, true)] + es);
    RunFirst(s0, Join(1), [Publish(0, 0)] + ([Forward(0, 0, true)] + es));
    assert [Join(1)] + ([Publish(0, 0)] + ([Forward(0, 0, true)] + es)) == [Join(1), Publish(0, 0), Forward(0, 0, true)] + es;
  }

  lemma RunFirst(s: State, e: Event, es: seq<Event>)
    requires Enabled(s, e) && ValidRun(Apply(s, e), es)
    ensures ValidRun(s, [e] + es) && Run(s, [e] + es) == Run(Apply(s, e), es)
  {
    assert ([e] + es)[1..] == es;
  }

  // ------------------------------------------------- the fanout bus itself

  datatype Effect = Delivered(ev: Pub) | Forwarded(ev: Pub)

  /** The decorator over the in-process bus: its effects are a log. */
  class Fanout {
    var forward: bool
    var effects: seq<Effect>

    constructor ()
      ensures !forward && effects == []
    {
      forward, effects := false, [];
    }

    method SetForwarder(on: bool)
      modifies this`forward
      ensures forward == on
    {
      forward := on;
    }

    method Publish(ev: Pub)
      modifies this`effects
      ensures effects == old(effects) + if forward then [Delivered(ev), Forwarded(ev)] else [Delivered(ev)]
    {
      effects := effects + [Delivered(ev)];
      if forward { effects := effects + [Forwarded(ev)]; }
    }

    method PublishLocal(ev: Pub)
      modifies this`effects
      ensures effects == old(effects) + [Delivered(ev)]
    {
      effects := effects + [Delivered(ev)];
    }
  }

  // ---------------------------------------------------- the consumer's loop

  /** Positions in [a, b) that a node re-injects. */
  function Wanted(n: NodeId, decoders: set<Kind>, stream: seq<Msg>, a: nat, b: nat): seq<nat>
    requires b <= |stream|
    decreases b
  {
    if b <= a then []
    else
      var m := stream[b - 1];
      Wanted(n, decoders, stream, a, b - 1) + if m.origin != n && m.kind in decoders then [b - 1] else []
  }

  function HandleMany(n: NodeId, x: Node, stream: seq<Msg>, k: nat): (y: Node)
    requires x.handled + k <= |stream|
    ensures y.handled == x.handled + k
  {
    if k == 0 then x else HandleNext(n, HandleMany(n, x, stream, k - 1), stream)
  }

  /** The machine's Handle steps for a batch re-inject what the loop does. */
  lemma {:induction false} HandlingIsWanted(n: NodeId, x: Node, stream: seq<Msg>, k: nat)
    requires x.handled + k <= |stream|
    ensures HandleMany(n, x, stream, k) ==
      x.(handled := x.handled + k, remote := x.remote + Wanted(n, x.decoders, stream, x.handled, x.handled + k))
  {
    if k == 0 {
      assert x.remote + [] == x.remote;
    } else {
      HandlingIsWanted(n, x, stream, k - 1);
    }
  }

  class Consumer {
    const origin: NodeId
    const decoders: set<Kind>
    const local: Fanout
    var handled: nat

    constructor (origin: NodeId, decoders: set<Kind>, local: Fanout, tail: nat)
      ensures this.origin == origin && this.decoders == decoders && this.local == local && handled == tail
    {
      this.origin, this.decoders, this.local, handled := origin, decoders, local, tail;
    }

    /** `handle`: skips this node's own messages and kinds without a decoder,
        and never forwards. */
    method Handle(m: Msg)
      modifies local`effects
      ensures local.effects == old(local.effects) + Reinjected(origin, decoders, m)
    {
      if m.origin == origin { return; }
      if m.kind !in decoders { return; }
      local.PublishLocal(m.pub);
    }

    /** One batch of the loop in `Run`: all positions up to `to`. */
    method HandleBatch(stream: seq<Msg>, to: nat)
      requires handled <= to <= |stream|
      modifies this`handled, local`effects
      ensures handled == to
      ensures local.effects == old(local.effects) + EffectsAt(Wanted(origin, decoders, stream, old(handled), to), stream)
    {
      ghost var start := handled;
      while handled < to
        invariant start <= handled <= to
        invariant local.effects == old(local.effects) + EffectsAt(Wanted(origin, decoders, stream, start, handled), stream)
      {
        WantedMore(origin, decoders, stream, start, handled, old(local.effects));
        Handle(stream[handled]);
        handled := handled + 1;
      }
    }
  }

  function EffectsAt(positions: seq<nat>, stream: seq<Msg>): seq<Effect> {
    if |positions| == 0 then []
    else
      var last := positions[|positions| - 1];
      EffectsAt(positions[..|positions| - 1], stream) + if last < |stream| then [Delivered(stream[last].pub)] else []
  }

  function Reinjected(n: NodeId, decoders: set<Kind>, m: Msg): seq<Effect> {
    if m.origin != n && m.kind in decoders then [Delivered(m.pub)] else []
  }

  lemma WantedMore(n: NodeId, decoders: set<Kind>, stream: seq<Msg>, a: nat, b: nat, before: seq<Effect>)
    requires a <= b < |stream|
    ensures before + EffectsAt(Wanted(n, decoders, stream, a, b + 1), stream) ==
            (before + EffectsAt(Wanted(n, decoders, stream, a, b), stream)) + Reinjected(n, decoders, stream[b])
  {
    var wanted, m := Wanted(n, decoders, stream, a, b), stream[b];
    if m.origin != n && m.kind in decoders {
      assert (wanted + [b])[..|wanted|] == wanted;
    } else {
      assert wanted + [] == wanted;
    }
  }
}
