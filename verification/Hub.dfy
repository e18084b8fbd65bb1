/** The connection hub: the set of registered connections, the index from
    characters to connections, and the closing of send channels. A connection
    is named by a number; its CharacterID and the closing of its channel are
    kept in `charOf` and `closed`. */
module Hub {
  import opened Common

  type Conn = nat

  /** `seen` holds the connections ever registered; `logins` the characters that
      came online, `logouts` the calls of the logout handler; `panicked` tells
      whether a closed channel was sent to or closed again. */
  datatype State = State(
    clients: set<Conn>,
    byChar: map<int, Conn>,
    charOf: map<Conn, int>,
    closed: seq<Conn>,
    seen: set<Conn>,
    logins: seq<int>,
    logouts: seq<int>,
    panicked: bool)
  {
    /** A connection that has selected nothing has character 0. */
    function Char(x: Conn): int { if x in charOf then charOf[x] else 0 }
  }

  const Init: State := State({}, map[], map[], [], {}, [], [], false)

  function Registered(s: State, x: Conn): State { s.(clients := s.clients + {x}, seen := s.seen + {x}) }

  function Removed(s: State, x: Conn): State {
    if x !in s.clients then s
    else
      var c := s.Char(x);
      s.(clients := s.clients - {x},
         closed := s.closed + [x],
         panicked := s.panicked || x in s.closed,
         byChar := if c > 0 then s.byChar - {c} else s.byChar,
         logouts := if c > 0 then s.logouts + [c] else s.logouts)
  }

  /** The first phase of AssociateCharacter, under the lock: whoever held the
      character is left registered with character 0. */
  function Claimed(s: State, x: Conn, c: int): State {
    var of := s.charOf[x := c];
    s.(byChar := s.byChar[c := x],
       charOf := if c in s.byChar && s.byChar[c] != x then of[s.byChar[c] := 0] else of,
       logins := if c in s.byChar then s.logins else s.logins + [c])
  }

  /** The connection the second phase removes. */
  function Overridden(s: State, x: Conn, c: int): Option<Conn> {
    if c in s.byChar && s.byChar[c] != x then Some(s.byChar[c]) else None
  }

  predicate SendsToClosed(clients: set<Conn>, closed: seq<Conn>) { exists x :: x in clients && x in closed }

  function Broadcasted(s: State): State {
    s.(panicked := s.panicked || SendsToClosed(s.clients, s.closed))
  }

  // ------------------------------------------------------------- invariants

  /** The index holds exactly the registered connections that have a character. */
  ghost predicate Agree(s: State) {
    forall c: int, x: Conn :: HoldsEntry(s, c, x) <==> HasCharacter(s, c, x)
  }

  predicate HoldsEntry(s: State, c: int, x: Conn) { c in s.byChar && s.byChar[c] == x }

  predicate HasCharacter(s: State, c: int, x: Conn) { x in s.clients && s.Char(x) == c && c > 0 }

  lemma AgreeAt(s: State, c: int, x: Conn)
    requires Agree(s)
    ensures HoldsEntry(s, c, x) <==> HasCharacter(s, c, x)
  {}

  /** Associating keeps the index right exactly if the connection is registered,
      the id is positive, and no other character was selected before. */
  lemma ClaimKeepsAgreementIff(s: State, x: Conn, c: int)
    requires Agree(s)
    ensures Agree(Claimed(s, x, c)) <==> x in s.clients && c > 0 && (s.Char(x) <= 0 || s.Char(x) == c)
  {
    var t := Claimed(s, x, c);
    if Agree(t) {
      AgreeAt(t, c, x);
      AgreeAt(s, s.Char(x), x);
      AgreeAt(t, s.Char(x), x);
    }
    if x in s.clients && c > 0 && (s.Char(x) <= 0 || s.Char(x) == c) {
      forall d: int, y: Conn ensures HoldsEntry(t, d, y) <==> HasCharacter(t, d, y) {
        AgreeAt(s, d, y);
        AgreeAt(s, c, y);
        AgreeAt(s, d, x);
      }
    }
  }

  /** Registering keeps it exactly if the connection brings no character along:
      one that was removed keeps its id, so it must not come back. */
  lemma RegisterKeepsAgreementIff(s: State, x: Conn)
    requires Agree(s)
    ensures Agree(Registered(s, x)) <==> x in s.clients || s.Char(x) <= 0
  {
    var t := Registered(s, x);
    if Agree(t) {
      AgreeAt(t, s.Char(x), x);
      AgreeAt(s, s.Char(x), x);
    }
    if x in s.clients || s.Char(x) <= 0 {
      forall d: int, y: Conn ensures HoldsEntry(t, d, y) <==> HasCharacter(t, d, y) { AgreeAt(s, d, y); }
    }
  }

  lemma RemoveKeepsAgreement(s: State, x: Conn)
    requires Agree(s)
    ensures Agree(Removed(s, x))
  {
    var t := Removed(s, x);
    forall d: int, y: Conn ensures HoldsEntry(t, d, y) <==> HasCharacter(t, d, y) {
      AgreeAt(s, d, y);
      AgreeAt(s, s.Char(x), x);
      AgreeAt(s, s.Char(x), y);
    }
  }

  /** Members are open, no channel is closed twice, and only connections that
      registered were ever closed or given a character. */
  ghost predicate Channels(s: State) {
    && !s.panicked
    && s.clients <= s.seen
    && (forall x: Conn :: Count(x, s.closed) <= 1)
    && (forall x: Conn :: x in s.closed ==> x in s.seen && x !in s.clients)
    && (forall x: Conn :: x !in s.seen ==> s.Char(x) == 0)
  }

  lemma RemoveKeepsChannels(s: State, x: Conn)
    requires Channels(s)
    ensures Channels(Removed(s, x))
  {
    forall y: Conn ensures Count(y, Removed(s, x).closed) <= 1 { CountAppend(y, s.closed, x); }
  }

  /** Every time a character comes online is ended by at most one logout, and by
      exactly one if it is offline now. */
  ghost predicate Sessions(s: State) {
    forall c: int :: SessionsOf(s, c)
  }

  predicate SessionsOf(s: State, c: int) {
    Count(c, s.logins) == Count(c, s.logouts) + if c in s.byChar then 1 else 0
  }

  lemma RemoveKeepsSessions(s: State, x: Conn)
    requires Sessions(s) && Agree(s)
    ensures Sessions(Removed(s, x))
  {
    var t := Removed(s, x);
    AgreeAt(s, s.Char(x), x);
    forall c: int ensures SessionsOf(t, c) {
      assert SessionsOf(s, c);
      CountAppend(c, s.logouts, s.Char(x));
    }
  }

  lemma ClaimKeepsSessions(s: State, x: Conn, c: int)
    requires Sessions(s)
    ensures Sessions(Claimed(s, x, c))
  {
    var t := Claimed(s, x, c);
    forall d: int ensures SessionsOf(t, d) {
      assert SessionsOf(s, d);
      CountAppend(d, s.logins, c);
    }
  }

  lemma ClaimKeepsChannels(s: State, x: Conn, c: int)
    requires Channels(s) && Agree(s) && x in s.clients
    ensures Channels(Claimed(s, x, c))
  {
    if c in s.byChar { AgreeAt(s, c, s.byChar[c]); }
  }

  ghost predicate Inv(s: State) { Agree(s) && Channels(s) && Sessions(s) }

  // ------------------------------------------------------------------- runs

  /** Lock-holding sections of the hub's goroutines. `Remove` serves
      Unregister, the second phase of an override and dropped slow consumers,
      so between any two sections anyone may be removed. */
  datatype Event = Register(x: Conn) | Claim(x: Conn, c: int) | Remove(x: Conn) | Broadcast

  /** Each connection registers once, and while registered selects at most one
      character. */
  predicate Enabled(s: State, e: Event) {
    match e
    case Register(x) => x !in s.seen
    case Claim(x, c) => x in s.clients && c > 0 && (s.Char(x) == 0 || s.Char(x) == c)
    case _ => true
  }

  function Apply(s: State, e: Event): State {
    match e
    case Register(x) => Registered(s, x)
    case Claim(x, c) => Claimed(s, x, c)
    case Remove(x) => Removed(s, x)
    case Broadcast => Broadcasted(s)
  }

  predicate ValidRun(s: State, es: seq<Event>)
    decreases |es|
  {
    |es| == 0 || (Enabled(s, es[0]) && ValidRun(Apply(s, es[0]), es[1..]))
  }

  function Run(s: State, es: seq<Event>): State
    decreases |es|
  {
    if |es| == 0 then s else Run(Apply(s, es[0]), es[1..])
  }

  lemma StepKeepsInv(s: State, e: Event)
    requires Inv(s) && Enabled(s, e)
    ensures Inv(Apply(s, e))
  {
    match e
    case Register(x) =>
      RegisterKeepsAgreementIff(s, x);
      forall c: int ensures SessionsOf(Registered(s, x), c) { assert SessionsOf(s, c); }
    case Claim(x, c) =>
      ClaimKeepsAgreementIff(s, x, c);
      ClaimKeepsChannels(s, x, c);
      ClaimKeepsSessions(s, x, c);
    case Remove(x) =>
      RemoveKeepsAgreement(s, x);
      RemoveKeepsChannels(s, x);
      RemoveKeepsSessions(s, x);
    case Broadcast =>
      assert Broadcasted(s) == s;
  }

  lemma {:induction false} RunKeepsInv(s: State, es: seq<Event>)
    requires Inv(s) && ValidRun(s, es)
    ensures Inv(Run(s, es))
    decreases |es|
  {
    if |es| != 0 {
      StepKeepsInv(s, es[0]);
      RunKeepsInv(Apply(s, es[0]), es[1..]);
    }
  }

  /** In every reachable state, between the phases of an override too: a
      registered connection is open, no channel is closed twice, nothing ever
      panicked, the index agrees with the registered connections, and logouts
      match the times characters came online. */
  lemma EveryRunAgrees(es: seq<Event>, c: int, x: Conn)
    requires ValidRun(Init, es)
    ensures var s := Run(Init, es);
      && !s.panicked
      && (x in s.clients ==> x !in s.closed)
      && Count(x, s.closed) <= 1
      && (c in s.byChar && s.byChar[c] == x <==> x in s.clients && s.Char(x) == c && c > 0)
      && Count(c, s.logins) == Count(c, s.logouts) + if c in s.byChar then 1 else 0
  {
    RunKeepsInv(Init, es);
    AgreeAt(Run(Init, es), c, x);
    assert SessionsOf(Run(Init, es), c);
  }

  /** Selecting a second character leaves the first pointing at the connection,
      even after the connection is gone. */
  lemma SecondSelectionDangles()
    ensures var s := Run(Init, [Register(0), Claim(0, 1), Claim(0, 2), Remove(0)]);
      s.clients == {} && 1 in s.byChar && s.byChar[1] == 0 && 0 in s.closed
  {
    var s1 := Registered(Init, 0);
    var s2 := Claimed(s1, 0, 1);
    var s3 := Claimed(s2, 0, 2);
    var s4 := Removed(s3, 0);
    assert s4.byChar == map[1 := 0];
    assert s4 == Run(s3, [Remove(0)]) == Run(s2, [Claim(0, 2), Remove(0)]);
    assert Run(s2, [Claim(0, 2), Remove(0)]) == Run(s1, [Claim(0, 1), Claim(0, 2), Remove(0)]);
  }

  // ------------------------------------------------------ the code's own form

  class Hub {
    var clients: set<Conn>
    var characterClients: map<int, Conn>
    var charOf: map<Conn, int>
    var closed: seq<Conn>
    var logouts: seq<int>
    const capacity: nat
    var inbox: Buffers
    ghost var seen: set<Conn>
    ghost var logins: seq<int>
    ghost var panicked: bool

    ghost function Now(): State
      reads this
    {
      State(clients, characterClients, charOf, closed, seen, logins, logouts, panicked)
    }

    /** Messages waiting in a connection's send buffer. */
    function Inbox(x: Conn): seq<string>
      reads this`inbox
    {
      InboxOf(inbox, x)
    }

    constructor (capacity: nat)
      ensures Now() == Init && this.capacity == capacity && inbox == map[]
    {
      this.capacity, inbox := capacity, map[];
      clients, characterClients, charOf, closed, logouts := {}, map[], map[], [], [];
      seen, logins, panicked := {}, [], false;
    }

    method Register(x: Conn)
      modifies this
      ensures Now() == Registered(old(Now()), x) && inbox == old(inbox)
      ensures clients == old(clients) + {x} && characterClients == old(characterClients) && charOf == old(charOf) && closed == old(closed)
    {
      clients := clients + {x};
      seen := seen + {x};
    }

    /** The connection is no member afterwards; if it was one, its channel is closed
        now, and its character, if any, is logged out and leaves the index. */
    method RemoveClient(x: Conn)
      modifies this
      ensures Now() == Removed(old(Now()), x) && inbox == old(inbox)
      ensures clients == old(clients) - {x} && charOf == old(charOf)
      ensures closed == old(closed) + if x in old(clients) then [x] else []
      ensures var c := if x in old(clients) && x in old(charOf) then old(charOf)[x] else 0;
        && characterClients == (if c > 0 then old(characterClients) - {c} else old(characterClients))
        && logouts == old(logouts) + if c > 0 then [c] else []
    {
      var loggedOut := 0;
      if x in clients {
        clients := clients - {x};
        panicked := panicked || x in closed;
        closed := closed + [x];
        var c := if x in charOf then charOf[x] else 0;
        if c > 0 {
          loggedOut := c;
          characterClients := characterClients - {c};
        }
      }
      if loggedOut > 0 { logouts := logouts + [loggedOut]; }
    }

    /** Both phases with nothing in between: the connection now has the character,
        and whoever had it before is disconnected without a logout. */
    method AssociateCharacter(x: Conn, c: int)
      modifies this
      ensures inbox == old(inbox)
      ensures var mid := Claimed(old(Now()), x, c);
        Now() == if Overridden(old(Now()), x, c).Some? then Removed(mid, Overridden(old(Now()), x, c).value) else mid
      ensures c in characterClients && characterClients[c] == x && x in charOf && charOf[x] == c
      ensures forall d :: d != c ==> (d in characterClients <==> d in old(characterClients)) && (d in characterClients ==> characterClients[d] == old(characterClients)[d])
      ensures c in old(characterClients) && old(characterClients)[c] != x ==>
        var y := old(characterClients)[c];
        && clients == old(clients) - {y} && y in charOf && charOf[y] == 0
        && closed == old(closed) + if y in old(clients) then [y] else []
      ensures !(c in old(characterClients) && old(characterClients)[c] != x) ==> clients == old(clients) && closed == old(closed)
      ensures logouts == old(logouts)
      ensures forall z :: z != x && !(c in old(characterClients) && old(characterClients)[c] == z) ==>
        (z in charOf <==> z in old(charOf)) && (z in charOf ==> charOf[z] == old(charOf)[z])
    {
      var holder := if c in characterClients then Some(characterClients[c]) else None;
      if holder.None? { logins := logins + [c]; }
      characterClients := characterClients[c := x];
      charOf := charOf[x := c];
      if holder.Some? && holder.value != x {
        charOf := charOf[holder.value := 0];
      } else {
        holder := None;
      }
      if holder.Some? { RemoveClient(holder.value); }
    }

    /** Queues the message for every member whose buffer has room, then drops the
        others, which is the removal of each in turn. `pumped` messages leave a
        member's buffer through its write pump before its turn comes. */
    method Broadcast(message: string, pumped: Conn -> nat) returns (stale: seq<Conn>)
      modifies this
      ensures forall x :: Inbox(x) == Queued(old(inbox), x, old(clients), capacity, message, pumped)
      ensures Distinct(stale) && forall x: Conn :: x in stale <==> x in old(clients) && !Room(old(inbox), x, capacity, pumped)
      ensures Now() == RemovedAll(Broadcasted(old(Now())), stale)
      ensures clients == old(clients) - set x | x in stale
      ensures closed == old(closed) + stale
    {
      stale := Offer(message, pumped);
      ghost var sent := inbox;
      for i := 0 to |stale|
        invariant inbox == sent
        invariant RemovedAll(Now(), stale[i..]) == RemovedAll(Broadcasted(old(Now())), stale)
      {
        RemoveClient(stale[i]);
        assert stale[i..][1..] == stale[i + 1..];
      }
      RemovedAllMeans(Broadcasted(old(Now())), stale);
    }

    /** The loop under the read lock; sending to a closed channel panics. */
    method Offer(message: string, pumped: Conn -> nat) returns (stale: seq<Conn>)
      modifies this`inbox, this`panicked
      ensures Offered(old(inbox), inbox, clients, capacity, message, pumped)
      ensures Distinct(stale) && IsStale(old(inbox), stale, clients, capacity, pumped)
      ensures Now() == Broadcasted(old(Now()))
    {
      panicked := panicked || SendsToClosed(clients, closed);
      stale := OfferAll(clients, message, pumped);
    }

    method OfferAll(members: set<Conn>, message: string, pumped: Conn -> nat) returns (stale: seq<Conn>)
      modifies this`inbox
      ensures Offered(old(inbox), inbox, members, capacity, message, pumped)
      ensures Distinct(stale) && IsStale(old(inbox), stale, members, capacity, pumped)
    {
      stale := [];
      var todo, done := members, {};
      while todo != {}
        invariant todo + done == members && todo !! done
        invariant Offered(old(inbox), inbox, done, capacity, message, pumped)
        invariant Distinct(stale) && IsStale(old(inbox), stale, done, capacity, pumped)
        decreases todo
      {
        var x :| x in todo;
        stale := OfferNext(x, done, stale, message, pumped, old(inbox));
        todo, done := todo - {x}, done + {x};
      }
      assert done == members;
    }

    /** One pass of that loop. */
    method OfferNext(x: Conn, ghost done: set<Conn>, before: seq<Conn>, message: string, pumped: Conn -> nat, ghost was: Buffers)
      returns (stale: seq<Conn>)
      requires x !in done && Offered(was, inbox, done, capacity, message, pumped)
      requires Distinct(before) && IsStale(was, before, done, capacity, pumped)
      modifies this`inbox
      ensures Offered(was, inbox, done + {x}, capacity, message, pumped)
      ensures Distinct(stale) && IsStale(was, stale, done + {x}, capacity, pumped)
    {
      OfferedMore(was, inbox, done, capacity, message, pumped, x);
      StaleMore(was, before, done, capacity, pumped, x);
      var ok := OfferOne(x, message, pumped);
      stale := if ok then before else before + [x];
    }

    /** The non-blocking send to one member. */
    method OfferOne(x: Conn, message: string, pumped: Conn -> nat) returns (ok: bool)
      modifies this`inbox
      ensures ok <==> Room(old(inbox), x, capacity, pumped)
      ensures inbox == old(inbox)[x := Queued(old(inbox), x, {x}, capacity, message, pumped)]
    {
      var waiting := Pumped(Inbox(x), pumped(x));
      assert waiting + [] == waiting;
      ok := |waiting| < capacity;
      inbox := inbox[x := if ok then waiting + [message] else waiting];
    }
  }

  type Buffers = map<Conn, seq<string>>

  function InboxOf(inbox: Buffers, x: Conn): seq<string> { if x in inbox then inbox[x] else [] }

  /** A buffer after some messages were taken out of it. */
  function Pumped(waiting: seq<string>, n: nat): seq<string> { if n <= |waiting| then waiting[n..] else [] }

  predicate Room(inbox: Buffers, x: Conn, capacity: nat, pumped: Conn -> nat) {
    |Pumped(InboxOf(inbox, x), pumped(x))| < capacity
  }

  /** The buffer of a connection once those of `done` had their turn. */
  function Queued(was: Buffers, x: Conn, done: set<Conn>, capacity: nat, message: string, pumped: Conn -> nat): seq<string> {
    if x !in done then InboxOf(was, x)
    else Pumped(InboxOf(was, x), pumped(x)) + if Room(was, x, capacity, pumped) then [message] else []
  }

  ghost predicate Offered(was: Buffers, now: Buffers, done: set<Conn>, capacity: nat, message: string, pumped: Conn -> nat) {
    forall x: Conn :: InboxOf(now, x) == Queued(was, x, done, capacity, message, pumped)
  }

  /** Those of `done` that had no room. */
  ghost predicate IsStale(was: Buffers, stale: seq<Conn>, done: set<Conn>, capacity: nat, pumped: Conn -> nat) {
    forall x: Conn :: x in stale <==> x in done && !Room(was, x, capacity, pumped)
  }

  lemma OfferedMore(was: Buffers, now: Buffers, done: set<Conn>, capacity: nat, message: string, pumped: Conn -> nat, x: Conn)
    requires Offered(was, now, done, capacity, message, pumped) && x !in done
    ensures Room(now, x, capacity, pumped) == Room(was, x, capacity, pumped)
    ensures Offered(was, now[x := Queued(now, x, {x}, capacity, message, pumped)], done + {x}, capacity, message, pumped)
  {
    assert InboxOf(now, x) == Queued(was, x, done, capacity, message, pumped) == InboxOf(was, x);
    var next := now[x := Queued(now, x, {x}, capacity, message, pumped)];
    forall y: Conn ensures InboxOf(next, y) == Queued(was, y, done + {x}, capacity, message, pumped) {
      assert InboxOf(now, y) == Queued(was, y, done, capacity, message, pumped);
    }
  }

  lemma StaleMore(was: Buffers, stale: seq<Conn>, done: set<Conn>, capacity: nat, pumped: Conn -> nat, x: Conn)
    requires Distinct(stale) && IsStale(was, stale, done, capacity, pumped) && x !in done
    ensures var next := if Room(was, x, capacity, pumped) then stale else stale + [x];
      Distinct(next) && IsStale(was, next, done + {x}, capacity, pumped)
  {
    assert x !in stale;
  }

  function RemovedAll(s: State, xs: seq<Conn>): State
    decreases |xs|
  {
    if |xs| == 0 then s else RemovedAll(Removed(s, xs[0]), xs[1..])
  }

  /** Dropping members removes and closes each of them once. */
  lemma {:induction false} RemovedAllMeans(s: State, xs: seq<Conn>)
    requires Distinct(xs) && forall x :: x in xs ==> x in s.clients
    ensures RemovedAll(s, xs).clients == s.clients - (set x | x in xs) && RemovedAll(s, xs).closed == s.closed + xs
    decreases |xs|
  {
    if |xs| != 0 {
      var t := Removed(s, xs[0]);
      assert xs == [xs[0]] + xs[1..];
      forall x | x in xs[1..] ensures x in t.clients {
        var i :| 0 <= i < |xs[1..]| && xs[1..][i] == x;
        assert xs[i + 1] == x && xs[0] != xs[i + 1];
      }
      assert Distinct(xs[1..]);
      RemovedAllMeans(t, xs[1..]);
      assert (s.closed + [xs[0]]) + xs[1..] == s.closed + xs;
    }
  }

  /** A broadcast's drops remove exactly the slow consumers and keep the
      invariant. */
  lemma {:induction false} RemovedAllKeepsInv(s: State, xs: seq<Conn>)
    requires Inv(s)
    ensures Inv(RemovedAll(s, xs)) && RemovedAll(s, xs).clients == s.clients - set x | x in xs
    decreases |xs|
  {
    if |xs| != 0 {
      StepKeepsInv(s, Remove(xs[0]));
      RemovedAllKeepsInv(Removed(s, xs[0]), xs[1..]);
      assert xs == [xs[0]] + xs[1..];
    }
  }
}
