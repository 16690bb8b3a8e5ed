/** The relay server in place: its registry, channels and queue as fields, each atomic step of a handler a
    method tied to the step function of `Relay`, and whole handlers run without interruption. */
module Router {
  import opened Relay
  import opened RelaySafety

  // ── A replay seen as a whole ──

  /** What the replay loop leaves: every row taken for this connection is in its channel, oldest first. */
  function Replayed(st: State, c: Conn): State {
    st.(channel := st.channel + Of(st.drained, c), drained := Without(st.drained, c))
  }

  lemma UnknownConn(st: State, c: Conn)
    requires Safe(st) && c !in st.conns
    ensures !Has(st.channel, c) && !Has(st.drained, c)
  {
    assert forall x :: x in st.channel ==> x.0 != c;
    assert forall x :: x in st.drained ==> x.0 != c;
  }

  /** The push to a session found by the lookup. */
  function TryLive(st: State, t: Token): State
    requires HandlerAt(st, t)
  {
    if st.handlers[t].AtPush? then PushNext(st, t, st.handlers[t].conn) else st
  }

  /** The queue, for what was not pushed. */
  function Fallback(st: State, t: Token, ok: bool): State
    requires HandlerAt(st, t)
  {
    if st.handlers[t] == AtQueue then QueueNext(st, t, ok) else st
  }

  /** A whole SendMessage command, nothing else running. */
  function Send(st: State, t: Token, m: Message, ok: bool): State {
    var n := Fallback(TryLive(LookupNext(AcceptNext(st, t, m), t), t), t, ok);
    EchoNext(n, t, n.handlers[t].delivered)
  }

  /** A whole connect up to the forwarding task, nothing else running. */
  function Join(st: State, u: User, c: Conn): State {
    SetStage(Replayed(DrainNext(ConnectNext(st, u, c), c, true), c), c, Live)
  }

  class Server {
    var clients: map<User, Conn>
    var conns: map<Conn, Connection>
    var open: set<Conn>
    var channel: seq<(Conn, Token)>
    var pending: seq<Token>
    var drained: seq<(Conn, Token)>
    var handlers: map<Token, Handler>
    var messages: map<Token, Message>
    var written: seq<(Conn, Token)>
    var dropped: seq<(Conn, Token)>
    var absorbed: seq<Token>
    var failed: seq<Token>
    var echoed: map<Token, bool>
    ghost var lastRegistered: map<User, Conn>
    ghost var pushed: set<Token>

    ghost function Value(): State
      reads this
    {
      State(clients, conns, open, channel, pending, drained, handlers, messages, written, dropped, absorbed, failed,
            echoed, lastRegistered, pushed)
    }

    constructor ()
      ensures Value() == INITIAL
    {
      clients, conns, open, channel, pending, drained := map[], map[], {}, [], [], [];
      handlers, messages, written, dropped, absorbed, failed, echoed := map[], map[], [], [], [], [], map[];
      lastRegistered, pushed := map[], {};
    }

    // ── Steps of a socket handler ──

    method Register(u: User, c: Conn)
      requires c !in conns
      modifies this
      ensures Value() == ConnectNext(old(Value()), u, c)
    {
      clients := clients[u := c];
      conns := conns[c := Connection(u, Registered)];
      open := open + {c};
      lastRegistered := lastRegistered[u := c];
    }

    /** One statement deletes and returns all rows of the user. */
    method DrainPending(c: Conn, ok: bool)
      requires At(Value(), c, Registered)
      modifies this
      ensures Value() == DrainNext(old(Value()), c, ok)
    {
      var u := conns[c].user;
      conns := conns[c := conns[c].(stage := Draining)];
      if ok {
        drained := drained + Tag(c, RowsFor(messages, pending, u));
        pending := RowsNotFor(messages, pending, u);
      }
    }

    /** The loop over the drained rows, one push at a time, then the forwarding task. */
    method ReplayQueue(c: Conn)
      requires At(Value(), c, Draining)
      modifies this
      ensures Value() == SetStage(Replayed(old(Value()), c), c, Live)
    {
      while Has(drained, c)
        invariant Value() == old(Value()).(channel := channel, drained := drained)
        invariant channel + Of(drained, c) == old(channel) + Of(old(drained), c)
        invariant Without(drained, c) == Without(old(drained), c)
        decreases |drained|
      {
        FirstSplits(drained, c);
        channel := channel + [(c, First(drained, c))];
        drained := RemoveFirst(drained, c);
      }
      NothingTaken(drained, c);
      conns := conns[c := conns[c].(stage := Live)];
    }

    /** The forwarding task sends the oldest message of the channel. */
    method Forward(c: Conn)
      requires Enabled(Value(), WriteOut(c))
      modifies this
      ensures Value() == WriteOutNext(old(Value()), c)
    {
      written := written + [(c, First(channel, c))];
      channel := RemoveFirst(channel, c);
    }

    /** After the receive loop: give up the registry entry if it is still ours, under the write lock. */
    method CleanupSession(c: Conn) returns (wasActive: bool)
      requires At(Value(), c, Live)
      modifies this
      ensures Value() == CleanupNext(old(Value()), c)
      ensures wasActive <==> old(clients) != clients
      ensures forall u :: u in old(clients) && old(clients)[u] != c ==> u in clients && clients[u] == old(clients)[u]
    {
      var u := conns[c].user;
      wasActive := u in clients && clients[u] == c;
      if wasActive {
        clients := clients - {u};
      }
      conns := conns[c := conns[c].(stage := Cleaned)];
    }

    /** Abort the forwarding task: its receiver goes away with everything not yet sent. */
    method AbortForwarding(c: Conn)
      requires At(Value(), c, Cleaned)
      modifies this
      ensures Value() == CloseChannel(SetStage(old(Value()), c, Ended), c)
    {
      conns := conns[c := conns[c].(stage := Ended)];
      dropped := dropped + Of(channel, c);
      channel := Without(channel, c);
      open := open - {c};
    }

    // ── Whole handlers, nothing else running ──

    method ConnectQuietly(u: User, c: Conn)
      requires c !in conns
      modifies this
      ensures Value() == Join(old(Value()), u, c)
    {
      Register(u, c);
      DrainPending(c, true);
      ReplayQueue(c);
    }

    method SendMessage(t: Token, m: Message, ok: bool) returns (delivered: bool)
      requires t !in messages
      modifies this
      ensures Value() == Send(old(Value()), t, m, ok)
      ensures t in echoed && delivered == echoed[t]
    {
      AcceptAndLookup(t, m);
      DeliverLive(t);
      FallBack(t, ok);
      delivered := EchoToSender(t);
    }

    method AcceptAndLookup(t: Token, m: Message)
      requires t !in messages
      modifies this
      ensures Value() == LookupNext(AcceptNext(old(Value()), t, m), t)
    {
      messages := messages[t := m];
      handlers := handlers[t := AtLookup];
      LookupSession(t);
    }

    method EchoToSender(t: Token) returns (delivered: bool)
      requires HandlerAt(Value(), t) && handlers[t].AtEcho?
      modifies this
      ensures Value() == EchoNext(old(Value()), t, delivered) && delivered == old(handlers)[t].delivered
    {
      delivered := handlers[t].delivered;
      echoed := echoed[t := delivered];
      handlers := handlers[t := Done];
    }

    method DeliverLive(t: Token)
      requires HandlerAt(Value(), t)
      modifies this
      ensures Value() == TryLive(old(Value()), t)
    {
      if handlers[t].AtPush? {
        PushLive(t);
      }
    }

    method FallBack(t: Token, ok: bool)
      requires HandlerAt(Value(), t)
      modifies this
      ensures Value() == Fallback(old(Value()), t, ok)
    {
      if handlers[t] == AtQueue {
        QueuePending(t, ok);
      }
    }

    // ── Steps of a message handler ──

    method LookupSession(t: Token)
      requires HandlerAt(Value(), t) && handlers[t] == AtLookup
      modifies this
      ensures Value() == LookupNext(old(Value()), t)
    {
      var u := messages[t].to;
      if u in clients {
        handlers := handlers[t := AtPush(clients[u])];
      } else {
        handlers := handlers[t := AtQueue];
      }
    }

    /** A send on the channel's sender half fails exactly when the receiver is gone. */
    method PushLive(t: Token)
      requires HandlerAt(Value(), t) && handlers[t].AtPush?
      modifies this
      ensures Value() == PushNext(old(Value()), t, old(handlers)[t].conn)
    {
      var c := handlers[t].conn;
      if c in open {
        channel := channel + [(c, t)];
        handlers := handlers[t := AtEcho(true)];
        pushed := pushed + {t};
      } else {
        handlers := handlers[t := AtQueue];
      }
    }

    method QueuePending(t: Token, ok: bool)
      requires HandlerAt(Value(), t) && handlers[t] == AtQueue
      modifies this
      ensures Value() == QueueNext(old(Value()), t, ok)
    {
      var conflict := Conflicts(messages, pending, t);
      if !ok {
        failed := failed + [t];
      } else if conflict {
        absorbed := absorbed + [t];
      } else {
        pending := pending + [t];
      }
      handlers := handlers[t := AtEcho(false)];
    }
  }

  // ── Whole handlers ──

  lemma ArriveEffect(st: State, t: Token, m: Message)
    ensures var n := LookupNext(AcceptNext(st, t, m), t);
            && n == st.(messages := n.messages, handlers := n.handlers) && n.messages == st.messages[t := m]
            && HandlerAt(n, t) && n.handlers[t] == (if m.to in st.clients then AtPush(st.clients[m.to]) else AtQueue)
  {
  }

  lemma DeliverEffect(st: State, t: Token, m: Message, ok: bool)
    requires HandlerAt(st, t) && st.messages[t] == m
    requires st.handlers[t] == (if m.to in st.clients then AtPush(st.clients[m.to]) else AtQueue)
    ensures var n := Fallback(TryLive(st, t), t, ok);
            var live := m.to in st.clients && st.clients[m.to] in st.open;
            && HandlerAt(n, t) && n.handlers[t] == AtEcho(live)
            && n.channel == (if live then st.channel + [(st.clients[m.to], t)] else st.channel)
            && n.pending == (if live || !ok || Conflicts(st.messages, st.pending, t) then st.pending
                               else st.pending + [t])
            && n == st.(handlers := n.handlers, channel := n.channel, pending := n.pending, pushed := n.pushed,
                        absorbed := n.absorbed, failed := n.failed)
  {
    var a := TryLive(st, t);
    if st.handlers[t].AtPush? {
      if st.handlers[t].conn in st.open {
        assert a.handlers[t] == AtEcho(true);
      } else {
        assert a == st.(handlers := a.handlers) && a.handlers[t] == AtQueue;
      }
    }
  }

  /** A SendMessage with nothing in between is live exactly when the recipient's session is registered and its
      channel open; otherwise it leaves one row, unless the index or the database refuses it. */
  lemma SendEffect(st: State, t: Token, m: Message, ok: bool)
    ensures var n := Send(st, t, m, ok);
            var live := m.to in st.clients && st.clients[m.to] in st.open;
            && n.messages == st.messages[t := m] && n.echoed == st.echoed[t := live]
            && n.channel == (if live then st.channel + [(st.clients[m.to], t)] else st.channel)
            && n.pending == (if live || !ok || Conflicts(n.messages, st.pending, t) then st.pending
                             else st.pending + [t])
            && n.clients == st.clients && n.conns == st.conns && n.open == st.open && n.drained == st.drained
            && n.written == st.written && n.dropped == st.dropped
  {
    ArriveEffect(st, t, m);
    DeliverEffect(LookupNext(AcceptNext(st, t, m), t), t, m, ok);
  }

  lemma TryLiveKeeps(st: State, t: Token)
    requires Reachable(st) && HandlerAt(st, t)
    ensures Reachable(TryLive(st, t))
  {
    if st.handlers[t].AtPush? {
      StepTo(st, Push(t), TryLive(st, t));
    }
  }

  lemma FallbackKeeps(st: State, t: Token, ok: bool)
    requires Reachable(st) && HandlerAt(st, t)
    ensures Reachable(Fallback(st, t, ok))
  {
    if st.handlers[t] == AtQueue {
      StepTo(st, Queue(t, ok), Fallback(st, t, ok));
    }
  }

  lemma EchoKeeps(st: State, t: Token)
    requires Reachable(st) && HandlerAt(st, t) && st.handlers[t].AtEcho?
    ensures Reachable(EchoNext(st, t, st.handlers[t].delivered))
  {
    StepTo(st, Echo(t), EchoNext(st, t, st.handlers[t].delivered));
  }

  lemma ArriveKeeps(st: State, t: Token, m: Message)
    requires Reachable(st) && t !in st.messages
    ensures Reachable(LookupNext(AcceptNext(st, t, m), t))
  {
    StepTo(st, Accept(t, m), AcceptNext(st, t, m));
    StepTo(AcceptNext(st, t, m), Lookup(t), LookupNext(AcceptNext(st, t, m), t));
  }

  /** A whole command is a run of atomic steps, so it leads from a reachable state to a reachable one. */
  lemma SendKeeps(st: State, t: Token, m: Message, ok: bool)
    requires Reachable(st) && t !in st.messages
    ensures Reachable(Send(st, t, m, ok))
  {
    ArriveKeeps(st, t, m);
    FinishKeeps(LookupNext(AcceptNext(st, t, m), t), t, ok);
  }

  /** A handler that has looked up the session, to its end. */
  lemma FinishKeeps(a: State, t: Token, ok: bool)
    requires Reachable(a) && HandlerAt(a, t) && (a.handlers[t].AtPush? || a.handlers[t] == AtQueue)
    ensures var n := Fallback(TryLive(a, t), t, ok);
            HandlerAt(n, t) && n.handlers[t].AtEcho? && Reachable(EchoNext(n, t, n.handlers[t].delivered))
  {
    FinishShape(a, t, ok);
    TryLiveKeeps(a, t);
    FallbackKeeps(TryLive(a, t), t, ok);
    EchoKeeps(Fallback(TryLive(a, t), t, ok), t);
  }

  lemma FinishShape(a: State, t: Token, ok: bool)
    requires HandlerAt(a, t) && (a.handlers[t].AtPush? || a.handlers[t] == AtQueue)
    ensures HandlerAt(TryLive(a, t), t)
    ensures var n := Fallback(TryLive(a, t), t, ok); HandlerAt(n, t) && n.handlers[t].AtEcho?
  {
    TryShape(a, t);
    FallbackShape(TryLive(a, t), t, ok);
  }

  lemma TryShape(a: State, t: Token)
    requires HandlerAt(a, t) && (a.handlers[t].AtPush? || a.handlers[t] == AtQueue)
    ensures var n := TryLive(a, t); HandlerAt(n, t) && (n.handlers[t].AtEcho? || n.handlers[t] == AtQueue)
  {
  }

  lemma FallbackShape(a: State, t: Token, ok: bool)
    requires HandlerAt(a, t) && (a.handlers[t].AtEcho? || a.handlers[t] == AtQueue)
    ensures var n := Fallback(a, t, ok); HandlerAt(n, t) && n.handlers[t].AtEcho?
  {
  }

  /** The replay loop is a run of `PushDrained` steps. */
  lemma {:induction false} ReplayKeeps(st: State, c: Conn)
    requires Reachable(st) && At(st, c, Draining)
    ensures Reachable(SetStage(Replayed(st, c), c, Live))
    decreases |st.drained|
  {
    if Has(st.drained, c) {
      ReplayOne(st, c);
      StepTo(st, PushDrained(c), PushDrainedNext(st, c));
      ReplayKeeps(PushDrainedNext(st, c), c);
    } else {
      NothingTaken(st.drained, c);
      assert Replayed(st, c) == st;
      StepTo(st, Spawn(c), SetStage(st, c, Live));
    }
  }

  lemma ReplayOne(st: State, c: Conn)
    requires Has(st.drained, c)
    ensures Replayed(PushDrainedNext(st, c), c) == Replayed(st, c)
    ensures |PushDrainedNext(st, c).drained| < |st.drained|
  {
    FirstSplits(st.drained, c);
    var n := PushDrainedNext(st, c);
    assert n.channel + Of(n.drained, c) == st.channel + Of(st.drained, c);
  }

  lemma JoinKeeps(st: State, u: User, c: Conn)
    requires Reachable(st) && c !in st.conns
    ensures Reachable(Join(st, u, c))
  {
    var a := ConnectNext(st, u, c);
    StepTo(st, Connect(u, c), a);
    StepTo(a, Drain(c, true), DrainNext(a, c, true));
    ReplayKeeps(DrainNext(a, c, true), c);
  }

  lemma FreshHoldsNothing(st: State, c: Conn)
    requires Reachable(st) && c !in st.conns
    ensures Of(st.channel, c) == [] && Of(st.drained, c) == []
  {
    ReachableInv(st);
    UnknownConn(st, c);
    NothingTaken(st.channel, c);
    NothingTaken(st.drained, c);
  }

  /** A connect with nothing in between puts the user's whole queue in the new channel, oldest first, ahead of
      anything sent later, and leaves everyone else's rows. */
  lemma JoinReplaysQueue(st: State, u: User, c: Conn)
    requires Reachable(st) && c !in st.conns
    ensures Of(Join(st, u, c).channel, c) == Tag(c, RowsFor(st.messages, st.pending, u))
    ensures Join(st, u, c).pending == RowsNotFor(st.messages, st.pending, u)
    ensures Join(st, u, c).clients == st.clients[u := c]
  {
    FreshHoldsNothing(st, c);
    var rows := Tag(c, RowsFor(st.messages, st.pending, u));
    OfTag(c, RowsFor(st.messages, st.pending, u));
    OfAppend(st.drained, rows, c);
    assert [] + rows == rows;
    OfAppend(st.channel, rows, c);
    OfOf(st.drained + rows, c);
  }

  // ── What the relay does not promise ──

  /** A user connected once, a message accepted for her and its session looked up, and perhaps her session
      cleaned up since. */
  function Found(m: Message, c: Conn, t: Token): State {
    INITIAL.(clients := map[m.to := c], conns := map[c := Connection(m.to, Live)], open := {c},
             handlers := map[t := AtPush(c)], messages := map[t := m], lastRegistered := map[m.to := c])
  }

  function Leaving(m: Message, c: Conn, t: Token): State {
    Found(m, c, t).(clients := map[], conns := map[c := Connection(m.to, Cleaned)])
  }

  lemma LiveSession(u: User, c: Conn) returns (st: State)
    ensures Reachable(st)
    ensures st == INITIAL.(clients := map[u := c], conns := map[c := Connection(u, Live)],
                           open := {c}, lastRegistered := map[u := c])
  {
    st := Registration(u, c);
    st := OneMore(st, Drain(c, true));
    assert st == Drained(u, c);
    st := OneMore(st, Spawn(c));
  }

  function Drained(u: User, c: Conn): State {
    INITIAL.(clients := map[u := c], conns := map[c := Connection(u, Draining)],
             open := {c}, lastRegistered := map[u := c])
  }

  lemma Registration(u: User, c: Conn) returns (st: State)
    ensures Reachable(st)
    ensures st == Drained(u, c).(conns := map[c := Connection(u, Registered)])
  {
    assert Reaches(INITIAL, [], INITIAL);
    st := OneMore(INITIAL, Connect(u, c));
  }

  lemma FoundArises(m: Message, c: Conn, t: Token)
    ensures Reachable(Found(m, c, t))
  {
    var st := LiveSession(m.to, c);
    st := OneMore(st, Accept(t, m));
    st := OneMore(st, Lookup(t));
    assert st == Found(m, c, t);
  }

  lemma LeavingArises(m: Message, c: Conn, t: Token)
    ensures Reachable(Leaving(m, c, t))
  {
    FoundArises(m, c, t);
    var st := OneMore(Found(m, c, t), Cleanup(c));
    assert st == Leaving(m, c, t);
  }

  /** The echo is not a receipt: a push between the session's cleanup and the abort of its forwarding task is
      told delivered and never written. */
  lemma EchoIsNoReceipt(m: Message, c: Conn, t: Token) returns (st: State)
    ensures Reachable(st) && t in st.echoed && st.echoed[t] && Tagged(st.dropped, t) == 1 && Tagged(st.written, t) == 0
  {
    LeavingArises(m, c, t);
    st := OneMore(Leaving(m, c, t), Push(t));
    assert st.channel == [(c, t)] && st.echoed == map[] && st.written == [] && st.dropped == [] && c in st.open;
    assert st.conns == map[c := Connection(m.to, Cleaned)] && HandlerAt(st, t) && st.handlers[t] == AtEcho(true);
    st := Finish(st, c, t);
  }

  lemma Finish(a: State, c: Conn, t: Token) returns (st: State)
    requires Reachable(a) && At(a, c, Cleaned) && HandlerAt(a, t) && a.handlers[t] == AtEcho(true)
    requires a.channel == [(c, t)] && a.dropped == [] && a.written == []
    ensures Reachable(st) && t in st.echoed && st.echoed[t] && Tagged(st.dropped, t) == 1 && Tagged(st.written, t) == 0
  {
    st := OneMore(a, Echo(t));
    st := OneMore(st, Abort(c));
    OneTag(c, t);
  }

  lemma OneTag(c: Conn, t: Token)
    ensures [] + Of([(c, t)], c) == [(c, t)] && Tagged([(c, t)], t) == 1
  {
    assert [(c, t)][1..] == [];
    assert Of([], c) == [] && Tagged([], t) == 0;
  }

  /** Registration comes before the drain, so a message sent later can be written ahead of one that was queued. */
  lemma LiveOvertakesQueued(m1: Message, m2: Message, c: Conn, t1: Token, t2: Token) returns (st: State)
    requires m1.to == m2.to && m1.from == m2.from && t1 != t2
    ensures Reachable(st) && st.written == [(c, t2), (c, t1)]
    ensures st.echoed == map[t1 := false, t2 := true]
  {
    var queued := QueuedFirst(m1, t1);
    var found := ThenFound(queued, m1, m2, c, t1, t2);
    var both := ThenLive(found, c, t2);
    st := WrittenBoth(both, m1, m2, c, t1, t2);
  }

  lemma NotFound(m: Message, t: Token) returns (st: State)
    ensures Reachable(st) && HandlerAt(st, t) && st.handlers[t] == AtQueue
    ensures st == INITIAL.(messages := map[t := m], handlers := st.handlers)
  {
    assert Reaches(INITIAL, [], INITIAL);
    st := OneMore(INITIAL, Accept(t, m));
    st := OneMore(st, Lookup(t));
  }

  lemma QueuedFirst(m: Message, t: Token) returns (st: State)
    ensures Reachable(st) && st.conns == map[] && st.open == {}
    ensures st.channel == [] && st.drained == [] && st.written == []
    ensures st.messages == map[t := m] && st.pending == [t] && st.echoed == map[t := false]
  {
    st := NotFound(m, t);
    st := OneMore(st, Queue(t, true));
    assert st.pending == [t] && st.handlers[t] == AtEcho(false);
    st := OneMore(st, Echo(t));
  }

  lemma ThenFound(a: State, m1: Message, m2: Message, c: Conn, t1: Token, t2: Token) returns (st: State)
    requires Reachable(a) && t1 != t2
    requires a.conns == map[] && a.open == {} && a.channel == [] && a.drained == [] && a.written == []
    requires a.messages == map[t1 := m1] && a.pending == [t1] && a.echoed == map[t1 := false]
    ensures Reachable(st) && At(st, c, Registered) && st.conns[c].user == m2.to && st.open == {c}
    ensures HandlerAt(st, t2) && st.handlers[t2] == AtPush(c)
    ensures st.channel == [] && st.pending == [t1] && st.written == [] && st.drained == []
    ensures st.messages == map[t1 := m1, t2 := m2] && st.echoed == map[t1 := false]
  {
    st := OneMore(a, Connect(m2.to, c));
    st := OneMore(st, Accept(t2, m2));
    st := OneMore(st, Lookup(t2));
  }

  lemma ThenLive(a: State, c: Conn, t2: Token) returns (st: State)
    requires Reachable(a) && c in a.open && HandlerAt(a, t2) && a.handlers[t2] == AtPush(c) && a.channel == []
    ensures Reachable(st)
    ensures st == a.(channel := [(c, t2)], handlers := st.handlers, pushed := st.pushed, echoed := a.echoed[t2 := true])
  {
    st := OneMore(a, Push(t2));
    st := OneMore(st, Echo(t2));
  }

  lemma WrittenBoth(a: State, m1: Message, m2: Message, c: Conn, t1: Token, t2: Token) returns (st: State)
    requires Reachable(a) && At(a, c, Registered) && a.conns[c].user == m1.to && a.open == {c}
    requires a.channel == [(c, t2)] && a.pending == [t1] && a.written == [] && a.drained == []
    requires t1 != t2 && a.messages == map[t1 := m1, t2 := m2]
    ensures Reachable(st) && st.written == [(c, t2), (c, t1)] && st.echoed == a.echoed
  {
    st := OneMore(a, Drain(c, true));
    assert [t1][1..] == [] && RowsFor(a.messages, [], m1.to) == [];
    assert RowsFor(a.messages, [t1], m1.to) == [t1] && Tag(c, [t1]) == [(c, t1)];
    assert st.drained == [(c, t1)];
    assert st.drained[0].0 == c;
    st := OneMore(st, PushDrained(c));
    assert st.channel == [(c, t2), (c, t1)] && st.drained == [];
    st := OneMore(st, Spawn(c));
    st := WriteTwo(st, c, t2, t1);
  }

  lemma WriteTwo(a: State, c: Conn, x: Token, y: Token) returns (st: State)
    requires Reachable(a) && At(a, c, Live) && c in a.open && a.channel == [(c, x), (c, y)] && a.written == []
    ensures Reachable(st) && st.written == [(c, x), (c, y)] && st.echoed == a.echoed
  {
    assert a.channel[0].0 == c;
    st := OneMore(a, WriteOut(c));
    assert st.channel == [(c, y)];
    assert st.channel[0].0 == c;
    st := OneMore(st, WriteOut(c));
  }
}
