/** What holds in every state any interleaving of the relay's steps can reach. */
module RelaySafety {
  import opened Relay

  // ── Runs ──

  ghost predicate Reaches(st: State, steps: seq<Step>, t: State)
    decreases |steps|
  {
    if |steps| == 0 then st == t
    else Enabled(st, steps[0]) && Reaches(Next(st, steps[0]), steps[1..], t)
  }

  ghost predicate Reachable(t: State) {
    exists steps: seq<Step> :: Reaches(INITIAL, steps, t)
  }

  lemma {:induction false} ReachesOneMore(st: State, steps: seq<Step>, t: State, step: Step)
    requires Reaches(st, steps, t) && Enabled(t, step)
    ensures Reaches(st, steps + [step], Next(t, step))
    decreases |steps|
  {
    if |steps| == 0 {
      assert (steps + [step])[1..] == [];
    } else {
      ReachesOneMore(Next(st, steps[0]), steps[1..], t, step);
      assert (steps + [step])[1..] == steps[1..] + [step];
    }
  }

  lemma OneMore(st: State, step: Step) returns (n: State)
    requires Reachable(st) && Enabled(st, step)
    ensures n == Next(st, step) && Reachable(n)
  {
    var steps :| Reaches(INITIAL, steps, st);
    ReachesOneMore(INITIAL, steps, st, step);
    n := Next(st, step);
  }

  lemma StepTo(st: State, step: Step, n: State)
    requires Reachable(st) && Enabled(st, step) && n == Next(st, step)
    ensures Reachable(n)
  {
    var _ := OneMore(st, step);
  }

  // ── Conservation ──

  ghost predicate Conserved(st: State) {
    && st.handlers.Keys == st.messages.Keys
    && forall t :: Places(st, t) == if t in st.messages then 1 else 0
  }

  lemma StepConserved(st: State, step: Step)
    requires Conserved(st) && Enabled(st, step)
    requires Next(st, step).handlers.Keys == Next(st, step).messages.Keys
    requires Next(st, step).messages.Keys == st.messages.Keys + if step.Accept? then {step.t} else {}
    ensures Conserved(Next(st, step))
  {
    var n := Next(st, step);
    forall t
      ensures Places(n, t) == if t in n.messages then 1 else 0
    {
      StepConserves(st, step, t);
    }
  }

  // ── Registry ──

  ghost predicate Gone(conns: map<Conn, Connection>, c: Conn) {
    c in conns && (conns[c].stage == Cleaned || conns[c].stage == Ended)
  }

  /** The registry holds exactly the most recent registrations whose own cleanup has not run. */
  ghost predicate RegistryInv(clients: map<User, Conn>, last: map<User, Conn>, conns: map<Conn, Connection>) {
    && (forall u :: u in last ==> last[u] in conns && conns[last[u]].user == u)
    && (forall u :: u in clients <==> u in last && !Gone(conns, last[u]))
    && (forall u :: u in clients ==> clients[u] == last[u])
  }

  lemma ConnectRegistry(clients: map<User, Conn>, last: map<User, Conn>, conns: map<Conn, Connection>, u: User, c: Conn)
    requires RegistryInv(clients, last, conns) && c !in conns
    ensures RegistryInv(clients[u := c], last[u := c], conns[c := Connection(u, Registered)])
  {
  }

  lemma StageRegistry(clients: map<User, Conn>, last: map<User, Conn>, conns: map<Conn, Connection>, c: Conn,
                      stage: Stage)
    requires RegistryInv(clients, last, conns) && c in conns
    requires Gone(conns, c) <==> stage == Cleaned || stage == Ended
    ensures RegistryInv(clients, last, conns[c := conns[c].(stage := stage)])
  {
  }

  lemma CleanupRegistry(clients: map<User, Conn>, last: map<User, Conn>, conns: map<Conn, Connection>, c: Conn)
    requires RegistryInv(clients, last, conns) && c in conns && conns[c].stage == Live
    ensures var u := conns[c].user;
            RegistryInv(if u in clients && clients[u] == c then clients - {u} else clients, last,
                        conns[c := conns[c].(stage := Cleaned)])
  {
  }

  // ── Addressing ──

  ghost predicate For(conns: map<Conn, Connection>, messages: map<Token, Message>, c: Conn, t: Token) {
    c in conns && t in messages && conns[c].user == messages[t].to
  }

  ghost predicate Addressed(conns: map<Conn, Connection>, messages: map<Token, Message>, s: seq<(Conn, Token)>) {
    forall x :: x in s ==> For(conns, messages, x.0, x.1)
  }

  /** A handler about to push holds a channel of its recipient. */
  ghost predicate PushAddressed(conns: map<Conn, Connection>, messages: map<Token, Message>,
                                handlers: map<Token, Handler>) {
    forall t :: t in handlers && handlers[t].AtPush? ==> For(conns, messages, handlers[t].conn, t)
  }

  ghost predicate AddressInv(conns: map<Conn, Connection>, messages: map<Token, Message>, handlers: map<Token, Handler>,
                             channel: seq<(Conn, Token)>, drained: seq<(Conn, Token)>, written: seq<(Conn, Token)>)
  {
    && Addressed(conns, messages, channel) && Addressed(conns, messages, drained) && Addressed(conns, messages, written)
    && PushAddressed(conns, messages, handlers)
  }

  lemma {:induction false} OfWithout(s: seq<(Conn, Token)>, c: Conn)
    ensures forall x :: x in Of(s, c) <==> x in s && x.0 == c
    ensures forall x :: x in Without(s, c) <==> x in s && x.0 != c
  {
    if s != [] {
      OfWithout(s[1..], c);
      assert s == [s[0]] + s[1..];
    }
  }

  lemma {:induction false} FirstOf(s: seq<(Conn, Token)>, c: Conn)
    requires Has(s, c)
    ensures (c, First(s, c)) in s
    ensures forall x :: x in RemoveFirst(s, c) ==> x in s
  {
    if s[0].0 != c {
      FirstOf(s[1..], c);
    }
  }

  lemma {:induction false} RowsOf(messages: map<Token, Message>, rows: seq<Token>, u: User)
    ensures forall t :: t in RowsFor(messages, rows, u) ==> t in rows && t in messages && messages[t].to == u
    ensures forall t :: t in RowsNotFor(messages, rows, u) ==> t in rows
  {
    if rows != [] {
      RowsOf(messages, rows[1..], u);
    }
  }

  lemma TagIn(c: Conn, ts: seq<Token>)
    ensures forall x :: x in Tag(c, ts) ==> x.0 == c && x.1 in ts
  {
  }

  // ── Channels ──

  ghost predicate AllIn(s: seq<(Conn, Token)>, cs: set<Conn>) {
    forall x :: x in s ==> x.0 in cs
  }

  ghost predicate NoneIn(s: seq<(Conn, Token)>, cs: set<Conn>) {
    forall x :: x in s ==> x.0 !in cs
  }

  ghost predicate AllAt(s: seq<(Conn, Token)>, conns: map<Conn, Connection>, stage: Stage) {
    forall x :: x in s ==> x.0 in conns && conns[x.0].stage == stage
  }

  ghost predicate EarlyOpen(conns: map<Conn, Connection>, open: set<Conn>) {
    forall c :: c in conns && (conns[c].stage == Registered || conns[c].stage == Draining) ==> c in open
  }

  /** A channel with contents is open, and what was dropped was in a channel that is closed for good. */
  ghost predicate ChannelInv(conns: map<Conn, Connection>, open: set<Conn>, channel: seq<(Conn, Token)>,
                             drained: seq<(Conn, Token)>, dropped: seq<(Conn, Token)>)
  {
    && open <= conns.Keys && AllIn(channel, open) && AllAt(drained, conns, Draining)
    && AllIn(dropped, conns.Keys) && NoneIn(dropped, open) && EarlyOpen(conns, open)
  }

  /** A connection moving on: its user stays, and its rows, if any, are still being replayed. */
  lemma StageKeeps(st: State, c: Conn, stage: Stage)
    requires ChannelInv(st.conns, st.open, st.channel, st.drained, st.dropped)
    requires AddressInv(st.conns, st.messages, st.handlers, st.channel, st.drained, st.written)
    requires c in st.conns && stage != Registered
    requires stage == Draining ==> st.conns[c].stage == Registered
    requires st.conns[c].stage == Draining ==> !Has(st.drained, c)
    ensures var conns := st.conns[c := st.conns[c].(stage := stage)];
            && ChannelInv(conns, st.open, st.channel, st.drained, st.dropped)
            && AddressInv(conns, st.messages, st.handlers, st.channel, st.drained, st.written)
  {
    assert st.conns[c].stage == Draining ==> forall x :: x in st.drained ==> x.0 != c;
  }

  lemma CloseKeeps(st: State, c: Conn)
    requires ChannelInv(st.conns, st.open, st.channel, st.drained, st.dropped)
    requires AddressInv(st.conns, st.messages, st.handlers, st.channel, st.drained, st.written)
    requires EchoInv(st.handlers, st.pushed, st.echoed, st.channel, st.written, st.dropped)
    requires c in st.conns && st.conns[c].stage != Registered && st.conns[c].stage != Draining
    ensures var n := CloseChannel(st, c);
            && ChannelInv(n.conns, n.open, n.channel, n.drained, n.dropped)
            && AddressInv(n.conns, n.messages, n.handlers, n.channel, n.drained, n.written)
            && EchoInv(n.handlers, n.pushed, n.echoed, n.channel, n.written, n.dropped)
  {
    OfWithout(st.channel, c);
    forall t | t in st.pushed
      ensures Sent(Without(st.channel, c), st.written, st.dropped + Of(st.channel, c), t) >= 1
    {
      TaggedSplit(st.channel, c, t);
      TaggedAppend(st.dropped, Of(st.channel, c), t);
    }
  }

  // ── Echoes ──

  ghost function Sent(channel: seq<(Conn, Token)>, written: seq<(Conn, Token)>, dropped: seq<(Conn, Token)>,
                      t: Token): nat {
    Tagged(channel, t) + Tagged(written, t) + Tagged(dropped, t)
  }

  /** Each handler's own view of whether it has pushed, and what it told the sender. */
  ghost predicate Told(handlers: map<Token, Handler>, pushed: set<Token>, echoed: map<Token, bool>) {
    && pushed <= handlers.Keys && echoed.Keys <= handlers.Keys
    && forall t :: t in handlers ==>
         match handlers[t]
         case AtEcho(d) => (d <==> t in pushed) && t !in echoed
         case Done => t in echoed && (echoed[t] <==> t in pushed)
         case _ => t !in pushed && t !in echoed
  }

  /** `delivered` is told true exactly for what was pushed, and what was pushed is on its way. */
  ghost predicate EchoInv(handlers: map<Token, Handler>, pushed: set<Token>, echoed: map<Token, bool>,
                          channel: seq<(Conn, Token)>, written: seq<(Conn, Token)>, dropped: seq<(Conn, Token)>)
  {
    Told(handlers, pushed, echoed) && forall t :: t in pushed ==> Sent(channel, written, dropped, t) >= 1
  }

  // ── The unique index ──

  ghost predicate SameId(messages: map<Token, Message>, r: Token, t: Token) {
    && r in messages && t in messages && r != t
    && messages[r].to == messages[t].to && messages[r].clientId == messages[t].clientId && messages[t].clientId.Some?
  }

  ghost predicate Rows(messages: map<Token, Message>, rows: seq<Token>) {
    && (forall t :: t in rows ==> t in messages)
    && (forall i, j :: 0 <= i < j < |rows| ==> !SameId(messages, rows[i], rows[j]))
  }

  ghost predicate Excused(messages: map<Token, Message>, absorbed: seq<Token>) {
    forall t :: t in absorbed ==> exists r :: SameId(messages, r, t)
  }

  ghost predicate Released(handlers: map<Token, Handler>, rows: seq<Token>) {
    forall t :: t in rows ==> t in handlers && (handlers[t].AtEcho? || handlers[t].Done?)
  }

  /** No two rows of a recipient share a client id, and a message is left out of the queue by the index
      only if another accepted one carried its id. */
  ghost predicate QueueInv(messages: map<Token, Message>, handlers: map<Token, Handler>, pending: seq<Token>,
                           absorbed: seq<Token>) {
    Rows(messages, pending) && Excused(messages, absorbed) && Released(handlers, pending)
  }

  lemma {:induction false} RowsKept(messages: map<Token, Message>, rows: seq<Token>, u: User)
    requires Rows(messages, rows)
    ensures Rows(messages, RowsNotFor(messages, rows, u))
  {
    if rows != [] {
      var tail := rows[1..];
      assert forall t :: t in tail ==> t in rows;
      RowsKept(messages, tail, u);
      RowsOf(messages, tail, u);
      var s, r := RowsNotFor(messages, rows, u), RowsNotFor(messages, tail, u);
      if s == [rows[0]] + r {
        forall i, j | 0 <= i < j < |s|
          ensures !SameId(messages, s[i], s[j])
        {
          assert s[j] == r[j-1] && r[j-1] in r;
          if i == 0 {
            var k :| 0 <= k < |tail| && tail[k] == s[j];
            assert rows[k + 1] == s[j];
          } else {
            assert s[i] == r[i-1];
          }
        }
      }
    }
  }

  lemma RowsMore(messages: map<Token, Message>, x: Token, m: Message, rows: seq<Token>, absorbed: seq<Token>)
    requires Rows(messages, rows) && Excused(messages, absorbed) && x !in messages
    ensures Rows(messages[x := m], rows) && Excused(messages[x := m], absorbed)
  {
    forall i, j | 0 <= i < j < |rows|
      ensures !SameId(messages[x := m], rows[i], rows[j])
    {
      assert rows[i] in rows && rows[j] in rows && !SameId(messages, rows[i], rows[j]);
    }
    var more := messages[x := m];
    forall t | t in absorbed
      ensures exists r :: SameId(more, r, t)
    {
      var r :| SameId(messages, r, t);
      assert SameId(more, r, t);
    }
  }

  lemma QueueRows(st: State, x: Token)
    requires QueueInv(st.messages, st.handlers, st.pending, st.absorbed) && HandlerAt(st, x)
    requires st.handlers[x] == AtQueue
    ensures if Conflicts(st.messages, st.pending, x) then Excused(st.messages, st.absorbed + [x])
            else Rows(st.messages, st.pending + [x])
  {
    if Conflicts(st.messages, st.pending, x) {
      var r :| r in st.pending && r in st.messages && st.messages[r].to == st.messages[x].to
               && st.messages[r].clientId == st.messages[x].clientId;
      assert SameId(st.messages, r, x);
    } else {
      var rows := st.pending + [x];
      forall i, j | 0 <= i < j < |rows|
        ensures !SameId(st.messages, rows[i], rows[j])
      {
        if j == |st.pending| {
          assert rows[i] in st.pending;
        }
      }
    }
  }

  // ── Every reachable state ──

  ghost predicate Safe(st: State) {
    && st.handlers.Keys == st.messages.Keys
    && RegistryInv(st.clients, st.lastRegistered, st.conns)
    && AddressInv(st.conns, st.messages, st.handlers, st.channel, st.drained, st.written)
    && ChannelInv(st.conns, st.open, st.channel, st.drained, st.dropped)
    && EchoInv(st.handlers, st.pushed, st.echoed, st.channel, st.written, st.dropped)
    && QueueInv(st.messages, st.handlers, st.pending, st.absorbed)
  }

  ghost predicate Inv(st: State) {
    Conserved(st) && Safe(st)
  }

  lemma ConnectInv(st: State, u: User, c: Conn)
    requires Safe(st) && c !in st.conns
    ensures Safe(ConnectNext(st, u, c))
  {
    ConnectRegistry(st.clients, st.lastRegistered, st.conns, u, c);
  }

  lemma DrainInv(st: State, c: Conn, ok: bool)
    requires Safe(st) && At(st, c, Registered)
    ensures Safe(DrainNext(st, c, ok))
  {
    StageRegistry(st.clients, st.lastRegistered, st.conns, c, Draining);
    StageKeeps(st, c, Draining);
    RowsOf(st.messages, st.pending, st.conns[c].user);
    TagIn(c, RowsFor(st.messages, st.pending, st.conns[c].user));
    RowsKept(st.messages, st.pending, st.conns[c].user);
  }

  lemma PushDrainedInv(st: State, c: Conn)
    requires Safe(st) && At(st, c, Draining) && Has(st.drained, c)
    ensures Safe(PushDrainedNext(st, c))
  {
    FirstOf(st.drained, c);
    forall t
      ensures Tagged(st.channel + [(c, First(st.drained, c))], t) >= Tagged(st.channel, t)
    {
      TaggedPush(st.channel, c, First(st.drained, c), t);
    }
  }

  lemma SpawnInv(st: State, c: Conn)
    requires Safe(st) && At(st, c, Draining) && !Has(st.drained, c)
    ensures Safe(SetStage(st, c, Live))
  {
    StageRegistry(st.clients, st.lastRegistered, st.conns, c, Live);
    StageKeeps(st, c, Live);
  }

  lemma WriteOutInv(st: State, c: Conn)
    requires Safe(st) && Has(st.channel, c)
    ensures Safe(WriteOutNext(st, c))
  {
    FirstOf(st.channel, c);
    var rest, more := RemoveFirst(st.channel, c), st.written + [(c, First(st.channel, c))];
    forall t
      ensures Sent(rest, more, st.dropped, t) == Sent(st.channel, st.written, st.dropped, t)
    {
      TaggedRemoveFirst(st.channel, c, t);
      TaggedPush(st.written, c, First(st.channel, c), t);
    }
  }

  lemma WriteFailsInv(st: State, c: Conn)
    requires Safe(st) && (At(st, c, Live) || At(st, c, Cleaned))
    ensures Safe(CloseChannel(st, c))
  {
    CloseKeeps(st, c);
  }

  lemma CleanupInv(st: State, c: Conn)
    requires Safe(st) && At(st, c, Live)
    ensures Safe(CleanupNext(st, c))
  {
    CleanupRegistry(st.clients, st.lastRegistered, st.conns, c);
    StageKeeps(st, c, Cleaned);
  }

  lemma AbortInv(st: State, c: Conn)
    requires Safe(st) && At(st, c, Cleaned)
    ensures Safe(CloseChannel(SetStage(st, c, Ended), c))
  {
    StageRegistry(st.clients, st.lastRegistered, st.conns, c, Ended);
    StageKeeps(st, c, Ended);
    CloseKeeps(SetStage(st, c, Ended), c);
  }

  lemma AcceptInv(st: State, t: Token, m: Message)
    requires Safe(st) && t !in st.messages
    ensures Safe(AcceptNext(st, t, m))
  {
    RowsMore(st.messages, t, m, st.pending, st.absorbed);
  }

  lemma LookupInv(st: State, t: Token)
    requires Safe(st) && HandlerAt(st, t) && st.handlers[t] == AtLookup
    ensures Safe(LookupNext(st, t))
  {
  }

  /** A handler that still has its message in hand moves on without having pushed it. */
  lemma MovesOn(st: State, t: Token, h: Handler)
    requires Told(st.handlers, st.pushed, st.echoed) && InHand(st, t)
    requires h == AtQueue || h == AtEcho(false)
    ensures Told(st.handlers[t := h], st.pushed, st.echoed)
  {
  }

  lemma PushedEcho(st: State, t: Token, c: Conn)
    requires EchoInv(st.handlers, st.pushed, st.echoed, st.channel, st.written, st.dropped) && InHand(st, t)
    ensures EchoInv(st.handlers[t := AtEcho(true)], st.pushed + {t}, st.echoed,
                    st.channel + [(c, t)], st.written, st.dropped)
  {
    forall x
      ensures Tagged(st.channel + [(c, t)], x) == Tagged(st.channel, x) + if t == x then 1 else 0
    {
      TaggedPush(st.channel, c, t, x);
    }
  }

  lemma PushInv(st: State, t: Token)
    requires Safe(st) && HandlerAt(st, t) && st.handlers[t].AtPush?
    ensures Safe(PushNext(st, t, st.handlers[t].conn))
  {
    if st.handlers[t].conn in st.open {
      PushedEcho(st, t, st.handlers[t].conn);
    } else {
      MovesOn(st, t, AtQueue);
    }
  }

  lemma QueueQueues(st: State, t: Token, ok: bool)
    requires QueueInv(st.messages, st.handlers, st.pending, st.absorbed) && HandlerAt(st, t)
    requires st.handlers[t] == AtQueue
    ensures var n := QueueNext(st, t, ok); QueueInv(n.messages, n.handlers, n.pending, n.absorbed)
  {
    QueueRows(st, t);
    var done := st.handlers[t := AtEcho(false)];
    assert Released(done, st.pending) && Released(done, st.pending + [t]);
  }

  lemma QueueStepInv(st: State, t: Token, ok: bool)
    requires Safe(st) && HandlerAt(st, t) && st.handlers[t] == AtQueue
    ensures Safe(QueueNext(st, t, ok))
  {
    QueueQueues(st, t, ok);
    MovesOn(st, t, AtEcho(false));
  }

  lemma EchoStepInv(st: State, t: Token)
    requires Safe(st) && HandlerAt(st, t) && st.handlers[t].AtEcho?
    ensures Safe(EchoNext(st, t, st.handlers[t].delivered))
  {
  }

  lemma KeysKept(st: State, step: Step)
    requires Enabled(st, step)
    ensures Next(st, step).messages.Keys == st.messages.Keys + if step.Accept? then {step.t} else {}
  {
    match step {
      case Connect(u, c) =>
      case Drain(c, ok) =>
      case PushDrained(c) =>
      case Spawn(c) =>
      case WriteOut(c) =>
      case WriteFails(c) =>
      case Cleanup(c) =>
      case Abort(c) =>
      case Accept(t, m) =>
      case Lookup(t) =>
      case Push(t) =>
      case Queue(t, ok) =>
      case Echo(t) =>
    }
  }

  lemma StepSafe(st: State, step: Step)
    requires Safe(st) && Enabled(st, step)
    ensures Safe(Next(st, step))
  {
    match step {
      case Connect(u, c) => ConnectInv(st, u, c);
      case Drain(c, ok) => DrainInv(st, c, ok);
      case PushDrained(c) => PushDrainedInv(st, c);
      case Spawn(c) => SpawnInv(st, c);
      case WriteOut(c) => WriteOutInv(st, c);
      case WriteFails(c) => WriteFailsInv(st, c);
      case Cleanup(c) => CleanupInv(st, c);
      case Abort(c) => AbortInv(st, c);
      case Accept(t, m) => AcceptInv(st, t, m);
      case Lookup(t) => LookupInv(st, t);
      case Push(t) => PushInv(st, t);
      case Queue(t, ok) => QueueStepInv(st, t, ok);
      case Echo(t) => EchoStepInv(st, t);
    }
  }

  lemma StepInv(st: State, step: Step)
    requires Inv(st) && Enabled(st, step)
    ensures Inv(Next(st, step))
  {
    StepSafe(st, step);
    KeysKept(st, step);
    StepConserved(st, step);
  }

  lemma {:induction false} RunInv(st: State, steps: seq<Step>, t: State)
    requires Inv(st) && Reaches(st, steps, t)
    ensures Inv(t)
    decreases |steps|
  {
    if |steps| != 0 {
      StepInv(st, steps[0]);
      RunInv(Next(st, steps[0]), steps[1..], t);
    }
  }

  lemma ReachableInv(st: State)
    requires Reachable(st)
    ensures Inv(st)
  {
    var steps :| Reaches(INITIAL, steps, st);
    assert Inv(INITIAL);
    RunInv(INITIAL, steps, st);
  }

  // ── Main results ──

  /** In every interleaving each accepted message is in exactly one place, and no other message is anywhere. */
  lemma ExactlyOnePlace(st: State, t: Token)
    requires Reachable(st)
    ensures Places(st, t) == if t in st.messages then 1 else 0
  {
    ReachableInv(st);
  }

  /** The echo says delivered exactly when the message was pushed to a channel; then it is in that channel,
      written out, or lost with a closed channel. Told undelivered, it is queued, being replayed or
      replayed already, or was kept out of the queue. */
  lemma EchoExact(st: State, t: Token)
    requires Reachable(st) && t in st.echoed
    ensures st.echoed[t] <==> t in st.pushed
    ensures st.echoed[t] ==> Sent(st.channel, st.written, st.dropped, t) == 1
    ensures Sent(st.channel, st.written, st.dropped, t) + Count(st.pending, t) + Tagged(st.drained, t)
            + Count(st.absorbed, t) + Count(st.failed, t) == 1
  {
    ReachableInv(st);
    assert Places(st, t) == 1;
  }

  /** The registry entry of a user is the most recent registration, and is absent only if that very
      session has run its cleanup: cleanup of a superseded session never removes it. */
  lemma RegistryExact(st: State, u: User)
    requires Reachable(st)
    ensures u in st.clients <==> u in st.lastRegistered && !Gone(st.conns, st.lastRegistered[u])
    ensures u in st.clients ==> st.clients[u] == st.lastRegistered[u]
  {
    ReachableInv(st);
  }

  /** Nothing is ever written to, or waits for, a connection of anyone but its recipient. */
  lemma OnlyToRecipient(st: State, i: nat)
    requires Reachable(st) && i < |st.written|
    ensures For(st.conns, st.messages, st.written[i].0, st.written[i].1)
  {
    ReachableInv(st);
    assert st.written[i] in st.written;
  }

  /** With client ids that are fresh for each recipient, the unique index never turns a message away. */
  lemma FreshIdsAllQueue(st: State)
    requires Reachable(st)
    requires forall r, t :: !SameId(st.messages, r, t)
    ensures forall t :: t !in st.absorbed
  {
    ReachableInv(st);
  }

  /** While a message is lost its channel is closed: nothing in an open channel is dropped. */
  lemma DroppedOnlyWhenClosed(st: State, i: nat)
    requires Reachable(st) && i < |st.dropped|
    ensures st.dropped[i].0 !in st.open
  {
    ReachableInv(st);
    assert st.dropped[i] in st.dropped;
  }
}
