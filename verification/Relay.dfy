/** The message relay of `server/src/router.rs`: live-session registry, per-connection channels, the
    offline queue and its drain, as atomic steps of many handlers in any interleaving. */
module Relay {
  import opened Crypto

  type User = nat
  type Conn = nat
  /** One accepted SendMessage command; the server runs it once, whatever id the client gave it. */
  type Token = nat

  datatype Message = Message(from: User, to: User, clientId: Option<nat>)

  /** Where a SendMessage handler stands (router.rs:942-984). */
  datatype Handler = AtLookup | AtPush(conn: Conn) | AtQueue | AtEcho(delivered: bool) | Done

  /** Where a socket handler stands (router.rs:250-408). */
  datatype Stage = Registered | Draining | Live | Cleaned | Ended

  datatype Connection = Connection(user: User, stage: Stage)

  datatype State = State(
    clients: map<User, Conn>,          // the registry
    conns: map<Conn, Connection>,
    open: set<Conn>,                   // channels whose receiver exists
    channel: seq<(Conn, Token)>,       // contents of all channels, in push order
    pending: seq<Token>,               // rows of pending_messages, oldest first
    drained: seq<(Conn, Token)>,       // rows deleted by a drain and not pushed yet
    handlers: map<Token, Handler>,
    messages: map<Token, Message>,
    written: seq<(Conn, Token)>,       // sent on a socket
    dropped: seq<(Conn, Token)>,       // lost with a closed channel
    absorbed: seq<Token>,              // not queued: ON CONFLICT DO NOTHING
    failed: seq<Token>,                // not queued: the insert failed and was only logged
    echoed: map<Token, bool>,          // `delivered` in the echo to the sender
    lastRegistered: map<User, Conn>,   // bookkeeping: the most recent registration of each user
    pushed: set<Token>)                // bookkeeping: pushed to a channel by its SendMessage handler

  const INITIAL := State(map[], map[], {}, [], [], [], map[], map[], [], [], [], [], map[], map[], {})

  datatype Step =
    | Connect(u: User, c: Conn)
    | Drain(c: Conn, ok: bool)
    | PushDrained(c: Conn)
    | Spawn(c: Conn)
    | WriteOut(c: Conn)
    | WriteFails(c: Conn)
    | Cleanup(c: Conn)
    | Abort(c: Conn)
    | Accept(t: Token, m: Message)
    | Lookup(t: Token)
    | Push(t: Token)
    | Queue(t: Token, ok: bool)
    | Echo(t: Token)

  // ── Tagged sequences ──

  function Has(s: seq<(Conn, Token)>, c: Conn): bool {
    exists i :: 0 <= i < |s| && s[i].0 == c
  }

  /** The contents of one channel, oldest first. */
  function Of(s: seq<(Conn, Token)>, c: Conn): seq<(Conn, Token)> {
    if s == [] then [] else if s[0].0 == c then [s[0]] + Of(s[1..], c) else Of(s[1..], c)
  }

  function Without(s: seq<(Conn, Token)>, c: Conn): seq<(Conn, Token)> {
    if s == [] then [] else if s[0].0 == c then Without(s[1..], c) else [s[0]] + Without(s[1..], c)
  }

  function First(s: seq<(Conn, Token)>, c: Conn): Token
    requires Has(s, c)
  {
    if s[0].0 == c then s[0].1 else First(s[1..], c)
  }

  function RemoveFirst(s: seq<(Conn, Token)>, c: Conn): seq<(Conn, Token)> {
    if s == [] then [] else if s[0].0 == c then s[1..] else [s[0]] + RemoveFirst(s[1..], c)
  }

  lemma {:induction false} FirstSplits(s: seq<(Conn, Token)>, c: Conn)
    requires Has(s, c)
    ensures Of(s, c) == [(c, First(s, c))] + Of(RemoveFirst(s, c), c)
    ensures Without(s, c) == Without(RemoveFirst(s, c), c)
    ensures |RemoveFirst(s, c)| < |s|
  {
    if s[0].0 != c {
      FirstSplits(s[1..], c);
      assert RemoveFirst(s, c)[1..] == RemoveFirst(s[1..], c);
    }
  }

  lemma {:induction false} NothingTaken(s: seq<(Conn, Token)>, c: Conn)
    requires !Has(s, c)
    ensures Of(s, c) == [] && Without(s, c) == s
  {
    if s != [] {
      assert s[0].0 != c;
      assert !Has(s[1..], c) by {
        assert forall i :: 0 <= i < |s[1..]| ==> s[1..][i] == s[i + 1];
      }
      NothingTaken(s[1..], c);
    }
  }

  lemma {:induction false} OfAppend(a: seq<(Conn, Token)>, b: seq<(Conn, Token)>, c: Conn)
    ensures Of(a + b, c) == Of(a, c) + Of(b, c)
  {
    if a == [] {
      assert a + b == b;
    } else {
      OfAppend(a[1..], b, c);
      assert (a + b)[1..] == a[1..] + b && (a + b)[0] == a[0];
      if a[0].0 == c {
        assert [a[0]] + (Of(a[1..], c) + Of(b, c)) == ([a[0]] + Of(a[1..], c)) + Of(b, c);
      }
    }
  }

  lemma {:induction false} OfTag(c: Conn, ts: seq<Token>)
    ensures Of(Tag(c, ts), c) == Tag(c, ts)
  {
    if ts != [] {
      OfTag(c, ts[1..]);
      assert Tag(c, ts)[1..] == Tag(c, ts[1..]);
    }
  }

  lemma {:induction false} OfOf(s: seq<(Conn, Token)>, c: Conn)
    ensures Of(Of(s, c), c) == Of(s, c)
  {
    if s != [] {
      OfOf(s[1..], c);
      if s[0].0 == c {
        assert Of(s, c)[1..] == Of(s[1..], c);
      }
    }
  }

  // ── The queue ──

  /** The rows of one recipient, oldest first. */
  function RowsFor(messages: map<Token, Message>, rows: seq<Token>, u: User): seq<Token> {
    if rows == [] then []
    else if rows[0] in messages && messages[rows[0]].to == u then [rows[0]] + RowsFor(messages, rows[1..], u)
    else RowsFor(messages, rows[1..], u)
  }

  function RowsNotFor(messages: map<Token, Message>, rows: seq<Token>, u: User): seq<Token> {
    if rows == [] then []
    else if rows[0] in messages && messages[rows[0]].to == u then RowsNotFor(messages, rows[1..], u)
    else [rows[0]] + RowsNotFor(messages, rows[1..], u)
  }

  function Tag(c: Conn, ts: seq<Token>): seq<(Conn, Token)> {
    seq(|ts|, i requires 0 <= i < |ts| => (c, ts[i]))
  }

  /** The unique index on (recipient, client_msg_id), for rows that have a client id. */
  predicate Conflicts(messages: map<Token, Message>, pending: seq<Token>, t: Token)
    requires t in messages
  {
    messages[t].clientId.Some? &&
    exists r :: r in pending && r in messages && messages[r].to == messages[t].to
                && messages[r].clientId == messages[t].clientId
  }

  // ── Steps ──

  predicate At(st: State, c: Conn, stage: Stage) {
    c in st.conns && st.conns[c].stage == stage
  }

  predicate HandlerAt(st: State, t: Token) {
    t in st.handlers && t in st.messages
  }

  predicate Enabled(st: State, step: Step) {
    match step
    case Connect(u, c) => c !in st.conns
    case Drain(c, ok) => At(st, c, Registered)
    case PushDrained(c) => At(st, c, Draining) && Has(st.drained, c)
    case Spawn(c) => At(st, c, Draining) && !Has(st.drained, c)
    case WriteOut(c) => (At(st, c, Live) || At(st, c, Cleaned)) && c in st.open && Has(st.channel, c)
    case WriteFails(c) => (At(st, c, Live) || At(st, c, Cleaned)) && c in st.open && Has(st.channel, c)
    case Cleanup(c) => At(st, c, Live)
    case Abort(c) => At(st, c, Cleaned)
    case Accept(t, m) => t !in st.messages
    case Lookup(t) => HandlerAt(st, t) && st.handlers[t] == AtLookup
    case Push(t) => HandlerAt(st, t) && st.handlers[t].AtPush?
    case Queue(t, ok) => HandlerAt(st, t) && st.handlers[t] == AtQueue
    case Echo(t) => HandlerAt(st, t) && st.handlers[t].AtEcho?
  }

  function SetStage(st: State, c: Conn, stage: Stage): State
    requires c in st.conns
  {
    st.(conns := st.conns[c := st.conns[c].(stage := stage)])
  }

  /** Insert into the registry under the write lock; a new channel is open and empty. */
  function ConnectNext(st: State, u: User, c: Conn): State {
    st.(clients := st.clients[u := c], conns := st.conns[c := Connection(u, Registered)], open := st.open + {c},
        lastRegistered := st.lastRegistered[u := c])
  }

  /** One DELETE ... RETURNING takes all rows of the user; on an error none. */
  function DrainNext(st: State, c: Conn, ok: bool): State
    requires c in st.conns
  {
    var s := SetStage(st, c, Draining);
    if ok then
      var u := st.conns[c].user;
      s.(drained := st.drained + Tag(c, RowsFor(st.messages, st.pending, u)),
         pending := RowsNotFor(st.messages, st.pending, u))
    else s
  }

  /** The receiver is still held by this handler, so the push cannot fail. */
  function PushDrainedNext(st: State, c: Conn): State
    requires Has(st.drained, c)
  {
    st.(channel := st.channel + [(c, First(st.drained, c))], drained := RemoveFirst(st.drained, c))
  }

  function WriteOutNext(st: State, c: Conn): State
    requires Has(st.channel, c)
  {
    st.(written := st.written + [(c, First(st.channel, c))], channel := RemoveFirst(st.channel, c))
  }

  /** The receiver goes away with whatever it had not forwarded, including a message in hand. */
  function CloseChannel(st: State, c: Conn): State {
    st.(open := st.open - {c}, channel := Without(st.channel, c), dropped := st.dropped + Of(st.channel, c))
  }

  /** Remove the registry entry only while it is still this session's. */
  function CleanupNext(st: State, c: Conn): State
    requires c in st.conns
  {
    var u := st.conns[c].user;
    var s := SetStage(st, c, Cleaned);
    if u in st.clients && st.clients[u] == c then s.(clients := st.clients - {u}) else s
  }

  function AcceptNext(st: State, t: Token, m: Message): State {
    st.(messages := st.messages[t := m], handlers := st.handlers[t := AtLookup])
  }

  function LookupNext(st: State, t: Token): State
    requires t in st.messages
  {
    var u := st.messages[t].to;
    st.(handlers := st.handlers[t := if u in st.clients then AtPush(st.clients[u]) else AtQueue])
  }

  function PushNext(st: State, t: Token, c: Conn): State {
    if c in st.open then
      st.(channel := st.channel + [(c, t)], handlers := st.handlers[t := AtEcho(true)], pushed := st.pushed + {t})
    else st.(handlers := st.handlers[t := AtQueue])
  }

  function QueueNext(st: State, t: Token, ok: bool): State
    requires t in st.messages
  {
    var conflict := Conflicts(st.messages, st.pending, t);
    st.(handlers := st.handlers[t := AtEcho(false)],
        failed := if ok then st.failed else st.failed + [t],
        absorbed := if ok && conflict then st.absorbed + [t] else st.absorbed,
        pending := if ok && !conflict then st.pending + [t] else st.pending)
  }

  function EchoNext(st: State, t: Token, delivered: bool): State {
    st.(handlers := st.handlers[t := Done], echoed := st.echoed[t := delivered])
  }

  function Next(st: State, step: Step): State
    requires Enabled(st, step)
  {
    match step
    case Connect(u, c) => ConnectNext(st, u, c)
    case Drain(c, ok) => DrainNext(st, c, ok)
    case PushDrained(c) => PushDrainedNext(st, c)
    case Spawn(c) => SetStage(st, c, Live)
    case WriteOut(c) => WriteOutNext(st, c)
    case WriteFails(c) => CloseChannel(st, c)
    case Cleanup(c) => CleanupNext(st, c)
    case Abort(c) => CloseChannel(SetStage(st, c, Ended), c)
    case Accept(t, m) => AcceptNext(st, t, m)
    case Lookup(t) => LookupNext(st, t)
    case Push(t) => PushNext(st, t, st.handlers[t].conn)
    case Queue(t, ok) => QueueNext(st, t, ok)
    case Echo(t) => EchoNext(st, t, st.handlers[t].delivered)
  }

  // ── Conservation ──

  ghost function Tagged(s: seq<(Conn, Token)>, t: Token): nat {
    if s == [] then 0 else (if s[0].1 == t then 1 else 0) + Tagged(s[1..], t)
  }

  ghost function Count(s: seq<Token>, t: Token): nat {
    if s == [] then 0 else (if s[0] == t then 1 else 0) + Count(s[1..], t)
  }

  /** A handler still has the message in hand. */
  ghost predicate InHand(st: State, t: Token) {
    t in st.handlers && !st.handlers[t].AtEcho? && !st.handlers[t].Done?
  }

  /** In how many places the message is: a handler, a channel, a pending row, a row being replayed, the
      socket, lost with a closed channel, not queued because of the unique index, or because of an error. */
  ghost function Places(st: State, t: Token): nat {
    (if InHand(st, t) then 1 else 0) + Tagged(st.channel, t) + Count(st.pending, t) + Tagged(st.drained, t)
    + Tagged(st.written, t) + Tagged(st.dropped, t) + Count(st.absorbed, t) + Count(st.failed, t)
  }

  lemma {:induction false} TaggedAppend(a: seq<(Conn, Token)>, b: seq<(Conn, Token)>, t: Token)
    ensures Tagged(a + b, t) == Tagged(a, t) + Tagged(b, t)
  {
    if a == [] {
      assert a + b == b;
    } else {
      TaggedAppend(a[1..], b, t);
      assert (a + b)[1..] == a[1..] + b;
    }
  }

  lemma {:induction false} CountAppend(a: seq<Token>, x: Token, t: Token)
    ensures Count(a + [x], t) == Count(a, t) + if x == t then 1 else 0
  {
    if a == [] {
      assert a + [x] == [x];
    } else {
      CountAppend(a[1..], x, t);
      assert (a + [x])[1..] == a[1..] + [x];
    }
  }

  lemma {:induction false} TaggedSplit(s: seq<(Conn, Token)>, c: Conn, t: Token)
    ensures Tagged(Of(s, c), t) + Tagged(Without(s, c), t) == Tagged(s, t)
  {
    if s != [] {
      TaggedSplit(s[1..], c, t);
      if s[0].0 == c {
        assert Of(s, c)[1..] == Of(s[1..], c);
      } else {
        assert Without(s, c)[1..] == Without(s[1..], c);
      }
    }
  }

  lemma {:induction false} TaggedRemoveFirst(s: seq<(Conn, Token)>, c: Conn, t: Token)
    requires Has(s, c)
    ensures Tagged(s, t) == Tagged(RemoveFirst(s, c), t) + if First(s, c) == t then 1 else 0
  {
    if s[0].0 != c {
      TaggedRemoveFirst(s[1..], c, t);
      assert RemoveFirst(s, c)[1..] == RemoveFirst(s[1..], c);
    }
  }

  lemma {:induction false} RowsSplit(messages: map<Token, Message>, rows: seq<Token>, u: User, t: Token)
    ensures Count(RowsFor(messages, rows, u), t) + Count(RowsNotFor(messages, rows, u), t) == Count(rows, t)
  {
    if rows != [] {
      RowsSplit(messages, rows[1..], u, t);
      if rows[0] in messages && messages[rows[0]].to == u {
        assert RowsFor(messages, rows, u)[1..] == RowsFor(messages, rows[1..], u);
      } else {
        assert RowsNotFor(messages, rows, u)[1..] == RowsNotFor(messages, rows[1..], u);
      }
    }
  }

  lemma {:induction false} TaggedTag(c: Conn, ts: seq<Token>, t: Token)
    ensures Tagged(Tag(c, ts), t) == Count(ts, t)
  {
    if ts != [] {
      TaggedTag(c, ts[1..], t);
      assert Tag(c, ts)[1..] == Tag(c, ts[1..]);
    }
  }

  lemma TaggedPush(s: seq<(Conn, Token)>, c: Conn, x: Token, t: Token)
    ensures Tagged(s + [(c, x)], t) == Tagged(s, t) + if x == t then 1 else 0
  {
    TaggedAppend(s, [(c, x)], t);
    assert Tagged([(c, x)][1..], t) == 0;
  }

  lemma DrainConserves(st: State, c: Conn, ok: bool, t: Token)
    requires c in st.conns
    ensures Places(DrainNext(st, c, ok), t) == Places(st, t)
  {
    var rows := RowsFor(st.messages, st.pending, st.conns[c].user);
    RowsSplit(st.messages, st.pending, st.conns[c].user, t);
    TaggedTag(c, rows, t);
    TaggedAppend(st.drained, Tag(c, rows), t);
  }

  lemma PushDrainedConserves(st: State, c: Conn, t: Token)
    requires Has(st.drained, c)
    ensures Places(PushDrainedNext(st, c), t) == Places(st, t)
  {
    TaggedRemoveFirst(st.drained, c, t);
    TaggedPush(st.channel, c, First(st.drained, c), t);
  }

  lemma WriteOutConserves(st: State, c: Conn, t: Token)
    requires Has(st.channel, c)
    ensures Places(WriteOutNext(st, c), t) == Places(st, t)
  {
    TaggedRemoveFirst(st.channel, c, t);
    TaggedPush(st.written, c, First(st.channel, c), t);
  }

  lemma CloseConserves(st: State, c: Conn, t: Token)
    ensures Places(CloseChannel(st, c), t) == Places(st, t)
  {
    TaggedSplit(st.channel, c, t);
    TaggedAppend(st.dropped, Of(st.channel, c), t);
  }

  lemma PushConserves(st: State, x: Token, c: Conn, t: Token)
    requires InHand(st, x)
    ensures Places(PushNext(st, x, c), t) == Places(st, t)
  {
    TaggedPush(st.channel, c, x, t);
    if c in st.open {
      assert InHand(PushNext(st, x, c), t) <==> InHand(st, t) && t != x;
    } else {
      assert InHand(PushNext(st, x, c), t) <==> InHand(st, t);
    }
  }

  lemma QueueConserves(st: State, x: Token, ok: bool, t: Token)
    requires x in st.messages && InHand(st, x)
    ensures Places(QueueNext(st, x, ok), t) == Places(st, t)
  {
    assert InHand(QueueNext(st, x, ok), t) <==> InHand(st, t) && t != x;
    if !ok {
      CountAppend(st.failed, x, t);
    } else if Conflicts(st.messages, st.pending, x) {
      CountAppend(st.absorbed, x, t);
    } else {
      CountAppend(st.pending, x, t);
    }
  }

  lemma AcceptAdds(st: State, x: Token, m: Message, t: Token)
    requires x !in st.handlers
    ensures Places(AcceptNext(st, x, m), t) == Places(st, t) + if x == t then 1 else 0
  {
  }

  /** A handler that keeps its message in hand, or has none, moves on. */
  lemma HandlerConserves(st: State, x: Token, h: Handler, t: Token)
    requires InHand(st, x) <==> !h.AtEcho? && !h.Done?
    requires x in st.handlers
    ensures Places(st.(handlers := st.handlers[x := h]), t) == Places(st, t)
  {
    var n := st.(handlers := st.handlers[x := h]);
    assert InHand(n, t) <==> InHand(st, t);
  }

  lemma LookupConserves(st: State, x: Token, t: Token)
    requires HandlerAt(st, x) && st.handlers[x] == AtLookup
    ensures Places(LookupNext(st, x), t) == Places(st, t)
  {
    HandlerConserves(st, x, LookupNext(st, x).handlers[x], t);
  }

  lemma EchoConserves(st: State, x: Token, t: Token)
    requires HandlerAt(st, x) && st.handlers[x].AtEcho?
    ensures Places(EchoNext(st, x, st.handlers[x].delivered), t) == Places(st, t)
  {
    HandlerConserves(st, x, Done, t);
  }

  lemma CleanupConserves(st: State, c: Conn, t: Token)
    requires c in st.conns
    ensures Places(CleanupNext(st, c), t) == Places(st, t)
  {
    PlacesDepend(st, CleanupNext(st, c), t);
  }

  lemma PlacesDepend(st: State, n: State, t: Token)
    requires n.handlers == st.handlers && n.channel == st.channel && n.pending == st.pending && n.drained == st.drained
    requires n.written == st.written && n.dropped == st.dropped && n.absorbed == st.absorbed && n.failed == st.failed
    ensures Places(n, t) == Places(st, t)
  {
  }

  /** No step creates, duplicates or loses track of a message: only accepting one adds to the count. */
  lemma StepConserves(st: State, step: Step, t: Token)
    requires Enabled(st, step) && st.handlers.Keys == st.messages.Keys
    ensures Places(Next(st, step), t) == Places(st, t) + if step.Accept? && step.t == t then 1 else 0
  {
    match step {
      case Connect(u, c) =>
      case Drain(c, ok) => DrainConserves(st, c, ok, t);
      case PushDrained(c) => PushDrainedConserves(st, c, t);
      case Spawn(c) =>
      case WriteOut(c) => WriteOutConserves(st, c, t);
      case WriteFails(c) => CloseConserves(st, c, t);
      case Cleanup(c) => CleanupConserves(st, c, t);
      case Abort(c) => CloseConserves(SetStage(st, c, Ended), c, t);
      case Accept(x, m) => AcceptAdds(st, x, m, t);
      case Lookup(x) => LookupConserves(st, x, t);
      case Push(x) => PushConserves(st, x, st.handlers[x].conn, t);
      case Queue(x, ok) => QueueConserves(st, x, ok, t);
      case Echo(x) => EchoConserves(st, x, t);
    }
  }
}
