/** The offline queue is first in, first out: what a drain takes, and in which order it is written. */
module RelayQueue {
  import opened Relay
  import opened RelaySafety
  import opened RelayOrder
  import opened RelayOvertaking
  import Router

  // ── Order in a sequence ──

  /** `x` stands before `y` somewhere. */
  ghost predicate Ahead<T>(s: seq<T>, x: T, y: T) {
    exists i, j :: 0 <= i < j < |s| && s[i] == x && s[j] == y
  }

  lemma AheadAt<T>(s: seq<T>, i: nat, j: nat)
    requires i < j < |s|
    ensures Ahead(s, s[i], s[j])
  {
  }

  lemma AheadMore<T>(s: seq<T>, t: seq<T>, x: T, y: T)
    requires Ahead(s, x, y)
    ensures Ahead(s + t, x, y) && Ahead(t + s, x, y)
  {
    var i, j :| 0 <= i < j < |s| && s[i] == x && s[j] == y;
    assert (s + t)[i] == x && (s + t)[j] == y;
    assert (t + s)[|t| + i] == x && (t + s)[|t| + j] == y;
  }

  lemma AheadLast<T>(s: seq<T>, x: T, y: T)
    requires x in s
    ensures Ahead(s + [y], x, y)
  {
    var i :| 0 <= i < |s| && s[i] == x;
    assert (s + [y])[i] == x && (s + [y])[|s|] == y;
  }

  // ── What a drain takes ──

  predicate IsFor(messages: map<Token, Message>, t: Token, u: User) {
    t in messages && messages[t].to == u
  }

  /** The rows taken are those addressed to the user, and the rows left are the others. */
  lemma {:induction false} TakenExactly(messages: map<Token, Message>, rows: seq<Token>, u: User, t: Token)
    ensures t in RowsFor(messages, rows, u) <==> t in rows && IsFor(messages, t, u)
    ensures t in RowsNotFor(messages, rows, u) <==> t in rows && !IsFor(messages, t, u)
  {
    if rows != [] {
      TakenExactly(messages, rows[1..], u, t);
      assert rows == [rows[0]] + rows[1..];
    }
  }

  /** Both keep their order. */
  lemma {:induction false} TakenInOrder(messages: map<Token, Message>, rows: seq<Token>, u: User, x: Token, y: Token)
    requires Ahead(rows, x, y)
    ensures IsFor(messages, x, u) && IsFor(messages, y, u) ==> Ahead(RowsFor(messages, rows, u), x, y)
    ensures !IsFor(messages, x, u) && !IsFor(messages, y, u) ==> Ahead(RowsNotFor(messages, rows, u), x, y)
  {
    var i, j :| 0 <= i < j < |rows| && rows[i] == x && rows[j] == y;
    var tail := rows[1..];
    if i == 0 {
      assert tail[j - 1] == y;
      TakenExactly(messages, tail, u, y);
      FirstAhead(x, RowsFor(messages, tail, u), y);
      FirstAhead(x, RowsNotFor(messages, tail, u), y);
    } else {
      assert tail[i - 1] == x && tail[j - 1] == y;
      AheadAt(tail, i - 1, j - 1);
      TakenInOrder(messages, tail, u, x, y);
      if Ahead(RowsFor(messages, tail, u), x, y) {
        AheadMore(RowsFor(messages, tail, u), [rows[0]], x, y);
      }
      if Ahead(RowsNotFor(messages, tail, u), x, y) {
        AheadMore(RowsNotFor(messages, tail, u), [rows[0]], x, y);
      }
    }
  }

  lemma FirstAhead<T>(x: T, s: seq<T>, y: T)
    ensures y in s ==> Ahead([x] + s, x, y)
  {
    if y in s {
      var j :| 0 <= j < |s| && s[j] == y;
      assert ([x] + s)[0] == x && ([x] + s)[j + 1] == y;
    }
  }

  lemma TagAhead(c: Conn, ts: seq<Token>, x: Token, y: Token)
    requires Ahead(ts, x, y)
    ensures Ahead(Tag(c, ts), (c, x), (c, y))
  {
    var i, j :| 0 <= i < j < |ts| && ts[i] == x && ts[j] == y;
    assert Tag(c, ts)[i] == (c, x) && Tag(c, ts)[j] == (c, y);
  }

  lemma TagExactly(c: Conn, ts: seq<Token>, x: Token)
    ensures (c, x) in Tag(c, ts) <==> x in ts
  {
    if x in ts {
      var i :| 0 <= i < |ts| && ts[i] == x;
      assert Tag(c, ts)[i] == (c, x);
    }
  }

  /** After an undisturbed connect a row is in the new channel exactly when it was queued for the user, and of two such
      rows the one queued before the other stands before it; the rows of others stay queued, in their order. */
  lemma JoinTakesInOrder(st: State, u: User, c: Conn, x: Token, y: Token)
    requires Reachable(st) && c !in st.conns
    ensures var n := Router.Join(st, u, c);
            && ((c, x) in n.channel <==> x in st.pending && IsFor(st.messages, x, u))
            && (x in n.pending <==> x in st.pending && !IsFor(st.messages, x, u))
            && (Ahead(st.pending, x, y) ==>
                  && (IsFor(st.messages, x, u) && IsFor(st.messages, y, u) ==> Ahead(n.channel, (c, x), (c, y)))
                  && (!IsFor(st.messages, x, u) && !IsFor(st.messages, y, u) ==> Ahead(n.pending, x, y)))
  {
    var n := Router.Join(st, u, c);
    var rows := RowsFor(st.messages, st.pending, u);
    Router.JoinReplaysQueue(st, u, c);
    TakenExactly(st.messages, st.pending, u, x);
    TagExactly(c, rows, x);
    InOf(n.channel, c, x);
    if Ahead(st.pending, x, y) {
      TakenInOrder(st.messages, st.pending, u, x, y);
      if Ahead(rows, x, y) {
        TagAhead(c, rows, x, y);
        OfAhead(n.channel, c, x, y);
      }
    }
  }

  /** What stands before in one channel stands before in all of them together. */
  lemma {:induction false} OfAhead(s: seq<(Conn, Token)>, c: Conn, x: Token, y: Token)
    ensures Ahead(Of(s, c), (c, x), (c, y)) ==> Ahead(s, (c, x), (c, y))
  {
    if s != [] && Ahead(Of(s, c), (c, x), (c, y)) {
      var tail := s[1..];
      OfAhead(tail, c, x, y);
      assert s == [s[0]] + tail;
      var i, j :| 0 <= i < j < |Of(s, c)| && Of(s, c)[i] == (c, x) && Of(s, c)[j] == (c, y);
      if s[0].0 == c && i == 0 {
        assert Of(tail, c)[j - 1] == (c, y);
        InOf(tail, c, y);
        FirstAhead(s[0], tail, (c, y));
      } else {
        if s[0].0 == c {
          assert Of(tail, c)[i - 1] == (c, x) && Of(tail, c)[j - 1] == (c, y);
          AheadAt(Of(tail, c), i - 1, j - 1);
        }
        AheadMore(tail, [s[0]], (c, x), (c, y));
      }
    }
  }

  // ── The queue over a run ──

  /** The handler is done with the message. */
  ghost predicate Settled(st: State, t: Token) {
    HandlerAt(st, t) && (st.handlers[t].AtEcho? || st.handlers[t].Done?)
  }

  lemma PendingStays(st: State, step: Step)
    requires Enabled(st, step) && !step.Drain? && !step.Queue?
    ensures Next(st, step).pending == st.pending
  {
    match step {
      case Connect(u, c) => assert Next(st, step) == ConnectNext(st, u, c);
      case PushDrained(c) => assert Next(st, step) == PushDrainedNext(st, c);
      case Spawn(c) => assert Next(st, step) == SetStage(st, c, Live);
      case WriteOut(c) => assert Next(st, step) == WriteOutNext(st, c);
      case WriteFails(c) => assert Next(st, step) == CloseChannel(st, c);
      case Cleanup(c) => assert Next(st, step) == CleanupNext(st, c);
      case Abort(c) => assert Next(st, step) == CloseChannel(SetStage(st, c, Ended), c);
      case Accept(z, m) => assert Next(st, step) == AcceptNext(st, z, m);
      case Lookup(z) => assert Next(st, step) == LookupNext(st, z);
      case Push(z) => assert Next(st, step) == PushNext(st, z, st.handlers[z].conn);
      case Echo(z) => assert Next(st, step) == EchoNext(st, z, st.handlers[z].delivered);
    }
  }

  lemma SettledStays(st: State, step: Step, t: Token)
    requires Enabled(st, step) && Settled(st, t)
    ensures Settled(Next(st, step), t)
  {
    match step {
      case Connect(u, c) => assert Next(st, step) == ConnectNext(st, u, c);
      case Drain(c, ok) => assert Next(st, step) == DrainNext(st, c, ok);
      case PushDrained(c) => assert Next(st, step) == PushDrainedNext(st, c);
      case Spawn(c) => assert Next(st, step) == SetStage(st, c, Live);
      case WriteOut(c) => assert Next(st, step) == WriteOutNext(st, c);
      case WriteFails(c) => assert Next(st, step) == CloseChannel(st, c);
      case Cleanup(c) => assert Next(st, step) == CleanupNext(st, c);
      case Abort(c) => assert Next(st, step) == CloseChannel(SetStage(st, c, Ended), c);
      case Accept(z, m) => assert Next(st, step) == AcceptNext(st, z, m);
      case Lookup(z) => assert Next(st, step) == LookupNext(st, z);
      case Push(z) => assert Next(st, step) == PushNext(st, z, st.handlers[z].conn);
      case Queue(z, ok) => assert Next(st, step) == QueueNext(st, z, ok);
      case Echo(z) => assert Next(st, step) == EchoNext(st, z, st.handlers[z].delivered);
    }
  }

  lemma StepSettled(st: State, step: Step, t: Token)
    requires Enabled(st, step) && Settled(st, t)
    ensures Settled(Next(st, step), t)
    ensures t !in st.pending ==> t !in Next(st, step).pending
  {
    SettledStays(st, step, t);
    match step {
      case Drain(c, ok) =>
        assert Next(st, step) == DrainNext(st, c, ok);
        TakenExactly(st.messages, st.pending, st.conns[c].user, t);
      case Queue(z, ok) => assert Next(st, step) == QueueNext(st, z, ok);
      case _ => PendingStays(st, step);
    }
  }

  lemma {:induction false} RunSettled(st: State, steps: seq<Step>, t: State, x: Token)
    requires Reaches(st, steps, t) && Settled(st, x)
    ensures Settled(t, x)
    ensures x !in st.pending ==> x !in t.pending
    decreases |steps|
  {
    if |steps| != 0 {
      StepSettled(st, steps[0], x);
      RunSettled(Next(st, steps[0]), steps[1..], t, x);
    }
  }

  /** Step `k` makes the message a row. */
  predicate QueuesAt(steps: seq<Step>, k: nat, t: Token) {
    && k < |steps| && steps[k] == Queue(t, true) && Enabled(StateAt(steps, k), steps[k])
    && t in QueueNext(StateAt(steps, k), t, true).pending && t !in StateAt(steps, k).pending
  }

  /** Step `d` takes the message from the queue for the connection. */
  predicate DrainsAt(steps: seq<Step>, d: nat, c: Conn, t: Token) {
    && d < |steps| && steps[d] == Drain(c, true) && Enabled(StateAt(steps, d), steps[d])
    && t in StateAt(steps, d).pending && IsFor(StateAt(steps, d).messages, t, StateAt(steps, d).conns[c].user)
  }

  lemma StepAhead(st: State, step: Step, x: Token, y: Token)
    requires Enabled(st, step) && Ahead(st.pending, x, y)
    requires x in Next(st, step).pending && y in Next(st, step).pending
    ensures Ahead(Next(st, step).pending, x, y)
  {
    match step {
      case Drain(c, ok) =>
        assert Next(st, step) == DrainNext(st, c, ok);
        TakenExactly(st.messages, st.pending, st.conns[c].user, x);
        TakenExactly(st.messages, st.pending, st.conns[c].user, y);
        TakenInOrder(st.messages, st.pending, st.conns[c].user, x, y);
      case Queue(z, ok) =>
        assert Next(st, step) == QueueNext(st, z, ok);
        AheadMore(st.pending, [z], x, y);
      case _ => PendingStays(st, step);
    }
  }

  /** Rows that are both still queued have kept their order. */
  lemma {:induction false} RunAhead(st: State, steps: seq<Step>, t: State, x: Token, y: Token)
    requires Reaches(st, steps, t) && Settled(st, x) && Settled(st, y) && Ahead(st.pending, x, y)
    requires x in t.pending && y in t.pending
    ensures Ahead(t.pending, x, y)
    decreases |steps|
  {
    if |steps| != 0 {
      var n := Next(st, steps[0]);
      StepSettled(st, steps[0], x);
      StepSettled(st, steps[0], y);
      StillQueued(n, steps[1..], t, x);
      StillQueued(n, steps[1..], t, y);
      StepAhead(st, steps[0], x, y);
      RunAhead(n, steps[1..], t, x, y);
    }
  }

  /** A settled message that is a row later is one now. */
  lemma StillQueued(st: State, steps: seq<Step>, t: State, x: Token)
    requires Reaches(st, steps, t) && Settled(st, x) && x in t.pending
    ensures x in st.pending
  {
    RunSettled(st, steps, t, x);
  }

  // ── From the queue to the socket ──

  /** Both taken for the connection, `x` in front, or `x` pushed already. */
  ghost predicate TakenAhead(st: State, c: Conn, x: Token, y: Token) {
    Ahead(st.drained, (c, x), (c, y)) || SentOf(st, x) >= 1
  }

  lemma {:induction false} FirstLeaves(s: seq<(Conn, Token)>, d: Conn, x: (Conn, Token), y: (Conn, Token))
    requires Has(s, d) && Ahead(s, x, y) && x.0 == y.0
    ensures (d, First(s, d)) == x || Ahead(RemoveFirst(s, d), x, y)
  {
    var i, j :| 0 <= i < j < |s| && s[i] == x && s[j] == y;
    var tail := s[1..];
    if s[0].0 == d {
      if i > 0 {
        assert tail[i - 1] == x && tail[j - 1] == y;
        AheadAt(tail, i - 1, j - 1);
      }
    } else if i == 0 {
      StaysIn(tail, d, y);
      FirstAhead(s[0], RemoveFirst(tail, d), y);
    } else {
      assert tail[i - 1] == x && tail[j - 1] == y;
      AheadAt(tail, i - 1, j - 1);
      FirstLeaves(tail, d, x, y);
      if Ahead(RemoveFirst(tail, d), x, y) {
        AheadMore(RemoveFirst(tail, d), [s[0]], x, y);
      }
    }
  }

  lemma {:induction false} StaysIn(s: seq<(Conn, Token)>, d: Conn, y: (Conn, Token))
    requires y in s && y.0 != d
    ensures y in RemoveFirst(s, d)
  {
    if s[0].0 != d {
      assert s == [s[0]] + s[1..];
      if s[0] != y {
        StaysIn(s[1..], d, y);
      }
    } else {
      assert s == [s[0]] + s[1..];
    }
  }

  lemma StepTakenAhead(st: State, step: Step, c: Conn, x: Token, y: Token)
    requires Enabled(st, step) && TakenAhead(st, c, x, y)
    ensures TakenAhead(Next(st, step), c, x, y)
  {
    StepSent(st, step, x);
    if SentOf(st, x) == 0 {
      match step {
        case PushDrained(d) =>
          assert Next(st, step) == PushDrainedNext(st, d);
          FirstLeaves(st.drained, d, (c, x), (c, y));
          OneTagged(d, First(st.drained, d), x);
        case Drain(d, ok) =>
          assert Next(st, step) == DrainNext(st, d, ok);
          AheadMore(st.drained, Tag(d, RowsFor(st.messages, st.pending, st.conns[d].user)), (c, x), (c, y));
        case _ => DrainedStays(st, step);
      }
    }
  }

  lemma DrainedStays(st: State, step: Step)
    requires Enabled(st, step) && !step.PushDrained? && !step.Drain?
    ensures Next(st, step).drained == st.drained
  {
    match step {
      case Connect(u, c) => assert Next(st, step) == ConnectNext(st, u, c);
      case Spawn(c) => assert Next(st, step) == SetStage(st, c, Live);
      case WriteOut(c) => assert Next(st, step) == WriteOutNext(st, c);
      case WriteFails(c) => assert Next(st, step) == CloseChannel(st, c);
      case Cleanup(c) => assert Next(st, step) == CleanupNext(st, c);
      case Abort(c) => assert Next(st, step) == CloseChannel(SetStage(st, c, Ended), c);
      case Accept(t, m) => assert Next(st, step) == AcceptNext(st, t, m);
      case Lookup(t) => assert Next(st, step) == LookupNext(st, t);
      case Push(t) => assert Next(st, step) == PushNext(st, t, st.handlers[t].conn);
      case Queue(t, ok) => assert Next(st, step) == QueueNext(st, t, ok);
      case Echo(t) => assert Next(st, step) == EchoNext(st, t, st.handlers[t].delivered);
    }
  }

  lemma {:induction false} RunTakenAhead(st: State, steps: seq<Step>, t: State, c: Conn, x: Token, y: Token)
    requires Reaches(st, steps, t) && TakenAhead(st, c, x, y)
    ensures TakenAhead(t, c, x, y)
    decreases |steps|
  {
    if |steps| != 0 {
      StepTakenAhead(st, steps[0], c, x, y);
      RunTakenAhead(Next(st, steps[0]), steps[1..], t, c, x, y);
    }
  }

  /** Two rows queued one after the other and taken by one drain are queued in that order when it takes them. */
  lemma QueuedInOrder(steps: seq<Step>, t: State, i: nat, j: nat, d: nat, c: Conn, x: Token, y: Token)
    requires Reaches(INITIAL, steps, t) && i < j && QueuesAt(steps, i, x) && QueuesAt(steps, j, y)
    requires DrainsAt(steps, d, c, x) && DrainsAt(steps, d, c, y)
    ensures Ahead(StateAt(steps, d).pending, x, y) && x != y
  {
    QueuedBeforeDrain(steps, t, j, d, c, y);
    SettledAfter(steps, t, i, j, x);
    OneOn(steps, t, j);
    BothQueued(StateAt(steps, j), x, y, StateAt(steps, j + 1), steps[j + 1..d], StateAt(steps, d));
  }

  lemma BothQueued(b: State, x: Token, y: Token, n: State, rest: seq<Step>, t: State)
    requires Enabled(b, Queue(y, true)) && y !in b.pending && n == QueueNext(b, y, true) && y in n.pending
    requires Settled(b, x) && Reaches(n, rest, t) && x in t.pending && y in t.pending
    ensures Ahead(t.pending, x, y) && x != y
  {
    StepSettled(b, Queue(y, true), x);
    StillQueued(n, rest, t, x);
    AheadLast(b.pending, x, y);
    RunAhead(n, rest, t, x, y);
  }

  /** A message that was made a row is settled from then on. */
  lemma SettledAfter(steps: seq<Step>, t: State, i: nat, j: nat, x: Token)
    requires Reaches(INITIAL, steps, t) && i < j < |steps| && QueuesAt(steps, i, x)
    ensures Settled(StateAt(steps, j), x)
  {
    OneOn(steps, t, i);
    Later(steps, t, i + 1, j);
    RunSettled(StateAt(steps, i + 1), steps[i + 1..j], StateAt(steps, j), x);
  }

  /** What a drain takes was made a row before. */
  lemma QueuedBeforeDrain(steps: seq<Step>, t: State, j: nat, d: nat, c: Conn, y: Token)
    requires Reaches(INITIAL, steps, t) && QueuesAt(steps, j, y) && DrainsAt(steps, d, c, y)
    ensures j < d && Reaches(StateAt(steps, j + 1), steps[j + 1..d], StateAt(steps, d))
  {
    if d < j {
      RowAtDrain(steps, t, d, c, y);
      Later(steps, t, d, j);
      RunSettled(StateAt(steps, d), steps[d..j], StateAt(steps, j), y);
    } else {
      Later(steps, t, j + 1, d);
    }
  }

  lemma RowAtDrain(steps: seq<Step>, t: State, d: nat, c: Conn, y: Token)
    requires Reaches(INITIAL, steps, t) && DrainsAt(steps, d, c, y)
    ensures Settled(StateAt(steps, d), y)
  {
    UpTo(steps, t, d);
    assert Reachable(StateAt(steps, d));
    RowNotSent(StateAt(steps, d), y);
  }

  /** One step on. */
  lemma OneOn(steps: seq<Step>, t: State, k: nat)
    requires Reaches(INITIAL, steps, t) && k + 1 < |steps|
    ensures Enabled(StateAt(steps, k), steps[k]) && StateAt(steps, k + 1) == Next(StateAt(steps, k), steps[k])
  {
    Cut(INITIAL, steps, t, k);
    Later(steps, t, k, k + 1);
    assert steps[k..k + 1] == [steps[k]];
    assert Reaches(Next(StateAt(steps, k), steps[k]), [], StateAt(steps, k + 1)) by {
      assert [steps[k]][1..] == [];
    }
  }

  /** The drain puts them into the replay in that order. */
  lemma DrainedInOrder(st: State, c: Conn, x: Token, y: Token)
    requires At(st, c, Registered) && Ahead(st.pending, x, y)
    requires IsFor(st.messages, x, st.conns[c].user) && IsFor(st.messages, y, st.conns[c].user)
    ensures TakenAhead(DrainNext(st, c, true), c, x, y)
  {
    var rows := RowsFor(st.messages, st.pending, st.conns[c].user);
    TakenInOrder(st.messages, st.pending, st.conns[c].user, x, y);
    TagAhead(c, rows, x, y);
    AheadMore(Tag(c, rows), st.drained, (c, x), (c, y));
  }

  /** While `x` is ahead of `y` in the replay, what is pushed is not `y`. */
  lemma NotYet(st: State, step: Step, c: Conn, x: Token, y: Token)
    requires Reachable(st) && Enabled(st, step) && Pushes(st, step) == [(c, y)] && Settled(st, y)
    requires TakenAhead(st, c, x, y)
    ensures SentOf(st, x) >= 1
  {
    if SentOf(st, x) == 0 {
      assert step.PushDrained? && First(st.drained, c) == y;
      ExactlyOnePlace(st, y);
      FirstIsFirst(st.drained, c, x, y);
    }
  }

  lemma {:induction false} FirstIsFirst(s: seq<(Conn, Token)>, c: Conn, x: Token, y: Token)
    requires Ahead(s, (c, x), (c, y)) && Tagged(s, y) <= 1 && Has(s, c)
    ensures First(s, c) != y
  {
    var i, j :| 0 <= i < j < |s| && s[i] == (c, x) && s[j] == (c, y);
    if s[0].0 == c {
      if s[0].1 == y {
        OnlyOnce(s, 0, j);
      }
    } else {
      assert s[1..][i - 1] == (c, x) && s[1..][j - 1] == (c, y);
      FirstIsFirst(s[1..], c, x, y);
    }
  }

  /** A message that is a row has not been pushed. */
  lemma RowNotSent(st: State, t: Token)
    requires Reachable(st) && t in st.pending
    ensures SentOf(st, t) == 0 && t in st.messages && Settled(st, t)
  {
    ReachableInv(st);
    ExactlyOnePlace(st, t);
    CountIn(st.pending, t);
  }

  lemma {:induction false} CountIn(s: seq<Token>, t: Token)
    ensures Count(s, t) >= 1 <==> t in s
  {
    if s != [] {
      CountIn(s[1..], t);
      assert s == [s[0]] + s[1..];
    }
  }

  /** The push of a row that a drain takes comes after the drain. */
  lemma PushedAfterDrain(steps: seq<Step>, t: State, d: nat, k: nat, c: Conn, y: Token)
    requires Reaches(INITIAL, steps, t) && DrainsAt(steps, d, c, y) && PushesAt(steps, k, c, y)
    ensures d < k
  {
    UpTo(steps, t, d);
    assert Reachable(StateAt(steps, d));
    RowNotSent(StateAt(steps, d), y);
    if k < d {
      OneOn(steps, t, k);
      Later(steps, t, k + 1, d);
      StepSent(StateAt(steps, k), steps[k], y);
      OneTagged(c, y, y);
      RunSent(StateAt(steps, k + 1), steps[k + 1..d], StateAt(steps, d), y);
    }
  }

  /** After the drain `x` stays ahead of `y` until it is pushed. */
  lemma AheadAfterDrain(steps: seq<Step>, t: State, d: nat, k: nat, c: Conn, x: Token, y: Token)
    requires Reaches(INITIAL, steps, t) && DrainsAt(steps, d, c, x) && DrainsAt(steps, d, c, y)
    requires Ahead(StateAt(steps, d).pending, x, y) && d < k < |steps|
    ensures TakenAhead(StateAt(steps, k), c, x, y)
  {
    OneOn(steps, t, d);
    DrainedInOrder(StateAt(steps, d), c, x, y);
    Later(steps, t, d + 1, k);
    RunTakenAhead(StateAt(steps, d + 1), steps[d + 1..k], StateAt(steps, k), c, x, y);
  }

  lemma SettledAfterDrain(steps: seq<Step>, t: State, d: nat, k: nat, c: Conn, y: Token)
    requires Reaches(INITIAL, steps, t) && DrainsAt(steps, d, c, y) && d < k < |steps|
    ensures Settled(StateAt(steps, k), y)
  {
    RowAtDrain(steps, t, d, c, y);
    OneOn(steps, t, d);
    StepSettled(StateAt(steps, d), steps[d], y);
    Later(steps, t, d + 1, k);
    RunSettled(StateAt(steps, d + 1), steps[d + 1..k], StateAt(steps, k), y);
  }

  /** At the push of the later row the earlier one has been pushed. */
  lemma EarlierPushed(steps: seq<Step>, t: State, d: nat, k: nat, c: Conn, x: Token, y: Token)
    requires Reaches(INITIAL, steps, t) && DrainsAt(steps, d, c, x) && DrainsAt(steps, d, c, y)
    requires Ahead(StateAt(steps, d).pending, x, y) && PushesAt(steps, k, c, y) && d < k
    ensures SentOf(StateAt(steps, k), x) >= 1 && x in StateAt(steps, k).messages
  {
    UpTo(steps, t, k);
    assert Reachable(StateAt(steps, k));
    AheadAfterDrain(steps, t, d, k, c, x, y);
    SettledAfterDrain(steps, t, d, k, c, x);
    SettledAfterDrain(steps, t, d, k, c, y);
    EnabledAt(steps, t, k);
    NotYet(StateAt(steps, k), steps[k], c, x, y);
  }

  lemma EnabledAt(steps: seq<Step>, t: State, k: nat)
    requires Reaches(INITIAL, steps, t) && k < |steps|
    ensures Enabled(StateAt(steps, k), steps[k])
  {
    Cut(INITIAL, steps, t, k);
  }

  /** Over every run: two messages queued one after the other, taken by one drain and both written on its connection,
      are written in the order in which they were queued. */
  lemma QueueIsFifo(steps: seq<Step>, t: State, i: nat, j: nat, d: nat, c: Conn, x: Token, y: Token)
    requires Reaches(INITIAL, steps, t) && i < j && QueuesAt(steps, i, x) && QueuesAt(steps, j, y)
    requires DrainsAt(steps, d, c, x) && DrainsAt(steps, d, c, y)
    requires WrittenOn(t, c, x) && WrittenOn(t, c, y)
    ensures WrittenBefore(t, c, x, y)
  {
    QueuedInOrder(steps, t, i, j, d, c, x, y);
    var k := PushOf(steps, t, c, y);
    PushedAfterDrain(steps, t, d, k, c, y);
    EarlierPushed(steps, t, d, k, c, x, y);
    Cut(INITIAL, steps, t, k);
    assert Reachable(StateAt(steps, k));
    OneOfThree(StateAt(steps, k), x);
    GoesAheadExactly(steps[..k], StateAt(steps, k), steps[k], steps[k + 1..], t, c, y, x);
  }
}
