/** Every channel of the relay is first in, first out, in every interleaving. */
module RelayOrder {
  import opened Relay
  import opened RelaySafety

  /** What a step pushes to a channel. */
  function Pushes(st: State, step: Step): seq<(Conn, Token)>
    requires Enabled(st, step)
  {
    match step
    case PushDrained(c) => [(c, First(st.drained, c))]
    case Push(t) => if st.handlers[t].conn in st.open then [(st.handlers[t].conn, t)] else []
    case _ => []
  }

  /** All that a run pushes to channels, in the order it happens. */
  function Arrivals(st: State, steps: seq<Step>): seq<(Conn, Token)>
    decreases |steps|
  {
    if |steps| == 0 || !Enabled(st, steps[0]) then []
    else Pushes(st, steps[0]) + Arrivals(Next(st, steps[0]), steps[1..])
  }

  /** Written first, then what is left in the channel or was lost with it. */
  function Passed(st: State, c: Conn): seq<(Conn, Token)> {
    Of(st.written, c) + Of(st.channel, c) + Of(st.dropped, c)
  }

  lemma {:induction false} OfOther(s: seq<(Conn, Token)>, c: Conn, d: Conn)
    requires c != d
    ensures Of(RemoveFirst(s, d), c) == Of(s, c) && Of(Without(s, d), c) == Of(s, c) && Of(Of(s, d), c) == []
  {
    if s != [] {
      OfOther(s[1..], c, d);
      if s[0].0 == d {
        assert Of(s, d)[1..] == Of(s[1..], d);
      } else {
        assert RemoveFirst(s, d)[1..] == RemoveFirst(s[1..], d) && Without(s, d)[1..] == Without(s[1..], d);
      }
    }
  }

  lemma {:induction false} OfClosed(s: seq<(Conn, Token)>, c: Conn)
    ensures Of(Without(s, c), c) == []
  {
    if s != [] {
      OfClosed(s[1..], c);
      if s[0].0 != c {
        assert Without(s, c)[1..] == Without(s[1..], c);
      }
    }
  }

  lemma OfOne(c: Conn, t: Token, d: Conn)
    ensures Of([(c, t)], d) == if c == d then [(c, t)] else []
  {
    assert [(c, t)][1..] == [] && Of([], d) == [];
  }

  lemma OneSide(st: State, c: Conn)
    requires AllIn(st.channel, st.open) && NoneIn(st.dropped, st.open)
    ensures if c in st.open then Of(st.dropped, c) == [] else Of(st.channel, c) == []
  {
    if c in st.open {
      assert forall x :: x in st.dropped ==> x.0 != c;
      NothingTaken(st.dropped, c);
    } else {
      assert forall x :: x in st.channel ==> x.0 != c;
      NothingTaken(st.channel, c);
    }
  }

  lemma AppendOne(s: seq<(Conn, Token)>, d: Conn, t: Token, c: Conn)
    ensures Of(s + [(d, t)], c) == if c == d then Of(s, c) + [(d, t)] else Of(s, c)
  {
    OfAppend(s, [(d, t)], c);
    OfOne(d, t, c);
  }

  lemma WriteOrder(written: seq<(Conn, Token)>, channel: seq<(Conn, Token)>, d: Conn, c: Conn)
    requires Has(channel, d)
    ensures Of(written + [(d, First(channel, d))], c) + Of(RemoveFirst(channel, d), c)
            == Of(written, c) + Of(channel, c)
  {
    AppendOne(written, d, First(channel, d), c);
    if c == d {
      FirstSplits(channel, d);
    } else {
      OfOther(channel, c, d);
    }
  }

  lemma CloseOrder(st: State, d: Conn, c: Conn)
    requires Of(st.dropped, d) == [] || Of(st.channel, d) == []
    ensures Passed(CloseChannel(st, d), c) == Passed(st, c)
  {
    OfAppend(st.dropped, Of(st.channel, d), c);
    if c == d {
      OfClosed(st.channel, d);
      OfOf(st.channel, d);
    } else {
      OfOther(st.channel, c, d);
    }
  }

  /** The other steps touch none of these. */
  lemma QuietStep(st: State, step: Step)
    requires Enabled(st, step)
    requires !step.PushDrained? && !step.Push? && !step.WriteOut? && !step.WriteFails? && !step.Abort?
    ensures var n := Next(st, step);
            n.written == st.written && n.channel == st.channel && n.dropped == st.dropped && Pushes(st, step) == []
  {
    match step {
      case Connect(u, c) => assert Next(st, step) == ConnectNext(st, u, c);
      case Drain(c, ok) => assert Next(st, step) == DrainNext(st, c, ok);
      case Spawn(c) => assert Next(st, step) == SetStage(st, c, Live);
      case Cleanup(c) => assert Next(st, step) == CleanupNext(st, c);
      case Accept(t, m) => assert Next(st, step) == AcceptNext(st, t, m);
      case Lookup(t) => assert Next(st, step) == LookupNext(st, t);
      case Queue(t, ok) => assert Next(st, step) == QueueNext(st, t, ok);
      case Echo(t) => assert Next(st, step) == EchoNext(st, t, st.handlers[t].delivered);
    }
  }

  /** One step adds to the end of what passed through a channel exactly what it pushes there. */
  lemma StepOrder(st: State, step: Step, c: Conn)
    requires ChannelInv(st.conns, st.open, st.channel, st.drained, st.dropped) && Enabled(st, step)
    ensures Passed(Next(st, step), c) == Passed(st, c) + Of(Pushes(st, step), c)
  {
    OneSide(st, c);
    match step {
      case PushDrained(d) =>
        PushOrder(st, d, First(st.drained, d), c);
      case Push(t) =>
        if st.handlers[t].conn in st.open {
          PushOrder(st, st.handlers[t].conn, t, c);
        }
      case WriteOut(d) =>
        WriteOrder(st.written, st.channel, d, c);
      case WriteFails(d) =>
        OneSide(st, d);
        CloseOrder(st, d, c);
      case Abort(d) =>
        OneSide(st, d);
        CloseOrder(SetStage(st, d, Ended), d, c);
      case _ =>
        QuietStep(st, step);
        assert Passed(st, c) + [] == Passed(st, c);
    }
  }

  lemma PushOrder(st: State, d: Conn, t: Token, c: Conn)
    requires AllIn(st.channel, st.open) && NoneIn(st.dropped, st.open) && d in st.open
    ensures Of(st.written, c) + Of(st.channel + [(d, t)], c) + Of(st.dropped, c) == Passed(st, c) + Of([(d, t)], c)
  {
    AppendOne(st.channel, d, t, c);
    OfOne(d, t, c);
    OneSide(st, d);
  }

  lemma Chained(p: seq<(Conn, Token)>, a: seq<(Conn, Token)>, b: seq<(Conn, Token)>, c: Conn)
    ensures p + Of(a, c) + Of(b, c) == p + Of(a + b, c)
  {
    OfAppend(a, b, c);
  }

  lemma {:induction false} RunOrder(st: State, steps: seq<Step>, t: State, c: Conn)
    requires Inv(st) && Reaches(st, steps, t)
    ensures Inv(t) && Passed(t, c) == Passed(st, c) + Of(Arrivals(st, steps), c)
    decreases |steps|
  {
    if |steps| == 0 {
      assert Passed(st, c) + [] == Passed(st, c);
    } else {
      StepInv(st, steps[0]);
      StepOrder(st, steps[0], c);
      RunOrder(Next(st, steps[0]), steps[1..], t, c);
      Chained(Passed(st, c), Pushes(st, steps[0]), Arrivals(Next(st, steps[0]), steps[1..]), c);
    }
  }

  lemma Rest(st: State, c: Conn)
    requires Inv(st)
    ensures Passed(st, c) == Of(st.written, c) + if c in st.open then Of(st.channel, c) else Of(st.dropped, c)
  {
    OneSide(st, c);
  }

  lemma StartsEmpty(c: Conn)
    ensures Inv(INITIAL) && Passed(INITIAL, c) == []
  {
  }

  /** In every interleaving, what is written on a socket is the first part of what was pushed to its channel, in
      push order; while the channel is open the rest is in it, afterwards the rest is what was lost. */
  lemma ChannelsAreFifo(steps: seq<Step>, t: State, c: Conn)
    requires Reaches(INITIAL, steps, t)
    ensures Of(t.written, c) <= Of(Arrivals(INITIAL, steps), c)
    ensures Of(Arrivals(INITIAL, steps), c)
            == Of(t.written, c) + if c in t.open then Of(t.channel, c) else Of(t.dropped, c)
  {
    StartsEmpty(c);
    RunOrder(INITIAL, steps, t, c);
    Rest(t, c);
    assert [] + Of(Arrivals(INITIAL, steps), c) == Of(Arrivals(INITIAL, steps), c);
  }
}
