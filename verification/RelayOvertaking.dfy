/** When the relay keeps the order of messages: what is written first on a connection, for any two messages and
    over every run. */
module RelayOvertaking {
  import opened Relay
  import opened RelaySafety
  import opened RelayOrder

  /** Accepted and still to be pushed: with its handler, in the queue, or taken from it and not replayed yet. */
  ghost predicate Waiting(st: State, r: Token) {
    (if InHand(st, r) then 1 else 0) + Count(st.pending, r) + Tagged(st.drained, r) >= 1
  }

  /** Never to be pushed: kept out of the queue. */
  ghost predicate Lost(st: State, r: Token) {
    Count(st.absorbed, r) + Count(st.failed, r) >= 1
  }

  ghost predicate WrittenOn(st: State, c: Conn, t: Token) {
    (c, t) in Of(st.written, c)
  }

  /** Both are written on the connection, `t` first. */
  ghost predicate WrittenBefore(st: State, c: Conn, t: Token, r: Token) {
    exists i, j :: 0 <= i < j < |Of(st.written, c)| && Of(st.written, c)[i] == (c, t) && Of(st.written, c)[j] == (c, r)
  }

  // ── Counting what was pushed ──

  lemma {:induction false} TaggedIn(s: seq<(Conn, Token)>, t: Token)
    ensures Tagged(s, t) >= 1 <==> exists i :: 0 <= i < |s| && s[i].1 == t
  {
    if s != [] {
      TaggedIn(s[1..], t);
      if Tagged(s[1..], t) >= 1 {
        var i :| 0 <= i < |s[1..]| && s[1..][i].1 == t;
        assert s[i + 1].1 == t;
      }
      if i :| 0 <= i < |s| && s[i].1 == t {
        assert i == 0 || s[1..][i - 1].1 == t;
      }
    }
  }

  lemma {:induction false} TaggedOf(s: seq<(Conn, Token)>, c: Conn, t: Token)
    ensures Tagged(Of(s, c), t) <= Tagged(s, t)
    ensures forall x :: x in Of(s, c) ==> x.0 == c
  {
    if s != [] {
      TaggedOf(s[1..], c, t);
      if s[0].0 == c {
        assert Of(s, c)[1..] == Of(s[1..], c);
      }
    }
  }

  lemma {:induction false} OnlyOnce(s: seq<(Conn, Token)>, i: nat, j: nat)
    requires i < j < |s| && s[i].1 == s[j].1
    ensures Tagged(s, s[i].1) >= 2
  {
    if i == 0 {
      assert s[1..][j - 1].1 == s[i].1;
      TaggedIn(s[1..], s[i].1);
    } else {
      assert s[1..][i - 1] == s[i] && s[1..][j - 1] == s[j];
      OnlyOnce(s[1..], i - 1, j - 1);
    }
  }

  ghost function SentOf(st: State, t: Token): nat {
    Sent(st.channel, st.written, st.dropped, t)
  }

  lemma SentClose(st: State, c: Conn, t: Token)
    ensures SentOf(CloseChannel(st, c), t) == SentOf(st, t)
  {
    TaggedSplit(st.channel, c, t);
    TaggedAppend(st.dropped, Of(st.channel, c), t);
  }

  lemma OneTagged(c: Conn, x: Token, t: Token)
    ensures Tagged([(c, x)], t) == if x == t then 1 else 0
  {
    assert [(c, x)][1..] == [];
  }

  /** Nothing lost comes back. */
  lemma StepLost(st: State, step: Step, t: Token)
    requires Enabled(st, step)
    ensures Lost(st, t) ==> Lost(Next(st, step), t)
  {
    if step.Queue? {
      CountAppend(st.failed, step.t, t);
      CountAppend(st.absorbed, step.t, t);
      assert Next(st, step) == QueueNext(st, step.t, step.ok);
    } else {
      KeptOut(st, step);
    }
  }

  lemma KeptOut(st: State, step: Step)
    requires Enabled(st, step) && !step.Queue?
    ensures Next(st, step).absorbed == st.absorbed && Next(st, step).failed == st.failed
  {
    match step {
      case Connect(u, c) => assert Next(st, step) == ConnectNext(st, u, c);
      case Drain(c, ok) => assert Next(st, step) == DrainNext(st, c, ok);
      case PushDrained(c) => assert Next(st, step) == PushDrainedNext(st, c);
      case Spawn(c) => assert Next(st, step) == SetStage(st, c, Live);
      case WriteOut(c) => assert Next(st, step) == WriteOutNext(st, c);
      case WriteFails(c) => assert Next(st, step) == CloseChannel(st, c);
      case Cleanup(c) => assert Next(st, step) == CleanupNext(st, c);
      case Abort(c) => assert Next(st, step) == CloseChannel(SetStage(st, c, Ended), c);
      case Accept(t, m) => assert Next(st, step) == AcceptNext(st, t, m);
      case Lookup(t) => assert Next(st, step) == LookupNext(st, t);
      case Push(t) => assert Next(st, step) == PushNext(st, t, st.handlers[t].conn);
      case Echo(t) => assert Next(st, step) == EchoNext(st, t, st.handlers[t].delivered);
    }
  }

  /** A step adds to what is on its way or past it exactly what it pushes. */
  lemma StepSent(st: State, step: Step, t: Token)
    requires Enabled(st, step)
    ensures SentOf(Next(st, step), t) == SentOf(st, t) + Tagged(Pushes(st, step), t)
  {
    match step {
      case PushDrained(c) =>
        TaggedPush(st.channel, c, First(st.drained, c), t);
        OneTagged(c, First(st.drained, c), t);
      case Push(x) =>
        if st.handlers[x].conn in st.open {
          TaggedPush(st.channel, st.handlers[x].conn, x, t);
          OneTagged(st.handlers[x].conn, x, t);
        }
      case WriteOut(c) =>
        TaggedRemoveFirst(st.channel, c, t);
        TaggedPush(st.written, c, First(st.channel, c), t);
      case WriteFails(c) => SentClose(st, c, t);
      case Abort(c) => SentClose(SetStage(st, c, Ended), c, t);
      case _ => QuietStep(st, step);
    }
  }

  lemma {:induction false} RunSent(st: State, steps: seq<Step>, t: State, x: Token)
    requires Reaches(st, steps, t)
    ensures SentOf(t, x) == SentOf(st, x) + Tagged(Arrivals(st, steps), x)
    ensures Lost(st, x) ==> Lost(t, x)
    decreases |steps|
  {
    if |steps| != 0 {
      StepSent(st, steps[0], x);
      StepLost(st, steps[0], x);
      RunSent(Next(st, steps[0]), steps[1..], t, x);
      TaggedAppend(Pushes(st, steps[0]), Arrivals(Next(st, steps[0]), steps[1..]), x);
    }
  }

  // ── Runs through a push ──

  lemma {:induction false} Joined(st: State, before: seq<Step>, mid: State, after: seq<Step>, t: State)
    requires Reaches(st, before, mid) && Reaches(mid, after, t)
    ensures Reaches(st, before + after, t)
    decreases |before|
  {
    if |before| == 0 {
      assert before + after == after;
    } else {
      Joined(Next(st, before[0]), before[1..], mid, after, t);
      assert (before + after)[1..] == before[1..] + after;
    }
  }

  lemma ArrivalsStep(st: State, steps: seq<Step>)
    requires |steps| != 0 && Enabled(st, steps[0])
    ensures Arrivals(st, steps) == Pushes(st, steps[0]) + Arrivals(Next(st, steps[0]), steps[1..])
  {
  }

  lemma {:induction false} ArrivalsJoined(st: State, before: seq<Step>, mid: State, after: seq<Step>)
    requires Reaches(st, before, mid)
    ensures Arrivals(st, before + after) == Arrivals(st, before) + Arrivals(mid, after)
    decreases |before|
  {
    if |before| == 0 {
      assert before + after == after;
    } else {
      var n, all := Next(st, before[0]), before + after;
      assert all[1..] == before[1..] + after && all[0] == before[0];
      ArrivalsJoined(n, before[1..], mid, after);
      ArrivalsStep(st, before);
      ArrivalsStep(st, all);
      Associate(Pushes(st, before[0]), Arrivals(n, before[1..]), Arrivals(mid, after));
    }
  }

  lemma Associate(a: seq<(Conn, Token)>, b: seq<(Conn, Token)>, c: seq<(Conn, Token)>)
    ensures a + (b + c) == (a + b) + c
  {
  }

  lemma Split(st: State, before: seq<Step>, mid: State, after: seq<Step>, t: State)
    requires Reaches(st, before, mid) && Reaches(mid, after, t)
    ensures Reaches(st, before + after, t)
    ensures Arrivals(st, before + after) == Arrivals(st, before) + Arrivals(mid, after)
  {
    Joined(st, before, mid, after, t);
    ArrivalsJoined(st, before, mid, after);
  }

  /** One push in the middle of a run. */
  ghost predicate Through(before: seq<Step>, mid: State, step: Step, after: seq<Step>, t: State, c: Conn, x: Token) {
    && Reaches(INITIAL, before, mid) && Enabled(mid, step) && Pushes(mid, step) == [(c, x)]
    && Reaches(Next(mid, step), after, t)
  }

  lemma OneStep(mid: State, step: Step)
    requires Enabled(mid, step)
    ensures Reaches(mid, [step], Next(mid, step)) && Arrivals(mid, [step]) == Pushes(mid, step)
  {
    var n := Next(mid, step);
    assert [step][1..] == [] && Reaches(n, [], n) && Arrivals(n, []) == [];
    ArrivalsStep(mid, [step]);
  }

  lemma PushInMiddle(before: seq<Step>, mid: State, step: Step, after: seq<Step>, t: State, c: Conn, x: Token)
    requires Through(before, mid, step, after, t, c, x)
    ensures Reaches(INITIAL, before + [step] + after, t)
    ensures Arrivals(INITIAL, before + [step] + after)
            == Arrivals(INITIAL, before) + [(c, x)] + Arrivals(Next(mid, step), after)
  {
    var n := Next(mid, step);
    OneStep(mid, step);
    Split(mid, [step], n, after, t);
    Split(INITIAL, before, mid, [step] + after, t);
    assert before + ([step] + after) == before + [step] + after;
  }

  // ── Two messages of one connection ──

  /** In a sequence where both stand once, `x` stands at `|a|`, so `r` stands after it exactly when it is in `b`. */
  lemma AfterTheMiddle(s: seq<(Conn, Token)>, w: seq<(Conn, Token)>, a: seq<(Conn, Token)>, b: seq<(Conn, Token)>,
                       c: Conn, x: Token, r: Token)
    requires s == a + [(c, x)] + b && w <= s && x != r && (c, x) in w && (c, r) in w
    requires Tagged(s, x) <= 1 && Tagged(s, r) <= 1
    ensures (exists i, j :: 0 <= i < j < |w| && w[i] == (c, x) && w[j] == (c, r)) <==> Tagged(b, r) >= 1
    ensures (exists i, j :: 0 <= i < j < |w| && w[i] == (c, r) && w[j] == (c, x)) <==> Tagged(b, r) == 0
  {
    var i :| 0 <= i < |w| && w[i] == (c, x);
    var j :| 0 <= j < |w| && w[j] == (c, r);
    assert s[|a|].1 == x && s[i].1 == x && s[j].1 == r;
    Unique(s, x, i, |a|);
    forall k | 0 <= k < |w|
      ensures w[k].1 == x ==> k == i
      ensures w[k].1 == r ==> k == j
    {
      assert s[k] == w[k];
      if s[k].1 == x {
        Unique(s, x, i, k);
      }
      if s[k].1 == r {
        Unique(s, r, j, k);
      }
    }
    TaggedIn(b, r);
    if k :| 0 <= k < |b| && b[k].1 == r {
      assert s[|a| + 1 + k] == b[k];
      Unique(s, r, j, |a| + 1 + k);
    }
    if j > i {
      assert b[j - |a| - 1] == s[j];
    }
  }

  lemma Unique(s: seq<(Conn, Token)>, x: Token, i: nat, j: nat)
    requires Tagged(s, x) <= 1 && i < |s| && j < |s| && s[i].1 == x && s[j].1 == x
    ensures i == j
  {
    if i < j {
      OnlyOnce(s, i, j);
    } else if j < i {
      OnlyOnce(s, j, i);
    }
  }

  lemma {:induction false} InOf(s: seq<(Conn, Token)>, c: Conn, t: Token)
    ensures (c, t) in Of(s, c) <==> (c, t) in s
  {
    if s != [] {
      InOf(s[1..], c, t);
    }
  }

  /** Where the pushes of a run place `r` on the connection of `x`. */
  lemma PushedAfter(before: seq<Step>, mid: State, step: Step, after: seq<Step>, t: State, c: Conn, x: Token, r: Token)
    requires Through(before, mid, step, after, t, c, x) && x != r
    requires WrittenOn(t, c, x) && WrittenOn(t, c, r)
    ensures WrittenBefore(t, c, x, r) <==> Tagged(Of(Arrivals(Next(mid, step), after), c), r) >= 1
    ensures WrittenBefore(t, c, r, x) <==> Tagged(Of(Arrivals(Next(mid, step), after), c), r) == 0
  {
    var all := before + [step] + after;
    var a, b := Arrivals(INITIAL, before), Arrivals(Next(mid, step), after);
    PushInMiddle(before, mid, step, after, t, c, x);
    ChannelsAreFifo(all, t, c);
    OfAppend(a + [(c, x)], b, c);
    AppendOne(a, c, x, c);
    PushedOnce(all, t, c, x);
    PushedOnce(all, t, c, r);
    AfterTheMiddle(Of(Arrivals(INITIAL, all), c), Of(t.written, c), Of(a, c), Of(b, c), c, x, r);
  }

  lemma PushedOnce(steps: seq<Step>, t: State, c: Conn, x: Token)
    requires Reaches(INITIAL, steps, t)
    ensures Tagged(Of(Arrivals(INITIAL, steps), c), x) <= Tagged(Arrivals(INITIAL, steps), x) == SentOf(t, x) <= 1
  {
    RunSent(INITIAL, steps, t, x);
    TaggedOf(Arrivals(INITIAL, steps), c, x);
    assert Reachable(t);
    ExactlyOnePlace(t, x);
  }

  /** At any time a message accepted is waiting, pushed, or kept out of the queue, and only one of these. */
  lemma OneOfThree(st: State, r: Token)
    requires Reachable(st) && r in st.messages
    ensures Waiting(st, r) <==> SentOf(st, r) == 0 && !Lost(st, r)
    ensures SentOf(st, r) <= 1
  {
    ExactlyOnePlace(st, r);
  }

  lemma NeverLost(st: State, steps: seq<Step>, t: State, c: Conn, r: Token)
    requires Reachable(t) && Reaches(st, steps, t) && WrittenOn(t, c, r)
    ensures !Lost(st, r) && SentOf(t, r) == 1 && (c, r) in t.written
  {
    InOf(t.written, c, r);
    var i :| 0 <= i < |t.written| && t.written[i] == (c, r);
    TaggedIn(t.written, r);
    ExactlyOnePlace(t, r);
    RunSent(st, steps, t, r);
  }

  lemma AllReachable(before: seq<Step>, mid: State, step: Step, after: seq<Step>, t: State, c: Conn, x: Token)
    requires Through(before, mid, step, after, t, c, x)
    ensures Reachable(mid) && Reachable(Next(mid, step)) && Reachable(t)
  {
    PushInMiddle(before, mid, step, after, t, c, x);
    ReachesOneMore(INITIAL, before, mid, step);
  }

  /** Pushing `x` leaves `r` where it was. */
  lemma PushOfAnother(mid: State, step: Step, after: seq<Step>, t: State, c: Conn, x: Token, r: Token)
    requires Enabled(mid, step) && Pushes(mid, step) == [(c, x)] && x != r
    requires Reaches(Next(mid, step), after, t) && Reachable(t) && WrittenOn(t, c, r)
    ensures SentOf(Next(mid, step), r) == SentOf(mid, r) && !Lost(mid, r)
  {
    NeverLost(Next(mid, step), after, t, c, r);
    StepSent(mid, step, r);
    StepLost(mid, step, r);
    OneTagged(c, x, r);
  }

  /** Two messages written on one connection: at the moment `x` is pushed, it goes ahead of `r`, accepted by then,
      exactly when `r` is waiting: in hand, in the queue, or taken from it and not replayed. */
  lemma GoesAheadExactly(before: seq<Step>, mid: State, step: Step, after: seq<Step>, t: State, c: Conn, x: Token,
                         r: Token)
    requires Through(before, mid, step, after, t, c, x) && x != r && r in mid.messages
    requires WrittenOn(t, c, x) && WrittenOn(t, c, r)
    ensures WrittenBefore(t, c, x, r) <==> Waiting(mid, r)
    ensures WrittenBefore(t, c, r, x) <==> !Waiting(mid, r)
  {
    AllReachable(before, mid, step, after, t, c, x);
    PushedAfter(before, mid, step, after, t, c, x, r);
    PushOfAnother(mid, step, after, t, c, x, r);
    OneOfThree(mid, r);
    OnItsConnection(Next(mid, step), after, t, c, r, SentOf(mid, r));
  }

  /** What is pushed once and written on a connection is pushed to that connection. */
  lemma OnItsConnection(st: State, steps: seq<Step>, t: State, c: Conn, r: Token, sent: nat)
    requires Reachable(st) && Reaches(st, steps, t) && WrittenOn(t, c, r) && sent == SentOf(st, r)
    ensures Tagged(Of(Arrivals(st, steps), c), r) >= 1 <==> sent == 0
  {
    RunSent(st, steps, t, r);
    ReachableInv(st);
    RunOrder(st, steps, t, c);
    NeverLostAfter(st, steps, t, c, r);
    TaggedOf(Arrivals(st, steps), c, r);
    TaggedPassed(st, c, r);
    TaggedPassed(t, c, r);
    TaggedAppend(Passed(st, c), Of(Arrivals(st, steps), c), r);
    var w := Of(t.written, c);
    var i :| 0 <= i < |w| && w[i] == (c, r);
    TaggedIn(w, r);
    TaggedAppend(w, Of(t.channel, c), r);
    TaggedAppend(w + Of(t.channel, c), Of(t.dropped, c), r);
  }

  lemma NeverLostAfter(st: State, steps: seq<Step>, t: State, c: Conn, r: Token)
    requires Reachable(st) && Reaches(st, steps, t) && WrittenOn(t, c, r)
    ensures SentOf(t, r) == 1
  {
    var before :| Reaches(INITIAL, before, st);
    Split(INITIAL, before, st, steps, t);
    assert Reachable(t);
    NeverLost(st, steps, t, c, r);
  }

  lemma TaggedPassed(st: State, c: Conn, r: Token)
    ensures Tagged(Passed(st, c), r) <= SentOf(st, r)
  {
    TaggedOf(st.written, c, r);
    TaggedOf(st.channel, c, r);
    TaggedOf(st.dropped, c, r);
    TaggedAppend(Of(st.written, c), Of(st.channel, c), r);
    TaggedAppend(Of(st.written, c) + Of(st.channel, c), Of(st.dropped, c), r);
  }

  // ── Whole runs ──

  function Run(st: State, steps: seq<Step>): State
    decreases |steps|
  {
    if |steps| == 0 || !Enabled(st, steps[0]) then st else Run(Next(st, steps[0]), steps[1..])
  }

  /** The state before step `k`. */
  function StateAt(steps: seq<Step>, k: nat): State
    requires k <= |steps|
  {
    Run(INITIAL, steps[..k])
  }

  lemma {:induction false} Cut(st: State, steps: seq<Step>, t: State, k: nat)
    requires Reaches(st, steps, t) && k < |steps|
    ensures var mid := Run(st, steps[..k]);
            Reaches(st, steps[..k], mid) && Enabled(mid, steps[k]) && Reaches(Next(mid, steps[k]), steps[k + 1..], t)
    decreases k
  {
    if k > 0 {
      Cut(Next(st, steps[0]), steps[1..], t, k - 1);
      assert steps[..k][1..] == steps[1..][..k - 1] && steps[1..][k..] == steps[k + 1..];
    }
  }

  predicate PushesAt(steps: seq<Step>, k: nat, c: Conn, x: Token) {
    k < |steps| && Enabled(StateAt(steps, k), steps[k]) && Pushes(StateAt(steps, k), steps[k]) == [(c, x)]
  }

  /** When `x` was accepted, `r` already was. */
  ghost predicate Earlier(steps: seq<Step>, r: Token, x: Token) {
    exists j: nat :: AcceptsAt(steps, j, x) && r in StateAt(steps, j).messages
  }

  predicate AcceptsAt(steps: seq<Step>, j: nat, x: Token) {
    j < |steps| && steps[j].Accept? && steps[j].t == x
  }

  lemma {:induction false} MessagesStay(st: State, steps: seq<Step>, t: State)
    requires Reaches(st, steps, t)
    ensures st.messages.Keys <= t.messages.Keys
    decreases |steps|
  {
    if |steps| != 0 {
      KeysKept(st, steps[0]);
      MessagesStay(Next(st, steps[0]), steps[1..], t);
    }
  }

  /** From one point of a run to a later one. */
  lemma Later(steps: seq<Step>, t: State, j: nat, k: nat)
    requires Reaches(INITIAL, steps, t) && j <= k < |steps|
    ensures Reaches(StateAt(steps, j), steps[j..k], StateAt(steps, k))
  {
    UpTo(steps, t, j);
    UpTo(steps, t, k);
    assert steps[..k] == steps[..j] + steps[j..k];
    Onwards(INITIAL, steps[..j], StateAt(steps, j), steps[j..k], StateAt(steps, k));
  }

  lemma UpTo(steps: seq<Step>, t: State, k: nat)
    requires Reaches(INITIAL, steps, t) && k < |steps|
    ensures Reaches(INITIAL, steps[..k], StateAt(steps, k))
  {
    Cut(INITIAL, steps, t, k);
  }

  lemma MessagesGrow(steps: seq<Step>, t: State, j: nat, k: nat)
    requires Reaches(INITIAL, steps, t) && j <= k < |steps|
    ensures StateAt(steps, j).messages.Keys <= StateAt(steps, k).messages.Keys
  {
    Later(steps, t, j, k);
    MessagesStay(StateAt(steps, j), steps[j..k], StateAt(steps, k));
  }

  lemma {:induction false} Onwards(st: State, a: seq<Step>, mid: State, b: seq<Step>, t: State)
    requires Reaches(st, a, mid) && Reaches(st, a + b, t)
    ensures Reaches(mid, b, t)
    decreases |a|
  {
    if |a| == 0 {
      assert a + b == b;
    } else {
      assert (a + b)[1..] == a[1..] + b;
      Onwards(Next(st, a[0]), a[1..], mid, b, t);
    }
  }

  /** A message that is pushed has been accepted, and so have those accepted before it. */
  lemma AcceptedByThen(steps: seq<Step>, t: State, k: nat, c: Conn, x: Token, r: Token)
    requires Reaches(INITIAL, steps, t) && PushesAt(steps, k, c, x) && Earlier(steps, r, x)
    ensures r in StateAt(steps, k).messages && r != x
  {
    var mid := StateAt(steps, k);
    Cut(INITIAL, steps, t, k);
    assert Reachable(mid);
    PushedIsAccepted(mid, steps[k], c, x);
    var j: nat :| AcceptsAt(steps, j, x) && r in StateAt(steps, j).messages;
    Cut(INITIAL, steps, t, j);
    if k <= j {
      MessagesGrow(steps, t, k, j);
    } else {
      MessagesGrow(steps, t, j, k);
    }
  }

  lemma PushedIsAccepted(st: State, step: Step, c: Conn, x: Token)
    requires Reachable(st) && Enabled(st, step) && Pushes(st, step) == [(c, x)]
    ensures x in st.messages
  {
    if step.PushDrained? {
      ReachableInv(st);
      FirstOf(st.drained, step.c);
    }
  }

  lemma {:induction false} FindPush(st: State, steps: seq<Step>, t: State, c: Conn, x: Token) returns (k: nat)
    requires Reaches(st, steps, t) && (c, x) in Arrivals(st, steps)
    ensures k < |steps| && Enabled(Run(st, steps[..k]), steps[k]) && Pushes(Run(st, steps[..k]), steps[k]) == [(c, x)]
    decreases |steps|
  {
    if (c, x) in Pushes(st, steps[0]) {
      k := 0;
    } else {
      k := FindPush(Next(st, steps[0]), steps[1..], t, c, x);
      assert steps[..k + 1][1..] == steps[1..][..k];
      k := k + 1;
    }
  }

  lemma PushOf(steps: seq<Step>, t: State, c: Conn, x: Token) returns (k: nat)
    requires Reaches(INITIAL, steps, t) && WrittenOn(t, c, x)
    ensures PushesAt(steps, k, c, x)
  {
    ChannelsAreFifo(steps, t, c);
    assert (c, x) in Of(Arrivals(INITIAL, steps), c);
    InOf(Arrivals(INITIAL, steps), c, x);
    k := FindPush(INITIAL, steps, t, c, x);
  }

  /** The push of `x` at step `k` goes ahead of `r`, accepted earlier and written on the same connection. */
  ghost predicate Overtakes(steps: seq<Step>, t: State, k: nat, c: Conn, x: Token, r: Token) {
    PushesAt(steps, k, c, x) && Due(steps, t, c, r, x) && Waiting(StateAt(steps, k), r)
  }

  /** `r` was accepted before `x`, from the same sender, and both were written on the connection. */
  ghost predicate Due(steps: seq<Step>, t: State, c: Conn, r: Token, x: Token) {
    && Earlier(steps, r, x) && WrittenOn(t, c, r) && WrittenOn(t, c, x)
    && r in t.messages && x in t.messages && t.messages[r].from == t.messages[x].from
  }

  lemma PairInOrder(steps: seq<Step>, t: State, k: nat, c: Conn, r: Token, x: Token)
    requires Reaches(INITIAL, steps, t) && Due(steps, t, c, r, x) && PushesAt(steps, k, c, x)
    ensures WrittenBefore(t, c, r, x) <==> !Overtakes(steps, t, k, c, x, r)
  {
    Cut(INITIAL, steps, t, k);
    AcceptedByThen(steps, t, k, c, x, r);
    GoesAheadExactly(steps[..k], StateAt(steps, k), steps[k], steps[k + 1..], t, c, x, r);
  }

  /** The messages of each sender are written on a connection in the order the server accepted them exactly when
      none was pushed there while an earlier one, written there too, was waiting. */
  lemma OrderKeptExactly(steps: seq<Step>, t: State, c: Conn)
    requires Reaches(INITIAL, steps, t)
    ensures (forall r, x :: Due(steps, t, c, r, x) ==> WrittenBefore(t, c, r, x))
            <==> (forall k: nat, r, x :: !Overtakes(steps, t, k, c, x, r))
  {
    forall k: nat, r, x | Overtakes(steps, t, k, c, x, r)
      ensures Due(steps, t, c, r, x) && !WrittenBefore(t, c, r, x)
    {
      PairInOrder(steps, t, k, c, r, x);
    }
    forall r, x | Due(steps, t, c, r, x) && !WrittenBefore(t, c, r, x)
      ensures exists k: nat :: Overtakes(steps, t, k, c, x, r)
    {
      var k := PushOf(steps, t, c, x);
      PairInOrder(steps, t, k, c, r, x);
    }
  }

  // ── One sending connection ──

  /** A socket takes its next command when the last is done: when a message of connection `via` is accepted, the
      earlier ones of that connection are. */
  ghost predicate InTurn(steps: seq<Step>, via: Token -> Conn) {
    forall j: nat, r :: Precedes(steps, j, r, via) ==> IsDone(StateAt(steps, j), r)
  }

  /** `r` was accepted on the connection whose next message step `j` accepts. */
  predicate Precedes(steps: seq<Step>, j: nat, r: Token, via: Token -> Conn) {
    j < |steps| && steps[j].Accept? && r in StateAt(steps, j).messages && via(r) == via(steps[j].t)
  }

  predicate IsDone(st: State, r: Token) {
    r in st.handlers && r in st.messages && st.handlers[r] == Done
  }

  lemma StepDone(st: State, step: Step, r: Token)
    requires Enabled(st, step) && IsDone(st, r)
    ensures IsDone(Next(st, step), r)
  {
    match step {
      case Connect(u, c) => assert Next(st, step) == ConnectNext(st, u, c);
      case Drain(c, ok) => assert Next(st, step) == DrainNext(st, c, ok);
      case PushDrained(c) => assert Next(st, step) == PushDrainedNext(st, c);
      case Spawn(c) => assert Next(st, step) == SetStage(st, c, Live);
      case WriteOut(c) => assert Next(st, step) == WriteOutNext(st, c);
      case WriteFails(c) => assert Next(st, step) == CloseChannel(st, c);
      case Cleanup(c) => assert Next(st, step) == CleanupNext(st, c);
      case Abort(c) => assert Next(st, step) == CloseChannel(SetStage(st, c, Ended), c);
      case Accept(t, m) => assert Next(st, step) == AcceptNext(st, t, m);
      case Lookup(t) => assert Next(st, step) == LookupNext(st, t);
      case Push(t) => assert Next(st, step) == PushNext(st, t, st.handlers[t].conn);
      case Queue(t, ok) => assert Next(st, step) == QueueNext(st, t, ok);
      case Echo(t) => assert Next(st, step) == EchoNext(st, t, st.handlers[t].delivered);
    }
  }

  lemma {:induction false} DoneStays(st: State, steps: seq<Step>, t: State, r: Token)
    requires Reaches(st, steps, t) && IsDone(st, r)
    ensures IsDone(t, r)
    decreases |steps|
  {
    if |steps| != 0 {
      StepDone(st, steps[0], r);
      DoneStays(Next(st, steps[0]), steps[1..], t, r);
    }
  }

  lemma DoneLater(steps: seq<Step>, t: State, j: nat, k: nat, r: Token)
    requires Reaches(INITIAL, steps, t) && j <= k < |steps| && IsDone(StateAt(steps, j), r)
    ensures IsDone(StateAt(steps, k), r)
  {
    Later(steps, t, j, k);
    DoneStays(StateAt(steps, j), steps[j..k], StateAt(steps, k), r);
  }

  /** A message that is pushed was accepted before. */
  lemma AcceptedBefore(steps: seq<Step>, t: State, j: nat, k: nat, c: Conn, x: Token)
    requires Reaches(INITIAL, steps, t) && PushesAt(steps, k, c, x) && AcceptsAt(steps, j, x)
    ensures j < k
  {
    Cut(INITIAL, steps, t, j);
    Cut(INITIAL, steps, t, k);
    assert Reachable(StateAt(steps, k));
    PushedIsAccepted(StateAt(steps, k), steps[k], c, x);
    if k <= j {
      MessagesGrow(steps, t, k, j);
    }
  }

  /** In the queue, or taken from it and not replayed yet. */
  ghost predicate Queued(st: State, r: Token) {
    Count(st.pending, r) + Tagged(st.drained, r) >= 1
  }

  lemma NotInHand(steps: seq<Step>, t: State, k: nat, c: Conn, x: Token, r: Token, via: Token -> Conn)
    requires Reaches(INITIAL, steps, t) && InTurn(steps, via) && via(r) == via(x)
    requires PushesAt(steps, k, c, x) && Earlier(steps, r, x)
    ensures Waiting(StateAt(steps, k), r) <==> Queued(StateAt(steps, k), r)
  {
    var j: nat :| AcceptsAt(steps, j, x) && r in StateAt(steps, j).messages;
    AcceptedBefore(steps, t, j, k, c, x);
    assert Precedes(steps, j, r, via);
    DoneLater(steps, t, j, k, r);
  }

  ghost predicate OvertakesQueued(steps: seq<Step>, t: State, k: nat, c: Conn, x: Token, r: Token) {
    PushesAt(steps, k, c, x) && Due(steps, t, c, r, x) && Queued(StateAt(steps, k), r)
  }

  /** For the messages of one sending connection order fails only through the queue or its replay: they are written on
      a connection in the order of acceptance exactly when none was pushed there while an earlier one, written there
      too, was queued or taken from the queue. */
  lemma OneSocketOrderExactly(steps: seq<Step>, t: State, c: Conn, from: Conn, via: Token -> Conn)
    requires Reaches(INITIAL, steps, t) && InTurn(steps, via)
    ensures (forall r, x :: Due(steps, t, c, r, x) && via(r) == from && via(x) == from ==> WrittenBefore(t, c, r, x))
            <==> (forall k: nat, r, x :: via(r) == from && via(x) == from ==> !OvertakesQueued(steps, t, k, c, x, r))
  {
    forall k: nat, r, x | via(r) == from && via(x) == from && OvertakesQueued(steps, t, k, c, x, r)
      ensures Due(steps, t, c, r, x) && !WrittenBefore(t, c, r, x)
    {
      NotInHand(steps, t, k, c, x, r, via);
      PairInOrder(steps, t, k, c, r, x);
    }
    forall r, x | Due(steps, t, c, r, x) && via(r) == from && via(x) == from && !WrittenBefore(t, c, r, x)
      ensures exists k: nat :: OvertakesQueued(steps, t, k, c, x, r)
    {
      var k := PushOf(steps, t, c, x);
      NotInHand(steps, t, k, c, x, r, via);
      PairInOrder(steps, t, k, c, r, x);
      assert OvertakesQueued(steps, t, k, c, x, r);
    }
  }
}
