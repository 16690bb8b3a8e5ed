/** A run that meets the situations module `Scope` is about: the theorems are not about nothing. */
module Witness {
  import opened Crypto
  import opened Ratchet
  import opened History
  import opened TwoParty

  lemma {:induction false} ReachesOneMore(s: Sys, steps: seq<Step>, t: Sys, step: Step)
    requires Reaches(s, steps, t) && 1 <= |t.hist.keys| == |t.hist.roots| && Enabled(t, step)
    ensures Reaches(s, steps + [step], Next(t, step))
    decreases |steps|
  {
    if |steps| == 0 {
      assert [step][1..] == [];
      assert Reaches(Next(s, step), [], Next(t, step));
      assert steps + [step] == [step];
    } else {
      ReachesOneMore(Next(s, steps[0]), steps[1..], t, step);
      assert (steps + [step])[1..] == steps[1..] + [step];
    }
  }

  lemma ReachableOneMore(t: Sys, step: Step)
    requires Reachable(t) && 1 <= |t.hist.keys| == |t.hist.roots| && Enabled(t, step)
    ensures Reachable(Next(t, step))
  {
    var s, a0, ratchet, steps :| Opening(s, a0, ratchet) && Reaches(s, steps, t);
    ReachesOneMore(s, steps, t, step);
  }

  /** A reachable state stays reachable under any enabled step. */
  lemma ReachableNext(t: Sys, step: Step)
    requires Reachable(t) && Enabled(t, step)
    ensures Inv(t) && Reachable(Next(t, step))
  {
    ReachableInv(t);
    ReachableOneMore(t, step);
  }

  lemma SendShape(s: Sys, who: Role, plain: Plaintext)
    requires var p := PartyOf(s, who);
             p.epoch < |s.hist.cnt| && Peer(who) in p.store.sessions && p.store.sessions[Peer(who)].sendChainKey.Some?
    ensures var t, e := SendStep(s, who, plain), PartyOf(s, who).epoch;
            && t.hs == s.hs && t.hist == Bump(s.hist, e)
            && |t.net| == |s.net| + 1 && t.net[..|s.net|] == s.net
            && t.net[|s.net|].slot == Slot(e, s.hist.cnt[e]) && t.net[|s.net|].from == who
            && t.a.epoch == s.a.epoch && t.b.epoch == s.b.epoch && t.a.got == s.a.got && t.b.got == s.b.got
  {
  }

  /** What the run below needs to know of a state. */
  datatype View = View(keys: seq<nat>, cnt: seq<nat>, wire: seq<(Role, Slot)>, ea: nat, eb: nat, ga: set<Slot>,
                       gb: set<Slot>)

  ghost function ViewOf(s: Sys): View {
    View(s.hist.keys, s.hist.cnt, seq(|s.net|, i requires 0 <= i < |s.net| => (s.net[i].from, s.net[i].slot)),
         s.a.epoch, s.b.epoch, s.a.got, s.b.got)
  }

  ghost predicate Shows(s: Sys, v: View) {
    && Reachable(s) && ViewOf(s) == v && |s.hist.roots| == |s.hist.keys|
    && s.hs == Handshake(10, 11, 12, 7, 0, None)
  }

  lemma SendView(s: Sys, who: Role, plain: Plaintext, e: nat)
    requires var p := PartyOf(s, who);
             p.epoch < |s.hist.cnt| && Peer(who) in p.store.sessions && p.store.sessions[Peer(who)].sendChainKey.Some?
    requires e == PartyOf(s, who).epoch
    ensures var t, v := SendStep(s, who, plain), ViewOf(s);
            && ViewOf(t) == v.(cnt := v.cnt[e := v.cnt[e] + 1], wire := v.wire + [(who, Slot(e, v.cnt[e]))])
            && t.hist.roots == s.hist.roots && t.hs == s.hs
  {
    SendShape(s, who, plain);
    WireAppend(s, SendStep(s, who, plain));
  }

  lemma ReachableSend(s: Sys, who: Role, plain: Plaintext)
    requires Reachable(s)
    ensures Reachable(SendStep(s, who, plain))
  {
    ReachableNext(s, Send(who, plain));
  }

  lemma ReachableCanSend(s: Sys, who: Role)
    requires Reachable(s) && PartyOf(s, who).epoch != 0
    ensures var p := PartyOf(s, who);
            p.epoch < |s.hist.cnt| && Peer(who) in p.store.sessions && p.store.sessions[Peer(who)].sendChainKey.Some?
  {
    ReachableInv(s);
    CanSeal(s, who);
  }

  lemma AfterSend(s: Sys, v: View, who: Role, plain: Plaintext) returns (t: Sys)
    requires Shows(s, v)
    requires var e := if who == Alice then v.ea else v.eb; 0 != e < |v.cnt|
    ensures var e := if who == Alice then v.ea else v.eb;
            Shows(t, v.(cnt := v.cnt[e := v.cnt[e] + 1], wire := v.wire + [(who, Slot(e, v.cnt[e]))]))
  {
    var e := if who == Alice then v.ea else v.eb;
    ReachableCanSend(s, who);
    SendView(s, who, plain, e);
    ReachableSend(s, who, plain);
    t := SendStep(s, who, plain);
    assert |t.hist.roots| == |t.hist.keys|;
  }

  lemma WireAppend(s: Sys, t: Sys)
    requires |t.net| == |s.net| + 1 && t.net[..|s.net|] == s.net
    ensures ViewOf(t).wire == ViewOf(s).wire + [(t.net[|s.net|].from, t.net[|s.net|].slot)]
  {
    assert forall i :: 0 <= i < |s.net| ==> t.net[i] == t.net[..|s.net|][i];
  }

  lemma DeliverShape(s: Sys, i: nat, newKey: nat)
    requires i < |s.net| && 1 <= |s.hist.keys| == |s.hist.roots| && Decrypted(s, i, newKey).1.Opened?
    ensures var t, who, sl := DeliverStep(s, i, newKey), Other(s.net[i].from), s.net[i].slot;
            && t.hs == s.hs && t.net == s.net
            && PartyOf(t, who).epoch == sl.chain + 1 && PartyOf(t, who).got == PartyOf(s, who).got + {sl}
            && PartyOf(t, Other(who)) == PartyOf(s, Other(who))
            && t.hist == if sl.chain + 1 == PartyOf(s, who).epoch then s.hist else Extend(s.hist, newKey)
  {
  }

  /** A delivery to Bob or Alice that makes the receiver ratchet, in a conversation too short for
      anything to be refused. */
  lemma AfterDeliver(s: Sys, v: View, i: nat, newKey: nat) returns (t: Sys)
    requires Shows(s, v) && i < |v.wire| && |v.keys| >= 1
    requires newKey !in v.keys && newKey !in {10, 11, 12, 0}
    requires forall c :: c in v.cnt ==> c <= MAX_SKIP
    requires var (from, sl) := v.wire[i];
             if from == Alice then sl !in v.gb && sl.chain + 1 > v.eb && (sl == Slot(1, 0) || v.eb != 0)
             else sl !in v.ga && sl.chain + 1 > v.ea && v.ea != 0
    ensures var (from, sl) := v.wire[i];
            Shows(t, if from == Alice then v.(keys := v.keys + [newKey], cnt := v.cnt + [0],
                                            eb := sl.chain + 1, gb := v.gb + {sl})
                     else v.(keys := v.keys + [newKey], cnt := v.cnt + [0], ea := sl.chain + 1, ga := v.ga + {sl}))
  {
    assert v.wire[i] == (s.net[i].from, s.net[i].slot);
    ReachableNext(s, Deliver(i, newKey));
    DeliverInv(s, i, newKey);
    NothingRefused(s, i, newKey);
    DeliverShape(s, i, newKey);
    t := DeliverStep(s, i, newKey);
  }

  lemma NothingRefused(s: Sys, i: nat, newKey: nat)
    requires Inv(s) && Enabled(s, Deliver(i, newKey))
    requires forall c :: c in s.hist.cnt ==> c <= MAX_SKIP
    requires s.net[i].slot == Slot(1, 0) || PartyOf(s, Other(s.net[i].from)).epoch != 0
    ensures Expected(s, i).Opened?
  {
    var pk := s.net[i];
    assert PacketOk(s.hs, s.hist, pk);
    assert s.hist.cnt[pk.slot.chain] in s.hist.cnt;
    var p := PartyOf(s, Other(pk.from));
    if p.epoch >= 2 {
      assert s.hist.cnt[p.epoch - 1] in s.hist.cnt;
    }
  }

  lemma Start() returns (s: Sys)
    ensures Shows(s, View([0, 1], [0, 0], [], 1, 0, {}, {}))
  {
    var hs := Handshake(10, 11, 12, 7, 0, None);
    var a0 := Store(Some(10), map[], map[], map[]);
    var b0 := Store(Some(12), map[], map[7 := Priv(0)], map[]);
    var root := Secret(hs);
    var hist := Hist([0, 1], [root, NextRoot(root, Dh(Priv(1), Pub(0)))], [0, 0]);
    s := Sys(hs, hist, Party(InitFromBundle(a0, Peer(Alice), BundleOf(hs), 11, 1).0, 1, {}), Party(b0, 0, {}), []);
    assert Opening(s, a0, 1);
    assert Reaches(s, [], s);
  }

  lemma SentTwice() returns (s: Sys)
    ensures Shows(s, View([0, 1], [0, 2], [(Alice, Slot(1, 0)), (Alice, Slot(1, 1))], 1, 0, {}, {}))
  {
    s := Start();
    s := AfterSend(s, ViewOf(s), Alice, "a");
    s := AfterSend(s, View([0, 1], [0, 1], [(Alice, Slot(1, 0))], 1, 0, {}, {}), Alice, "b");
  }

  lemma FirstArrives() returns (s: Sys)
    ensures Shows(s, View([0, 1, 2], [0, 2, 0], [(Alice, Slot(1, 0)), (Alice, Slot(1, 1))], 1, 2, {}, {Slot(1, 0)}))
  {
    s := SentTwice();
    s := AfterDeliver(s, ViewOf(s), 0, 2);
  }

  lemma Answered() returns (s: Sys)
    ensures Shows(s, View([0, 1, 2], [0, 2, 1], [(Alice, Slot(1, 0)), (Alice, Slot(1, 1)), (Bob, Slot(2, 0))],
                          1, 2, {}, {Slot(1, 0)}))
  {
    s := FirstArrives();
    s := AfterSend(s, ViewOf(s), Bob, "c");
  }

  lemma AnswerArrives() returns (s: Sys)
    ensures Shows(s, View([0, 1, 2, 3], [0, 2, 1, 0], [(Alice, Slot(1, 0)), (Alice, Slot(1, 1)), (Bob, Slot(2, 0))],
                          3, 2, {Slot(2, 0)}, {Slot(1, 0)}))
  {
    s := Answered();
    s := AfterDeliver(s, ViewOf(s), 2, 3);
  }

  lemma AliceAnswers() returns (s: Sys)
    ensures Shows(s, View([0, 1, 2, 3], [0, 2, 1, 1], [(Alice, Slot(1, 0)), (Alice, Slot(1, 1)), (Bob, Slot(2, 0)),
                                              (Alice, Slot(3, 0))],
                          3, 2, {Slot(2, 0)}, {Slot(1, 0)}))
  {
    s := AnswerArrives();
    s := AfterSend(s, ViewOf(s), Alice, "d");
  }

  /** Alice sends twice, her first message and Bob's answer arrive, she answers, and that arrives: her
      second message is now of a superseded chain, still undelivered. */
  lemma LateMessageArises() returns (s: Sys, i: nat)
    ensures Reachable(s) && i < |s.net| && s.net[i].from == Alice
    ensures s.net[i].slot !in s.b.got && s.net[i].slot.chain + 1 < s.b.epoch
  {
    s := AliceAnswers();
    var v := ViewOf(s);
    s := AfterDeliver(s, v, 3, 4);
    i := 1;
    assert ViewOf(s).wire == v.wire && v.wire[1] == (s.net[1].from, s.net[1].slot);
  }
}
