/** What every run keeps, said of the two session records and the wire alone. */
module Conservation {
  import opened Crypto
  import opened Ratchet
  import opened History
  import opened TwoParty
  import opened Secrecy

  /** `y` has ratcheted on `x`'s current sending chain, and `x` not yet on `y`'s. */
  ghost predicate Ahead(y: Session, x: Session) {
    && x.sendChainKey.Some? && y.sendChainKey.Some? && y.recvChainKey.Some?
    // y receives on the chain x sends on, and lags it by the messages still to come.
    && y.theirRatchetPublic == Some(x.ourRatchetPublic)
    && 0 <= y.recvCount <= x.sendCount
    && x.sendChainKey.value == Advance(y.recvChainKey.value, x.sendCount - y.recvCount)
    // x receives on the chain y sent on before, up to its announced length.
    && (x.recvChainKey.Some? ==> 0 <= x.recvCount <= y.prevSendCount)
    // The root keys are one derivation apart, and that derivation seeds y's sending chain.
    && y.rootKey == NextRoot(x.rootKey, Dh(x.ourRatchetPrivate, y.ourRatchetPublic))
    && y.sendChainKey.value == Advance(ChainSeed(x.rootKey, Dh(x.ourRatchetPrivate, y.ourRatchetPublic)), y.sendCount)
  }

  /** In every reachable state with both sessions in place, one record is exactly one ratchet step ahead. */
  lemma RatchetAgreement(s: Sys)
    requires Reachable(s)
    requires Peer(Alice) in s.a.store.sessions && Peer(Bob) in s.b.store.sessions
    ensures var x, y := s.a.store.sessions[Peer(Alice)], s.b.store.sessions[Peer(Bob)]; Ahead(x, y) || Ahead(y, x)
  {
    ReachableInv(s);
    SessionInv(s, Alice);
    SessionInv(s, Bob);
    var x, y := s.a.store.sessions[Peer(Alice)], s.b.store.sessions[Peer(Bob)];
    if s.a.epoch < s.b.epoch {
      StepAhead(s.hist, s.a.epoch, x, y);
    } else {
      StepAhead(s.hist, s.b.epoch, y, x);
    }
  }

  lemma StepAhead(h: Hist, e: nat, x: Session, y: Session)
    requires WellFormed(h) && InStep(h, e, x) && InStep(h, e + 1, y)
    ensures Ahead(y, x)
  {
    AdvanceAdd(Seed(h, e), y.recvCount, x.sendCount - y.recvCount);
    assert h.roots[e + 1] == NextRoot(h.roots[e], Dh(Priv(h.keys[e]), Pub(h.keys[e + 1])));
  }

  // ── Saved keys and undelivered messages ──

  ghost function Slots(net: seq<Packet>): set<Slot> {
    set i | 0 <= i < |net| :: net[i].slot
  }

  /** Every message counted in the history is on the wire. */
  ghost predicate Complete(s: Sys) {
    forall i: nat, n: nat {:trigger Slot(i, n)} ::
      1 <= i < |s.hist.cnt| && n < s.hist.cnt[i] ==> Slot(i, n) in Slots(s.net)
  }

  /** A step adds one message of the sender's chain to the wire, or only, at most, an empty chain. */
  lemma NextShape(s: Sys, step: Step)
    requires 1 <= |s.hist.keys| == |s.hist.roots| && Enabled(s, step)
    ensures var t := Next(s, step);
            || (t.net == s.net && (t.hist.cnt == s.hist.cnt || t.hist.cnt == s.hist.cnt + [0]))
            || exists e: nat, p: Packet :: e < |s.hist.cnt| && p.slot == Slot(e, s.hist.cnt[e])
                                           && t.net == s.net + [p] && t.hist.cnt == s.hist.cnt[e := s.hist.cnt[e] + 1]
  {
    if step.Send? {
      var t := Next(s, step);
      var e := PartyOf(s, step.who).epoch;
      if t.net != s.net {
        assert t.net == s.net + [t.net[|s.net|]];
      }
    }
  }

  lemma StepComplete(s: Sys, step: Step)
    requires 1 <= |s.hist.keys| == |s.hist.roots| && Complete(s) && Enabled(s, step)
    ensures Complete(Next(s, step))
  {
    var t := Next(s, step);
    NextShape(s, step);
    if t.net != s.net {
      var e: nat, p: Packet :| e < |s.hist.cnt| && p.slot == Slot(e, s.hist.cnt[e])
                               && t.net == s.net + [p] && t.hist.cnt == s.hist.cnt[e := s.hist.cnt[e] + 1];
      SlotsAppend(s.net, p);
    }
  }

  lemma SlotsAppend(net: seq<Packet>, p: Packet)
    ensures Slots(net + [p]) == Slots(net) + {p.slot}
  {
    var more := net + [p];
    assert forall i :: 0 <= i < |net| ==> more[i] == net[i];
    assert more[|net|] == p;
  }

  lemma {:induction false} RunComplete(s: Sys, steps: seq<Step>, t: Sys)
    requires 1 <= |s.hist.keys| == |s.hist.roots| && Complete(s) && Reaches(s, steps, t)
    ensures Complete(t)
    decreases |steps|
  {
    if |steps| != 0 {
      StepComplete(s, steps[0]);
      RunComplete(Next(s, steps[0]), steps[1..], t);
    }
  }

  lemma ReachableComplete(t: Sys)
    requires Reachable(t)
    ensures Complete(t)
  {
    var s, a0, ratchet, steps :| Opening(s, a0, ratchet) && Reaches(s, steps, t);
    RunComplete(s, steps, t);
  }

  /** The slot is below the frontier of a chain `who` has received on. */
  ghost predicate Passed(s: Sys, who: Role, sl: Slot)
    requires Peer(who) in PartyOf(s, who).store.sessions
  {
    var p := PartyOf(s, who);
    && 1 <= sl.chain < p.epoch && sl.chain < |s.hist.cnt|
    && sl.n < Frontier(s.hist, p.epoch, p.store.sessions[Peer(who)].recvCount, sl.chain)
  }

  /** Skipped-key conservation, seen from the wire: of the peer's messages on the chains seen, those
      below the frontier are either consumed or have their own key saved, never both, and those beyond
      are neither. */
  lemma PassedSplits(s: Sys, who: Role, i: nat)
    requires Reachable(s) && i < |s.net| && s.net[i].from == Other(who)
    requires Peer(who) in PartyOf(s, who).store.sessions
    ensures var p, k := PartyOf(s, who), SkipKey(s.net[i].env.h.rk, s.net[i].env.h.n);
            var saved := p.store.sessions[Peer(who)].skipped;
            && (Passed(s, who, s.net[i].slot) <==> s.net[i].slot in p.got || k in saved)
            && !(s.net[i].slot in p.got && k in saved)
            && (k in saved ==> saved[k] == s.net[i].env.ct.key)
  {
    ReachableInv(s);
    PeerSlot(s, who, i);
    var p, sl := PartyOf(s, who), s.net[i].slot;
    SplitAt(s.hist, p.epoch, p.store.sessions[Peer(who)], p.got, sl.chain, sl.n);
  }

  lemma PeerSlot(s: Sys, who: Role, i: nat)
    requires Inv(s) && i < |s.net| && s.net[i].from == Other(who)
    requires Peer(who) in PartyOf(s, who).store.sessions
    ensures var p, sl := PartyOf(s, who), s.net[i].slot;
            && PartyInv(s.hist, p.epoch, p.store.sessions[Peer(who)], p.got)
            && Chain(s.hist, sl.chain) && sl.n < s.hist.cnt[sl.chain] && (sl.chain - p.epoch) % 2 == 1
            && s.net[i].env.h == HeaderAt(s.hist, sl.chain, sl.n)
            && s.net[i].env.ct.key == KeyAt(s.hist, sl.chain, sl.n)
  {
    SessionInv(s, who);
    SentPacket(s.hs, s.hist, s.net[i]) by {
      PacketAt(s, i);
    }
    Opposite(s.net[i].slot.chain, PartyOf(s, who).epoch);
  }

  lemma PacketAt(s: Sys, i: nat)
    requires Inv(s) && i < |s.net|
    ensures PacketOk(s.hs, s.hist, s.net[i])
  {
  }

  lemma SentPacket(hs: Handshake, h: Hist, p: Packet)
    requires PacketOk(hs, h, p)
    ensures Chain(h, p.slot.chain) && p.slot.n < h.cnt[p.slot.chain] && (p.slot.chain % 2 == 1 <==> p.from == Alice)
    ensures p.env.h == HeaderAt(h, p.slot.chain, p.slot.n) && p.env.ct.key == KeyAt(h, p.slot.chain, p.slot.n)
  {
  }

  lemma Opposite(a: nat, b: nat)
    ensures (a - b) % 2 == 1 <==> (a % 2 == 1 <==> b % 2 == 0)
  {
  }

  lemma SplitAt(h: Hist, e: nat, s: Session, got: set<Slot>, i: nat, n: nat)
    requires PartyInv(h, e, s, got) && Chain(h, i) && n < h.cnt[i] && (i - e) % 2 == 1
    ensures var k := SkipKey(Pub(h.keys[i]), n);
            && (i < e && n < Frontier(h, e, s.recvCount, i) <==> Slot(i, n) in got || k in s.skipped)
            && !(Slot(i, n) in got && k in s.skipped)
            && (k in s.skipped ==> s.skipped[k] == KeyAt(h, i, n))
  {
    var k := SkipKey(Pub(h.keys[i]), n);
    if k in s.skipped {
      var j: nat :| SavedAs(h, e, s.recvCount, got, k, s.skipped[k], j);
      assert j == i;
    }
    if i < e {
      assert Receives(e, i);
    }
  }

  /** And nothing else is ever saved: every saved key belongs to a message sent and not yet consumed. */
  lemma SavedIsUndelivered(s: Sys, who: Role, k: SkipKey) returns (i: nat)
    requires Reachable(s) && Peer(who) in PartyOf(s, who).store.sessions
    requires k in PartyOf(s, who).store.sessions[Peer(who)].skipped
    ensures i < |s.net| && s.net[i].from == Other(who) && s.net[i].slot !in PartyOf(s, who).got
    ensures k == SkipKey(s.net[i].env.h.rk, s.net[i].env.h.n)
  {
    ReachableInv(s);
    ReachableComplete(s);
    SessionInv(s, who);
    var p := PartyOf(s, who);
    var j := SavedSlot(s.hist, p.epoch, p.store.sessions[Peer(who)], p.got, k);
    i := FindSlot(s, j, k.n);
    PeerPacket(s, who, p.epoch, i);
  }

  lemma PeerPacket(s: Sys, who: Role, e: nat, i: nat)
    requires Inv(s) && i < |s.net| && (e % 2 == 1 <==> who == Alice)
    requires Receives(e, s.net[i].slot.chain)
    ensures s.net[i].from == Other(who)
    ensures Chain(s.hist, s.net[i].slot.chain)
    ensures s.net[i].env.h == HeaderAt(s.hist, s.net[i].slot.chain, s.net[i].slot.n)
  {
    PacketAt(s, i);
    SentPacket(s.hs, s.hist, s.net[i]);
    OtherParity(e, s.net[i].slot.chain);
  }

  lemma OtherParity(e: nat, j: nat)
    requires Receives(e, j)
    ensures j % 2 == 1 <==> e % 2 == 0
  {
  }

  lemma FindSlot(s: Sys, j: nat, n: nat) returns (i: nat)
    requires Complete(s) && 1 <= j < |s.hist.cnt| && n < s.hist.cnt[j]
    ensures i < |s.net| && s.net[i].slot == Slot(j, n)
  {
    assert Slot(j, n) in Slots(s.net);
    i :| i < |s.net| && s.net[i].slot == Slot(j, n);
  }

  lemma SavedSlot(h: Hist, e: nat, s: Session, got: set<Slot>, k: SkipKey) returns (j: nat)
    requires PartyInv(h, e, s, got) && k in s.skipped
    ensures Chain(h, j) && Receives(e, j) && k.rk == Pub(h.keys[j]) && 0 <= k.n < h.cnt[j] && Slot(j, k.n) !in got
  {
    j :| SavedAs(h, e, s.recvCount, got, k, s.skipped[k], j);
  }
}
