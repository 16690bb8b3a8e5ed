/** How tight the delivery assumptions are: what any delivery does, including the ones the run model
    excludes, and that the session is lost exactly where an assumption is broken. */
module Scope {
  import opened Crypto
  import opened Ratchet
  import opened History
  import opened TwoParty
  import opened Secrecy
  import Conservation

  // ── Assumption (a): no packet is consumed twice ──

  /** Any message of the current chain, repeated or not: it opens exactly when it has not been consumed
      and is not too far ahead; a repeat never opens, and shifts the chain against its counter. */
  lemma CurrentChainExactly(h: Hist, e: nat, s: Session, got: set<Slot>, n: nat, pn: int, plain: Plaintext, newKey: nat)
    requires PartyInv(h, e, s, got) && e >= 2 && n < h.cnt[e-1]
    ensures var (t, o) := Receive(s, Header(Pub(h.keys[e-1]), n, pn), Box(KeyAt(h, e-1, n), plain), newKey);
            && (o == Opened(plain) <==> Slot(e-1, n) !in got && n <= s.recvCount + MAX_SKIP)
            && (o == Failed(TooManySkipped) <==> n > s.recvCount + MAX_SKIP)
            && (o == Failed(BadCiphertext) <==> Slot(e-1, n) in got)
            && (Slot(e-1, n) in got ==>
                  t == s.(recvChainKey := Some(Advance(Seed(h, e-1), s.recvCount + 1)), recvCount := n + 1)
                  && n + 1 <= s.recvCount)
  {
    if Slot(e-1, n) in got {
      ConsumedNotSaved(h, e, s, got, e-1, n);
      KeysDistinct(h, e-1, n, e-1, s.recvCount);
    } else {
      ReceiveCurrent(h, e, s, got, n, pn, plain, newKey);
    }
  }

  lemma ConsumedNotSaved(h: Hist, e: nat, s: Session, got: set<Slot>, j: nat, n: nat)
    requires PartyInv(h, e, s, got) && Chain(h, j) && Slot(j, n) in got
    ensures SkipKey(Pub(h.keys[j]), n) !in s.skipped
    ensures Receives(e, j) && n < Frontier(h, e, s.recvCount, j)
  {
    var k := SkipKey(Pub(h.keys[j]), n);
    assert forall i: nat, mk :: SavedAs(h, e, s.recvCount, got, k, mk, i) ==> i == j;
  }

  /** After a repeat the rest of the chain is lost: no message the chain had not reached yet opens. */
  lemma RepeatLosesChain(h: Hist, e: nat, s: Session, got: set<Slot>, n: nat, m: nat, plain: Plaintext, k1: nat,
                         k2: nat)
    requires PartyInv(h, e, s, got) && e >= 2 && n < h.cnt[e-1]
    requires Slot(e-1, n) in got && m >= s.recvCount
    ensures var t := Receive(s, HeaderAt(h, e-1, n), Box(KeyAt(h, e-1, n), plain), k1).0;
            Receive(t, HeaderAt(h, e-1, m), Box(KeyAt(h, e-1, m), plain), k2).1.Failed?
  {
    CurrentChainExactly(h, e, s, got, n, Announced(h, e-1), plain, k1);
    NotSaved(h, e, s, got, e-1, m);
    var t := Receive(s, HeaderAt(h, e-1, n), Box(KeyAt(h, e-1, n), plain), k1).0;
    SaveUpToEffect(t, m);
    var gap: nat := m - (n + 1);
    AdvanceAdd(Seed(h, e-1), s.recvCount + 1, gap);
    KeysDistinct(h, e-1, m, e-1, s.recvCount + 1 + gap);
  }

  // ── Assumption (b): nothing of a superseded chain arrives after the ratchet has moved on ──

  /** A late message still opens exactly when its key was saved (and its announced length does not stop
      it first); but the ratchet step runs before the saved keys are consulted, so the session has moved
      to a root key no run has. */
  lemma LateMessage(h: Hist, e: nat, s: Session, got: set<Slot>, j: nat, n: nat, plain: Plaintext, newKey: nat)
    requires PartyInv(h, e, s, got) && Receives(e, j) && j < e - 1 && n < h.cnt[j]
    ensures var (t, o) := Receive(s, HeaderAt(h, j, n), Box(KeyAt(h, j, n), plain), newKey);
            && (o == Opened(plain) <==> Announced(h, j) <= s.recvCount + MAX_SKIP && Slot(j, n) !in got)
            && (Stores(o) ==> && t.theirRatchetPublic == Some(Pub(h.keys[j]))
                              && t.ourRatchetPrivate == Priv(newKey)
                              && t.rootKey == NextRoot(NextRoot(h.roots[e], Dh(Priv(h.keys[e]), Pub(h.keys[j]))),
                                                       Dh(Priv(newKey), Pub(h.keys[j]))))
  {
    var hd, ct := HeaderAt(h, j, n), Box(KeyAt(h, j, n), plain);
    var k := SkipKey(hd.rk, n);
    assert h.keys[j] != h.keys[e-1];
    if !SkipRefused(s, hd.pn) {
      SaveUpToEffect(s, hd.pn);
      var u := DhRatchet(Skip(s, hd.pn), hd.rk, newKey);
      TakeKeeps(u, hd, ct);
      if Slot(j, n) in got {
        ConsumedNotSaved(h, e, s, got, j, n);
        WrongTakes(h, e, j, n, u, plain);
      } else {
        SavedLate(h, e, s, got, j, n);
      }
    }
  }

  /** Finding a message key leaves the ratchet of the record alone. */
  lemma TakeKeeps(u: Session, hd: Header, ct: Box)
    ensures var t := Take(u, hd, ct).0;
            && t.rootKey == u.rootKey && t.theirRatchetPublic == u.theirRatchetPublic
            && t.ourRatchetPrivate == u.ourRatchetPrivate
  {
    if Skips(u) {
      SaveUpToEffect(u, hd.n);
    }
  }

  lemma WrongTakes(h: Hist, e: nat, j: nat, n: nat, u: Session, plain: Plaintext)
    requires WellFormed(h) && Chain(h, e) && Chain(h, j) && j < e
    requires u.recvCount == 0 && u.recvChainKey == Some(ChainSeed(h.roots[e], Dh(Priv(h.keys[e]), Pub(h.keys[j]))))
    requires Skips(u) && SkipKey(Pub(h.keys[j]), n) !in u.skipped
    ensures Take(u, HeaderAt(h, j, n), Box(KeyAt(h, j, n), plain)).1.Failed?
  {
    WrongSeed(h, e, j, n, u);
  }

  lemma SavedLate(h: Hist, e: nat, s: Session, got: set<Slot>, j: nat, n: nat)
    requires PartyInv(h, e, s, got) && Receives(e, j) && j < e - 1 && n < h.cnt[j] && Slot(j, n) !in got
    ensures var k := SkipKey(Pub(h.keys[j]), n); k in s.skipped && s.skipped[k] == KeyAt(h, j, n)
  {
    var k := SkipKey(Pub(h.keys[j]), n);
    assert k in s.skipped;
    var i: nat :| SavedAs(h, e, s.recvCount, got, k, s.skipped[k], i);
    assert i == j;
  }

  lemma WrongSeed(h: Hist, e: nat, j: nat, n: nat, u: Session)
    requires WellFormed(h) && Chain(h, e) && Chain(h, j) && j < e
    requires u.recvCount == 0 && u.recvChainKey == Some(ChainSeed(h.roots[e], Dh(Priv(h.keys[e]), Pub(h.keys[j]))))
    requires Skips(u)
    ensures var t := SaveUpTo(u, n); t.recvChainKey.Some? && MessageKey(t.recvChainKey.value) != KeyAt(h, j, n)
  {
    SaveUpToEffect(u, n);
    AdvanceShape(u.recvChainKey.value, n);
    AdvanceShape(Seed(h, j), n);
    RootDepth(h, e);
    RootDepth(h, j - 1);
  }

  /** The sessions a broken delivery leaves behind: their root key is none of the conversation's. */
  ghost predicate Astray(h: Hist, t: Session) {
    t.rootKey !in h.roots
  }

  lemma WrongRootTakes(h: Hist, u: Session, i: nat, m: nat, plain: Plaintext, r: RootKey, d: DhSecret)
    requires WellFormed(h) && Chain(h, i) && r !in h.roots
    requires u.recvCount == 0 && u.theirRatchetPublic.Some? && u.recvChainKey == Some(ChainSeed(r, d))
    requires SkipKey(Pub(h.keys[i]), m) !in u.skipped
    ensures Take(u, HeaderAt(h, i, m), Box(KeyAt(h, i, m), plain)).1.Failed?
  {
    SaveUpToEffect(u, m);
    AdvanceShape(ChainSeed(r, d), m);
    AdvanceShape(Seed(h, i), m);
    assert h.roots[i-1] in h.roots;
  }

  /** No message of the conversation opens through the ratchet any more: all that can still open is a
      message whose key had been saved before. */
  lemma AstrayOpensNothing(h: Hist, t: Session, i: nat, m: nat, plain: Plaintext, newKey: nat)
    requires WellFormed(h) && Chain(h, i) && Astray(h, t)
    requires t.theirRatchetPublic != Some(Pub(h.keys[i]))
    requires SkipKey(Pub(h.keys[i]), m) !in t.skipped
    ensures Receive(t, HeaderAt(h, i, m), Box(KeyAt(h, i, m), plain), newKey).1.Failed?
  {
    var hd := HeaderAt(h, i, m);
    if !SkipRefused(t, hd.pn) {
      var v := Skip(t, hd.pn);
      if Skips(t) {
        SaveUpToEffect(t, hd.pn);
      }
      assert v.rootKey == t.rootKey && SkipKey(hd.rk, m) !in v.skipped;
      WrongRootTakes(h, DhRatchet(v, hd.rk, newKey), i, m, plain, t.rootKey, Dh(v.ourRatchetPrivate, hd.rk));
    }
  }

  /** A late message that is not refused leaves the session astray. */
  lemma LateMessageLosesSession(h: Hist, e: nat, s: Session, got: set<Slot>, j: nat, n: nat, plain: Plaintext,
                                newKey: nat)
    requires PartyInv(h, e, s, got) && Receives(e, j) && j < e - 1 && n < h.cnt[j]
    requires Stores(Receive(s, HeaderAt(h, j, n), Box(KeyAt(h, j, n), plain), newKey).1)
    ensures Astray(h, Receive(s, HeaderAt(h, j, n), Box(KeyAt(h, j, n), plain), newKey).0)
  {
    LateMessage(h, e, s, got, j, n, plain, newKey);
    var t := Receive(s, HeaderAt(h, j, n), Box(KeyAt(h, j, n), plain), newKey).0;
    OffPath(h, e, NextRoot(h.roots[e], Dh(Priv(h.keys[e]), Pub(h.keys[j]))), Dh(Priv(newKey), Pub(h.keys[j])), j);
  }

  lemma OffPath(h: Hist, e: nat, r: RootKey, d: DhSecret, j: nat)
    requires WellFormed(h) && Chain(h, e) && j < e
    requires r == NextRoot(h.roots[e], Dh(Priv(h.keys[e]), Pub(h.keys[j])))
    ensures NextRoot(r, d) !in h.roots
  {
    RootDepth(h, e);
    forall i: nat | i < |h.roots|
      ensures h.roots[i] != NextRoot(r, d)
    {
      RootDepth(h, i);
      if i == e + 2 {
        assert h.roots[e+2] == NextRoot(h.roots[e+1], Dh(Priv(h.keys[e+1]), Pub(h.keys[e+2])));
        assert h.roots[e+1] == NextRoot(h.roots[e], Dh(Priv(h.keys[e]), Pub(h.keys[e+1])));
        assert h.keys[e+1] != h.keys[j];
      }
    }
  }

  // ── A replayed opening message ──

  /** Offering Bob the opening message again throws his session away for a new one. Without a one-time
      pre-key the old plaintext comes out a second time; with one, nothing does, because the one-time
      key was removed when it was used. Either way the new session's root key is not the conversation's. */
  lemma ReplayedOpening(s: Sys, i: nat, newKey: nat)
    requires Reachable(s) && i < |s.net| && s.net[i].slot == Slot(1, 0)
    requires s.b.epoch != 0 && newKey !in s.hist.keys
    ensures Decrypted(s, i, newKey).1 == if s.hs.opk.None? then Opened(s.net[i].plain) else Failed(BadCiphertext)
    ensures var (st, _) := Decrypted(s, i, newKey);
            && Peer(Bob) in st.sessions
            && var t := st.sessions[Peer(Bob)];
               t.recvCount == 1 && t.sendCount == 0 && t.ourRatchetPublic == Pub(newKey) && t.skipped == map[]
               && Astray(s.hist, t)
  {
    ReachableInv(s);
    SessionInv(s, Bob);
    var h := s.hist;
    assert PacketOk(s.hs, h, s.net[i]);
    var env := EnvelopeAt(s.hs, h, Slot(1, 0), s.net[i].plain);
    var opk := OneTimeKey(s.b.store, env.opkId);
    assert opk.None?;
    var t := RespondSession(s.hs.ikB, Priv(s.hs.spkB), opk, env, newKey);
    RespondsAstray(s.hs, h, env, newKey);
    SaveUpToEffect(t, 0);
  }

  lemma RespondsAstray(hs: Handshake, h: Hist, env: Envelope, newKey: nat)
    requires HistInv(hs, h) && newKey !in h.keys && env.PreKeyMessage?
    requires env.ik == Pub(hs.ikA) && env.ek == Pub(hs.ekA) && env.h == HeaderAt(h, 1, 0)
    requires env.ct.key == KeyAt(h, 1, 0)
    ensures var t := RespondSession(hs.ikB, Priv(hs.spkB), None, env, newKey);
            && t.rootKey !in h.roots
            && t.recvChainKey.Some? && (MessageKey(t.recvChainKey.value) == env.ct.key <==> hs.opk.None?)
  {
    var t := RespondSession(hs.ikB, Priv(hs.spkB), None, env, newKey);
    assert h.roots[1] == NextRoot(h.roots[0], Dh(Priv(h.keys[0]), Pub(h.keys[1])));
    assert Advance(Seed(h, 1), 0) == Seed(h, 1);
    assert Depth(h.roots[0]) == 0;
    assert t.rootKey.NextRoot? && t.rootKey.dh == Dh(Priv(newKey), Pub(h.keys[1]));
    var r := t.rootKey.root;
    assert Depth(r.root) == 0 && Depth(r) == 1;
    forall i: nat | i < |h.roots|
      ensures h.roots[i] != t.rootKey
    {
      RootDepth(h, i);
      if i == 2 {
        assert h.roots[2] == NextRoot(h.roots[1], Dh(Priv(h.keys[1]), Pub(h.keys[2])));
        assert h.keys[2] in h.keys;
      }
    }
  }

  // ── The assumptions are exactly what keeps the parties in step ──

  /** The record agrees with the conversation so far, or with the conversation and one more ratchet key. */
  ghost predicate InStepSomewhere(h: Hist, newKey: nat, t: Session)
    requires |h.keys| == |h.roots| >= 1
  {
    (exists e: nat :: InStep(h, e, t)) || (exists e: nat :: InStep(Extend(h, newKey), e, t))
  }

  lemma AstrayOutOfStep(h: Hist, newKey: nat, t: Session)
    requires |h.keys| == |h.roots| >= 1
    requires Astray(h, t) && Astray(Extend(h, newKey), t)
    ensures !InStepSomewhere(h, newKey, t)
  {
  }

  lemma RepeatOutOfStep(h: Hist, e: nat, s: Session, got: set<Slot>, n: nat, plain: Plaintext, newKey: nat)
    requires PartyInv(h, e, s, got) && e >= 2 && n < h.cnt[e-1] && Slot(e-1, n) in got && newKey !in h.keys
    ensures !InStepSomewhere(h, newKey, Receive(s, HeaderAt(h, e-1, n), Box(KeyAt(h, e-1, n), plain), newKey).0)
  {
    CurrentChainExactly(h, e, s, got, n, Announced(h, e-1), plain, newKey);
    var t := Receive(s, HeaderAt(h, e-1, n), Box(KeyAt(h, e-1, n), plain), newKey).0;
    ExtendWellFormed(h, newKey);
    Mismatch(h, e, t, s.recvCount + 1);
    assert Seed(Extend(h, newKey), e-1) == Seed(h, e-1);
    Mismatch(Extend(h, newKey), e, t, s.recvCount + 1);
  }

  /** A chain key and a counter that disagree fit no epoch. */
  lemma Mismatch(g: Hist, e: nat, t: Session, m: nat)
    requires WellFormed(g) && Chain(g, e) && e >= 2 && t.rootKey == g.roots[e]
    requires t.recvChainKey == Some(Advance(Seed(g, e-1), m)) && t.recvCount != m
    ensures forall f: nat :: !InStep(g, f, t)
  {
    forall f: nat
      ensures !InStep(g, f, t)
    {
      if InStep(g, f, t) {
        RootDepth(g, e);
        RootDepth(g, f);
        AdvanceShape(Seed(g, e-1), m);
        AdvanceShape(Seed(g, e-1), t.recvCount);
        assert false;
      }
    }
  }

  lemma LateOutOfStep(h: Hist, e: nat, s: Session, got: set<Slot>, j: nat, n: nat, plain: Plaintext, newKey: nat)
    requires PartyInv(h, e, s, got) && Receives(e, j) && j < e - 1 && n < h.cnt[j] && newKey !in h.keys
    requires Stores(Receive(s, HeaderAt(h, j, n), Box(KeyAt(h, j, n), plain), newKey).1)
    ensures !InStepSomewhere(h, newKey, Receive(s, HeaderAt(h, j, n), Box(KeyAt(h, j, n), plain), newKey).0)
  {
    LateMessageLosesSession(h, e, s, got, j, n, plain, newKey);
    LateMessage(h, e, s, got, j, n, plain, newKey);
    var t := Receive(s, HeaderAt(h, j, n), Box(KeyAt(h, j, n), plain), newKey).0;
    var g := Extend(h, newKey);
    ExtendWellFormed(h, newKey);
    OffPath(g, e, NextRoot(h.roots[e], Dh(Priv(h.keys[e]), Pub(h.keys[j]))), Dh(Priv(newKey), Pub(h.keys[j])), j);
    AstrayOutOfStep(h, newKey, t);
  }

  lemma ReplayOutOfStep(s: Sys, i: nat, newKey: nat)
    requires Reachable(s) && i < |s.net| && s.net[i].slot == Slot(1, 0)
    requires s.b.epoch != 0 && newKey !in s.hist.keys
    ensures var (st, _) := Decrypted(s, i, newKey);
            Peer(Bob) in st.sessions && Inv(s) && !InStepSomewhere(s.hist, newKey, st.sessions[Peer(Bob)])
  {
    ReachableInv(s);
    ReplayedOpening(s, i, newKey);
    ReplayDepth(s, i, newKey);
    assert WellFormed(s.hist) && |s.hist.roots| >= 3 && s.hist.roots[0].SharedSecret? by {
      SessionInv(s, Bob);
    }
    TwoDeep(s.hist, newKey, Decrypted(s, i, newKey).0.sessions[Peer(Bob)]);
  }

  /** A root key two steps from a secret is no later one. */
  lemma TwoDeep(h: Hist, newKey: nat, t: Session)
    requires WellFormed(h) && |h.roots| >= 3 && h.roots[0].SharedSecret? && newKey !in h.keys
    requires Astray(h, t) && Depth(t.rootKey) == 2
    ensures !InStepSomewhere(h, newKey, t)
  {
    ExtendWellFormed(h, newKey);
    RootDepth(Extend(h, newKey), |h.roots|);
    AstrayOutOfStep(h, newKey, t);
  }

  lemma ReplayDepth(s: Sys, i: nat, newKey: nat)
    requires Inv(s) && i < |s.net| && s.net[i].slot == Slot(1, 0) && s.b.epoch != 0
    requires Peer(Bob) in Decrypted(s, i, newKey).0.sessions
    ensures Depth(Decrypted(s, i, newKey).0.sessions[Peer(Bob)].rootKey) == 2
  {
    assert PacketOk(s.hs, s.hist, s.net[i]);
    var env := s.net[i].env;
    var t := RespondSession(s.hs.ikB, Priv(s.hs.spkB), OneTimeKey(s.b.store, env.opkId), env, newKey);
    SaveUpToEffect(t, 0);
    var r := t.rootKey.root;
    assert Depth(r.root) == 0 && Depth(r) == 1;
  }

  /** Whatever packet is delivered to a party with a session, in whatever order and however often: if the
      call stores a record at all, that record is in step with the conversation exactly when the packet
      had not been consumed and its chain had not been superseded. */
  lemma AssumptionsExact(s: Sys, i: nat, newKey: nat)
    requires Reachable(s) && i < |s.net| && newKey !in s.hist.keys && !Used(s.hs, newKey)
    requires var who := Other(s.net[i].from); Peer(who) in PartyOf(s, who).store.sessions
    requires Stores(Decrypted(s, i, newKey).1)
    ensures var who := Other(s.net[i].from);
            && Inv(s) && Peer(who) in Decrypted(s, i, newKey).0.sessions
            && (InStepSomewhere(s.hist, newKey, Decrypted(s, i, newKey).0.sessions[Peer(who)])
                <==> s.net[i].slot !in PartyOf(s, who).got && s.net[i].slot.chain + 1 >= PartyOf(s, who).epoch)
  {
    ReachableInv(s);
    var who := Other(s.net[i].from);
    SessionInv(s, who);
    var sl := s.net[i].slot;
    if Enabled(s, Deliver(i, newKey)) {
      KeptInStep(s, i, newKey);
    } else if sl == Slot(1, 0) {
      FirstIsForBob(s, i);
      ReplayOutOfStep(s, i, newKey);
    } else {
      BrokenOutOfStep(s, i, newKey);
    }
  }

  lemma FirstIsForBob(s: Sys, i: nat)
    requires Inv(s) && i < |s.net| && s.net[i].slot == Slot(1, 0)
    ensures s.net[i].from == Alice
  {
    assert PacketOk(s.hs, s.hist, s.net[i]);
  }

  lemma KeptInStep(s: Sys, i: nat, newKey: nat)
    requires Inv(s) && Enabled(s, Deliver(i, newKey)) && Stores(Decrypted(s, i, newKey).1)
    ensures var who := Other(s.net[i].from);
            Peer(who) in Decrypted(s, i, newKey).0.sessions
            && InStepSomewhere(s.hist, newKey, Decrypted(s, i, newKey).0.sessions[Peer(who)])
  {
    DeliverInv(s, i, newKey);
    var who := Other(s.net[i].from);
    var u := DeliverStep(s, i, newKey);
    var p := PartyOf(u, who);
    assert p.store == Decrypted(s, i, newKey).0;
    assert RoleInv(u.hs, u.hist, p, who);
    assert InStep(u.hist, p.epoch, p.store.sessions[Peer(who)]);
  }

  lemma BrokenOutOfStep(s: Sys, i: nat, newKey: nat)
    requires Inv(s) && i < |s.net| && newKey !in s.hist.keys && s.net[i].slot != Slot(1, 0)
    requires var who := Other(s.net[i].from);
             && Peer(who) in PartyOf(s, who).store.sessions
             && (s.net[i].slot in PartyOf(s, who).got || s.net[i].slot.chain + 1 < PartyOf(s, who).epoch)
    requires Stores(Decrypted(s, i, newKey).1)
    ensures var who := Other(s.net[i].from);
            Peer(who) in Decrypted(s, i, newKey).0.sessions
            && !InStepSomewhere(s.hist, newKey, Decrypted(s, i, newKey).0.sessions[Peer(who)])
  {
    var who := Other(s.net[i].from);
    var p, sl := PartyOf(s, who), s.net[i].slot;
    var t := p.store.sessions[Peer(who)];
    SessionInv(s, who);
    SignalPacket(s, i);
    if sl.chain == p.epoch - 1 {
      RepeatOutOfStep(s.hist, p.epoch, t, p.got, sl.n, s.net[i].plain, newKey);
    } else {
      PeerReceives(s, i, p.epoch);
      if sl in p.got {
        ConsumedNotSaved(s.hist, p.epoch, t, p.got, sl.chain, sl.n);
      }
      LateOutOfStep(s.hist, p.epoch, t, p.got, sl.chain, sl.n, s.net[i].plain, newKey);
    }
  }

  lemma SignalPacket(s: Sys, i: nat)
    requires Inv(s) && i < |s.net| && s.net[i].slot != Slot(1, 0)
    ensures var sl := s.net[i].slot;
            && Chain(s.hist, sl.chain) && sl.n < s.hist.cnt[sl.chain]
            && s.net[i].env == SignalMessage(HeaderAt(s.hist, sl.chain, sl.n),
                                              Box(KeyAt(s.hist, sl.chain, sl.n), s.net[i].plain))
  {
    assert PacketOk(s.hs, s.hist, s.net[i]);
  }

  lemma PeerReceives(s: Sys, i: nat, e: nat)
    requires Inv(s) && i < |s.net| && (e % 2 == 1 <==> s.net[i].from == Bob) && s.net[i].slot.chain < e
    ensures Receives(e, s.net[i].slot.chain)
  {
    Conservation.PacketAt(s, i);
    Conservation.SentPacket(s.hs, s.hist, s.net[i]);
    Conservation.Opposite(s.net[i].slot.chain, e);
    EarlierChain(s.net[i].slot.chain, e);
  }

  lemma EarlierChain(j: nat, e: nat)
    requires (j - e) % 2 == 1 && 1 <= j < e
    ensures Receives(e, j)
  {
  }
}
