/** What a copy of a whole key store gives away: the session record together with the long-term keys that are kept
    beside it. */
module StoreSecrecy {
  import opened Crypto
  import opened Ratchet
  import opened History
  import opened TwoParty
  import opened Secrecy

  /** Every private key in the store but the session's own. */
  function PrivatesOf(st: Store): set<nat> {
    (if st.identity.Some? then {st.identity.value} else {})
    + (set k | k in st.preKeys :: st.preKeys[k].id) + (set k | k in st.signedPreKeys :: st.signedPreKeys[k].id)
  }

  lemma PrivatesExactly(st: Store, k: nat)
    ensures k in PrivatesOf(st) <==>
              || st.identity == Some(k)
              || (exists id :: id in st.preKeys && st.preKeys[id] == Priv(k))
              || (exists id :: id in st.signedPreKeys && st.signedPreKeys[id] == Priv(k))
  {
    if id :| id in st.preKeys && st.preKeys[id] == Priv(k) {
      assert st.preKeys[id].id == k;
    }
    if id :| id in st.signedPreKeys && st.signedPreKeys[id] == Priv(k) {
      assert st.signedPreKeys[id].id == k;
    }
  }

  /** The holder's own long-term keys, and keys of no part in the conversation. */
  ghost predicate OwnKeys(hs: Handshake, h: Hist, who: Role, privs: set<nat>) {
    forall k :: k in privs ==>
      (k !in h.keys && !Used(hs, k)) || (who == Alice && k == hs.ikA) || (who == Bob && k in {hs.ikB, hs.spkB})
  }

  /** The keys held beside the session; the responder has both long-term keys the handshake used. */
  ghost predicate Beside(hs: Handshake, h: Hist, who: Role, privs: set<nat>) {
    OwnKeys(hs, h, who, privs) && (who == Bob ==> hs.ikB in privs && hs.spkB in privs)
  }

  /** The responder's long-term keys give the handshake's secret exactly when no one-time key went into it. */
  predicate Leaks(hs: Handshake, who: Role) {
    who == Bob && hs.opk.None?
  }

  ghost predicate Setting(hs: Handshake, h: Hist, e: nat, s: Session, who: Role, privs: set<nat>) {
    && HistInv(hs, h) && InStep(h, e, s) && (e % 2 == 1 <==> who == Alice) && Beside(hs, h, who, privs)
  }

  lemma SecretKnown(hs: Handshake, h: Hist, e: nat, s: Session, who: Role, privs: set<nat>)
    requires Setting(hs, h, e, s, who, privs)
    ensures KnowsRoot(KnowledgeOf(s, privs), h.roots[0]) <==> Leaks(hs, who)
  {
    RootDepth(h, e);
    assert h.keys[e] in h.keys && !Used(hs, h.keys[e]);
  }

  lemma StepKnownBeside(hs: Handshake, h: Hist, e: nat, s: Session, who: Role, privs: set<nat>, i: nat)
    requires Setting(hs, h, e, s, who, privs) && 1 <= i < |h.roots|
    ensures KnowsDh(KnowledgeOf(s, privs), Dh(Priv(h.keys[i-1]), Pub(h.keys[i])))
            <==> i == e || i == e + 1 || (who == Bob && i == 1)
  {
    assert h.keys[i-1] in h.keys && h.keys[i] in h.keys;
    assert !Used(hs, h.keys[i]) && (i > 1 ==> !Used(hs, h.keys[i-1]));
  }

  lemma {:induction false} RootsKnownBeside(hs: Handshake, h: Hist, e: nat, s: Session, who: Role, privs: set<nat>,
                                            i: nat)
    requires Setting(hs, h, e, s, who, privs) && i < |h.roots|
    ensures KnowsRoot(KnowledgeOf(s, privs), h.roots[i]) <==> i == e || i == e + 1 || (Leaks(hs, who) && i <= 1)
  {
    RootDepth(h, i);
    RootDepth(h, e);
    if i == 0 {
      SecretKnown(hs, h, e, s, who, privs);
    } else if i != e {
      RootsKnownBeside(hs, h, e, s, who, privs, i - 1);
      StepKnownBeside(hs, h, e, s, who, privs, i);
    }
  }

  /** The chains that a store gives away in full because no one-time key was used. */
  predicate Exposed(hs: Handshake, who: Role, e: nat, i: nat) {
    Leaks(hs, who) && (i == 1 || (i == 2 && e == 2))
  }

  lemma {:induction false} ChainsKnownBeside(hs: Handshake, h: Hist, e: nat, s: Session, who: Role, privs: set<nat>,
                                             i: nat, n: nat)
    requires Setting(hs, h, e, s, who, privs) && Chain(h, i)
    ensures KnowsChain(KnowledgeOf(s, privs), Advance(Seed(h, i), n)) <==>
              (i == e - 1 && n >= s.recvCount) || (i == e && n >= s.sendCount) || i == e + 1 || Exposed(hs, who, e, i)
    decreases n
  {
    KeysDistinct(h, i, n, e, s.sendCount);
    if e >= 2 {
      KeysDistinct(h, i, n, e - 1, s.recvCount);
    }
    if n == 0 {
      RootsKnownBeside(hs, h, e, s, who, privs, i - 1);
      StepKnownBeside(hs, h, e, s, who, privs, i);
    } else {
      ChainsKnownBeside(hs, h, e, s, who, privs, i, n - 1);
    }
  }

  /** Exactly which message keys of the conversation a copy of the store gives away. */
  lemma StoreExposureExactly(hs: Handshake, h: Hist, e: nat, s: Session, got: set<Slot>, who: Role, privs: set<nat>,
                             i: nat, n: nat)
    requires PartyInv(h, e, s, got) && Setting(hs, h, e, s, who, privs) && Chain(h, i)
    ensures KnowsKey(KnowledgeOf(s, privs), KeyAt(h, i, n)) <==>
              || SkipKey(Pub(h.keys[i]), n) in s.skipped
              || (i == e - 1 && n >= s.recvCount)
              || (i == e && n >= s.sendCount)
              || i == e + 1
              || Exposed(hs, who, e, i)
  {
    ChainsKnownBeside(hs, h, e, s, who, privs, i, n);
    SavedKeysKnown(h, e, s, got, i, n);
  }

  // ── Runs ──

  /** A store in a run, with whatever other key pairs the attacker has: its own long-term keys and no other key of
      the conversation. */
  ghost predicate Copied(t: Sys, who: Role, own: set<nat>) {
    Peer(who) in PartyOf(t, who).store.sessions && OwnKeys(t.hs, t.hist, who, PrivatesOf(PartyOf(t, who).store) + own)
  }

  function CopyOf(t: Sys, who: Role, own: set<nat>): Knowledge
    requires Peer(who) in PartyOf(t, who).store.sessions
  {
    KnowledgeOf(PartyOf(t, who).store.sessions[Peer(who)], PrivatesOf(PartyOf(t, who).store) + own)
  }

  /** The responder's store holds the two long-term keys the handshake used, in every reachable state with a
      session. */
  lemma LongTermKeysKept(t: Sys)
    requires Reachable(t) && Peer(Bob) in t.b.store.sessions
    ensures t.hs.ikB in PrivatesOf(t.b.store) && t.hs.spkB in PrivatesOf(t.b.store)
  {
    ReachableInv(t);
    assert t.b.store.signedPreKeys[t.hs.spkId] == Priv(t.hs.spkB);
  }

  lemma InSetting(t: Sys, who: Role, own: set<nat>)
    requires Reachable(t) && Copied(t, who, own)
    ensures var p := PartyOf(t, who);
            && PartyInv(t.hist, p.epoch, p.store.sessions[Peer(who)], p.got)
            && Setting(t.hs, t.hist, p.epoch, p.store.sessions[Peer(who)], who, PrivatesOf(p.store) + own)
  {
    if who == Bob {
      LongTermKeysKept(t);
    }
    ReachableInv(t);
    SessionInv(t, who);
  }

  /** With the whole store copied, the key of a message sent or consumed is known exactly in one case: the
      responder's, without a one-time key, for the initiator's first chain and, until the first ratchet after the
      handshake, for the responder's own. */
  lemma ForwardSecrecyOfStore(t: Sys, who: Role, i: nat, own: set<nat>)
    requires Reachable(t) && i < |t.net| && Copied(t, who, own)
    requires t.net[i].from == who || t.net[i].slot in PartyOf(t, who).got
    ensures KnowsKey(CopyOf(t, who, own), t.net[i].env.ct.key)
            <==> Exposed(t.hs, who, PartyOf(t, who).epoch, t.net[i].slot.chain)
  {
    UsedInSetting(t, who, i, own);
    var p := PartyOf(t, who);
    UsedSlotOfStore(t.hs, t.hist, p.epoch, p.store.sessions[Peer(who)], p.got, who, PrivatesOf(p.store) + own,
                    t.net[i].slot);
  }

  lemma UsedInSetting(t: Sys, who: Role, i: nat, own: set<nat>)
    requires Reachable(t) && i < |t.net| && Copied(t, who, own)
    requires t.net[i].from == who || t.net[i].slot in PartyOf(t, who).got
    ensures var p, sl := PartyOf(t, who), t.net[i].slot;
            && PartyInv(t.hist, p.epoch, p.store.sessions[Peer(who)], p.got)
            && Setting(t.hs, t.hist, p.epoch, p.store.sessions[Peer(who)], who, PrivatesOf(p.store) + own)
            && Chain(t.hist, sl.chain) && sl.n < t.hist.cnt[sl.chain] && sl.chain <= p.epoch + 1
            && (sl in p.got || sl.chain % 2 == p.epoch % 2)
            && t.net[i].env.ct.key == KeyAt(t.hist, sl.chain, sl.n)
  {
    ReachableInv(t);
    InSetting(t, who, own);
    SentAt(t, i);
    ChainsSoFar(t, who);
  }

  lemma UsedSlotOfStore(hs: Handshake, h: Hist, e: nat, s: Session, got: set<Slot>, who: Role, privs: set<nat>,
                        sl: Slot)
    requires PartyInv(h, e, s, got) && Setting(hs, h, e, s, who, privs) && Chain(h, sl.chain) && sl.n < h.cnt[sl.chain]
    requires sl.chain <= e + 1 && (sl in got || sl.chain % 2 == e % 2)
    ensures KnowsKey(KnowledgeOf(s, privs), KeyAt(h, sl.chain, sl.n)) <==> Exposed(hs, who, e, sl.chain)
  {
    UsedSlot(h, e, s, got, sl.chain, sl.n);
    StoreExposureExactly(hs, h, e, s, got, who, privs, sl.chain, sl.n);
  }

  /** So consumed keys of the first chain are known exactly without a one-time key, and those of later chains never. */
  lemma ConsumedKeysOfStore(t: Sys, i: nat, own: set<nat>)
    requires Reachable(t) && i < |t.net| && Copied(t, Bob, own) && t.net[i].slot in t.b.got
    ensures KnowsKey(CopyOf(t, Bob, own), t.net[i].env.ct.key) <==> t.net[i].slot.chain == 1 && t.hs.opk.None?
  {
    ForwardSecrecyOfStore(t, Bob, i, own);
    ReachableInv(t);
    SessionInv(t, Bob);
  }
}
