/** Symbolic secrecy: what the terms of one stored session give away.

    An attacker holds a session record, every public key and ciphertext on the wire, and key pairs of
    its own. It may compute Diffie-Hellman secrets from a private key it holds and any public key, and
    run both key derivation functions forwards. */
module Secrecy {
  import opened Crypto
  import opened Ratchet
  import opened History
  import opened TwoParty

  datatype Knowledge = Knowledge(roots: set<RootKey>, chains: set<ChainKey>, keys: set<MessageKey>, privs: set<nat>)

  function KnowledgeOf(s: Session, own: set<nat>): Knowledge {
    Knowledge(
      {s.rootKey},
      (if s.sendChainKey.Some? then {s.sendChainKey.value} else {})
      + (if s.recvChainKey.Some? then {s.recvChainKey.value} else {}),
      s.skipped.Values,
      {s.ourRatchetPrivate.id} + own)
  }

  predicate KnowsDh(k: Knowledge, d: DhSecret) {
    d.lo in k.privs || d.hi in k.privs
  }

  predicate KnowsRoot(k: Knowledge, r: RootKey) {
    r in k.roots ||
    match r
    case SharedSecret(d1, d2, d3, d4) =>
      KnowsDh(k, d1) && KnowsDh(k, d2) && KnowsDh(k, d3) && (d4.Some? ==> KnowsDh(k, d4.value))
    case NextRoot(q, d) => KnowsRoot(k, q) && KnowsDh(k, d)
  }

  predicate KnowsChain(k: Knowledge, c: ChainKey) {
    c in k.chains ||
    match c
    case ChainSeed(r, d) => KnowsRoot(k, r) && KnowsDh(k, d)
    case NextChain(p) => KnowsChain(k, p)
  }

  predicate KnowsKey(k: Knowledge, m: MessageKey) {
    m in k.keys || KnowsChain(k, m.chain)
  }

  // ── The predicates are the closure under the attacker's rules ──

  datatype Term = DhTerm(d: DhSecret) | RootTerm(r: RootKey) | ChainTerm(c: ChainKey) | KeyTerm(m: MessageKey)

  /** One application of an attacker rule, to terms in `have`. */
  predicate Derives(k: Knowledge, have: set<Term>, t: Term) {
    match t
    case DhTerm(d) => KnowsDh(k, d)
    case RootTerm(r) =>
      r in k.roots ||
      (match r
       case SharedSecret(d1, d2, d3, d4) =>
         DhTerm(d1) in have && DhTerm(d2) in have && DhTerm(d3) in have && (d4.Some? ==> DhTerm(d4.value) in have)
       case NextRoot(q, d) => RootTerm(q) in have && DhTerm(d) in have)
    case ChainTerm(c) =>
      c in k.chains ||
      (match c
       case ChainSeed(r, d) => RootTerm(r) in have && DhTerm(d) in have
       case NextChain(p) => ChainTerm(p) in have)
    case KeyTerm(m) => m in k.keys || ChainTerm(m.chain) in have
  }

  /** A sequence of rule applications, each using only what came before it. */
  predicate Derivation(k: Knowledge, ts: seq<Term>) {
    forall i :: 0 <= i < |ts| ==> Derives(k, set j | 0 <= j < i :: ts[j], ts[i])
  }

  predicate Knows(k: Knowledge, t: Term) {
    match t
    case DhTerm(d) => KnowsDh(k, d)
    case RootTerm(r) => KnowsRoot(k, r)
    case ChainTerm(c) => KnowsChain(k, c)
    case KeyTerm(m) => KnowsKey(k, m)
  }

  /** Whatever an attacker derives, in any number of steps, `Knows` already covers. */
  lemma {:induction false} DerivationsSound(k: Knowledge, ts: seq<Term>, i: nat)
    requires Derivation(k, ts) && i < |ts|
    ensures Knows(k, ts[i])
    decreases i
  {
    var have := set j | 0 <= j < i :: ts[j];
    assert Derives(k, have, ts[i]);
    forall t | t in have
      ensures Knows(k, t)
    {
      var j :| 0 <= j < i && ts[j] == t;
      DerivationsSound(k, ts, j);
    }
  }

  // ── What a session in step with the history exposes ──

  ghost predicate Honest(hs: Handshake, h: Hist, own: set<nat>) {
    && WellFormed(h) && h.keys[0] == hs.spkB && h.roots[0] == Secret(hs)
    && DistinctIds(hs) && (forall i :: 1 <= i < |h.keys| ==> !Used(hs, h.keys[i]))
    && (forall k :: k in own ==> k !in h.keys && !Used(hs, k))
  }

  /** Root keys before the session's own are out of reach, and so are those after the peer's next answer. */
  lemma {:induction false} RootsKnown(hs: Handshake, h: Hist, e: nat, s: Session, own: set<nat>, i: nat)
    requires Honest(hs, h, own) && InStep(h, e, s) && i < |h.roots|
    ensures KnowsRoot(KnowledgeOf(s, own), h.roots[i]) <==> i == e || i == e + 1
  {
    RootDepth(h, i);
    RootDepth(h, e);
    if i > 0 && i != e {
      RootsKnown(hs, h, e, s, own, i - 1);
      StepKnown(hs, h, e, s, own, i);
    }
  }

  lemma StepKnown(hs: Handshake, h: Hist, e: nat, s: Session, own: set<nat>, i: nat)
    requires Honest(hs, h, own) && InStep(h, e, s) && 1 <= i < |h.roots|
    ensures KnowsDh(KnowledgeOf(s, own), Dh(Priv(h.keys[i-1]), Pub(h.keys[i]))) <==> i == e || i == e + 1
  {
    assert h.keys[i-1] in h.keys && h.keys[i] in h.keys;
  }

  lemma {:induction false} ChainsKnown(hs: Handshake, h: Hist, e: nat, s: Session, own: set<nat>, i: nat, n: nat)
    requires Honest(hs, h, own) && InStep(h, e, s) && Chain(h, i)
    ensures KnowsChain(KnowledgeOf(s, own), Advance(Seed(h, i), n)) <==>
              (i == e - 1 && n >= s.recvCount) || (i == e && n >= s.sendCount) || i == e + 1
    decreases n
  {
    KeysDistinct(h, i, n, e, s.sendCount);
    if e >= 2 {
      KeysDistinct(h, i, n, e - 1, s.recvCount);
    }
    if n == 0 {
      RootsKnown(hs, h, e, s, own, i - 1);
      StepKnown(hs, h, e, s, own, i);
    } else {
      ChainsKnown(hs, h, e, s, own, i, n - 1);
    }
  }

  lemma SavedKeysKnown(h: Hist, e: nat, s: Session, got: set<Slot>, i: nat, n: nat)
    requires PartyInv(h, e, s, got) && Chain(h, i)
    ensures KeyAt(h, i, n) in s.skipped.Values <==> SkipKey(Pub(h.keys[i]), n) in s.skipped
  {
    var sk := SkipKey(Pub(h.keys[i]), n);
    if sk in s.skipped {
      var j: nat :| SavedAs(h, e, s.recvCount, got, sk, s.skipped[sk], j);
      assert i == j;
      assert s.skipped[sk] in s.skipped.Values;
    }
    if KeyAt(h, i, n) in s.skipped.Values {
      var q :| q in s.skipped && s.skipped[q] == KeyAt(h, i, n);
      var j: nat :| SavedAs(h, e, s.recvCount, got, q, s.skipped[q], j);
      KeysDistinct(h, i, n, j, q.n);
      assert q == sk;
    }
  }

  /** Exactly which message keys of the conversation a stored session gives away: the saved ones, the
      rest of its two chains, and the chain the peer answers with; nothing earlier, nothing later. */
  lemma ExposureExactly(hs: Handshake, h: Hist, e: nat, s: Session, got: set<Slot>, own: set<nat>, i: nat, n: nat)
    requires PartyInv(h, e, s, got) && Honest(hs, h, own) && Chain(h, i)
    ensures KnowsKey(KnowledgeOf(s, own), KeyAt(h, i, n)) <==>
              || SkipKey(Pub(h.keys[i]), n) in s.skipped
              || (i == e - 1 && n >= s.recvCount)
              || (i == e && n >= s.sendCount)
              || i == e + 1
  {
    ChainsKnown(hs, h, e, s, own, i, n);
    SavedKeysKnown(h, e, s, got, i, n);
  }

  // ── Runs ──

  lemma SessionInv(t: Sys, who: Role)
    requires Inv(t) && Peer(who) in PartyOf(t, who).store.sessions
    ensures var p := PartyOf(t, who);
            p.epoch != 0 && PartyInv(t.hist, p.epoch, p.store.sessions[Peer(who)], p.got)
            && (p.epoch % 2 == 1 <==> who == Alice)
  {
  }

  lemma SentAt(t: Sys, i: nat)
    requires Inv(t) && i < |t.net|
    ensures var p := t.net[i];
            && WellFormed(t.hist) && Chain(t.hist, p.slot.chain) && p.slot.n < t.hist.cnt[p.slot.chain]
            && (p.slot.chain % 2 == 1 <==> p.from == Alice) && p.env.ct.key == KeyAt(t.hist, p.slot.chain, p.slot.n)
  {
    assert PacketOk(t.hs, t.hist, t.net[i]);
  }

  /** The chains so far run to one beyond the party's own. */
  lemma ChainsSoFar(t: Sys, who: Role)
    requires Inv(t) && PartyOf(t, who).epoch != 0
    ensures |t.hist.keys| <= PartyOf(t, who).epoch + 2
  {
  }

  /** A sent or consumed message is not among the keys `ExposureExactly` lists. */
  lemma UsedKeyGone(t: Sys, who: Role, i: nat, own: set<nat>)
    requires Inv(t) && i < |t.net|
    requires Peer(who) in PartyOf(t, who).store.sessions
    requires Honest(t.hs, t.hist, own)
    requires t.net[i].from == who || t.net[i].slot in PartyOf(t, who).got
    ensures !KnowsKey(KnowledgeOf(PartyOf(t, who).store.sessions[Peer(who)], own), t.net[i].env.ct.key)
  {
    var p, sl := PartyOf(t, who), t.net[i].slot;
    SessionInv(t, who);
    SentAt(t, i);
    ChainsSoFar(t, who);
    UsedSlotGone(t.hs, t.hist, p.epoch, p.store.sessions[Peer(who)], p.got, own, sl);
  }

  lemma UsedSlotGone(hs: Handshake, h: Hist, e: nat, s: Session, got: set<Slot>, own: set<nat>, sl: Slot)
    requires PartyInv(h, e, s, got) && Honest(hs, h, own) && Chain(h, sl.chain) && sl.n < h.cnt[sl.chain]
    requires sl.chain <= e + 1
    requires sl in got || sl.chain % 2 == e % 2
    ensures !KnowsKey(KnowledgeOf(s, own), KeyAt(h, sl.chain, sl.n))
  {
    UsedSlot(h, e, s, got, sl.chain, sl.n);
    ExposureExactly(hs, h, e, s, got, own, sl.chain, sl.n);
  }

  lemma UsedSlot(h: Hist, e: nat, s: Session, got: set<Slot>, i: nat, n: nat)
    requires PartyInv(h, e, s, got) && Chain(h, i) && n < h.cnt[i] && i <= e + 1
    requires Slot(i, n) in got || i % 2 == e % 2
    ensures SkipKey(Pub(h.keys[i]), n) !in s.skipped
    ensures i <= e && (i == e - 1 ==> n < s.recvCount) && (i == e ==> n < s.sendCount)
  {
    assert Slot(i, n) in got || !Receives(e, i);
    UsedNotSaved(h, e, s.recvCount, s.skipped, got, i, n);
  }

  lemma UsedNotSaved(h: Hist, e: nat, rc: int, skipped: map<SkipKey, MessageKey>, got: set<Slot>, i: nat, n: nat)
    requires WellFormed(h) && RightlySaved(h, e, rc, skipped, got) && Chain(h, i)
    requires Slot(i, n) in got || !Receives(e, i)
    ensures SkipKey(Pub(h.keys[i]), n) !in skipped
  {
    var sk := SkipKey(Pub(h.keys[i]), n);
    assert forall j: nat, mk :: !SavedAs(h, e, rc, got, sk, mk, j);
  }

  /** Forward secrecy: in every reachable state, the key of a message a party has sent or has consumed
      cannot be derived from that party's stored session and everything on the wire. */
  lemma ForwardSecrecy(t: Sys, who: Role, i: nat, own: set<nat>, ts: seq<Term>)
    requires Reachable(t) && i < |t.net|
    requires Peer(who) in PartyOf(t, who).store.sessions
    requires forall k :: k in own ==> k !in t.hist.keys && !Used(t.hs, k)
    requires t.net[i].from == who || t.net[i].slot in PartyOf(t, who).got
    requires Derivation(KnowledgeOf(PartyOf(t, who).store.sessions[Peer(who)], own), ts)
    ensures KeyTerm(t.net[i].env.ct.key) !in ts
  {
    ReachableInv(t);
    UsedKeyGone(t, who, i, own);
    NotDerived(KnowledgeOf(PartyOf(t, who).store.sessions[Peer(who)], own), ts, t.net[i].env.ct.key);
  }

  lemma NotDerived(k: Knowledge, ts: seq<Term>, m: MessageKey)
    requires Derivation(k, ts) && !KnowsKey(k, m)
    ensures KeyTerm(m) !in ts
  {
    forall j | 0 <= j < |ts|
      ensures ts[j] != KeyTerm(m)
    {
      DerivationsSound(k, ts, j);
    }
  }

  lemma NextGrows(s: Sys, step: Step)
    requires 1 <= |s.hist.keys| == |s.hist.roots| && Enabled(s, step)
    ensures var t := Next(s, step);
            s.hs == t.hs && s.hist.keys <= t.hist.keys && s.hist.roots <= t.hist.roots
  {
  }

  /** Along a run the history only grows. */
  lemma {:induction false} HistoryGrows(s: Sys, steps: seq<Step>, t: Sys)
    requires Reaches(s, steps, t)
    ensures Inv(s) ==> s.hs == t.hs && Inv(t) && s.hist.keys <= t.hist.keys && s.hist.roots <= t.hist.roots
    decreases |steps|
  {
    if Inv(s) && |steps| != 0 {
      NextGrows(s, steps[0]);
      StepInv(s, steps[0]);
      HistoryGrows(Next(s, steps[0]), steps[1..], t);
    }
  }

  /** A record copied earlier, against a history that has moved on. */
  lemma RecordExposure(hs: Handshake, h: Hist, g: Hist, e: nat, s: Session, got: set<Slot>, own: set<nat>, i: nat,
                       n: nat)
    requires PartyInv(h, e, s, got) && HistInv(hs, h) && Honest(hs, g, own) && Chain(g, i) && i >= e + 2
    requires h.keys <= g.keys && h.roots <= g.roots
    ensures !KnowsKey(KnowledgeOf(s, own), KeyAt(g, i, n))
  {
    // The later history, with the message counts of the moment the record was copied.
    var f := Hist(g.keys, g.roots, h.cnt + g.cnt[|h.cnt|..]);
    assert WellFormed(f);
    assert Grows(h, f, e);
    Frame(h, f, e, s, got);
    assert Honest(hs, f, own);
    assert KeyAt(f, i, n) == KeyAt(g, i, n);
    NotSaved(f, e, s, got, i, n);
    ExposureExactly(hs, f, e, s, got, own, i, n);
  }

  /** Break-in recovery: a session record copied at some point of a run gives away no key of a chain
      two or more ratchet steps after the record's own, whatever happens later in the run. */
  lemma BreakInRecovery(s: Sys, steps: seq<Step>, t: Sys, who: Role, i: nat, own: set<nat>, ts: seq<Term>)
    requires Reachable(s) && Reaches(s, steps, t) && i < |t.net|
    requires Peer(who) in PartyOf(s, who).store.sessions
    requires forall k :: k in own ==> k !in t.hist.keys && !Used(t.hs, k)
    requires t.net[i].slot.chain >= PartyOf(s, who).epoch + 2
    requires Derivation(KnowledgeOf(PartyOf(s, who).store.sessions[Peer(who)], own), ts)
    ensures KeyTerm(t.net[i].env.ct.key) !in ts
  {
    LaterPacket(s, steps, t, who, i);
    var p, sl := PartyOf(s, who), t.net[i].slot;
    RecordExposure(s.hs, s.hist, t.hist, p.epoch, p.store.sessions[Peer(who)], p.got, own, sl.chain, sl.n);
    NotDerived(KnowledgeOf(p.store.sessions[Peer(who)], own), ts, t.net[i].env.ct.key);
  }

  lemma LaterPacket(s: Sys, steps: seq<Step>, t: Sys, who: Role, i: nat)
    requires Reachable(s) && Reaches(s, steps, t) && i < |t.net| && Peer(who) in PartyOf(s, who).store.sessions
    ensures var p, sl := PartyOf(s, who), t.net[i].slot;
            && PartyInv(s.hist, p.epoch, p.store.sessions[Peer(who)], p.got) && HistInv(s.hs, s.hist)
            && s.hist.keys <= t.hist.keys && s.hist.roots <= t.hist.roots && s.hs == t.hs && HistInv(t.hs, t.hist)
            && Chain(t.hist, sl.chain) && t.net[i].env.ct.key == KeyAt(t.hist, sl.chain, sl.n)
  {
    ReachableInv(s);
    HistoryGrows(s, steps, t);
    SessionInv(s, who);
    SentAt(t, i);
  }
}
