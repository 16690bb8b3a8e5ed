/** The session record, the two key stores and the session manager in the source's own form: objects
    whose fields are updated in place, proved against the functions of module `Ratchet`. */
module SessionManager {
  import opened Crypto
  import opened Ratchet

  class RatchetSession {
    var rootKey: RootKey
    var sendChainKey: Option<ChainKey>
    var recvChainKey: Option<ChainKey>
    var sendCount: nat
    var recvCount: int
    var prevSendCount: nat
    var ourRatchetPublic: PublicKey
    var ourRatchetPrivate: PrivateKey
    var theirRatchetPublic: Option<PublicKey>
    var skipped: map<SkipKey, MessageKey>
    var isInitiator: bool
    var pendingPreKeyMsg: Option<PreKeyInfo>
    /** How often `kdfChainKey` has run on this object. */
    ghost var chainSteps: nat

    function Value(): Session
      reads this
    {
      Session(rootKey, sendChainKey, recvChainKey, sendCount, recvCount, prevSendCount, ourRatchetPublic,
              ourRatchetPrivate, theirRatchetPublic, skipped, isInitiator, pendingPreKeyMsg)
    }

    constructor (v: Session)
      ensures Value() == v
    {
      rootKey := v.rootKey;
      sendChainKey := v.sendChainKey;
      recvChainKey := v.recvChainKey;
      sendCount := v.sendCount;
      recvCount := v.recvCount;
      prevSendCount := v.prevSendCount;
      ourRatchetPublic := v.ourRatchetPublic;
      ourRatchetPrivate := v.ourRatchetPrivate;
      theirRatchetPublic := v.theirRatchetPublic;
      skipped := v.skipped;
      isInitiator := v.isInitiator;
      pendingPreKeyMsg := v.pendingPreKeyMsg;
      chainSteps := 0;
    }

    /** `skipMessageKeys`; `ok` is false where the source throws. */
    method SkipMessageKeys(target: int) returns (ok: bool)
      modifies this
      ensures ok <==> !SkipRefused(old(Value()), target)
      ensures Value() == if ok then Skip(old(Value()), target) else old(Value())
      ensures chainSteps <= old(chainSteps) + MAX_SKIP
    {
      if recvChainKey.None? || theirRatchetPublic.None? {
        return true;
      }
      if target > recvCount + MAX_SKIP {
        return false;
      }
      ghost var start := Value();
      while recvCount < target
        invariant Skips(Value()) && recvCount >= start.recvCount
        invariant SaveUpTo(Value(), target) == SaveUpTo(start, target)
        invariant chainSteps == old(chainSteps) + (recvCount - start.recvCount)
        invariant recvCount <= target || recvCount == start.recvCount
      {
        var (messageKey, nextChainKey) := KdfChainKey(recvChainKey.value);
        skipped := skipped[SkipKey(theirRatchetPublic.value, recvCount) := messageKey];
        recvChainKey := Some(nextChainKey);
        recvCount := recvCount + 1;
        chainSteps := chainSteps + 1;
      }
      return true;
    }

    /** Steps A and B of the ratchet (lines 213-231), one assignment after another. */
    method RatchetStep(rk: PublicKey, newKey: nat)
      modifies this
      ensures Value() == DhRatchet(old(Value()), rk, newKey) && chainSteps == old(chainSteps)
    {
      NewReceivingChain(rk);
      NewSendingChain(rk, newKey);
    }

    method NewReceivingChain(rk: PublicKey)
      modifies this
      ensures var (root, chain) := KdfRootKey(old(rootKey), Dh(old(ourRatchetPrivate), rk));
              Value() == old(Value()).(recvChainKey := Some(chain), rootKey := root, recvCount := 0)
      ensures chainSteps == old(chainSteps)
    {
      var (root, chain) := KdfRootKey(rootKey, Dh(ourRatchetPrivate, rk));
      recvChainKey := Some(chain);
      rootKey := root;
      recvCount := 0;
    }

    method NewSendingChain(rk: PublicKey, newKey: nat)
      modifies this
      ensures var (root, chain) := KdfRootKey(old(rootKey), Dh(Priv(newKey), rk));
              Value() == old(Value()).(sendChainKey := Some(chain), rootKey := root, prevSendCount := old(sendCount),
                                       sendCount := 0,
                                       ourRatchetPublic := Pub(newKey), ourRatchetPrivate := Priv(newKey),
                                       theirRatchetPublic := Some(rk))
      ensures chainSteps == old(chainSteps)
    {
      var (root, chain) := KdfRootKey(rootKey, Dh(Priv(newKey), rk));
      sendChainKey := Some(chain);
      rootKey := root;
      prevSendCount := sendCount;
      sendCount := 0;
      ourRatchetPublic := Pub(newKey);
      ourRatchetPrivate := Priv(newKey);
      theirRatchetPublic := Some(rk);
    }

    /** Finding the message key and opening the box (lines 235-258). */
    method Retrieve(h: Header, ct: Box) returns (o: Outcome)
      modifies this
      ensures (Value(), o) == Take(old(Value()), h, ct)
      ensures chainSteps <= old(chainSteps) + MAX_SKIP + 1
    {
      var k := SkipKey(h.rk, h.n);
      if k in skipped {
        o := OpenOutcome(skipped[k], ct);
        skipped := skipped - {k};
      } else {
        var ok := SkipMessageKeys(h.n);
        if !ok {
          return Failed(TooManySkipped);
        }
        if recvChainKey.None? {
          return Failed(NoReceivingChain);
        }
        var (messageKey, nextChainKey) := KdfChainKey(recvChainKey.value);
        chainSteps := chainSteps + 1;
        recvChainKey := Some(nextChainKey);
        recvCount := h.n + 1;
        o := OpenOutcome(messageKey, ct);
      }
    }

    /** The body of `decrypt` on a session object. It works in place, also when it fails half-way; at
        most `2 * MAX_SKIP + 1` chain steps a call, whatever the header says. */
    method Receive(h: Header, ct: Box, newKey: nat) returns (o: Outcome)
      modifies this
      ensures (Value(), o) == Ratchet.Receive(old(Value()), h, ct, newKey)
      ensures chainSteps <= old(chainSteps) + 2 * MAX_SKIP + 1
    {
      if theirRatchetPublic != Some(h.rk) {
        var ok := SkipMessageKeys(h.pn);
        if !ok {
          return Failed(TooManySkipped);
        }
        RatchetStep(h.rk, newKey);
      }
      o := Retrieve(h, ct);
    }

    /** The body of `encrypt` on a session object. */
    method Seal(plain: Plaintext) returns (r: Sealed)
      modifies this
      ensures if old(sendChainKey).None? then r == NotSent(NoSendingChain) && Value() == old(Value())
              else r.Sent? && (Value(), r.envelope) == Ratchet.Seal(old(Value()), plain)
    {
      if sendChainKey.None? {
        return NotSent(NoSendingChain);
      }
      var (messageKey, nextChainKey) := KdfChainKey(sendChainKey.value);
      sendChainKey := Some(nextChainKey);
      chainSteps := chainSteps + 1;
      var h := Header(ourRatchetPublic, sendCount, prevSendCount);
      if isInitiator && sendCount == 0 && pendingPreKeyMsg.Some? {
        var pk := pendingPreKeyMsg.value;
        r := Sent(PreKeyMessage(pk.identityKey, pk.ephemeralKey, pk.spkId, pk.opkId, h, Box(messageKey, plain)));
        pendingPreKeyMsg := None;
      } else {
        r := Sent(SignalMessage(h, Box(messageKey, plain)));
      }
      sendCount := sendCount + 1;
    }
  }

  /** The production store: IndexedDB copies a record in and out. */
  class IndexedDbKeyStore {
    var identity: Option<nat>
    var preKeys: map<int, PrivateKey>
    var signedPreKeys: map<int, PrivateKey>
    var sessions: map<PeerId, Session>

    function Value(): Store
      reads this
    {
      Store(identity, preKeys, signedPreKeys, sessions)
    }

    constructor (v: Store)
      ensures Value() == v
    {
      identity, preKeys, signedPreKeys, sessions := v.identity, v.preKeys, v.signedPreKeys, v.sessions;
    }

    method LoadSession(peer: PeerId) returns (s: RatchetSession?)
      ensures s == null <==> peer !in sessions
      ensures s != null ==> fresh(s) && s.Value() == sessions[peer]
    {
      if peer !in sessions {
        return null;
      }
      s := new RatchetSession(sessions[peer]);
    }

    method StoreSession(peer: PeerId, s: RatchetSession)
      modifies this`sessions
      ensures sessions == old(sessions)[peer := s.Value()]
    {
      sessions := sessions[peer := s.Value()];
    }

    method RemovePreKey(id: int)
      modifies this`preKeys
      ensures preKeys == old(preKeys) - {id}
    {
      preKeys := preKeys - {id};
    }
  }

  class SignalSessionManager {
    const store: IndexedDbKeyStore

    constructor (store: IndexedDbKeyStore)
      ensures this.store == store
    {
      this.store := store;
    }

    method InitSessionFromBundle(peer: PeerId, bundle: Bundle, ephemeral: nat, ratchet: nat)
      returns (err: Option<Error>)
      modifies store
      ensures (store.Value(), err) == InitFromBundle(old(store.Value()), peer, bundle, ephemeral, ratchet)
    {
      if !Verify(bundle.identityKey, bundle.spk, bundle.signature) {
        return Some(InvalidSignature);
      }
      if store.identity.None? {
        return Some(NoIdentityKey);
      }
      var id := store.identity.value;
      var opk := if bundle.opk.Some? then Some(bundle.opk.value.1) else None;
      var sk := X3dh(Priv(id), Priv(ephemeral), bundle.identityKey, bundle.spk, opk);
      var (root, chain) := KdfRootKey(sk, Dh(Priv(ratchet), bundle.spk));
      var info := PreKeyInfo(Pub(id), Pub(ephemeral), bundle.spkId,
                             if bundle.opk.Some? then Some(bundle.opk.value.0) else None);
      var s := new RatchetSession(Session(root, Some(chain), None, 0, 0, 0,
                                          Pub(ratchet), Priv(ratchet), Some(bundle.spk),
                                          map[], true, Some(info)));
      store.StoreSession(peer, s);
      return None;
    }

    method Encrypt(peer: PeerId, plain: Plaintext) returns (r: Sealed)
      modifies store
      ensures (store.Value(), r) == Ratchet.Encrypt(old(store.Value()), peer, plain)
    {
      var s := store.LoadSession(peer);
      if s == null {
        return NotSent(NoSession);
      }
      r := s.Seal(plain);
      if r.Sent? {
        store.StoreSession(peer, s);
      }
    }

    /** A type-2 envelope refused before a message key is found leaves the store as it was. */
    method Decrypt(peer: PeerId, env: Envelope, newKey: nat) returns (o: Outcome)
      modifies store
      ensures (store.Value(), o) == Ratchet.Decrypt(old(store.Value()), peer, env, newKey)
      ensures env.SignalMessage? && !Stores(o) ==> store.Value() == old(store.Value())
    {
      var s: RatchetSession?;
      if env.PreKeyMessage? {
        var err;
        err, s := InitSessionFromPreKey(peer, env, newKey);
        if err.Some? {
          return Failed(err.value);
        }
      } else {
        s := store.LoadSession(peer);
        if s == null {
          return Failed(NoSession);
        }
      }
      o := s.Receive(env.h, env.ct, newKey);
      if Stores(o) {
        store.StoreSession(peer, s);
      }
    }

    method InitSessionFromPreKey(peer: PeerId, env: Envelope, newKey: nat)
      returns (err: Option<Error>, s: RatchetSession?)
      requires env.PreKeyMessage?
      modifies store
      ensures (store.Value(), err) == InitFromPreKey(old(store.Value()), peer, env, newKey)
      ensures err.None? ==> s != null && fresh(s) && store.sessions[peer] == s.Value()
    {
      s := null;
      if store.identity.None? {
        return Some(NoIdentityKey), null;
      }
      if env.spkId !in store.signedPreKeys {
        return Some(NoSignedPreKey), null;
      }
      var id, spk := store.identity.value, store.signedPreKeys[env.spkId];
      var opk: Option<PrivateKey> := None;
      if env.opkId.Some? {
        if env.opkId.value in store.preKeys {
          opk := Some(store.preKeys[env.opkId.value]);
          store.RemovePreKey(env.opkId.value);
        }
      }
      var sk := X3dhRespond(Priv(id), spk, opk, env.ik, env.ek);
      var (root1, recvChain) := KdfRootKey(sk, Dh(spk, env.h.rk));
      var (root2, sendChain) := KdfRootKey(root1, Dh(Priv(newKey), env.h.rk));
      s := new RatchetSession(Session(root2, Some(sendChain), Some(recvChain), 0, 0, 0, Pub(newKey), Priv(newKey),
                                      Some(env.h.rk), map[], false, None));
      store.StoreSession(peer, s);
      err := None;
    }
  }

  /** The in-memory store keeps references: a loaded session is the stored one. */
  class InMemoryKeyStore {
    var identity: Option<nat>
    var preKeys: map<int, PrivateKey>
    var signedPreKeys: map<int, PrivateKey>
    var sessions: map<PeerId, RatchetSession>

    constructor ()
      ensures identity == None && preKeys == map[] && signedPreKeys == map[] && sessions == map[]
    {
      identity, preKeys, signedPreKeys, sessions := None, map[], map[], map[];
    }

    /** The keys, with no record: what `initSessionFromPreKey` reads. */
    function Keys(): Store
      reads this
    {
      Store(identity, preKeys, signedPreKeys, map[])
    }

    /** `decrypt` over this store. A record changes even when the call is refused; a type-1 envelope that names a
        signed pre-key we have replaces the record by a new object, which then changes in the same way. */
    method Decrypt(peer: PeerId, env: Envelope, newKey: nat) returns (o: Outcome)
      modifies this, if env.SignalMessage? && peer in sessions then {sessions[peer]} else {}
      ensures identity == old(identity) && signedPreKeys == old(signedPreKeys)
      ensures env.SignalMessage? ==> sessions == old(sessions) && preKeys == old(preKeys)
      ensures env.SignalMessage? ==>
                if peer !in sessions then o == Failed(NoSession)
                else (sessions[peer].Value(), o) == Ratchet.Receive(old(sessions[peer].Value()), env.h, env.ct, newKey)
      ensures env.PreKeyMessage? ==>
                var (st, err) := InitFromPreKey(old(Keys()), peer, env, newKey);
                && preKeys == st.preKeys
                && if err.Some? then o == Failed(err.value) && sessions == old(sessions)
                   else && peer in sessions && fresh(sessions[peer])
                        && sessions == old(sessions)[peer := sessions[peer]]
                        && (sessions[peer].Value(), o) == Ratchet.Receive(st.sessions[peer], env.h, env.ct, newKey)
    {
      var s: RatchetSession;
      if env.PreKeyMessage? {
        if identity.None? {
          return Failed(NoIdentityKey);
        }
        if env.spkId !in signedPreKeys {
          return Failed(NoSignedPreKey);
        }
        var opk := OneTimeKey(Keys(), env.opkId);
        if opk.Some? {
          preKeys := preKeys - {env.opkId.value};
        }
        s := new RatchetSession(RespondSession(identity.value, signedPreKeys[env.spkId], opk, env, newKey));
        sessions := sessions[peer := s];
      } else {
        if peer !in sessions {
          return Failed(NoSession);
        }
        s := sessions[peer];
      }
      o := s.Receive(env.h, env.ct, newKey);
      if Stores(o) {
        assert sessions[peer := s] == sessions;
        sessions := sessions[peer := s];
      }
    }
  }

  // ── Facts about one call ──

  lemma {:induction false} SaveUpToGrowth(s: Session, target: int)
    requires Skips(s)
    ensures |SaveUpTo(s, target).skipped| <= |s.skipped| + (if s.recvCount < target then target - s.recvCount else 0)
    decreases target - s.recvCount
  {
    if s.recvCount < target {
      var k := SkipKey(s.theirRatchetPublic.value, s.recvCount);
      assert SaveOne(s).skipped.Keys == s.skipped.Keys + {k};
      assert |SaveOne(s).skipped.Keys| <= |s.skipped.Keys| + 1;
      SaveUpToGrowth(SaveOne(s), target);
    }
  }

  lemma TakeGrowth(s: Session, h: Header, ct: Box)
    ensures |Take(s, h, ct).0.skipped| <= |s.skipped| + MAX_SKIP
  {
    var k := SkipKey(h.rk, h.n);
    assert (s.skipped - {k}).Keys == s.skipped.Keys - {k};
    assert |s.skipped.Keys - {k}| <= |s.skipped.Keys|;
    if Skips(s) {
      SaveUpToGrowth(s, h.n);
    }
  }

  /** One call saves at most `2 * MAX_SKIP` new keys, for any session and any header. */
  lemma BoundedGrowth(s: Session, h: Header, ct: Box, newKey: nat)
    ensures |Ratchet.Receive(s, h, ct, newKey).0.skipped| <= |s.skipped| + 2 * MAX_SKIP
  {
    if s.theirRatchetPublic == Some(h.rk) {
      TakeGrowth(s, h, ct);
    } else if !SkipRefused(s, h.pn) {
      if Skips(s) {
        SaveUpToGrowth(s, h.pn);
      }
      TakeGrowth(DhRatchet(Skip(s, h.pn), h.rk, newKey), h, ct);
    }
  }

  /** A refusal while looking for the message key changes nothing. */
  lemma TakeRefused(s: Session, h: Header, ct: Box)
    requires !Stores(Take(s, h, ct).1)
    ensures Take(s, h, ct).0 == s
  {
    if Skips(s) {
      SaveUpToEffect(s, h.n);
    }
  }

  /** With the in-memory store a refused call leaves the record unchanged exactly when the refusal came
      before the ratchet step; with the copying store it always does. */
  lemma RefusalInPlace(s: Session, h: Header, ct: Box, newKey: nat)
    requires !Stores(Ratchet.Receive(s, h, ct, newKey).1)
    ensures Ratchet.Receive(s, h, ct, newKey).0 == s <==> s.theirRatchetPublic == Some(h.rk) || SkipRefused(s, h.pn)
  {
    if s.theirRatchetPublic == Some(h.rk) {
      TakeRefused(s, h, ct);
    } else if !SkipRefused(s, h.pn) {
      RatchetMoves(Skip(s, h.pn), h.rk, newKey);
      TakeRefused(DhRatchet(Skip(s, h.pn), h.rk, newKey), h, ct);
      if Skips(s) {
        SaveUpToEffect(s, h.pn);
      }
    }
  }

  lemma RatchetMoves(s: Session, rk: PublicKey, newKey: nat)
    ensures DhRatchet(s, rk, newKey).rootKey != s.rootKey
  {
    var r := s.rootKey;
    var t := DhRatchet(s, rk, newKey).rootKey;
    assert Depth(t) == Depth(r) + 2;
  }
}
