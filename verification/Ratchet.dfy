/** The ratchet session of `packages/core/src/encryption/session.ts` as functions on values: the
    specification that the imperative session manager is proved against. */
module Ratchet {
  import opened Crypto

  const MAX_SKIP: int := 500

  type PeerId = nat

  /** Message numbers come off the wire unchecked, so they are integers, not naturals. */
  datatype Header = Header(rk: PublicKey, n: int, pn: int)

  datatype Envelope =
    | PreKeyMessage(ik: PublicKey, ek: PublicKey, spkId: int, opkId: Option<int>, h: Header, ct: Box)
    | SignalMessage(h: Header, ct: Box)

  /** The index `${rk}:${n}` of a saved message key. */
  datatype SkipKey = SkipKey(rk: PublicKey, n: int)

  datatype PreKeyInfo = PreKeyInfo(identityKey: PublicKey, ephemeralKey: PublicKey, spkId: int, opkId: Option<int>)

  datatype Session = Session(
    rootKey: RootKey,
    sendChainKey: Option<ChainKey>,
    recvChainKey: Option<ChainKey>,
    sendCount: nat,
    recvCount: int,
    prevSendCount: nat,
    ourRatchetPublic: PublicKey,
    ourRatchetPrivate: PrivateKey,
    theirRatchetPublic: Option<PublicKey>,
    skipped: map<SkipKey, MessageKey>,
    isInitiator: bool,
    pendingPreKeyMsg: Option<PreKeyInfo>)

  datatype Error =
    | InvalidSignature | NoIdentityKey | NoSession | NoSendingChain | NoSignedPreKey
    | TooManySkipped | NoReceivingChain | BadCiphertext

  datatype Outcome = Opened(plain: Plaintext) | Failed(error: Error)

  datatype Sealed = Sent(envelope: Envelope) | NotSent(error: Error)

  datatype Bundle = Bundle(identityKey: PublicKey, spkId: int, spk: PublicKey, signature: Signature,
                           opk: Option<(int, PublicKey)>)

  /** What one device keeps: identity, pre-keys and one session record a peer. */
  datatype Store = Store(
    identity: Option<nat>,
    preKeys: map<int, PrivateKey>,
    signedPreKeys: map<int, PrivateKey>,
    sessions: map<PeerId, Session>)

  // ── Receiving chain ──

  /** One turn of the loop in `skipMessageKeys`: save the key of the next message and advance. */
  function SaveOne(s: Session): Session
    requires s.recvChainKey.Some? && s.theirRatchetPublic.Some?
  {
    var (mk, next) := KdfChainKey(s.recvChainKey.value);
    s.(skipped := s.skipped[SkipKey(s.theirRatchetPublic.value, s.recvCount) := mk],
       recvChainKey := Some(next),
       recvCount := s.recvCount + 1)
  }

  function SaveUpTo(s: Session, target: int): Session
    requires s.recvChainKey.Some? && s.theirRatchetPublic.Some?
    decreases target - s.recvCount
  {
    if s.recvCount < target then SaveUpTo(SaveOne(s), target) else s
  }

  predicate Skips(s: Session) {
    s.recvChainKey.Some? && s.theirRatchetPublic.Some?
  }

  /** `skipMessageKeys` throws, having changed nothing. */
  predicate SkipRefused(s: Session, target: int) {
    Skips(s) && target > s.recvCount + MAX_SKIP
  }

  function Skip(s: Session, target: int): Session {
    if Skips(s) then SaveUpTo(s, target) else s
  }

  /** Steps A and B of the Diffie-Hellman ratchet, with `newKey` the new key pair. */
  function DhRatchet(s: Session, rk: PublicKey, newKey: nat): Session {
    var (root1, recvChain) := KdfRootKey(s.rootKey, Dh(s.ourRatchetPrivate, rk));
    var (root2, sendChain) := KdfRootKey(root1, Dh(Priv(newKey), rk));
    s.(recvChainKey := Some(recvChain), recvCount := 0, sendChainKey := Some(sendChain), rootKey := root2,
       prevSendCount := s.sendCount, sendCount := 0,
       ourRatchetPublic := Pub(newKey), ourRatchetPrivate := Priv(newKey), theirRatchetPublic := Some(rk))
  }

  function OpenOutcome(key: MessageKey, ct: Box): Outcome {
    match Open(key, ct)
    case Some(p) => Opened(p)
    case None => Failed(BadCiphertext)
  }

  /** Retrieve the message key for `h` and open the box: from the saved keys, or by advancing the chain. */
  function Take(s: Session, h: Header, ct: Box): (Session, Outcome) {
    var k := SkipKey(h.rk, h.n);
    if k in s.skipped then
      (s.(skipped := s.skipped - {k}), OpenOutcome(s.skipped[k], ct))
    else if SkipRefused(s, h.n) then
      (s, Failed(TooManySkipped))
    else
      var t := Skip(s, h.n);
      if t.recvChainKey.None? then (t, Failed(NoReceivingChain))
      else
        var (mk, next) := KdfChainKey(t.recvChainKey.value);
        (t.(recvChainKey := Some(next), recvCount := h.n + 1), OpenOutcome(mk, ct))
  }

  /** `decrypt` from the point where a session object is in hand. The first component is the object
      afterwards, also when the call throws part of the way through. */
  function Receive(s: Session, h: Header, ct: Box, newKey: nat): (Session, Outcome) {
    if s.theirRatchetPublic == Some(h.rk) then Take(s, h, ct)
    else if SkipRefused(s, h.pn) then (s, Failed(TooManySkipped))
    else Take(DhRatchet(Skip(s, h.pn), h.rk, newKey), h, ct)
  }

  /** `decrypt` writes the session back only after a message key has been found. */
  predicate Stores(o: Outcome) {
    o.Opened? || o.error == BadCiphertext
  }

  // ── Session manager on a copying store ──

  function InitFromBundle(st: Store, peer: PeerId, bundle: Bundle, ephemeral: nat, ratchet: nat): (Store, Option<Error>)
  {
    if !Verify(bundle.identityKey, bundle.spk, bundle.signature) then (st, Some(InvalidSignature))
    else if st.identity.None? then (st, Some(NoIdentityKey))
    else
      var opk := if bundle.opk.Some? then Some(bundle.opk.value.1) else None;
      var sk := X3dh(Priv(st.identity.value), Priv(ephemeral), bundle.identityKey, bundle.spk, opk);
      var (root, chain) := KdfRootKey(sk, Dh(Priv(ratchet), bundle.spk));
      var info := PreKeyInfo(Pub(st.identity.value), Pub(ephemeral), bundle.spkId,
                             if bundle.opk.Some? then Some(bundle.opk.value.0) else None);
      var s := Session(root, Some(chain), None, 0, 0, 0, Pub(ratchet), Priv(ratchet), Some(bundle.spk),
                       map[], true, Some(info));
      (st.(sessions := st.sessions[peer := s]), None)
  }

  function OneTimeKey(st: Store, opkId: Option<int>): Option<PrivateKey> {
    if opkId.Some? && opkId.value in st.preKeys then Some(st.preKeys[opkId.value]) else None
  }

  /** The responder's session, built from a type-1 envelope. */
  function RespondSession(identity: nat, spk: PrivateKey, opk: Option<PrivateKey>, env: Envelope, newKey: nat): Session
    requires env.PreKeyMessage?
  {
    var sk := X3dhRespond(Priv(identity), spk, opk, env.ik, env.ek);
    var (root1, recvChain) := KdfRootKey(sk, Dh(spk, env.h.rk));
    var (root2, sendChain) := KdfRootKey(root1, Dh(Priv(newKey), env.h.rk));
    Session(root2, Some(sendChain), Some(recvChain), 0, 0, 0, Pub(newKey), Priv(newKey), Some(env.h.rk),
            map[], false, None)
  }

  function InitFromPreKey(st: Store, peer: PeerId, env: Envelope, newKey: nat): (Store, Option<Error>)
    requires env.PreKeyMessage?
  {
    if st.identity.None? then (st, Some(NoIdentityKey))
    else if env.spkId !in st.signedPreKeys then (st, Some(NoSignedPreKey))
    else
      var opk := OneTimeKey(st, env.opkId);
      var st1 := if opk.Some? then st.(preKeys := st.preKeys - {env.opkId.value}) else st;
      var s := RespondSession(st.identity.value, st.signedPreKeys[env.spkId], opk, env, newKey);
      (st1.(sessions := st1.sessions[peer := s]), None)
  }

  function Seal(s: Session, plain: Plaintext): (Session, Envelope)
    requires s.sendChainKey.Some?
  {
    var (mk, next) := KdfChainKey(s.sendChainKey.value);
    var h := Header(s.ourRatchetPublic, s.sendCount, s.prevSendCount);
    var t := s.(sendChainKey := Some(next), sendCount := s.sendCount + 1);
    if s.isInitiator && s.sendCount == 0 && s.pendingPreKeyMsg.Some? then
      var pk := s.pendingPreKeyMsg.value;
      (t.(pendingPreKeyMsg := None),
       PreKeyMessage(pk.identityKey, pk.ephemeralKey, pk.spkId, pk.opkId, h, Box(mk, plain)))
    else
      (t, SignalMessage(h, Box(mk, plain)))
  }

  function Encrypt(st: Store, peer: PeerId, plain: Plaintext): (Store, Sealed) {
    if peer !in st.sessions then (st, NotSent(NoSession))
    else if st.sessions[peer].sendChainKey.None? then (st, NotSent(NoSendingChain))
    else
      var (s, env) := Seal(st.sessions[peer], plain);
      (st.(sessions := st.sessions[peer := s]), Sent(env))
  }

  /** `newKey` is the key pair the call may generate: it needs one at most. */
  function Decrypt(st: Store, peer: PeerId, env: Envelope, newKey: nat): (Store, Outcome) {
    if env.PreKeyMessage? then
      var (st1, err) := InitFromPreKey(st, peer, env, newKey);
      if err.Some? then (st1, Failed(err.value)) else DecryptStored(st1, peer, env, newKey)
    else
      DecryptStored(st, peer, env, newKey)
  }

  function DecryptStored(st: Store, peer: PeerId, env: Envelope, newKey: nat): (Store, Outcome) {
    if peer !in st.sessions then (st, Failed(NoSession))
    else
      var (s, o) := Receive(st.sessions[peer], env.h, env.ct, newKey);
      (if Stores(o) then st.(sessions := st.sessions[peer := s]) else st, o)
  }

  // ── Facts about one call ──

  /** Closed form of the `skipMessageKeys` loop: exactly the keys from `recvCount` up to `target` are
      added, each the right one for its index, and the chain stands at `target`. */
  lemma {:induction false} SaveUpToEffect(s: Session, target: int)
    requires Skips(s)
    ensures var t := SaveUpTo(s, target);
            var gap: nat := if s.recvCount < target then target - s.recvCount else 0;
            && t == s.(skipped := t.skipped,
                       recvChainKey := Some(Advance(s.recvChainKey.value, gap)),
                       recvCount := s.recvCount + gap)
            && forall k :: (k in t.skipped <==> k in s.skipped || InRange(s, target, k))
                           && (k in t.skipped ==> t.skipped[k] == if InRange(s, target, k)
                                                   then MessageKey(Advance(s.recvChainKey.value, k.n - s.recvCount))
                                                   else s.skipped[k])
    decreases target - s.recvCount
  {
    if s.recvCount < target {
      var u := SaveOne(s);
      var t := SaveUpTo(s, target);
      SaveUpToEffect(u, target);
      var c := s.recvChainKey.value;
      AdvanceAdd(c, 1, target - u.recvCount);
      assert Advance(c, 1) == NextChain(Advance(c, 0));
      forall k
        ensures k in t.skipped <==> k in s.skipped || InRange(s, target, k)
        ensures k in t.skipped ==> t.skipped[k] == if InRange(s, target, k)
                                   then MessageKey(Advance(c, k.n - s.recvCount)) else s.skipped[k]
      {
        if InRange(u, target, k) {
          AdvanceAdd(c, 1, k.n - u.recvCount);
        }
      }
    }
  }

  predicate InRange(s: Session, target: int, k: SkipKey) {
    s.theirRatchetPublic == Some(k.rk) && s.recvCount <= k.n < target
  }
}
