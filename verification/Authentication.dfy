/** What the X3DH secret rests on: every key that goes into it, and so who can have sent a first message. */
module Authentication {
  import opened Crypto
  import opened Ratchet
  import opened Secrecy
  import HandshakeAgreement

  // ── The secret depends on the initiator's keys ──

  /** The responder answers with the keys the initiator addressed, on the word of an envelope about the initiator's
      keys: the secrets agree exactly when it names the identity and the ephemeral key the initiator really used. */
  lemma ClaimedKeysAgree(ikA: nat, ekA: nat, ikB: nat, spkB: nat, opk: Option<nat>, claimedIk: nat, claimedEk: nat)
    ensures var mine := X3dh(Priv(ikA), Priv(ekA), Pub(ikB), Pub(spkB), HandshakeAgreement.PublicOf(opk));
            var opkB := HandshakeAgreement.PrivateOf(opk);
            var theirs := X3dhRespond(Priv(ikB), Priv(spkB), opkB, Pub(claimedIk), Pub(claimedEk));
            mine == theirs <==> claimedIk == ikA && claimedEk == ekA
  {
    SameParts(ikA, spkB, claimedIk);
    SameParts(ekA, ikB, claimedEk);
  }

  lemma SameParts(a: nat, b: nat, c: nat)
    ensures Dh(Priv(a), Pub(b)) == Dh(Priv(b), Pub(c)) <==> a == c
  {
  }

  // ── Who can compute the secret ──

  /** Everything the attacker holds besides private keys comes from other secrets. */
  ghost predicate Elsewhere(k: Knowledge, sk: RootKey) {
    && sk !in k.roots && (forall c :: c in k.chains ==> Origin(c) != sk)
    && (forall m :: m in k.keys ==> Origin(m.chain) != sk)
  }

  /** The root key a chain was begun from. */
  function Origin(c: ChainKey): RootKey {
    match c
    case ChainSeed(r, _) => r
    case NextChain(p) => Origin(p)
  }

  /** Whoever holds nothing derived from it computes the responder's secret exactly when holding one private key out of
      each pair: the claimed identity or the signed pre-key; the ephemeral key or the responder's identity; the
      ephemeral key or the signed pre-key; and, if a one-time key went in, the ephemeral key or the one-time key. */
  lemma SecretExactly(k: Knowledge, ik: nat, ek: nat, ikB: nat, spkB: nat, opk: Option<nat>)
    requires X3dhRespond(Priv(ikB), Priv(spkB), HandshakeAgreement.PrivateOf(opk), Pub(ik), Pub(ek)) !in k.roots
    ensures KnowsRoot(k, X3dhRespond(Priv(ikB), Priv(spkB), HandshakeAgreement.PrivateOf(opk), Pub(ik), Pub(ek))) <==>
              && (ik in k.privs || spkB in k.privs) && (ek in k.privs || ikB in k.privs)
              && (ek in k.privs || spkB in k.privs)
              && (opk.Some? ==> ek in k.privs || opk.value in k.privs)
  {
  }

  /** The same for the initiator's computation, from the private keys on the other side. */
  lemma SecretOfInitiatorExactly(k: Knowledge, ik: nat, ek: nat, ikB: nat, spkB: nat, opk: Option<nat>)
    requires X3dh(Priv(ik), Priv(ek), Pub(ikB), Pub(spkB), HandshakeAgreement.PublicOf(opk)) !in k.roots
    ensures KnowsRoot(k, X3dh(Priv(ik), Priv(ek), Pub(ikB), Pub(spkB), HandshakeAgreement.PublicOf(opk))) <==>
              && (ik in k.privs || spkB in k.privs) && (ek in k.privs || ikB in k.privs)
              && (ek in k.privs || spkB in k.privs)
              && (opk.Some? ==> ek in k.privs || opk.value in k.privs)
  {
  }

  // ── A first message in somebody's name ──

  /** The secret the responder computes for an envelope. */
  function SecretFor(b: Store, env: Envelope): RootKey
    requires env.PreKeyMessage? && b.identity.Some? && env.spkId in b.signedPreKeys
  {
    X3dhRespond(Priv(b.identity.value), b.signedPreKeys[env.spkId], OneTimeKey(b, env.opkId), env.ik, env.ek)
  }

  lemma {:induction false} ChainFromSecret(k: Knowledge, c: ChainKey)
    requires Elsewhere(k, Origin(c)) && !KnowsRoot(k, Origin(c))
    ensures !KnowsChain(k, c)
  {
    if c.NextChain? {
      ChainFromSecret(k, c.chain);
    }
  }

  lemma {:induction false} OriginStays(c: ChainKey, n: nat)
    ensures Origin(Advance(c, n)) == Origin(c)
  {
    if n != 0 {
      OriginStays(c, n - 1);
    }
  }

  /** The key a responder's new record opens its first message with comes from the secret. */
  lemma OpensFromSecret(b: Store, env: Envelope, newKey: nat)
    requires env.PreKeyMessage? && b.identity.Some? && env.spkId in b.signedPreKeys
    requires var opk := OneTimeKey(b, env.opkId);
             var t := RespondSession(b.identity.value, b.signedPreKeys[env.spkId], opk, env, newKey);
             Receive(t, env.h, env.ct, newKey).1.Opened?
    ensures Origin(env.ct.key.chain) == SecretFor(b, env)
  {
    var t := RespondSession(b.identity.value, b.signedPreKeys[env.spkId], OneTimeKey(b, env.opkId), env, newKey);
    SaveUpToEffect(t, env.h.n);
    OriginStays(t.recvChainKey.value, if 0 < env.h.n then env.h.n else 0);
  }

  /** A first message opens only if its sender could compute the secret: a box sealed under a key the sender can derive,
      holding nothing derived from that secret, opens only if the secret itself can be derived. */
  lemma OpenedByHolder(k: Knowledge, b: Store, peer: PeerId, env: Envelope, newKey: nat)
    requires env.PreKeyMessage? && KnowsKey(k, env.ct.key) && b.identity.Some? && env.spkId in b.signedPreKeys
    requires Elsewhere(k, SecretFor(b, env))
    requires Decrypt(b, peer, env, newKey).1.Opened?
    ensures KnowsRoot(k, SecretFor(b, env))
  {
    OpensFromSecret(b, env, newKey);
    if !KnowsRoot(k, SecretFor(b, env)) {
      ChainFromSecret(k, env.ct.key.chain);
    }
  }

  /** The initiator is authenticated: a first message in the name of an identity opens for nobody who holds neither that
      identity's private key nor the responder's signed pre-key, whatever ephemeral key, header and text it carries. */
  lemma ForgedOpeningFails(k: Knowledge, b: Store, peer: PeerId, env: Envelope, newKey: nat)
    requires env.PreKeyMessage? && KnowsKey(k, env.ct.key)
    requires b.identity.Some? && env.spkId in b.signedPreKeys ==> Elsewhere(k, SecretFor(b, env))
    requires env.ik.id !in k.privs && (env.spkId in b.signedPreKeys ==> b.signedPreKeys[env.spkId].id !in k.privs)
    ensures Decrypt(b, peer, env, newKey).1.Failed?
  {
    if b.identity.Some? && env.spkId in b.signedPreKeys {
      var opk := OneTimeKey(b, env.opkId);
      var id := if opk.Some? then Some(opk.value.id) else None;
      assert HandshakeAgreement.PrivateOf(id) == opk;
      SecretExactly(k, env.ik.id, env.ek.id, b.identity.value, b.signedPreKeys[env.spkId].id, id);
      if Decrypt(b, peer, env, newKey).1.Opened? {
        OpenedByHolder(k, b, peer, env, newKey);
      }
    }
  }
}
