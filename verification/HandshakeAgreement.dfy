/** X3DH and the two ratchet initialisations, for all key material and with no run behind them. */
module HandshakeAgreement {
  import opened Crypto
  import opened Ratchet

  function PublicOf(k: Option<nat>): Option<PublicKey> { if k.Some? then Some(Pub(k.value)) else None }

  function PrivateOf(k: Option<nat>): Option<PrivateKey> { if k.Some? then Some(Priv(k.value)) else None }

  /** Both sides compute the same secret exactly when the responder answers with the private keys of the identity
      and the signed pre-key the initiator addressed, and both use the same one-time key or neither uses one. */
  lemma SecretsAgree(ikA: nat, ekA: nat, ikB: nat, spkB: nat, opkA: Option<nat>, ikOfB: nat, spkOfB: nat,
                     opkB: Option<nat>)
    ensures var mine := X3dh(Priv(ikA), Priv(ekA), Pub(ikB), Pub(spkB), PublicOf(opkA));
            var theirs := X3dhRespond(Priv(ikOfB), Priv(spkOfB), PrivateOf(opkB), Pub(ikA), Pub(ekA));
            mine == theirs <==> ikB == ikOfB && spkB == spkOfB && opkA == opkB
  {
    SameOther(ikA, spkB, spkOfB);
    SameOther(ekA, ikB, ikOfB);
    if opkA.Some? && opkB.Some? {
      SameOther(ekA, opkA.value, opkB.value);
    }
  }

  lemma SameOther(a: nat, b: nat, c: nat)
    ensures Dh(Priv(a), Pub(b)) == Dh(Priv(c), Pub(a)) <==> b == c
  {
  }

  /** What the responder must hold for a first message built from this bundle: the identity it names, the signed
      pre-key under its id, and the one-time key, if there is one, under its id. */
  predicate Answers(b: Store, bundle: Bundle) {
    && b.identity == Some(bundle.identityKey.id)
    && bundle.spkId in b.signedPreKeys && b.signedPreKeys[bundle.spkId] == Priv(bundle.spk.id)
    && (bundle.opk.Some? ==>
          bundle.opk.value.0 in b.preKeys && b.preKeys[bundle.opk.value.0] == Priv(bundle.opk.value.1.id))
  }

  /** Alice opens a session from a bundle and seals her first message. Whatever Bob's store holds, the message opens,
      and Bob's session and hers fit together, exactly when he answers with the keys of the bundle; a signed pre-key
      that is gone is reported and changes nothing, one that was replaced under its id makes the box fail. */
  lemma FirstMessageExactly(a: Store, b: Store, bundle: Bundle, ek: nat, ratchet: nat, bobKey: nat, plain: Plaintext)
    requires a.identity.Some? && Verify(bundle.identityKey, bundle.spk, bundle.signature)
    ensures var sess := InitFromBundle(a, 1, bundle, ek, ratchet).0.sessions[1];
            var (st, sealed) := Encrypt(InitFromBundle(a, 1, bundle, ek, ratchet).0, 1, plain);
            && sealed.Sent? && sealed.envelope.PreKeyMessage?
            && var (bst, o) := Decrypt(b, 0, sealed.envelope, bobKey);
               && (o == Opened(plain) <==> Answers(b, bundle))
               && (o == Failed(NoIdentityKey) <==> b.identity.None?)
               && (o == Failed(NoSignedPreKey) <==> b.identity.Some? && bundle.spkId !in b.signedPreKeys)
               && (o.Opened? || o.error in {NoIdentityKey, NoSignedPreKey, BadCiphertext})
               && (o.Failed? && o.error != BadCiphertext ==> bst == b)
               && (Stores(o) ==>
                     && 0 in bst.sessions
                     && (bundle.opk.Some? ==> bundle.opk.value.0 !in bst.preKeys)
                     && var t := bst.sessions[0];
                        && (t.rootKey == NextRoot(sess.rootKey, Dh(sess.ourRatchetPrivate, Pub(bobKey)))
                            <==> Answers(b, bundle))
                        && (t.recvChainKey == st.sessions[1].sendChainKey <==> Answers(b, bundle)))
  {
    FirstEnvelope(a, bundle, ek, ratchet, plain);
    Answer(b, bundle, a.identity.value, ek, ratchet, bobKey, plain);
  }

  function Sk(a: nat, bundle: Bundle, ek: nat): RootKey {
    X3dh(Priv(a), Priv(ek), bundle.identityKey, bundle.spk, if bundle.opk.Some? then Some(bundle.opk.value.1) else None)
  }

  /** The first message a bundle leads to. */
  function Message(a: nat, bundle: Bundle, ek: nat, ratchet: nat, plain: Plaintext): Envelope {
    PreKeyMessage(Pub(a), Pub(ek), bundle.spkId, if bundle.opk.Some? then Some(bundle.opk.value.0) else None,
                  Header(Pub(ratchet), 0, 0),
                  Box(MessageKey(ChainSeed(Sk(a, bundle, ek), Dh(Priv(ratchet), bundle.spk))), plain))
  }

  lemma FirstEnvelope(a: Store, bundle: Bundle, ek: nat, ratchet: nat, plain: Plaintext)
    requires a.identity.Some? && Verify(bundle.identityKey, bundle.spk, bundle.signature)
    ensures var st0 := InitFromBundle(a, 1, bundle, ek, ratchet).0;
            var (st, sealed) := Encrypt(st0, 1, plain);
            var sk := Sk(a.identity.value, bundle, ek);
            && 1 in st0.sessions && 1 in st.sessions
            && sealed == Sent(Message(a.identity.value, bundle, ek, ratchet, plain))
            && st0.sessions[1].rootKey == NextRoot(sk, Dh(Priv(ratchet), bundle.spk))
            && st0.sessions[1].ourRatchetPrivate == Priv(ratchet)
            && st.sessions[1].sendChainKey == Some(NextChain(ChainSeed(sk, Dh(Priv(ratchet), bundle.spk))))
  {
  }

  /** What the responder does with it. */
  lemma Answer(b: Store, bundle: Bundle, a: nat, ek: nat, ratchet: nat, bobKey: nat, plain: Plaintext)
    ensures var (bst, o) := Decrypt(b, 0, Message(a, bundle, ek, ratchet, plain), bobKey);
            var seed := ChainSeed(Sk(a, bundle, ek), Dh(Priv(ratchet), bundle.spk));
            var root := NextRoot(Sk(a, bundle, ek), Dh(Priv(ratchet), bundle.spk));
            && (o == Opened(plain) <==> Answers(b, bundle))
            && (o == Failed(NoIdentityKey) <==> b.identity.None?)
            && (o == Failed(NoSignedPreKey) <==> b.identity.Some? && bundle.spkId !in b.signedPreKeys)
            && (o.Opened? || o.error in {NoIdentityKey, NoSignedPreKey, BadCiphertext})
            && (o.Failed? && o.error != BadCiphertext ==> bst == b)
            && (Stores(o) ==>
                  && 0 in bst.sessions
                  && (bundle.opk.Some? ==> bundle.opk.value.0 !in bst.preKeys)
                  && (bst.sessions[0].rootKey == NextRoot(root, Dh(Priv(ratchet), Pub(bobKey))) <==> Answers(b, bundle))
                  && (bst.sessions[0].recvChainKey == Some(NextChain(seed)) <==> Answers(b, bundle)))
  {
    var env := Message(a, bundle, ek, ratchet, plain);
    if b.identity.Some? && bundle.spkId in b.signedPreKeys {
      var opkA := if bundle.opk.Some? then Some(bundle.opk.value.1.id) else None;
      var found := OneTimeKey(b, env.opkId);
      var opkB := if found.Some? then Some(found.value.id) else None;
      var spk := b.signedPreKeys[bundle.spkId];
      SecretsAgree(a, ek, bundle.identityKey.id, bundle.spk.id, opkA, b.identity.value, spk.id, opkB);
      SaveUpToEffect(RespondSession(b.identity.value, spk, found, env, bobKey), 0);
      assert PrivateOf(opkB) == found;
    }
  }
}
