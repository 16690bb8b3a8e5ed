/** One device and several peers: what a call for one of them leaves alone. */
module Peers {
  import opened Crypto
  import opened Ratchet

  /** The long-term keys stay, and so does every record but the peer's own. */
  ghost predicate OthersKept(st: Store, n: Store, peer: PeerId) {
    && n.identity == st.identity && n.signedPreKeys == st.signedPreKeys
    && (forall q :: q != peer ==> (q in n.sessions <==> q in st.sessions))
    && (forall q :: q != peer && q in st.sessions ==> n.sessions[q] == st.sessions[q])
  }

  /** A bundle is refused exactly when its signature does not verify or there is no identity key, and then nothing
      changes. */
  lemma InitFromBundleExactly(st: Store, peer: PeerId, bundle: Bundle, ephemeral: nat, ratchet: nat)
    ensures var (n, err) := InitFromBundle(st, peer, bundle, ephemeral, ratchet);
            && (err == Some(InvalidSignature) <==> bundle.signature != Signature(bundle.identityKey.id, bundle.spk))
            && (err.None? <==> bundle.signature == Signature(bundle.identityKey.id, bundle.spk) && st.identity.Some?)
            && (err.Some? ==> n == st)
            && (err.None? ==> peer in n.sessions && n.preKeys == st.preKeys && OthersKept(st, n, peer))
  {
  }

  /** An `encrypt` moves no other record and uses no one-time key. It is refused exactly without a record, or with one
      that has no sending chain, and then changes nothing. */
  lemma EncryptKeeps(st: Store, peer: PeerId, plain: Plaintext)
    ensures var (n, r) := Encrypt(st, peer, plain);
            && OthersKept(st, n, peer) && n.preKeys == st.preKeys && (peer in n.sessions <==> peer in st.sessions)
            && (r == NotSent(NoSession) <==> peer !in st.sessions)
            && (r.Sent? <==> peer in st.sessions && st.sessions[peer].sendChainKey.Some?)
            && (r.NotSent? ==> n == st)
  {
  }

  lemma InitFromPreKeyKeeps(st: Store, peer: PeerId, env: Envelope, newKey: nat)
    requires env.PreKeyMessage?
    ensures var (n, err) := InitFromPreKey(st, peer, env, newKey);
            && OthersKept(st, n, peer) && KeysButOne(st, n, env.opkId)
            && (err == Some(NoIdentityKey) <==> st.identity.None?)
            && (err.None? <==> st.identity.Some? && env.spkId in st.signedPreKeys)
            && (err.Some? ==> n == st) && (err.None? ==> peer in n.sessions)
  {
  }

  /** Of the one-time keys only the one named may be gone. */
  ghost predicate KeysButOne(st: Store, n: Store, named: Option<int>) {
    && (forall id :: id in n.preKeys ==> id in st.preKeys && n.preKeys[id] == st.preKeys[id])
    && (forall id :: id in st.preKeys && named != Some(id) ==> id in n.preKeys)
  }

  /** A `decrypt`, whatever envelope it is given: no other peer's record moves, long-term keys stay, and of the one-time
      keys only the one a type-1 envelope names may go. A type-2 envelope that is refused changes nothing. */
  lemma DecryptKeeps(st: Store, peer: PeerId, env: Envelope, newKey: nat)
    ensures var n := Decrypt(st, peer, env, newKey).0;
            && OthersKept(st, n, peer) && KeysButOne(st, n, Named(env))
            && (env.SignalMessage? && !Stores(Decrypt(st, peer, env, newKey).1) ==> n == st)
  {
    if env.PreKeyMessage? {
      InitFromPreKeyKeeps(st, peer, env, newKey);
    }
  }

  function Named(env: Envelope): Option<int> {
    if env.PreKeyMessage? then env.opkId else None
  }

  // ── Runs over several peers ──

  datatype Call =
    | Open(peer: PeerId, bundle: Bundle, ephemeral: nat, ratchet: nat)
    | Send(peer: PeerId, plain: Plaintext)
    | Get(peer: PeerId, env: Envelope, newKey: nat)

  function Do(st: Store, c: Call): Store {
    match c
    case Open(peer, bundle, ephemeral, ratchet) => InitFromBundle(st, peer, bundle, ephemeral, ratchet).0
    case Send(peer, plain) => Encrypt(st, peer, plain).0
    case Get(peer, env, newKey) => Decrypt(st, peer, env, newKey).0
  }

  function Run(st: Store, cs: seq<Call>): Store {
    if cs == [] then st else Do(Run(st, cs[..|cs| - 1]), cs[|cs| - 1])
  }

  function NamedBy(c: Call): Option<int> {
    if c.Get? then Named(c.env) else None
  }

  lemma DoKeeps(st: Store, c: Call)
    ensures OthersKept(st, Do(st, c), c.peer) && KeysButOne(st, Do(st, c), NamedBy(c))
  {
    match c {
      case Open(peer, bundle, ephemeral, ratchet) => InitFromBundleExactly(st, peer, bundle, ephemeral, ratchet);
      case Send(peer, plain) => EncryptKeeps(st, peer, plain);
      case Get(peer, env, newKey) => DecryptKeeps(st, peer, env, newKey);
    }
  }

  function RecordOf(st: Store, q: PeerId): Option<Session> {
    if q in st.sessions then Some(st.sessions[q]) else None
  }

  /** Calls for others never move the record of `q`. */
  lemma {:induction false} OthersNeverMove(st: Store, cs: seq<Call>, q: PeerId)
    requires forall i :: 0 <= i < |cs| ==> cs[i].peer != q
    ensures RecordOf(Run(st, cs), q) == RecordOf(st, q)
  {
    if cs != [] {
      OthersNeverMove(st, cs[..|cs| - 1], q);
      DoKeeps(Run(st, cs[..|cs| - 1]), cs[|cs| - 1]);
    }
  }

  /** The calls for one peer. */
  function Only(cs: seq<Call>, q: PeerId): seq<Call> {
    if cs == [] then []
    else if cs[|cs| - 1].peer == q then Only(cs[..|cs| - 1], q) + [cs[|cs| - 1]]
    else Only(cs[..|cs| - 1], q)
  }

  /** What the calls for `q` can see of a store: the record, the long-term keys, and the one-time keys in `ids`. */
  ghost predicate SameFor(a: Store, b: Store, q: PeerId, ids: set<int>) {
    && a.identity == b.identity && a.signedPreKeys == b.signedPreKeys && RecordOf(a, q) == RecordOf(b, q)
    && (forall id :: id in ids ==> (id in a.preKeys <==> id in b.preKeys))
    && (forall id :: id in ids && id in a.preKeys ==> a.preKeys[id] == b.preKeys[id])
  }

  lemma OtherCall(a: Store, b: Store, c: Call, q: PeerId, ids: set<int>)
    requires SameFor(a, b, q, ids) && c.peer != q && (NamedBy(c).Some? ==> NamedBy(c).value !in ids)
    ensures SameFor(Do(a, c), b, q, ids)
  {
    DoKeeps(a, c);
  }

  lemma OwnCall(a: Store, b: Store, c: Call, ids: set<int>)
    requires SameFor(a, b, c.peer, ids) && (NamedBy(c).Some? ==> NamedBy(c).value in ids)
    ensures SameFor(Do(a, c), Do(b, c), c.peer, ids)
  {
    DoKeeps(a, c);
    DoKeeps(b, c);
    assert c.peer in a.sessions <==> c.peer in b.sessions;
    if c.Get? {
      if c.env.PreKeyMessage? {
        OwnOpening(a, b, c.peer, c.env, c.newKey, ids);
      } else {
        SameStored(a, b, c.peer, c.env, c.newKey, ids);
      }
    }
  }

  lemma OwnOpening(a: Store, b: Store, q: PeerId, env: Envelope, newKey: nat, ids: set<int>)
    requires SameFor(a, b, q, ids) && env.PreKeyMessage? && (env.opkId.Some? ==> env.opkId.value in ids)
    ensures SameFor(Decrypt(a, q, env, newKey).0, Decrypt(b, q, env, newKey).0, q, ids)
  {
    SameKey(a, b, q, env.opkId, ids);
    SameOpening(a, b, q, env, newKey, ids);
    SameStored(InitFromPreKey(a, q, env, newKey).0, InitFromPreKey(b, q, env, newKey).0, q, env, newKey, ids);
  }

  lemma SameKey(a: Store, b: Store, q: PeerId, named: Option<int>, ids: set<int>)
    requires SameFor(a, b, q, ids) && (named.Some? ==> named.value in ids)
    ensures OneTimeKey(a, named) == OneTimeKey(b, named)
  {
    if named.Some? {
      var id := named.value;
      assert id in ids;
      assert id in a.preKeys <==> id in b.preKeys;
    }
  }

  lemma SameOpening(a: Store, b: Store, q: PeerId, env: Envelope, newKey: nat, ids: set<int>)
    requires SameFor(a, b, q, ids) && env.PreKeyMessage? && OneTimeKey(a, env.opkId) == OneTimeKey(b, env.opkId)
    ensures var (m, e) := InitFromPreKey(a, q, env, newKey);
            var (n, f) := InitFromPreKey(b, q, env, newKey);
            e == f && SameFor(m, n, q, ids)
  {
  }

  lemma SameStored(a: Store, b: Store, q: PeerId, env: Envelope, newKey: nat, ids: set<int>)
    requires SameFor(a, b, q, ids)
    ensures SameFor(DecryptStored(a, q, env, newKey).0, DecryptStored(b, q, env, newKey).0, q, ids)
  {
    assert q in a.sessions <==> q in b.sessions;
  }

  /** The conversation with `q` goes on as if there were no other: its record is the one its own calls lead to, as long
      as no other peer's envelopes name a one-time key that its envelopes name. */
  lemma {:induction false} ConversationsApart(st: Store, cs: seq<Call>, q: PeerId, ids: set<int>)
    requires forall i :: 0 <= i < |cs| && NamedBy(cs[i]).Some? ==> (NamedBy(cs[i]).value in ids <==> cs[i].peer == q)
    ensures SameFor(Run(st, cs), Run(st, Only(cs, q)), q, ids)
  {
    if cs != [] {
      var before, c := cs[..|cs| - 1], cs[|cs| - 1];
      ConversationsApart(st, before, q, ids);
      if c.peer == q {
        var only := Only(before, q);
        assert (only + [c])[..|only|] == only;
        OwnCall(Run(st, before), Run(st, only), c, ids);
      } else {
        OtherCall(Run(st, before), Run(st, Only(before, q)), c, q, ids);
      }
    }
  }
}
