/** Symbolic model of the primitives in `packages/core/src/encryption/crypto.ts`.
    A key pair is a number; a Diffie-Hellman output is an unordered pair of numbers; both key
    derivation functions are free constructors, so they are injective and never collide. */
module Crypto {

  datatype Option<+T> = None | Some(value: T)

  datatype PublicKey = Pub(id: nat)

  datatype PrivateKey = Priv(id: nat)

  /** The secret two key pairs share; `lo <= hi` makes the pair unordered. */
  datatype DhSecret = DhSecret(lo: nat, hi: nat)

  datatype RootKey =
    | SharedSecret(dh1: DhSecret, dh2: DhSecret, dh3: DhSecret, dh4: Option<DhSecret>)
    | NextRoot(root: RootKey, dh: DhSecret)

  datatype ChainKey =
    | ChainSeed(root: RootKey, dh: DhSecret)
    | NextChain(chain: ChainKey)

  datatype MessageKey = MessageKey(chain: ChainKey)

  type Plaintext = string

  /** An AES-GCM ciphertext as an ideal box. */
  datatype Box = Box(key: MessageKey, plain: Plaintext)

  datatype Signature = Signature(signer: nat, subject: PublicKey)

  function Dh(priv: PrivateKey, pub: PublicKey): DhSecret {
    if priv.id <= pub.id then DhSecret(priv.id, pub.id) else DhSecret(pub.id, priv.id)
  }

  function KdfRootKey(root: RootKey, dh: DhSecret): (RootKey, ChainKey) {
    (NextRoot(root, dh), ChainSeed(root, dh))
  }

  function KdfChainKey(chain: ChainKey): (MessageKey, ChainKey) {
    (MessageKey(chain), NextChain(chain))
  }

  function Open(key: MessageKey, box: Box): Option<Plaintext> {
    if box.key == key then Some(box.plain) else None
  }

  function Verify(identity: PublicKey, subject: PublicKey, signature: Signature): bool {
    signature == Signature(identity.id, subject)
  }

  // ── X3DH ──

  function X3dh(myIdentity: PrivateKey, myEphemeral: PrivateKey, theirIdentity: PublicKey,
                theirSignedPreKey: PublicKey, theirOneTimePreKey: Option<PublicKey>): RootKey
  {
    SharedSecret(
      Dh(myIdentity, theirSignedPreKey),
      Dh(myEphemeral, theirIdentity),
      Dh(myEphemeral, theirSignedPreKey),
      if theirOneTimePreKey.Some? then Some(Dh(myEphemeral, theirOneTimePreKey.value)) else None)
  }

  function X3dhRespond(myIdentity: PrivateKey, mySignedPreKey: PrivateKey, myOneTimePreKey: Option<PrivateKey>,
                       theirIdentity: PublicKey, theirEphemeral: PublicKey): RootKey
  {
    SharedSecret(
      Dh(mySignedPreKey, theirIdentity),
      Dh(myIdentity, theirEphemeral),
      Dh(mySignedPreKey, theirEphemeral),
      if myOneTimePreKey.Some? then Some(Dh(myOneTimePreKey.value, theirEphemeral)) else None)
  }

  // ── Chains ──

  /** The chain key `n` derivations after `c`. */
  function Advance(c: ChainKey, n: nat): ChainKey {
    if n == 0 then c else NextChain(Advance(c, n - 1))
  }

  lemma {:induction false} AdvanceAdd(c: ChainKey, a: nat, b: nat)
    ensures Advance(Advance(c, a), b) == Advance(c, a + b)
  {
    if b != 0 {
      AdvanceAdd(c, a, b - 1);
    }
  }

  function SeedOf(c: ChainKey): ChainKey {
    match c
    case ChainSeed(_, _) => c
    case NextChain(d) => SeedOf(d)
  }

  function Length(c: ChainKey): nat {
    match c
    case ChainSeed(_, _) => 0
    case NextChain(d) => 1 + Length(d)
  }

  /** Advancing is injective in the number of derivations, and keeps the seed. */
  lemma {:induction false} AdvanceShape(c: ChainKey, n: nat)
    ensures SeedOf(Advance(c, n)) == SeedOf(c)
    ensures Length(Advance(c, n)) == Length(c) + n
  {
    if n != 0 {
      AdvanceShape(c, n - 1);
    }
  }

  function Depth(r: RootKey): nat {
    match r
    case SharedSecret(_, _, _, _) => 0
    case NextRoot(q, _) => 1 + Depth(q)
  }
}
