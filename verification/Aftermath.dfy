/** What a delivery does to a stored record whether or not its box opens, and what becomes of a record that has
    left the conversation. */
module Aftermath {
  import opened Crypto
  import opened Ratchet
  import opened History
  import opened TwoParty
  import opened Scope

  // ── The record is stored before the box is opened ──

  /** What the record becomes, and whether it is stored, does not depend on the box. */
  lemma BoxNotConsulted(s: Session, hd: Header, a: Box, b: Box, newKey: nat)
    ensures Receive(s, hd, a, newKey).0 == Receive(s, hd, b, newKey).0
    ensures Stores(Receive(s, hd, a, newKey).1) <==> Stores(Receive(s, hd, b, newKey).1)
  {
  }

  /** A box that does not open uses up the number it came under: the record is the one the genuine message would
      have left, and that message does not open any more. */
  lemma BadBoxSpends(h: Hist, e: nat, s: Session, got: set<Slot>, n: nat, bad: Box, plain: Plaintext, k1: nat, k2: nat)
    requires PartyInv(h, e, s, got) && e >= 2 && n < h.cnt[e-1] && Slot(e-1, n) !in got && n <= s.recvCount + MAX_SKIP
    requires bad.key != KeyAt(h, e-1, n)
    ensures var (t, o) := Receive(s, HeaderAt(h, e-1, n), bad, k1);
            && o == Failed(BadCiphertext) && PartyInv(h, e, t, got + {Slot(e-1, n)})
            && Receive(t, HeaderAt(h, e-1, n), Box(KeyAt(h, e-1, n), plain), k2).1 == Failed(BadCiphertext)
  {
    var good := Box(KeyAt(h, e-1, n), plain);
    var hd := HeaderAt(h, e-1, n);
    BoxNotConsulted(s, hd, good, bad, k1);
    ReceiveCurrent(h, e, s, got, n, hd.pn, plain, k1);
    WrongBox(s, hd, KeyAt(h, e-1, n), plain, bad, k1);
    var t := Receive(s, hd, bad, k1).0;
    CurrentChainExactly(h, e, t, got + {Slot(e-1, n)}, n, hd.pn, plain, k2);
  }

  /** The same under the peer's next ratchet key: the ratchet step is taken and kept. */
  lemma BadBoxRatchets(h: Hist, e: nat, s: Session, got: set<Slot>, n: nat, bad: Box, plain: Plaintext, k1: nat,
                       k2: nat)
    requires PartyInv(h, e, s, got) && |h.keys| == e + 2 && k1 !in h.keys && n < h.cnt[e+1]
    requires (e >= 2 ==> Announced(h, e+1) <= s.recvCount + MAX_SKIP) && n <= MAX_SKIP && bad.key != KeyAt(h, e+1, n)
    ensures var (t, o) := Receive(s, HeaderAt(h, e+1, n), bad, k1);
            && o == Failed(BadCiphertext) && PartyInv(Extend(h, k1), e + 2, t, got + {Slot(e+1, n)})
            && Receive(t, HeaderAt(h, e+1, n), Box(KeyAt(h, e+1, n), plain), k2).1 == Failed(BadCiphertext)
  {
    var hd, g := HeaderAt(h, e+1, n), Extend(h, k1);
    ReceiveNext(h, e, s, got, n, plain, k1);
    BoxNotConsulted(s, hd, Box(KeyAt(h, e+1, n), plain), bad, k1);
    WrongBox(s, hd, KeyAt(h, e+1, n), plain, bad, k1);
    var t := Receive(s, hd, bad, k1).0;
    assert Seed(g, e+1) == Seed(h, e+1);
    CurrentChainExactly(g, e + 2, t, got + {Slot(e+1, n)}, n, hd.pn, plain, k2);
  }

  /** The guard of the store, for every record, header and box; and what is stored is never the record as it was. So a
      box that does not open leaves its mark exactly when the guard holds. */
  lemma StoredExactly(s: Session, hd: Header, ct: Box, newKey: nat)
    ensures var (t, o) := Receive(s, hd, ct, newKey);
            && (Stores(o) <==> Guard(s, hd))
            && (Stores(o) ==> t != s)
  {
    if s.theirRatchetPublic == Some(hd.rk) {
      TakeStores(s, hd, ct);
    } else if !SkipRefused(s, hd.pn) {
      var u := DhRatchet(Skip(s, hd.pn), hd.rk, newKey);
      TakeStores(u, hd, ct);
      SkipAdds(s, hd.pn, SkipKey(hd.rk, hd.n));
      TakeKeeps(u, hd, ct);
      assert Depth(u.rootKey) == Depth(s.rootKey) + 2;
    }
  }

  /** The numbers of the header are in reach, or its key was saved. */
  predicate Guard(s: Session, hd: Header) {
    var saved := SkipKey(hd.rk, hd.n) in s.skipped;
    if s.theirRatchetPublic == Some(hd.rk) then saved || (s.recvChainKey.Some? && hd.n <= s.recvCount + MAX_SKIP)
    else (Skips(s) ==> hd.pn <= s.recvCount + MAX_SKIP) && (saved || hd.n <= MAX_SKIP)
  }

  lemma TakeStores(s: Session, hd: Header, ct: Box)
    requires s.theirRatchetPublic == Some(hd.rk)
    ensures var (t, o) := Take(s, hd, ct);
            && (Stores(o) <==>
                SkipKey(hd.rk, hd.n) in s.skipped || (s.recvChainKey.Some? && hd.n <= s.recvCount + MAX_SKIP))
            && (Stores(o) ==> t != s)
  {
    if Skips(s) {
      SaveUpToEffect(s, hd.n);
      var gap: nat := if s.recvCount < hd.n then hd.n - s.recvCount else 0;
      AdvanceShape(s.recvChainKey.value, gap);
      assert Length(NextChain(Advance(s.recvChainKey.value, gap))) == Length(s.recvChainKey.value) + gap + 1;
    }
  }

  /** Saving the rest of one chain saves nothing under another ratchet key, and leaves the root. */
  lemma SkipAdds(s: Session, target: int, k: SkipKey)
    requires s.theirRatchetPublic != Some(k.rk)
    ensures var v := Skip(s, target); (k in v.skipped <==> k in s.skipped) && v.rootKey == s.rootKey
  {
    if Skips(s) {
      SaveUpToEffect(s, target);
    }
  }

  lemma WrongBox(s: Session, hd: Header, key: MessageKey, plain: Plaintext, bad: Box, newKey: nat)
    requires Receive(s, hd, Box(key, plain), newKey).1 == Opened(plain) && bad.key != key
    ensures Receive(s, hd, bad, newKey).1 == Failed(BadCiphertext)
  {
  }

  // ── Records that have left the conversation ──

  /** The chain is none of the conversation's. */
  ghost predicate StrayChain(h: Hist, c: ChainKey) {
    forall i: nat :: Chain(h, i) ==> SeedOf(c) != Seed(h, i)
  }

  ghost predicate Lost(h: Hist, t: Session) {
    Astray(h, t) && (t.recvChainKey.Some? ==> StrayChain(h, t.recvChainKey.value))
  }

  /** Every saved key is one the record started with, or of no use in the conversation. */
  ghost predicate OnlyOldKeys(h: Hist, was: map<SkipKey, MessageKey>, now: map<SkipKey, MessageKey>) {
    forall k :: k in now ==> (k in was && was[k] == now[k]) || StrayChain(h, now[k].chain)
  }

  lemma StrayAdvance(h: Hist, c: ChainKey, n: nat)
    requires StrayChain(h, c)
    ensures StrayChain(h, Advance(c, n))
  {
    AdvanceShape(c, n);
  }

  lemma StrayKey(h: Hist, c: ChainKey, i: nat, m: nat)
    requires StrayChain(h, c) && Chain(h, i)
    ensures MessageKey(c) != KeyAt(h, i, m)
  {
    AdvanceShape(Seed(h, i), m);
  }

  lemma SkipLost(h: Hist, t: Session, start: map<SkipKey, MessageKey>, target: int)
    requires Lost(h, t) && OnlyOldKeys(h, start, t.skipped)
    ensures var u := Skip(t, target);
            Lost(h, u) && OnlyOldKeys(h, start, u.skipped) && u.rootKey == t.rootKey
            && (u.recvChainKey.Some? <==> t.recvChainKey.Some?)
  {
    if Skips(t) {
      SaveUpToEffect(t, target);
      var u := SaveUpTo(t, target);
      var c := t.recvChainKey.value;
      var gap: nat := if t.recvCount < target then target - t.recvCount else 0;
      StrayAdvance(h, c, gap);
      forall k | k in u.skipped
        ensures (k in start && start[k] == u.skipped[k]) || StrayChain(h, u.skipped[k].chain)
      {
        if InRange(t, target, k) {
          StrayAdvance(h, c, k.n - t.recvCount);
        }
      }
    }
  }

  lemma TakeLost(h: Hist, t: Session, start: map<SkipKey, MessageKey>, hd: Header, ct: Box)
    requires Lost(h, t) && OnlyOldKeys(h, start, t.skipped)
    ensures var (u, o) := Take(t, hd, ct);
            && Lost(h, u) && OnlyOldKeys(h, start, u.skipped)
            && (o.Opened? ==> ct.key in start.Values || StrayChain(h, ct.key.chain))
  {
    var k := SkipKey(hd.rk, hd.n);
    if k !in t.skipped {
      SkipLost(h, t, start, hd.n);
      var v := Skip(t, hd.n);
      if v.recvChainKey.Some? {
        assert SeedOf(NextChain(v.recvChainKey.value)) == SeedOf(v.recvChainKey.value);
      }
    }
  }

  lemma OffForGood(h: Hist, r: RootKey, d1: DhSecret, d2: DhSecret)
    requires WellFormed(h) && h.roots[0].SharedSecret? && r !in h.roots
    ensures NextRoot(NextRoot(r, d1), d2) !in h.roots
  {
    forall i: nat | i < |h.roots|
      ensures h.roots[i] != NextRoot(NextRoot(r, d1), d2)
    {
      if i >= 2 {
        assert h.roots[i] == NextRoot(h.roots[i-1], Dh(Priv(h.keys[i-1]), Pub(h.keys[i])));
        assert h.roots[i-1] == NextRoot(h.roots[i-2], Dh(Priv(h.keys[i-2]), Pub(h.keys[i-1])));
        assert h.roots[i-2] in h.roots;
      } else if i == 1 {
        assert h.roots[1] == NextRoot(h.roots[0], Dh(Priv(h.keys[0]), Pub(h.keys[1])));
      }
    }
  }

  /** A record whose root key has left the conversation never finds back, whatever it receives. */
  lemma StaysAstray(h: Hist, t: Session, hd: Header, ct: Box, newKey: nat)
    requires WellFormed(h) && h.roots[0].SharedSecret? && Astray(h, t)
    ensures Astray(h, Receive(t, hd, ct, newKey).0)
  {
    if Skips(t) {
      SaveUpToEffect(t, hd.n);
      SaveUpToEffect(t, hd.pn);
    }
    if t.theirRatchetPublic != Some(hd.rk) && !SkipRefused(t, hd.pn) {
      var v := Skip(t, hd.pn);
      OffForGood(h, t.rootKey, Dh(v.ourRatchetPrivate, hd.rk), Dh(Priv(newKey), hd.rk));
      SaveUpToEffect(DhRatchet(v, hd.rk, newKey), hd.n);
    }
  }

  lemma RatchetLost(h: Hist, t: Session, start: map<SkipKey, MessageKey>, rk: PublicKey, newKey: nat)
    requires WellFormed(h) && h.roots[0].SharedSecret? && Lost(h, t) && OnlyOldKeys(h, start, t.skipped)
    ensures var u := DhRatchet(t, rk, newKey); Lost(h, u) && OnlyOldKeys(h, start, u.skipped)
  {
    OffForGood(h, t.rootKey, Dh(t.ourRatchetPrivate, rk), Dh(Priv(newKey), rk));
    forall i: nat | Chain(h, i)
      ensures Seed(h, i) != ChainSeed(t.rootKey, Dh(t.ourRatchetPrivate, rk))
    {
      assert h.roots[i-1] in h.roots;
    }
  }

  /** Whatever arrives, under any header and with any box: a lost record stays lost, it saves no key of the
      conversation, and it opens nothing of it but with a key saved before it was lost. */
  lemma StaysLost(h: Hist, t: Session, start: map<SkipKey, MessageKey>, hd: Header, ct: Box, newKey: nat)
    requires WellFormed(h) && h.roots[0].SharedSecret? && Lost(h, t) && OnlyOldKeys(h, start, t.skipped)
    ensures var (u, o) := Receive(t, hd, ct, newKey);
            && Lost(h, u) && OnlyOldKeys(h, start, u.skipped)
            && (o.Opened? ==> ct.key in start.Values || StrayChain(h, ct.key.chain))
  {
    if t.theirRatchetPublic == Some(hd.rk) {
      TakeLost(h, t, start, hd, ct);
    } else if !SkipRefused(t, hd.pn) {
      SkipLost(h, t, start, hd.pn);
      var v := Skip(t, hd.pn);
      RatchetLost(h, v, start, hd.rk, newKey);
      TakeLost(h, DhRatchet(v, hd.rk, newKey), start, hd, ct);
    }
  }

  // ── Runs of a lost record ──

  datatype Arrival = Arrival(hd: Header, ct: Box, newKey: nat)

  /** The stored record after any arrivals, over a store that copies or one that does not. */
  function After(t: Session, ms: seq<Arrival>, copying: bool): Session {
    if ms == [] then t
    else
      var s, m := After(t, ms[..|ms| - 1], copying), ms[|ms| - 1];
      var (u, o) := Receive(s, m.hd, m.ct, m.newKey);
      if copying && !Stores(o) then s else u
  }

  lemma {:induction false} LostForGood(h: Hist, t: Session, ms: seq<Arrival>, copying: bool)
    requires WellFormed(h) && h.roots[0].SharedSecret? && Lost(h, t)
    ensures Lost(h, After(t, ms, copying)) && OnlyOldKeys(h, t.skipped, After(t, ms, copying).skipped)
  {
    if ms != [] {
      var m := ms[|ms| - 1];
      LostForGood(h, t, ms[..|ms| - 1], copying);
      StaysLost(h, After(t, ms[..|ms| - 1], copying), t.skipped, m.hd, m.ct, m.newKey);
    }
  }

  /** After any arrivals, a message of the conversation opens in a lost record only if its key was saved before. */
  lemma LostOpensNothing(h: Hist, t: Session, ms: seq<Arrival>, copying: bool, i: nat, n: nat, hd: Header,
                         plain: Plaintext, newKey: nat)
    requires WellFormed(h) && h.roots[0].SharedSecret? && Lost(h, t) && Chain(h, i)
    requires Receive(After(t, ms, copying), hd, Box(KeyAt(h, i, n), plain), newKey).1.Opened?
    ensures KeyAt(h, i, n) in t.skipped.Values
  {
    LostForGood(h, t, ms, copying);
    StaysLost(h, After(t, ms, copying), t.skipped, hd, Box(KeyAt(h, i, n), plain), newKey);
    if StrayChain(h, KeyAt(h, i, n).chain) {
      StrayKey(h, KeyAt(h, i, n).chain, i, n);
    }
  }

  lemma LateChainIsStray(h: Hist, e: nat, j: nat)
    requires WellFormed(h) && Chain(h, e) && j < e
    ensures StrayChain(h, ChainSeed(h.roots[e], Dh(Priv(h.keys[e]), Pub(h.keys[j]))))
  {
    forall i: nat | Chain(h, i)
      ensures Seed(h, i) != ChainSeed(h.roots[e], Dh(Priv(h.keys[e]), Pub(h.keys[j])))
    {
      RootDepth(h, e);
      RootDepth(h, i - 1);
    }
  }

  lemma TakeSeed(u: Session, hd: Header, ct: Box, c: ChainKey)
    requires u.recvChainKey == Some(c) && u.theirRatchetPublic.Some?
    ensures var t := Take(u, hd, ct).0; t.recvChainKey.Some? && SeedOf(t.recvChainKey.value) == SeedOf(c)
  {
    SaveUpToEffect(u, hd.n);
    var gap: nat := if u.recvCount < hd.n then hd.n - u.recvCount else 0;
    AdvanceShape(c, gap);
  }

  /** A late message that is stored leaves a lost record. */
  lemma LateLoses(h: Hist, e: nat, s: Session, got: set<Slot>, j: nat, n: nat, plain: Plaintext, newKey: nat)
    requires PartyInv(h, e, s, got) && Receives(e, j) && j < e - 1 && n < h.cnt[j]
    requires Stores(Receive(s, HeaderAt(h, j, n), Box(KeyAt(h, j, n), plain), newKey).1)
    ensures Lost(h, Receive(s, HeaderAt(h, j, n), Box(KeyAt(h, j, n), plain), newKey).0)
  {
    var hd, ct := HeaderAt(h, j, n), Box(KeyAt(h, j, n), plain);
    LateMessageLosesSession(h, e, s, got, j, n, plain, newKey);
    SaveUpToEffect(s, hd.pn);
    var u := DhRatchet(Skip(s, hd.pn), hd.rk, newKey);
    LateChainIsStray(h, e, j);
    TakeSeed(u, hd, ct, u.recvChainKey.value);
    assert h.keys[j] != h.keys[e-1];
  }

  /** Whatever the conversation grows into and whatever arrives afterwards: once a late message has been stored, a
      message of the conversation opens only with a key that was in the record by then. */
  lemma NothingAfterLateMessage(h: Hist, g: Hist, e: nat, s: Session, got: set<Slot>, j: nat, n: nat, plain: Plaintext,
                                newKey: nat,
                                ms: seq<Arrival>, copying: bool, i: nat, m: nat, hd: Header, text: Plaintext, k: nat)
    requires PartyInv(h, e, s, got) && Receives(e, j) && j < e - 1 && n < h.cnt[j]
    requires Grows(h, g, e) && g.roots[0].SharedSecret? && Chain(g, i)
    requires Stores(Receive(s, HeaderAt(h, j, n), Box(KeyAt(h, j, n), plain), newKey).1)
    requires var t := Receive(s, HeaderAt(h, j, n), Box(KeyAt(h, j, n), plain), newKey).0;
             Receive(After(t, ms, copying), hd, Box(KeyAt(g, i, m), text), k).1.Opened?
    ensures KeyAt(g, i, m) in Receive(s, HeaderAt(h, j, n), Box(KeyAt(h, j, n), plain), newKey).0.skipped.Values
  {
    Frame(h, g, e, s, got);
    assert HeaderAt(g, j, n) == HeaderAt(h, j, n) && KeyAt(g, j, n) == KeyAt(h, j, n);
    LateLoses(g, e, s, got, j, n, plain, newKey);
    LostOpensNothing(g, Receive(s, HeaderAt(h, j, n), Box(KeyAt(h, j, n), plain), newKey).0, ms, copying, i, m, hd,
                     text, k);
  }

  // ── A box under an unknown ratchet key ──

  /** A header under a ratchet key that is none of the conversation's: the record is stored exactly when neither
      number is too far ahead, whatever the box, and what is stored is lost. */
  lemma UnknownKeyExactly(h: Hist, e: nat, s: Session, got: set<Slot>, hd: Header, ct: Box, newKey: nat)
    requires PartyInv(h, e, s, got) && hd.rk.id !in h.keys
    ensures var (t, o) := Receive(s, hd, ct, newKey);
            && (Stores(o) <==> (e >= 2 ==> hd.pn <= s.recvCount + MAX_SKIP) && hd.n <= MAX_SKIP)
            && (Stores(o) ==> Lost(h, t))
  {
    StoredExactly(s, hd, ct, newKey);
    assert h.keys[e-1] in h.keys;
    UnknownNotSaved(h, e, s, got, SkipKey(hd.rk, hd.n));
    if Stores(Receive(s, hd, ct, newKey).1) {
      UnknownLoses(h, e, s, hd, ct, newKey);
    }
  }

  lemma UnknownLoses(h: Hist, e: nat, s: Session, hd: Header, ct: Box, newKey: nat)
    requires WellFormed(h) && InStep(h, e, s) && hd.rk.id !in h.keys && Stores(Receive(s, hd, ct, newKey).1)
    ensures Lost(h, Receive(s, hd, ct, newKey).0)
  {
    assert h.keys[e-1] in h.keys;
    if Skips(s) {
      SaveUpToEffect(s, hd.pn);
    }
    var u := DhRatchet(Skip(s, hd.pn), hd.rk, newKey);
    UnknownChainIsStray(h, e, hd.rk.id);
    UnknownRoot(h, e, hd.rk.id, newKey);
    TakeSeed(u, hd, ct, u.recvChainKey.value);
    TakeKeeps(u, hd, ct);
  }

  lemma UnknownNotSaved(h: Hist, e: nat, s: Session, got: set<Slot>, k: SkipKey)
    requires PartyInv(h, e, s, got) && k.rk.id !in h.keys
    ensures k !in s.skipped
  {
    assert forall j: nat :: j < |h.keys| ==> h.keys[j] != k.rk.id;
    assert forall j: nat, mk :: !SavedAs(h, e, s.recvCount, got, k, mk, j);
  }

  lemma UnknownChainIsStray(h: Hist, e: nat, x: nat)
    requires WellFormed(h) && Chain(h, e) && x !in h.keys
    ensures StrayChain(h, ChainSeed(h.roots[e], Dh(Priv(h.keys[e]), Pub(x))))
  {
    forall i: nat | Chain(h, i)
      ensures Seed(h, i) != ChainSeed(h.roots[e], Dh(Priv(h.keys[e]), Pub(x)))
    {
      assert h.keys[i-1] in h.keys && h.keys[i] in h.keys;
    }
  }

  lemma UnknownRoot(h: Hist, e: nat, x: nat, newKey: nat)
    requires WellFormed(h) && Chain(h, e) && x !in h.keys
    ensures NextRoot(NextRoot(h.roots[e], Dh(Priv(h.keys[e]), Pub(x))), Dh(Priv(newKey), Pub(x))) !in h.roots
  {
    forall i: nat | i < |h.roots|
      ensures h.roots[i] != NextRoot(NextRoot(h.roots[e], Dh(Priv(h.keys[e]), Pub(x))), Dh(Priv(newKey), Pub(x)))
    {
      RootDepth(h, i);
      RootDepth(h, e);
      if i == e + 2 {
        assert h.roots[i] == NextRoot(h.roots[i-1], Dh(Priv(h.keys[i-1]), Pub(h.keys[i])));
        assert h.keys[i-1] in h.keys && h.keys[i] in h.keys;
      }
    }
  }
}
