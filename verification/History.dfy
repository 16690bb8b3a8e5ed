/** The shared history of a conversation and what one party's session has to do with it.

    The two parties ratchet in turn, so all their ratchet keys form one sequence: `keys[0]` is the
    responder's signed pre-key, `keys[1]` the initiator's first ratchet key, and so on alternately.
    Chain `i` is the sending chain of the owner of `keys[i]`; odd chains run from the initiator. */
module History {
  import opened Crypto
  import opened Ratchet

  datatype Hist = Hist(keys: seq<nat>, roots: seq<RootKey>, cnt: seq<nat>)

  /** Message `n` of chain `chain`. */
  datatype Slot = Slot(chain: nat, n: nat)

  ghost predicate WellFormed(h: Hist) {
    && |h.keys| == |h.roots| == |h.cnt| >= 2
    && (forall i, j :: 0 <= i < j < |h.keys| ==> h.keys[i] != h.keys[j])
    && (forall i :: 1 <= i < |h.roots| ==> h.roots[i] == NextRoot(h.roots[i-1], Dh(Priv(h.keys[i-1]), Pub(h.keys[i]))))
  }

  ghost predicate Chain(h: Hist, i: nat) {
    1 <= i < |h.keys| == |h.roots| == |h.cnt|
  }

  ghost function Seed(h: Hist, i: nat): ChainKey
    requires Chain(h, i)
  {
    ChainSeed(h.roots[i-1], Dh(Priv(h.keys[i-1]), Pub(h.keys[i])))
  }

  /** The message key of slot `(i, n)`. */
  ghost function KeyAt(h: Hist, i: nat, n: nat): MessageKey
    requires Chain(h, i)
  {
    MessageKey(Advance(Seed(h, i), n))
  }

  /** The length of the sender's previous chain, announced in every header of chain `i`. */
  ghost function Announced(h: Hist, i: nat): nat
    requires i < |h.cnt|
  {
    if i >= 3 then h.cnt[i-2] else 0
  }

  ghost function HeaderAt(h: Hist, i: nat, n: nat): Header
    requires Chain(h, i)
  {
    Header(Pub(h.keys[i]), n, Announced(h, i))
  }

  function Extend(h: Hist, k: nat): Hist
    requires |h.keys| == |h.roots| >= 1
  {
    var last := |h.keys| - 1;
    Hist(h.keys + [k], h.roots + [NextRoot(h.roots[last], Dh(Priv(h.keys[last]), Pub(k)))], h.cnt + [0])
  }

  // ── One party ──

  /** The chains a party whose sending chain is `e` has received on so far. */
  ghost predicate Receives(e: nat, j: nat) {
    1 <= j < e && (e - 1 - j) % 2 == 0
  }

  /** How far chain `j` has been worked through: to `recvCount` for the current one, to its announced
      length for a superseded one. */
  ghost function Frontier(h: Hist, e: nat, recvCount: int, j: nat): int
    requires j < |h.cnt|
  {
    if j == e - 1 then recvCount else h.cnt[j]
  }

  ghost predicate SavedAs(h: Hist, e: nat, recvCount: int, got: set<Slot>, k: SkipKey, mk: MessageKey, j: nat) {
    && Chain(h, j) && Receives(e, j)
    && k.rk == Pub(h.keys[j])
    && 0 <= k.n < Frontier(h, e, recvCount, j)
    && Slot(j, k.n) !in got
    && mk == KeyAt(h, j, k.n)
  }

  ghost predicate Consumed(h: Hist, e: nat, recvCount: int, got: set<Slot>)
    requires e < |h.cnt|
  {
    forall sl :: sl in got ==> Receives(e, sl.chain) && sl.n < Frontier(h, e, recvCount, sl.chain)
  }

  ghost predicate RightlySaved(h: Hist, e: nat, recvCount: int, skipped: map<SkipKey, MessageKey>, got: set<Slot>) {
    forall k :: k in skipped ==> exists j: nat :: SavedAs(h, e, recvCount, got, k, skipped[k], j)
  }

  ghost predicate AllSaved(h: Hist, e: nat, recvCount: int, skipped: map<SkipKey, MessageKey>, got: set<Slot>)
    requires e < |h.keys| == |h.cnt|
  {
    forall j: nat, n: nat {:trigger Slot(j, n)} ::
      Receives(e, j) && n < Frontier(h, e, recvCount, j) && Slot(j, n) !in got ==> SkipKey(Pub(h.keys[j]), n) in skipped
  }

  /** The indices below the frontier of every chain seen split exactly into consumed ones (`got`)
      and ones whose key, the right one, is in `skipped`. */
  ghost predicate Ledger(h: Hist, e: nat, recvCount: int, skipped: map<SkipKey, MessageKey>, got: set<Slot>)
    requires e < |h.keys| == |h.roots| == |h.cnt|
  {
    Consumed(h, e, recvCount, got) && RightlySaved(h, e, recvCount, skipped, got)
    && AllSaved(h, e, recvCount, skipped, got)
  }

  /** A session is in step with the history at epoch `e`: it sends on chain `e` and receives on chain `e - 1`. */
  ghost predicate InStep(h: Hist, e: nat, s: Session) {
    && Chain(h, e)
    && s.rootKey == h.roots[e]
    && s.ourRatchetPublic == Pub(h.keys[e]) && s.ourRatchetPrivate == Priv(h.keys[e])
    && s.theirRatchetPublic == Some(Pub(h.keys[e-1]))
    && s.sendCount == h.cnt[e] && s.sendChainKey == Some(Advance(Seed(h, e), h.cnt[e]))
    && s.prevSendCount == Announced(h, e)
    && if e == 1 then s.recvChainKey == None && s.recvCount == 0
       else 0 <= s.recvCount <= h.cnt[e-1] && s.recvChainKey == Some(Advance(Seed(h, e-1), s.recvCount))
  }

  ghost predicate PartyInv(h: Hist, e: nat, s: Session, got: set<Slot>) {
    WellFormed(h) && InStep(h, e, s) && Ledger(h, e, s.recvCount, s.skipped, got)
  }

  /** What the other party may do to the history: grow the chain we receive on, and add chains. */
  ghost predicate Grows(h: Hist, g: Hist, e: nat) {
    && WellFormed(g)
    && |h.keys| == |h.roots| == |h.cnt| <= |g.keys|
    && 1 <= e < |h.keys|
    && (forall i :: 0 <= i < |h.keys| ==> g.keys[i] == h.keys[i] && g.roots[i] == h.roots[i])
    && (forall i :: 0 <= i <= e && i != e - 1 ==> g.cnt[i] == h.cnt[i])
    && g.cnt[e-1] >= h.cnt[e-1]
  }

  /** The ledger depends only on the chains received on, and on the lengths of the superseded ones. */
  lemma LedgerFrame(h: Hist, g: Hist, e: nat, rc: int, skipped: map<SkipKey, MessageKey>, got: set<Slot>)
    requires 1 <= e < |h.keys| == |h.roots| == |h.cnt| <= |g.keys| == |g.roots| == |g.cnt|
    requires forall i :: 0 <= i < e ==> g.keys[i] == h.keys[i] && g.roots[i] == h.roots[i]
    requires forall i :: 0 <= i < e - 1 ==> g.cnt[i] == h.cnt[i]
    requires Ledger(h, e, rc, skipped, got)
    ensures Ledger(g, e, rc, skipped, got)
  {
    forall k | k in skipped
      ensures exists j: nat :: SavedAs(g, e, rc, got, k, skipped[k], j)
    {
      var j: nat :| SavedAs(h, e, rc, got, k, skipped[k], j);
      assert Seed(g, j) == Seed(h, j);
      assert SavedAs(g, e, rc, got, k, skipped[k], j);
    }
  }

  lemma Frame(h: Hist, g: Hist, e: nat, s: Session, got: set<Slot>)
    requires PartyInv(h, e, s, got) && Grows(h, g, e)
    ensures PartyInv(g, e, s, got)
  {
    LedgerFrame(h, g, e, s.recvCount, s.skipped, got);
  }

  lemma ExtendWellFormed(h: Hist, k: nat)
    requires WellFormed(h) && k !in h.keys
    ensures WellFormed(Extend(h, k))
  {
  }

  // ── What receiving does ──

  /** Saving keys up to `target` on the current chain. */
  lemma SkipKeeps(h: Hist, e: nat, s: Session, got: set<Slot>, target: nat)
    requires PartyInv(h, e, s, got)
    requires e >= 2 && s.recvCount <= target <= h.cnt[e-1]
    ensures var t := Skip(s, target);
            t.recvCount == target && t == s.(skipped := t.skipped, recvChainKey := t.recvChainKey, recvCount := target)
            && PartyInv(h, e, t, got)
  {
    SkipShape(h, e, s, target);
    SkipLedger(h, e, s.recvCount, s.skipped, got, target, Skip(s, target).skipped);
  }

  lemma SkipShape(h: Hist, e: nat, s: Session, target: nat)
    requires InStep(h, e, s) && e >= 2 && s.recvCount <= target
    ensures var t := Skip(s, target);
            && t == s.(skipped := t.skipped, recvChainKey := Some(Advance(Seed(h, e-1), target)), recvCount := target)
            && (forall k :: k in t.skipped <==>
                              (k in s.skipped || (k.rk == Pub(h.keys[e-1]) && s.recvCount <= k.n < target)))
            && (forall k :: k in t.skipped ==>
                  t.skipped[k] == if k.rk == Pub(h.keys[e-1]) && s.recvCount <= k.n < target
                  then KeyAt(h, e-1, k.n) else s.skipped[k])
  {
    SaveUpToEffect(s, target);
    AdvanceAdd(Seed(h, e-1), s.recvCount, target - s.recvCount);
    forall k | InRange(s, target, k)
      ensures Advance(s.recvChainKey.value, k.n - s.recvCount) == Advance(Seed(h, e-1), k.n)
    {
      AdvanceAdd(Seed(h, e-1), s.recvCount, k.n - s.recvCount);
    }
  }

  /** The ledger with the keys of the current chain from `rc` to `target` saved. */
  lemma SkipLedger(h: Hist, e: nat, rc: int, skipped: map<SkipKey, MessageKey>, got: set<Slot>, target: nat,
                   more: map<SkipKey, MessageKey>)
    requires 2 <= e < |h.keys| == |h.roots| == |h.cnt| && 0 <= rc <= target && Ledger(h, e, rc, skipped, got)
    requires forall k :: k in more <==> k in skipped || (k.rk == Pub(h.keys[e-1]) && rc <= k.n < target)
    requires forall k :: k in more ==>
               more[k] == if k.rk == Pub(h.keys[e-1]) && rc <= k.n < target then KeyAt(h, e-1, k.n) else skipped[k]
    ensures Ledger(h, e, target, more, got)
  {
    forall k | k in more
      ensures exists j: nat :: SavedAs(h, e, target, got, k, more[k], j)
    {
      if k.rk == Pub(h.keys[e-1]) && rc <= k.n < target {
        assert Slot(e-1, k.n) !in got;
        assert SavedAs(h, e, target, got, k, more[k], e-1);
      } else {
        var j: nat :| SavedAs(h, e, rc, got, k, skipped[k], j);
        assert SavedAs(h, e, target, got, k, more[k], j);
      }
    }
    forall j: nat, n: nat | Receives(e, j) && n < Frontier(h, e, target, j) && Slot(j, n) !in got
      ensures SkipKey(Pub(h.keys[j]), n) in more
    {
      if !(j == e - 1 && n >= rc) {
        assert n < Frontier(h, e, rc, j);
      }
    }
  }

  /** Consuming a message whose key was saved. */
  lemma TakeSaved(h: Hist, e: nat, s: Session, got: set<Slot>, n: nat)
    requires PartyInv(h, e, s, got)
    requires e >= 2 && n < s.recvCount && Slot(e-1, n) !in got
    ensures var k := SkipKey(Pub(h.keys[e-1]), n);
            k in s.skipped && s.skipped[k] == KeyAt(h, e-1, n)
            && PartyInv(h, e, s.(skipped := s.skipped - {k}), got + {Slot(e-1, n)})
  {
    SavedFor(h, e, s.recvCount, s.skipped, got, n);
    TakeLedger(h, e, s.recvCount, s.skipped, got, n);
  }

  lemma SavedFor(h: Hist, e: nat, rc: int, skipped: map<SkipKey, MessageKey>, got: set<Slot>, n: nat)
    requires WellFormed(h) && 2 <= e < |h.keys| && Ledger(h, e, rc, skipped, got) && n < rc && Slot(e-1, n) !in got
    ensures var k := SkipKey(Pub(h.keys[e-1]), n); k in skipped && skipped[k] == KeyAt(h, e-1, n)
  {
    var k := SkipKey(Pub(h.keys[e-1]), n);
    assert Receives(e, e-1);
    assert k in skipped;
    var j: nat :| SavedAs(h, e, rc, got, k, skipped[k], j);
    assert j == e - 1;
  }

  lemma TakeLedger(h: Hist, e: nat, rc: int, skipped: map<SkipKey, MessageKey>, got: set<Slot>, n: nat)
    requires WellFormed(h) && 2 <= e < |h.keys| && Ledger(h, e, rc, skipped, got) && n < rc
    ensures Ledger(h, e, rc, skipped - {SkipKey(Pub(h.keys[e-1]), n)}, got + {Slot(e-1, n)})
  {
    assert Receives(e, e-1);
    OthersRight(h, e, rc, skipped, got, n);
    OthersSaved(h, e, rc, skipped, got, n);
  }

  lemma OthersRight(h: Hist, e: nat, rc: int, skipped: map<SkipKey, MessageKey>, got: set<Slot>, n: nat)
    requires WellFormed(h) && 2 <= e < |h.keys| && RightlySaved(h, e, rc, skipped, got)
    ensures RightlySaved(h, e, rc, skipped - {SkipKey(Pub(h.keys[e-1]), n)}, got + {Slot(e-1, n)})
  {
    var rest, more := skipped - {SkipKey(Pub(h.keys[e-1]), n)}, got + {Slot(e-1, n)};
    forall q | q in rest
      ensures exists j: nat :: SavedAs(h, e, rc, more, q, rest[q], j)
    {
      var j: nat :| SavedAs(h, e, rc, got, q, skipped[q], j);
      assert SavedAs(h, e, rc, more, q, rest[q], j);
    }
  }

  lemma OthersSaved(h: Hist, e: nat, rc: int, skipped: map<SkipKey, MessageKey>, got: set<Slot>, n: nat)
    requires WellFormed(h) && 2 <= e < |h.keys| && AllSaved(h, e, rc, skipped, got)
    ensures AllSaved(h, e, rc, skipped - {SkipKey(Pub(h.keys[e-1]), n)}, got + {Slot(e-1, n)})
  {
    forall j: nat, m: nat | Receives(e, j) && m < Frontier(h, e, rc, j) && Slot(j, m) !in got + {Slot(e-1, n)}
      ensures SkipKey(Pub(h.keys[j]), m) in skipped - {SkipKey(Pub(h.keys[e-1]), n)}
    {
      assert SkipKey(Pub(h.keys[j]), m) in skipped;
    }
  }

  /** Consuming the message the chain stands at. */
  lemma TakeNext(h: Hist, e: nat, s: Session, got: set<Slot>)
    requires PartyInv(h, e, s, got)
    requires e >= 2 && s.recvCount < h.cnt[e-1]
    ensures var next := Some(NextChain(s.recvChainKey.value));
            KdfChainKey(s.recvChainKey.value).0 == KeyAt(h, e-1, s.recvCount)
            && PartyInv(h, e, s.(recvChainKey := next, recvCount := s.recvCount + 1), got + {Slot(e-1, s.recvCount)})
  {
    NextLedger(h, e, s.recvCount, s.skipped, got);
  }

  lemma NextLedger(h: Hist, e: nat, rc: nat, skipped: map<SkipKey, MessageKey>, got: set<Slot>)
    requires WellFormed(h) && 2 <= e < |h.keys| && Ledger(h, e, rc, skipped, got)
    ensures Ledger(h, e, rc + 1, skipped, got + {Slot(e-1, rc)})
  {
    assert Receives(e, e-1);
    NextRight(h, e, rc, skipped, got);
    NextAllSaved(h, e, rc, skipped, got);
  }

  lemma NextRight(h: Hist, e: nat, rc: nat, skipped: map<SkipKey, MessageKey>, got: set<Slot>)
    requires WellFormed(h) && 2 <= e < |h.keys| && RightlySaved(h, e, rc, skipped, got)
    ensures RightlySaved(h, e, rc + 1, skipped, got + {Slot(e-1, rc)})
  {
    var rc1, more := rc + 1, got + {Slot(e-1, rc)};
    forall q | q in skipped
      ensures exists j: nat :: SavedAs(h, e, rc1, more, q, skipped[q], j)
    {
      var j: nat :| SavedAs(h, e, rc, got, q, skipped[q], j);
      assert SavedAs(h, e, rc1, more, q, skipped[q], j);
    }
  }

  lemma NextAllSaved(h: Hist, e: nat, rc: nat, skipped: map<SkipKey, MessageKey>, got: set<Slot>)
    requires WellFormed(h) && 2 <= e < |h.keys| && AllSaved(h, e, rc, skipped, got)
    ensures AllSaved(h, e, rc + 1, skipped, got + {Slot(e-1, rc)})
  {
  }

  lemma ReceivesTwoOn(e: nat, f: nat, j: nat)
    requires f == e + 2
    ensures Receives(f, j) <==> Receives(e, j) || (j == e + 1 && j >= 1)
  {
    assert f - 1 - j == e - 1 - j + 2;
  }

  lemma LedgerRatchets(h: Hist, e: nat, rc: int, skipped: map<SkipKey, MessageKey>, got: set<Slot>, k: nat)
    requires WellFormed(h) && 1 <= e && |h.keys| == e + 2
    requires e >= 2 ==> rc == h.cnt[e-1]
    requires Ledger(h, e, rc, skipped, got)
    ensures Ledger(Extend(h, k), e + 2, 0, skipped, got)
  {
    RightlyRatchets(h, e, rc, skipped, got, k);
    SavedRatchets(h, e, rc, skipped, got, k);
    forall sl | sl in got
      ensures Receives(e + 2, sl.chain) && sl.n < Frontier(Extend(h, k), e + 2, 0, sl.chain)
    {
      ReceivesTwoOn(e, e + 2, sl.chain);
    }
  }

  lemma RightlyRatchets(h: Hist, e: nat, rc: int, skipped: map<SkipKey, MessageKey>, got: set<Slot>, k: nat)
    requires WellFormed(h) && 1 <= e && |h.keys| == e + 2 && (e >= 2 ==> rc == h.cnt[e-1])
    requires RightlySaved(h, e, rc, skipped, got)
    ensures RightlySaved(Extend(h, k), e + 2, 0, skipped, got)
  {
    var g, f, d := Extend(h, k), e + 2, 0;
    forall q | q in skipped
      ensures exists j: nat :: SavedAs(g, f, d, got, q, skipped[q], j)
    {
      var j: nat :| SavedAs(h, e, rc, got, q, skipped[q], j);
      SavedRatchet(h, e, rc, got, q, skipped[q], j, k);
    }
  }

  lemma SavedRatchet(h: Hist, e: nat, rc: int, got: set<Slot>, q: SkipKey, mk: MessageKey, j: nat, k: nat)
    requires |h.keys| == |h.roots| == |h.cnt| == e + 2 && 1 <= e && (e >= 2 ==> rc == h.cnt[e-1])
    requires SavedAs(h, e, rc, got, q, mk, j)
    ensures SavedAs(Extend(h, k), e + 2, 0, got, q, mk, j)
  {
    ReceivesTwoOn(e, e + 2, j);
    assert Seed(Extend(h, k), j) == Seed(h, j);
  }

  lemma SavedRatchets(h: Hist, e: nat, rc: int, skipped: map<SkipKey, MessageKey>, got: set<Slot>, k: nat)
    requires WellFormed(h) && 1 <= e && |h.keys| == e + 2 && (e >= 2 ==> rc == h.cnt[e-1])
    requires AllSaved(h, e, rc, skipped, got)
    ensures AllSaved(Extend(h, k), e + 2, 0, skipped, got)
  {
    var g, f := Extend(h, k), e + 2;
    forall j: nat, n: nat | Receives(f, j) && n < Frontier(g, f, 0, j) && Slot(j, n) !in got
      ensures SkipKey(Pub(g.keys[j]), n) in skipped
    {
      ReceivesTwoOn(e, f, j);
      assert n < Frontier(h, e, rc, j);
    }
  }

  /** The Diffie-Hellman step onto the peer's next chain, once the current one has been worked through. */
  lemma RatchetKeeps(h: Hist, e: nat, s: Session, got: set<Slot>, k: nat)
    requires PartyInv(h, e, s, got)
    requires |h.keys| == e + 2 && k !in h.keys
    requires e >= 2 ==> s.recvCount == h.cnt[e-1]
    ensures PartyInv(Extend(h, k), e + 2, DhRatchet(s, Pub(h.keys[e+1]), k), got)
    ensures DhRatchet(s, Pub(h.keys[e+1]), k).recvCount == 0
  {
    ExtendWellFormed(h, k);
    LedgerRatchets(h, e, s.recvCount, s.skipped, got, k);
    RatchetInStep(h, e, s, k);
  }

  lemma RatchetInStep(h: Hist, e: nat, s: Session, k: nat)
    requires WellFormed(h) && InStep(h, e, s)
    requires |h.keys| == e + 2
    ensures InStep(Extend(h, k), e + 2, DhRatchet(s, Pub(h.keys[e+1]), k))
  {
    var g := Extend(h, k);
    assert g.roots[e+2] == NextRoot(h.roots[e+1], Dh(Priv(k), Pub(h.keys[e+1])));
    assert Seed(g, e+1) == ChainSeed(h.roots[e], Dh(Priv(h.keys[e]), Pub(h.keys[e+1])));
    assert Advance(Seed(g, e+2), 0) == Seed(g, e+2);
    assert Advance(Seed(g, e+1), 0) == Seed(g, e+1);
  }

  /** Saved keys carry the key of a chain received on: nothing is saved for any other ratchet key. */
  lemma NotSaved(h: Hist, e: nat, s: Session, got: set<Slot>, i: nat, n: int)
    requires PartyInv(h, e, s, got)
    requires i < |h.keys| && ((i == e - 1 && n >= s.recvCount) || i >= e)
    ensures SkipKey(Pub(h.keys[i]), n) !in s.skipped
  {
    var k := SkipKey(Pub(h.keys[i]), n);
    assert forall j: nat, mk :: !SavedAs(h, e, s.recvCount, got, k, mk, j);
  }

  /** Receiving message `n` of the current chain, not consumed before. */
  lemma ReceiveCurrent(h: Hist, e: nat, s: Session, got: set<Slot>, n: nat, pn: int, plain: Plaintext, newKey: nat)
    requires PartyInv(h, e, s, got)
    requires e >= 2 && n < h.cnt[e-1] && Slot(e-1, n) !in got
    ensures var (t, o) := Receive(s, Header(Pub(h.keys[e-1]), n, pn), Box(KeyAt(h, e-1, n), plain), newKey);
            if n > s.recvCount + MAX_SKIP then o == Failed(TooManySkipped)
            else o == Opened(plain) && PartyInv(h, e, t, got + {Slot(e-1, n)})
                 && t.isInitiator == s.isInitiator && t.pendingPreKeyMsg == s.pendingPreKeyMsg
  {
    if n < s.recvCount {
      TakeSaved(h, e, s, got, n);
    } else {
      NotSaved(h, e, s, got, e - 1, n);
      if n <= s.recvCount + MAX_SKIP {
        SkipKeeps(h, e, s, got, n);
        TakeNext(h, e, Skip(s, n), got);
      }
    }
  }

  /** Receiving message `n` of the peer's next chain: the ratchet step, then the message. */
  lemma ReceiveNext(h: Hist, e: nat, s: Session, got: set<Slot>, n: nat, plain: Plaintext, newKey: nat)
    requires PartyInv(h, e, s, got)
    requires |h.keys| == e + 2 && newKey !in h.keys && n < h.cnt[e+1]
    ensures var (t, o) := Receive(s, HeaderAt(h, e+1, n), Box(KeyAt(h, e+1, n), plain), newKey);
            if (e >= 2 && Announced(h, e+1) > s.recvCount + MAX_SKIP) || n > MAX_SKIP then o == Failed(TooManySkipped)
            else o == Opened(plain) && PartyInv(Extend(h, newKey), e + 2, t, got + {Slot(e+1, n)})
                 && t.isInitiator == s.isInitiator && t.pendingPreKeyMsg == s.pendingPreKeyMsg
  {
    assert h.keys[e+1] != h.keys[e-1];
    if !(e >= 2 && Announced(h, e+1) > s.recvCount + MAX_SKIP) {
      MovesOn(h, e, s, got, newKey);
      var g, v := Extend(h, newKey), DhRatchet(Skip(s, Announced(h, e+1)), Pub(h.keys[e+1]), newKey);
      assert Slot(e+1, n) !in got;
      assert Seed(g, e+1) == Seed(h, e+1);
      ReceiveCurrent(g, e + 2, v, got, n, Announced(h, e+1), plain, newKey);
    }
  }

  /** The rest of the current chain saved, and the ratchet step onto the peer's next chain. */
  lemma MovesOn(h: Hist, e: nat, s: Session, got: set<Slot>, newKey: nat)
    requires PartyInv(h, e, s, got)
    requires |h.keys| == e + 2 && newKey !in h.keys
    ensures var v := DhRatchet(Skip(s, Announced(h, e+1)), Pub(h.keys[e+1]), newKey);
            && PartyInv(Extend(h, newKey), e + 2, v, got) && v.recvCount == 0
            && v.isInitiator == s.isInitiator && v.pendingPreKeyMsg == s.pendingPreKeyMsg
  {
    if e >= 2 {
      SkipKeeps(h, e, s, got, h.cnt[e-1]);
    }
    RatchetKeeps(h, e, Skip(s, Announced(h, e+1)), got, newKey);
  }
}
