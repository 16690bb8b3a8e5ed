/** Reordering inside a chain does not matter: the order in which a set of messages of the current
    receiving chain arrives leaves no trace in the session. */
module Confluence {
  import opened Crypto
  import opened Ratchet
  import opened History

  ghost function Arrive(h: Hist, e: nat, s: Session, n: nat, plain: nat -> Plaintext, newKey: nat): (Session, Outcome)
    requires e >= 2 && Chain(h, e)
  {
    Receive(s, HeaderAt(h, e-1, n), Box(KeyAt(h, e-1, n), plain(n)), newKey)
  }

  /** The session after the messages numbered `ns` of the current chain have arrived, in that order. */
  ghost function ArriveAll(h: Hist, e: nat, s: Session, ns: seq<nat>, plain: nat -> Plaintext, newKey: nat): Session
    requires e >= 2 && Chain(h, e)
    decreases |ns|
  {
    if ns == [] then s else ArriveAll(h, e, Arrive(h, e, s, ns[0], plain, newKey).0, ns[1..], plain, newKey)
  }

  /** Each of them comes out as its own plaintext. */
  ghost predicate AllOpen(h: Hist, e: nat, s: Session, ns: seq<nat>, plain: nat -> Plaintext, newKey: nat)
    requires e >= 2 && Chain(h, e)
    decreases |ns|
  {
    ns == [] ||
    (Arrive(h, e, s, ns[0], plain, newKey).1 == Opened(plain(ns[0]))
     && AllOpen(h, e, Arrive(h, e, s, ns[0], plain, newKey).0, ns[1..], plain, newKey))
  }

  ghost predicate Deliverable(h: Hist, e: nat, s: Session, got: set<Slot>, ns: seq<nat>)
    requires e >= 2 && Chain(h, e)
  {
    && (forall n :: n in ns ==> n < h.cnt[e-1] && n <= s.recvCount + MAX_SKIP && Slot(e-1, n) !in got)
    && (forall i, j :: 0 <= i < j < |ns| ==> ns[i] != ns[j])
  }

  ghost function SlotsOf(e: nat, ns: seq<nat>): set<Slot>
    requires e >= 1
  {
    set n | n in ns :: Slot(e-1, n)
  }

  ghost function Top(rc: int, ns: seq<nat>): int
    decreases |ns|
  {
    if ns == [] then rc else Top(if ns[0] >= rc then ns[0] + 1 else rc, ns[1..])
  }

  lemma {:induction false} TopIsMaximum(rc: int, ns: seq<nat>)
    ensures rc <= Top(rc, ns) && (forall n :: n in ns ==> n < Top(rc, ns))
    ensures Top(rc, ns) == rc || exists n :: n in ns && n + 1 == Top(rc, ns)
    decreases |ns|
  {
    if ns != [] {
      assert ns == [ns[0]] + ns[1..];
      assert ns[0] in ns;
      var rc1 := if ns[0] >= rc then ns[0] + 1 else rc;
      TopIsMaximum(rc1, ns[1..]);
      if Top(rc, ns) != rc1 {
        var n :| n in ns[1..] && n + 1 == Top(rc, ns);
        assert n in ns;
      }
    }
  }

  lemma ArriveOne(h: Hist, e: nat, s: Session, got: set<Slot>, n: nat, plain: nat -> Plaintext, newKey: nat)
    requires PartyInv(h, e, s, got) && e >= 2 && n < h.cnt[e-1] && Slot(e-1, n) !in got && n <= s.recvCount + MAX_SKIP
    ensures var (t, o) := Arrive(h, e, s, n, plain, newKey);
            && o == Opened(plain(n)) && PartyInv(h, e, t, got + {Slot(e-1, n)})
            && t.recvCount == (if n >= s.recvCount then n + 1 else s.recvCount)
            && t.isInitiator == s.isInitiator && t.pendingPreKeyMsg == s.pendingPreKeyMsg
  {
    ReceiveCurrent(h, e, s, got, n, Announced(h, e-1), plain(n), newKey);
    if n < s.recvCount {
      TakeSaved(h, e, s, got, n);
    } else {
      NotSaved(h, e, s, got, e-1, n);
    }
  }

  lemma DeliverableRest(h: Hist, e: nat, s: Session, t: Session, got: set<Slot>, ns: seq<nat>)
    requires e >= 2 && Chain(h, e) && ns != [] && Deliverable(h, e, s, got, ns) && t.recvCount >= s.recvCount
    ensures ns[0] in ns && Deliverable(h, e, t, got + {Slot(e-1, ns[0])}, ns[1..])
    ensures got + {Slot(e-1, ns[0])} + SlotsOf(e, ns[1..]) == got + SlotsOf(e, ns)
  {
    assert ns[0] in ns;
    assert forall n :: n in ns <==> n == ns[0] || n in ns[1..];
    assert ns[0] !in ns[1..];
  }

  lemma {:induction false} ArriveAllInv(h: Hist, e: nat, s: Session, got: set<Slot>, ns: seq<nat>,
                                        plain: nat -> Plaintext, newKey: nat)
    requires PartyInv(h, e, s, got) && e >= 2 && Deliverable(h, e, s, got, ns)
    ensures AllOpen(h, e, s, ns, plain, newKey)
    ensures var t := ArriveAll(h, e, s, ns, plain, newKey);
            && PartyInv(h, e, t, got + SlotsOf(e, ns))
            && t.recvCount == Top(s.recvCount, ns)
            && t.isInitiator == s.isInitiator && t.pendingPreKeyMsg == s.pendingPreKeyMsg
    decreases |ns|
  {
    if ns == [] {
      assert got + SlotsOf(e, ns) == got;
    } else {
      var t := Arrive(h, e, s, ns[0], plain, newKey).0;
      var more := got + {Slot(e-1, ns[0])};
      assert ns[0] in ns;
      ArriveOne(h, e, s, got, ns[0], plain, newKey);
      DeliverableRest(h, e, s, t, got, ns);
      ArriveAllInv(h, e, t, more, ns[1..], plain, newKey);
    }
  }

  /** The consumed slots and the frontier determine the saved keys. */
  lemma LedgerDetermines(h: Hist, e: nat, rc: int, a: map<SkipKey, MessageKey>, b: map<SkipKey, MessageKey>,
                         got: set<Slot>)
    requires WellFormed(h) && e < |h.keys|
    requires Ledger(h, e, rc, a, got) && Ledger(h, e, rc, b, got)
    ensures a == b
  {
    forall k | k in a
      ensures k in b && b[k] == a[k]
    {
      SavedOnce(h, e, rc, a, b, got, k);
    }
    forall k | k in b
      ensures k in a
    {
      SavedOnce(h, e, rc, b, a, got, k);
    }
  }

  lemma SavedOnce(h: Hist, e: nat, rc: int, a: map<SkipKey, MessageKey>, b: map<SkipKey, MessageKey>, got: set<Slot>,
                  k: SkipKey)
    requires WellFormed(h) && e < |h.keys|
    requires RightlySaved(h, e, rc, a, got) && RightlySaved(h, e, rc, b, got) && AllSaved(h, e, rc, b, got) && k in a
    ensures k in b && b[k] == a[k]
  {
    var j: nat :| SavedAs(h, e, rc, got, k, a[k], j);
    assert Slot(j, k.n) !in got;
    assert k in b;
    var i: nat :| SavedAs(h, e, rc, got, k, b[k], i);
    assert i == j;
  }

  lemma SessionDetermined(h: Hist, e: nat, s: Session, t: Session, got: set<Slot>)
    requires PartyInv(h, e, s, got) && PartyInv(h, e, t, got) && s.recvCount == t.recvCount
    requires s.isInitiator == t.isInitiator && s.pendingPreKeyMsg == t.pendingPreKeyMsg
    ensures s == t
  {
    LedgerDetermines(h, e, s.recvCount, s.skipped, t.skipped, got);
  }

  /** Two orders of the same messages of the current chain, none consumed before and none more than
      MAX_SKIP ahead: all come out in both, and the final sessions are equal in every field. */
  lemma OrderIrrelevant(h: Hist, e: nat, s: Session, got: set<Slot>, ns: seq<nat>, ms: seq<nat>,
                        plain: nat -> Plaintext, newKey: nat)
    requires PartyInv(h, e, s, got) && e >= 2
    requires Deliverable(h, e, s, got, ns) && multiset(ns) == multiset(ms)
    ensures AllOpen(h, e, s, ns, plain, newKey) && AllOpen(h, e, s, ms, plain, newKey)
    ensures ArriveAll(h, e, s, ns, plain, newKey) == ArriveAll(h, e, s, ms, plain, newKey)
  {
    SameElements(ns, ms);
    ArriveAllInv(h, e, s, got, ns, plain, newKey);
    ArriveAllInv(h, e, s, got, ms, plain, newKey);
    TopIsMaximum(s.recvCount, ns);
    TopIsMaximum(s.recvCount, ms);
    assert SlotsOf(e, ns) == SlotsOf(e, ms);
    SessionDetermined(h, e, ArriveAll(h, e, s, ns, plain, newKey), ArriveAll(h, e, s, ms, plain, newKey),
                      got + SlotsOf(e, ns));
  }

  lemma SameElements(ns: seq<nat>, ms: seq<nat>)
    requires multiset(ns) == multiset(ms)
    requires forall i, j :: 0 <= i < j < |ns| ==> ns[i] != ns[j]
    ensures forall n :: n in ns <==> n in ms
    ensures forall i, j :: 0 <= i < j < |ms| ==> ms[i] != ms[j]
  {
    assert forall n :: n in ns <==> n in multiset(ns);
    assert forall n :: n in ms <==> n in multiset(ms);
    forall i, j | 0 <= i < j < |ms|
      ensures ms[i] != ms[j]
    {
      if ms[i] == ms[j] {
        Twice(ms, i, j);
        Once(ns, ms[i]);
      }
    }
  }

  lemma Twice(ms: seq<nat>, i: nat, j: nat)
    requires i < j < |ms| && ms[i] == ms[j]
    ensures multiset(ms)[ms[i]] >= 2
  {
    assert ms == ms[..j] + [ms[j]] + ms[j+1..];
    assert ms[..j][i] == ms[i];
    assert ms[i] in multiset(ms[..j]);
  }

  lemma {:induction false} Once(ns: seq<nat>, x: nat)
    requires forall i, j :: 0 <= i < j < |ns| ==> ns[i] != ns[j]
    ensures multiset(ns)[x] <= 1
  {
    if ns != [] {
      assert ns == [ns[0]] + ns[1..];
      Once(ns[1..], x);
      if ns[0] == x {
        assert x !in ns[1..];
        assert x !in multiset(ns[1..]);
      }
    }
  }
}
