/** Calls on one peer that overlap. `encrypt` waits between loading the record and storing it, and the responder
    waits between loading a one-time pre-key and removing it; nothing keeps a second call out in between. */
module Overlap {
  import opened Crypto
  import opened Ratchet

  type CallId = nat

  // ── Encrypting ──

  /** `sealed` holds the calls that have loaded the record and not stored it, each with the record it will store;
      `used` is every envelope made so far, and `overlapped` says whether a call loaded while another was under way. */
  datatype State = State(record: Session, sealed: map<CallId, Session>, used: seq<Envelope>, overlapped: bool)

  datatype Step = Load(id: CallId, plain: Plaintext) | Save(id: CallId)

  predicate Enabled(st: State, step: Step) {
    match step
    case Load(id, _) => id !in st.sealed && st.record.sendChainKey.Some?
    case Save(id) => id in st.sealed
  }

  function Next(st: State, step: Step): State
    requires Enabled(st, step)
  {
    match step
    case Load(id, plain) =>
      var (t, env) := Seal(st.record, plain);
      st.(sealed := st.sealed[id := t], used := st.used + [env], overlapped := st.overlapped || st.sealed != map[])
    case Save(id) => st.(record := st.sealed[id], sealed := st.sealed - {id})
  }

  ghost predicate Reaches(st: State, steps: seq<Step>, t: State)
    decreases |steps|
  {
    if |steps| == 0 then st == t
    else Enabled(st, steps[0]) && Reaches(Next(st, steps[0]), steps[1..], t)
  }

  ghost predicate SameKey(used: seq<Envelope>, i: nat, j: nat) {
    i < j < |used| && used[i].ct.key == used[j].ct.key
  }

  ghost predicate SameHeader(used: seq<Envelope>, i: nat, j: nat) {
    i < j < |used| && (used[i].h.rk, used[i].h.n) == (used[j].h.rk, used[j].h.n)
  }

  /** The record `s`, `n` messages later. */
  ghost predicate After(s: Session, n: nat, t: Session) {
    && s.sendChainKey.Some? && t.sendChainKey == Some(Advance(s.sendChainKey.value, n))
    && t.sendCount == s.sendCount + n && t.ourRatchetPublic == s.ourRatchetPublic
  }

  /** One call at a time: message `i` has the key and the number of place `i`. */
  ghost predicate InTurn(s: Session, st: State) {
    && s.sendChainKey.Some?
    && (forall i :: 0 <= i < |st.used| ==>
          && st.used[i].ct.key == MessageKey(Advance(s.sendChainKey.value, i))
          && st.used[i].h.rk == s.ourRatchetPublic && st.used[i].h.n == s.sendCount + i)
    && if st.sealed == map[] then After(s, |st.used|, st.record)
       else |st.used| > 0 && After(s, |st.used| - 1, st.record)
            && (forall id :: id in st.sealed ==> After(s, |st.used|, st.sealed[id]))
            && forall id, jd :: id in st.sealed && jd in st.sealed ==> id == jd
  }

  ghost predicate Inv(s: Session, st: State) {
    if st.overlapped then exists i: nat, j: nat :: SameKey(st.used, i, j) && SameHeader(st.used, i, j)
    else InTurn(s, st)
  }

  lemma LoadInv(s: Session, st: State, id: CallId, plain: Plaintext)
    requires Inv(s, st) && Enabled(st, Load(id, plain))
    ensures Inv(s, Next(st, Load(id, plain)))
  {
    var n := Next(st, Load(id, plain));
    if st.overlapped {
      var i: nat, j: nat :| SameKey(st.used, i, j) && SameHeader(st.used, i, j);
      assert SameKey(n.used, i, j) && SameHeader(n.used, i, j);
    } else if st.sealed != map[] {
      var last := |st.used| - 1;
      assert SameKey(n.used, last, last + 1) && SameHeader(n.used, last, last + 1);
    } else {
      assert n.sealed == map[id := Seal(st.record, plain).0];
      assert id in n.sealed;
    }
  }

  lemma SaveInv(s: Session, st: State, id: CallId)
    requires Inv(s, st) && Enabled(st, Save(id))
    ensures Inv(s, Next(st, Save(id)))
  {
    if !st.overlapped {
      assert st.sealed - {id} == map[];
    }
  }

  lemma {:induction false} RunInv(s: Session, st: State, steps: seq<Step>, t: State)
    requires Inv(s, st) && Reaches(st, steps, t)
    ensures Inv(s, t)
    decreases |steps|
  {
    if |steps| != 0 {
      match steps[0] {
        case Load(id, plain) => LoadInv(s, st, id, plain);
        case Save(id) => SaveInv(s, st, id);
      }
      RunInv(s, Next(st, steps[0]), steps[1..], t);
    }
  }

  /** Over any run of `encrypt` calls on one record, every envelope has a message key of its own, and a header of its
      own, exactly when no call loaded the record while another was under way. */
  lemma UniqueExactly(s: Session, steps: seq<Step>, t: State)
    requires s.sendChainKey.Some? && Reaches(State(s, map[], [], false), steps, t)
    ensures (forall i: nat, j: nat :: !SameKey(t.used, i, j)) <==> !t.overlapped
    ensures (forall i: nat, j: nat :: !SameHeader(t.used, i, j)) <==> !t.overlapped
  {
    assert Inv(s, State(s, map[], [], false));
    RunInv(s, State(s, map[], [], false), steps, t);
    if !t.overlapped {
      forall i: nat, j: nat
        ensures !SameKey(t.used, i, j)
      {
        AdvanceShape(s.sendChainKey.value, i);
        AdvanceShape(s.sendChainKey.value, j);
      }
    }
  }

  // ── Decrypting meanwhile ──

  /** A `decrypt` that loaded the record `s` and stores it after an `encrypt` on `s` has stored its own takes that one's
      place: the next `encrypt` repeats its header, and its key, exactly when the `decrypt` took no ratchet step. */
  lemma LostUpdateExactly(s: Session, hd: Header, ct: Box, newKey: nat, first: Plaintext, second: Plaintext)
    requires s.sendChainKey.Some? && s.ourRatchetPublic != Pub(newKey) && Stores(Receive(s, hd, ct, newKey).1)
    ensures var t := Receive(s, hd, ct, newKey).0;
            && t.sendChainKey.Some?
            && var a, b := Seal(s, first).1, Seal(t, second).1;
               && ((a.h.rk, a.h.n) == (b.h.rk, b.h.n) <==> s.theirRatchetPublic == Some(hd.rk))
               && (s.theirRatchetPublic == Some(hd.rk) ==> a.ct.key == b.ct.key)
  {
    if s.theirRatchetPublic == Some(hd.rk) {
      TakeSendsAlike(s, hd, ct);
    } else {
      TakeSendsAlike(DhRatchet(Skip(s, hd.pn), hd.rk, newKey), hd, ct);
    }
  }

  /** Finding a message key leaves the sending half of the record alone. */
  lemma TakeSendsAlike(s: Session, hd: Header, ct: Box)
    ensures var t := Take(s, hd, ct).0;
            t.sendChainKey == s.sendChainKey && t.sendCount == s.sendCount && t.ourRatchetPublic == s.ourRatchetPublic
  {
    if Skips(s) {
      SaveUpToEffect(s, hd.n);
    }
  }

  // ── One-time pre-keys ──

  /** One private one-time key: whether it is in the store, which calls have used it and not removed it, how often a
      shared secret was computed with it, and whether a call found it while another was under way. */
  datatype OneTime = OneTime(present: bool, holding: set<CallId>, uses: nat, overlapped: bool)

  datatype KeyStep = LoadKey(id: CallId) | RemoveKey(id: CallId)

  predicate KeyEnabled(k: OneTime, step: KeyStep) {
    match step
    case LoadKey(id) => id !in k.holding
    case RemoveKey(id) => id in k.holding
  }

  function KeyNext(k: OneTime, step: KeyStep): OneTime
    requires KeyEnabled(k, step)
  {
    match step
    case LoadKey(id) =>
      if k.present then OneTime(true, k.holding + {id}, k.uses + 1, k.overlapped || k.holding != {}) else k
    case RemoveKey(id) => k.(present := false, holding := k.holding - {id})
  }

  ghost predicate KeyReaches(k: OneTime, steps: seq<KeyStep>, l: OneTime)
    decreases |steps|
  {
    if |steps| == 0 then k == l
    else KeyEnabled(k, steps[0]) && KeyReaches(KeyNext(k, steps[0]), steps[1..], l)
  }

  ghost predicate KeyInv(k: OneTime) {
    && (k.overlapped ==> k.uses >= 2) && (k.holding != {} ==> k.uses >= 1)
    && (!k.overlapped ==> k.uses <= 1 && (k.present && k.holding == {} ==> k.uses == 0))
  }

  lemma {:induction false} KeyRunInv(k: OneTime, steps: seq<KeyStep>, l: OneTime)
    requires KeyInv(k) && KeyReaches(k, steps, l)
    ensures KeyInv(l)
    decreases |steps|
  {
    if |steps| != 0 {
      KeyRunInv(KeyNext(k, steps[0]), steps[1..], l);
    }
  }

  /** A private one-time key enters at most one shared secret exactly when no call found it while another that had
      found it had yet to remove it. */
  lemma UsedOnceExactly(steps: seq<KeyStep>, l: OneTime)
    requires KeyReaches(OneTime(true, {}, 0, false), steps, l)
    ensures l.uses <= 1 <==> !l.overlapped
  {
    KeyRunInv(OneTime(true, {}, 0, false), steps, l);
  }
}
