/** Calls of both kinds on one record, in any interleaving: `encrypt` and `decrypt` each load the record, work on
    their copy, and store it, with other calls in between. */
module Interleaved {
  import opened Crypto
  import opened Ratchet
  import Overlap

  type CallId = nat

  /** A call under way: the record it loaded, the one it will store, the envelope it will return, if any, and whether
      it took a ratchet step. */
  datatype Call = Call(loaded: Session, result: Session, sent: Option<Envelope>, ratcheted: bool)

  /** Bookkeeping for one sending chain: its first chain key, the number it starts at, and the first number not yet
      stored as sent. */
  datatype SendChain = SendChain(first: ChainKey, start: nat, front: nat)

  /** `emitted` is every envelope an `encrypt` has returned. `chains` (by the ratchet key they belong to), `origin`, the
      first of these, and `seen`, the keys met in headers, are bookkeeping. */
  datatype State = State(record: Session, calls: map<CallId, Call>, emitted: seq<Envelope>,
                         chains: map<nat, SendChain>, origin: nat, seen: set<nat>)

  datatype Step =
    | Encrypt(id: CallId, plain: Plaintext)
    | Decrypt(id: CallId, hd: Header, ct: Box, newKey: nat)
    | Save(id: CallId)

  predicate Ratchets(s: Session, hd: Header) {
    s.theirRatchetPublic != Some(hd.rk)
  }

  /** Key pairs are generated fresh, and nobody else announces ours. */
  predicate Enabled(st: State, step: Step) {
    match step
    case Encrypt(id, _) => id !in st.calls && st.record.sendChainKey.Some?
    case Decrypt(id, hd, _, newKey) =>
      && id !in st.calls && hd.rk.id !in st.chains
      && newKey !in st.chains && newKey !in st.seen && newKey != hd.rk.id
    case Save(id) => id in st.calls
  }

  function EncryptNext(st: State, id: CallId, plain: Plaintext): State
    requires st.record.sendChainKey.Some?
  {
    var (t, env) := Seal(st.record, plain);
    st.(calls := st.calls[id := Call(st.record, t, Some(env), false)])
  }

  /** A call that fails before it stores leaves nothing behind. */
  function DecryptNext(st: State, id: CallId, hd: Header, ct: Box, newKey: nat): State {
    var (t, o) := Receive(st.record, hd, ct, newKey);
    if !Stores(o) then st
    else
      var n := st.(calls := st.calls[id := Call(st.record, t, None, Ratchets(st.record, hd))],
                   seen := st.seen + {hd.rk.id});
      if Ratchets(st.record, hd) && t.sendChainKey.Some?
      then n.(chains := st.chains[newKey := SendChain(t.sendChainKey.value, 0, 0)]) else n
  }

  function SaveNext(st: State, id: CallId): State
    requires id in st.calls
  {
    var c := st.calls[id];
    var n := st.(record := c.result, calls := st.calls - {id});
    if c.sent.None? then n
    else
      var k := c.sent.value.h.rk.id;
      var after := c.sent.value.h.n + 1;
      n.(emitted := st.emitted + [c.sent.value],
         chains := if k in st.chains && 0 <= after && st.chains[k].front < after
                   then st.chains[k := st.chains[k].(front := after)]
                   else st.chains)
  }

  function Next(st: State, step: Step): State
    requires Enabled(st, step)
  {
    match step
    case Encrypt(id, plain) => EncryptNext(st, id, plain)
    case Decrypt(id, hd, ct, newKey) => DecryptNext(st, id, hd, ct, newKey)
    case Save(id) => SaveNext(st, id)
  }

  // ── Repeats ──

  predicate SamePlace(env: Envelope, s: Session) {
    env.h.rk == s.ourRatchetPublic && env.h.n == s.sendCount && s.sendChainKey == Some(env.ct.key.chain)
  }

  /** What is compared: message keys, or header pairs. */
  datatype By = Key | HeaderPair

  predicate Alike(what: By, a: Envelope, b: Envelope) {
    match what
    case Key => a.ct.key == b.ct.key
    case HeaderPair => a.h.rk == b.h.rk && a.h.n == b.h.n
  }

  /** The next `encrypt` on this record would be like this envelope. */
  predicate WouldRepeat(what: By, env: Envelope, s: Session) {
    match what
    case Key => s.sendChainKey == Some(env.ct.key.chain)
    case HeaderPair => env.h.rk == s.ourRatchetPublic && env.h.n == s.sendCount
  }

  predicate Twins(what: By, emitted: seq<Envelope>, i: nat, j: nat) {
    i < j < |emitted| && Alike(what, emitted[i], emitted[j])
  }

  /** It has been used twice, or the next `encrypt` will use one again. */
  ghost predicate Repeats(what: By, st: State) {
    (exists i: nat, j: nat :: Twins(what, st.emitted, i, j))
    || exists env :: env in st.emitted && WouldRepeat(what, env, st.record)
  }

  /** The call took no ratchet step, and an `encrypt` begun at the same place of the chain has been stored since. */
  predicate Stale(st: State, id: CallId)
    requires id in st.calls
  {
    !st.calls[id].ratcheted && exists env :: env in st.emitted && SamePlace(env, st.calls[id].loaded)
  }

  // ── The invariant while nothing repeats ──

  ghost predicate OnChain(chains: map<nat, SendChain>, s: Session) {
    && s.ourRatchetPublic.id in chains
    && var c := chains[s.ourRatchetPublic.id];
       c.start <= s.sendCount <= c.front && s.sendChainKey == Some(Advance(c.first, s.sendCount - c.start))
  }

  /** Where the chain of a record stands as sent. */
  ghost predicate Unspent(chains: map<nat, SendChain>, s: Session) {
    OnChain(chains, s) && s.sendCount == chains[s.ourRatchetPublic.id].front
  }

  /** The envelope `n` of the chain of key `k`. */
  ghost predicate At(chains: map<nat, SendChain>, env: Envelope, k: nat, n: nat) {
    && k in chains && chains[k].start <= n < chains[k].front
    && env.h.rk == Pub(k) && env.h.n == n && env.ct.key == MessageKey(Advance(chains[k].first, n - chains[k].start))
  }

  ghost predicate CallOk(chains: map<nat, SendChain>, c: Call) {
    && OnChain(chains, c.loaded)
    && if c.ratcheted then
         c.sent.None? && Unspent(chains, c.result) && chains[c.result.ourRatchetPublic.id].start == c.result.sendCount
       else
         && c.result.ourRatchetPublic == c.loaded.ourRatchetPublic
         && if c.sent.None? then
              c.result.sendCount == c.loaded.sendCount && c.result.sendChainKey == c.loaded.sendChainKey
            else && c.result.sendCount == c.loaded.sendCount + 1
                 && c.result.sendChainKey == Some(NextChain(c.loaded.sendChainKey.value))
                 && c.sent.value.h.rk == c.loaded.ourRatchetPublic && c.sent.value.h.n == c.loaded.sendCount
                 && c.sent.value.ct.key == MessageKey(c.loaded.sendChainKey.value)
  }

  ghost predicate CallsOk(chains: map<nat, SendChain>, calls: map<CallId, Call>) {
    forall i :: i in calls ==> CallOk(chains, calls[i])
  }

  /** A chain begun by a call not stored yet is that call's alone. */
  ghost predicate Private(record: Session, calls: map<CallId, Call>) {
    forall i :: i in calls && calls[i].ratcheted ==>
      && record.ourRatchetPublic != calls[i].result.ourRatchetPublic
      && forall j :: j in calls ==>
           && calls[j].loaded.ourRatchetPublic != calls[i].result.ourRatchetPublic
           && (j != i ==> calls[j].result.ourRatchetPublic != calls[i].result.ourRatchetPublic)
  }

  ghost predicate Before(chains: map<nat, SendChain>, k: nat, n: nat) {
    k in chains && chains[k].start <= n < chains[k].front
  }

  ghost predicate OnSomeChain(chains: map<nat, SendChain>, env: Envelope) {
    exists k: nat, n: nat :: At(chains, env, k, n)
  }

  ghost predicate SentAt(chains: map<nat, SendChain>, emitted: seq<Envelope>, k: nat, n: nat) {
    exists i: nat :: i < |emitted| && At(chains, emitted[i], k, n)
  }

  /** Exactly the numbers of each chain before its front have been sent. */
  ghost predicate SentInOrder(chains: map<nat, SendChain>, emitted: seq<Envelope>) {
    && (forall i: nat :: i < |emitted| ==> OnSomeChain(chains, emitted[i]))
    && (forall k: nat, n: nat :: Before(chains, k, n) ==> SentAt(chains, emitted, k, n))
  }

  ghost predicate EachOnce(emitted: seq<Envelope>) {
    forall i: nat, j: nat :: !Twins(HeaderPair, emitted, i, j)
  }

  /** The Diffie-Hellman secret a chain was begun with. */
  function SeedDh(c: ChainKey): DhSecret {
    match c
    case ChainSeed(_, d) => d
    case NextChain(p) => SeedDh(p)
  }

  lemma {:induction false} SeedStays(c: ChainKey, n: nat)
    ensures SeedDh(Advance(c, n)) == SeedDh(c)
  {
    if n != 0 {
      SeedStays(c, n - 1);
    }
  }

  /** Chains begun in the run have the new key in their seed, and it was announced by nobody else. */
  ghost predicate Seeded(c: ChainKey, k: nat, seen: set<nat>) {
    k !in seen && exists r: nat :: r in seen && SeedDh(c) == Dh(Priv(k), Pub(r))
  }

  ghost predicate Seeds(chains: map<nat, SendChain>, origin: nat, seen: set<nat>) {
    && origin in chains && SeedDh(chains[origin].first).lo in seen && SeedDh(chains[origin].first).hi in seen
    && forall k :: k in chains && k != origin ==> Seeded(chains[k].first, k, seen)
  }

  ghost predicate Inv(st: State) {
    && Unspent(st.chains, st.record) && CallsOk(st.chains, st.calls)
    && Private(st.record, st.calls) && SentInOrder(st.chains, st.emitted) && EachOnce(st.emitted)
    && Seeds(st.chains, st.origin, st.seen)
  }

  // ── Nothing repeats ──

  lemma SeedsDiffer(chains: map<nat, SendChain>, origin: nat, seen: set<nat>, k: nat, l: nat)
    requires Seeds(chains, origin, seen) && k in chains && l in chains && k != l
    ensures SeedDh(chains[k].first) != SeedDh(chains[l].first)
  {
    if k == origin {
      assert Seeded(chains[l].first, l, seen);
    } else if l == origin {
      assert Seeded(chains[k].first, k, seen);
    } else {
      assert Seeded(chains[k].first, k, seen) && Seeded(chains[l].first, l, seen);
    }
  }

  /** Places on the chains have the same key only if they are the same. */
  lemma PlacesDiffer(chains: map<nat, SendChain>, origin: nat, seen: set<nat>, k: nat, n: nat, l: nat, m: nat)
    requires Seeds(chains, origin, seen) && k in chains && l in chains && chains[k].start <= n && chains[l].start <= m
    requires Advance(chains[k].first, n - chains[k].start) == Advance(chains[l].first, m - chains[l].start)
    ensures k == l && n == m
  {
    AdvanceShape(chains[k].first, n - chains[k].start);
    AdvanceShape(chains[l].first, m - chains[l].start);
    SeedStays(chains[k].first, n - chains[k].start);
    SeedStays(chains[l].first, m - chains[l].start);
    if k != l {
      SeedsDiffer(chains, origin, seen, k, l);
    }
  }

  lemma NoKeyTwice(st: State, i: nat, j: nat)
    requires Inv(st)
    ensures !Twins(Key, st.emitted, i, j)
  {
    if i < j < |st.emitted| && Alike(Key, st.emitted[i], st.emitted[j]) {
      assert !Twins(HeaderPair, st.emitted, i, j);
      var k: nat, n: nat :| At(st.chains, st.emitted[i], k, n);
      var l: nat, m: nat :| At(st.chains, st.emitted[j], l, m);
      PlacesDiffer(st.chains, st.origin, st.seen, k, n, l, m);
    }
  }

  lemma NextIsNew(st: State, i: nat, what: By)
    requires Inv(st) && i < |st.emitted|
    ensures !WouldRepeat(what, st.emitted[i], st.record)
  {
    assert OnSomeChain(st.chains, st.emitted[i]);
    var k: nat, n: nat :| At(st.chains, st.emitted[i], k, n);
    var l := st.record.ourRatchetPublic.id;
    if WouldRepeat(Key, st.emitted[i], st.record) {
      PlacesDiffer(st.chains, st.origin, st.seen, k, n, l, st.record.sendCount);
    }
  }

  /** The record stands where nothing was sent, and no envelope repeats another. */
  lemma NothingRepeats(st: State, what: By)
    requires Inv(st)
    ensures !Repeats(what, st)
  {
    forall i: nat, j: nat
      ensures !Twins(what, st.emitted, i, j)
    {
      NoKeyTwice(st, i, j);
    }
    forall env | env in st.emitted
      ensures !WouldRepeat(what, env, st.record)
    {
      var i: nat :| i < |st.emitted| && st.emitted[i] == env;
      NextIsNew(st, i, what);
    }
  }

  // ── Steps ──

  lemma PrivateMore(record: Session, calls: map<CallId, Call>, id: CallId, c: Call)
    requires Private(record, calls) && id !in calls && c.loaded == record && !c.ratcheted
    requires c.result.ourRatchetPublic == record.ourRatchetPublic
    ensures Private(record, calls[id := c])
  {
  }

  lemma PrivateNew(record: Session, calls: map<CallId, Call>, id: CallId, c: Call)
    requires Private(record, calls) && id !in calls && c.loaded == record
    requires record.ourRatchetPublic != c.result.ourRatchetPublic
    requires forall j :: j in calls ==> calls[j].loaded.ourRatchetPublic != c.result.ourRatchetPublic
                                        && calls[j].result.ourRatchetPublic != c.result.ourRatchetPublic
    ensures Private(record, calls[id := c])
  {
  }

  lemma PrivateAfter(record: Session, calls: map<CallId, Call>, id: CallId)
    requires Private(record, calls) && id in calls
    ensures Private(calls[id].result, calls - {id})
  {
  }

  lemma CallStays(chains: map<nat, SendChain>, k: nat, n: SendChain, c: Call)
    requires CallOk(chains, c) && k !in chains
    ensures CallOk(chains[k := n], c) && c.loaded.ourRatchetPublic != Pub(k) && c.result.ourRatchetPublic != Pub(k)
  {
  }

  lemma CallMoves(chains: map<nat, SendChain>, k: nat, c: Call)
    requires CallOk(chains, c) && k in chains && (c.ratcheted ==> c.result.ourRatchetPublic != Pub(k))
    ensures CallOk(Moved(chains, k), c)
  {
  }

  /** A call that takes no ratchet step starts. */
  lemma StartQuiet(st: State, id: CallId, c: Call)
    requires Inv(st) && id !in st.calls && c.loaded == st.record && !c.ratcheted && CallOk(st.chains, c)
    ensures Inv(st.(calls := st.calls[id := c]))
  {
    PrivateMore(st.record, st.calls, id, c);
  }

  lemma EncryptInv(st: State, id: CallId, plain: Plaintext)
    requires Inv(st) && Enabled(st, Encrypt(id, plain))
    ensures Inv(EncryptNext(st, id, plain))
  {
    StartQuiet(st, id, EncryptNext(st, id, plain).calls[id]);
  }

  /** What a `decrypt` does to the sending half of the record. */
  lemma DecryptSends(s: Session, hd: Header, ct: Box, newKey: nat)
    requires Stores(Receive(s, hd, ct, newKey).1)
    ensures var t := Receive(s, hd, ct, newKey).0;
            if Ratchets(s, hd) then
              && t.ourRatchetPublic == Pub(newKey) && t.sendCount == 0
              && t.sendChainKey.Some? && t.sendChainKey.value.ChainSeed?
              && t.sendChainKey.value.dh == Dh(Priv(newKey), hd.rk)
            else
              && t.sendChainKey == s.sendChainKey && t.sendCount == s.sendCount
              && t.ourRatchetPublic == s.ourRatchetPublic
  {
    if Ratchets(s, hd) {
      Overlap.TakeSendsAlike(DhRatchet(Skip(s, hd.pn), hd.rk, newKey), hd, ct);
    } else {
      Overlap.TakeSendsAlike(s, hd, ct);
    }
  }

  lemma DecryptInv(st: State, id: CallId, hd: Header, ct: Box, newKey: nat)
    requires Inv(st) && Enabled(st, Decrypt(id, hd, ct, newKey))
    ensures Inv(DecryptNext(st, id, hd, ct, newKey))
  {
    var (t, o) := Receive(st.record, hd, ct, newKey);
    if Stores(o) {
      DecryptSends(st.record, hd, ct, newKey);
      if Ratchets(st.record, hd) {
        NewChain(st, id, Call(st.record, t, None, true), newKey, hd.rk.id);
      } else {
        StartQuiet(st, id, Call(st.record, t, None, false));
        SeedsSeen(st.chains, st.origin, st.seen, hd.rk.id);
      }
    }
  }

  lemma SeedsSeen(chains: map<nat, SendChain>, origin: nat, seen: set<nat>, rk: nat)
    requires Seeds(chains, origin, seen) && rk !in chains
    ensures Seeds(chains, origin, seen + {rk})
  {
    forall k | k in chains && k != origin
      ensures Seeded(chains[k].first, k, seen + {rk})
    {
      assert Seeded(chains[k].first, k, seen);
      var r: nat :| r in seen && SeedDh(chains[k].first) == Dh(Priv(k), Pub(r));
      assert r in seen + {rk};
    }
  }

  lemma NewChain(st: State, id: CallId, c: Call, newKey: nat, rk: nat)
    requires Inv(st) && id !in st.calls && newKey !in st.chains && newKey !in st.seen && newKey != rk
    requires rk !in st.chains
    requires c.loaded == st.record && c.ratcheted && c.sent == None
    requires c.result.ourRatchetPublic == Pub(newKey) && c.result.sendCount == 0
    requires c.result.sendChainKey.Some? && c.result.sendChainKey.value.ChainSeed?
    requires c.result.sendChainKey.value.dh == Dh(Priv(newKey), Pub(rk))
    ensures Inv(st.(calls := st.calls[id := c], seen := st.seen + {rk},
                    chains := st.chains[newKey := SendChain(c.result.sendChainKey.value, 0, 0)]))
  {
    var n := SendChain(c.result.sendChainKey.value, 0, 0);
    var more := st.chains[newKey := n];
    SentMoreChains(st.chains, st.emitted, newKey, n);
    SeedsMore(st.chains, st.origin, st.seen, newKey, rk, n);
    forall i | i in st.calls
      ensures CallOk(more, st.calls[i])
      ensures st.calls[i].loaded.ourRatchetPublic != Pub(newKey) && st.calls[i].result.ourRatchetPublic != Pub(newKey)
    {
      CallStays(st.chains, newKey, n, st.calls[i]);
    }
    PrivateNew(st.record, st.calls, id, c);
    FirstCall(st.chains, newKey, n, c);
  }

  lemma FirstCall(chains: map<nat, SendChain>, newKey: nat, n: SendChain, c: Call)
    requires Unspent(chains, c.loaded) && newKey !in chains && c.ratcheted && c.sent == None
    requires c.result.ourRatchetPublic == Pub(newKey) && c.result.sendCount == 0 && c.result.sendChainKey.Some?
    requires n == SendChain(c.result.sendChainKey.value, 0, 0)
    ensures CallOk(chains[newKey := n], c) && Unspent(chains[newKey := n], c.loaded)
  {
  }

  lemma SeedsMore(chains: map<nat, SendChain>, origin: nat, seen: set<nat>, newKey: nat, rk: nat, c: SendChain)
    requires Seeds(chains, origin, seen) && newKey !in chains && newKey !in seen && newKey != rk && rk !in chains
    requires c.first.ChainSeed? && c.first.dh == Dh(Priv(newKey), Pub(rk))
    ensures Seeds(chains[newKey := c], origin, seen + {rk})
  {
    forall k | k in chains && k != origin
      ensures Seeded(chains[k].first, k, seen + {rk})
    {
      assert Seeded(chains[k].first, k, seen);
      var r: nat :| r in seen && SeedDh(chains[k].first) == Dh(Priv(k), Pub(r));
      assert r in seen + {rk};
    }
    assert rk in seen + {rk};
  }

  lemma SentMoreChains(chains: map<nat, SendChain>, emitted: seq<Envelope>, newKey: nat, c: SendChain)
    requires SentInOrder(chains, emitted) && newKey !in chains && c.start == c.front
    ensures SentInOrder(chains[newKey := c], emitted)
  {
    var more := chains[newKey := c];
    forall i: nat | i < |emitted|
      ensures OnSomeChain(more, emitted[i])
    {
      assert OnSomeChain(chains, emitted[i]);
      var k: nat, n: nat :| At(chains, emitted[i], k, n);
      assert At(more, emitted[i], k, n);
    }
    forall k: nat, n: nat | Before(more, k, n)
      ensures SentAt(more, emitted, k, n)
    {
      assert Before(chains, k, n);
      var i: nat :| i < |emitted| && At(chains, emitted[i], k, n);
      assert At(more, emitted[i], k, n);
    }
  }

  /** A place of a chain is spent exactly when it is before the front. */
  lemma SpentExactly(st: State, s: Session)
    requires SentInOrder(st.chains, st.emitted) && OnChain(st.chains, s)
    ensures (exists env :: env in st.emitted && SamePlace(env, s)) <==> !Unspent(st.chains, s)
  {
    var k := s.ourRatchetPublic.id;
    if s.sendCount < st.chains[k].front {
      assert Before(st.chains, k, s.sendCount);
      var i: nat :| i < |st.emitted| && At(st.chains, st.emitted[i], k, s.sendCount);
      assert SamePlace(st.emitted[i], s) && st.emitted[i] in st.emitted;
    }
    if env :| env in st.emitted && SamePlace(env, s) {
      var i: nat :| i < |st.emitted| && st.emitted[i] == env;
      assert OnSomeChain(st.chains, st.emitted[i]);
      var l: nat, n: nat :| At(st.chains, st.emitted[i], l, n);
    }
  }

  lemma StaleExactly(st: State, id: CallId)
    requires Inv(st) && id in st.calls
    ensures Stale(st, id) <==> !st.calls[id].ratcheted && !Unspent(st.chains, st.calls[id].loaded)
  {
    assert CallOk(st.chains, st.calls[id]);
    SpentExactly(st, st.calls[id].loaded);
  }

  /** Storing a call that is not stale keeps everything in order. */
  lemma SaveFresh(st: State, id: CallId)
    requires Inv(st) && id in st.calls && !Stale(st, id)
    ensures Inv(SaveNext(st, id))
  {
    StaleExactly(st, id);
    assert CallOk(st.chains, st.calls[id]);
    if st.calls[id].sent.Some? {
      SaveSent(st, id);
    } else {
      PrivateAfter(st.record, st.calls, id);
      FreshResult(st.chains, st.calls[id]);
    }
  }

  /** What a call stores that returns no envelope and is not stale is unspent. */
  lemma FreshResult(chains: map<nat, SendChain>, c: Call)
    requires CallOk(chains, c) && c.sent.None? && (c.ratcheted || Unspent(chains, c.loaded))
    ensures Unspent(chains, c.result)
  {
  }

  lemma SentResult(chains: map<nat, SendChain>, c: Call)
    requires CallOk(chains, c) && c.sent.Some? && Unspent(chains, c.loaded)
    ensures var k := c.loaded.ourRatchetPublic.id;
            Unspent(Moved(chains, k), c.result)
  {
  }

  /** The chain with one more number sent. */
  function Moved(chains: map<nat, SendChain>, k: nat): map<nat, SendChain>
    requires k in chains
  {
    chains[k := chains[k].(front := chains[k].front + 1)]
  }

  lemma SaveSent(st: State, id: CallId)
    requires Inv(st) && id in st.calls && st.calls[id].sent.Some? && Unspent(st.chains, st.calls[id].loaded)
    requires CallOk(st.chains, st.calls[id])
    ensures Inv(SaveNext(st, id))
  {
    SavedWire(st.chains, st.origin, st.seen, st.emitted, st.calls[id]);
    SavedCalls(st.chains, st.record, st.calls, id);
    SaveSentIs(st, id);
    Assembled(SaveNext(st, id));
  }

  lemma SavedWire(chains: map<nat, SendChain>, origin: nat, seen: set<nat>, emitted: seq<Envelope>, c: Call)
    requires SentInOrder(chains, emitted) && EachOnce(emitted) && Seeds(chains, origin, seen)
    requires CallOk(chains, c) && c.sent.Some? && Unspent(chains, c.loaded)
    ensures var more := Moved(chains, c.loaded.ourRatchetPublic.id);
            && SentInOrder(more, emitted + [c.sent.value]) && EachOnce(emitted + [c.sent.value])
            && Seeds(more, origin, seen)
  {
    PlaceOf(chains, c);
    SentOneMore(chains, emitted, c.loaded.ourRatchetPublic.id, c.sent.value);
    SeedsMove(chains, origin, seen, c.loaded.ourRatchetPublic.id);
  }

  lemma SavedCalls(chains: map<nat, SendChain>, record: Session, calls: map<CallId, Call>, id: CallId)
    requires CallsOk(chains, calls) && Private(record, calls) && id in calls && CallOk(chains, calls[id])
    requires calls[id].sent.Some? && Unspent(chains, calls[id].loaded)
    ensures var more := Moved(chains, calls[id].loaded.ourRatchetPublic.id);
            && Unspent(more, calls[id].result) && CallsOk(more, calls - {id}) && Private(calls[id].result, calls - {id})
  {
    SentResult(chains, calls[id]);
    PrivateAfter(record, calls, id);
    OthersMove(chains, record, calls, id, calls[id].loaded.ourRatchetPublic.id);
  }

  /** The envelope of a call is the one of the place it loaded. */
  lemma PlaceOf(chains: map<nat, SendChain>, c: Call)
    requires CallOk(chains, c) && c.sent.Some? && Unspent(chains, c.loaded)
    ensures var k, env := c.loaded.ourRatchetPublic.id, c.sent.value;
            && k in chains && chains[k].start <= chains[k].front && env.h.rk == Pub(k) && env.h.n == chains[k].front
            && env.ct.key == MessageKey(Advance(chains[k].first, chains[k].front - chains[k].start))
  {
  }

  lemma Assembled(st: State)
    requires Unspent(st.chains, st.record) && CallsOk(st.chains, st.calls) && Private(st.record, st.calls)
    requires SentInOrder(st.chains, st.emitted) && EachOnce(st.emitted) && Seeds(st.chains, st.origin, st.seen)
    ensures Inv(st)
  {
  }

  lemma SaveSentIs(st: State, id: CallId)
    requires id in st.calls && st.calls[id].sent.Some? && Unspent(st.chains, st.calls[id].loaded)
    requires CallOk(st.chains, st.calls[id])
    ensures var c := st.calls[id];
            var k := c.loaded.ourRatchetPublic.id;
            SaveNext(st, id) == st.(record := c.result, calls := st.calls - {id},
                                    emitted := st.emitted + [c.sent.value],
                                    chains := Moved(st.chains, k))
  {
  }

  lemma OthersMove(chains: map<nat, SendChain>, record: Session, calls: map<CallId, Call>, id: CallId, k: nat)
    requires CallsOk(chains, calls) && Private(record, calls)
    requires id in calls && k in chains && calls[id].loaded.ourRatchetPublic == Pub(k)
    ensures CallsOk(Moved(chains, k), calls - {id})
  {
    forall i | i in calls && i != id
      ensures CallOk(Moved(chains, k), calls[i])
    {
      CallMoves(chains, k, calls[i]);
    }
  }

  lemma SeedsMove(chains: map<nat, SendChain>, origin: nat, seen: set<nat>, k: nat)
    requires Seeds(chains, origin, seen) && k in chains
    ensures Seeds(Moved(chains, k), origin, seen)
  {
  }

  lemma SentOneMore(chains: map<nat, SendChain>, emitted: seq<Envelope>, k: nat, env: Envelope)
    requires SentInOrder(chains, emitted) && EachOnce(emitted) && k in chains && chains[k].start <= chains[k].front
    requires env.h.rk == Pub(k) && env.h.n == chains[k].front
    requires env.ct.key == MessageKey(Advance(chains[k].first, chains[k].front - chains[k].start))
    ensures SentInOrder(Moved(chains, k), emitted + [env]) && EachOnce(emitted + [env])
  {
    var more, all := Moved(chains, k), emitted + [env];
    assert At(more, env, k, chains[k].front);
    forall i: nat | i < |all|
      ensures OnSomeChain(more, all[i])
    {
      if i < |emitted| {
        assert OnSomeChain(chains, emitted[i]);
        var l: nat, n: nat :| At(chains, emitted[i], l, n);
        assert At(more, all[i], l, n);
      }
    }
    forall l: nat, n: nat | Before(more, l, n)
      ensures SentAt(more, all, l, n)
    {
      if l == k && n == chains[k].front {
        assert At(more, all[|emitted|], l, n);
      } else {
        assert Before(chains, l, n);
        var i: nat :| i < |emitted| && At(chains, emitted[i], l, n);
        assert At(more, all[i], l, n);
      }
    }
    OnceMore(chains, emitted, k, env);
  }

  lemma OnceMore(chains: map<nat, SendChain>, emitted: seq<Envelope>, k: nat, env: Envelope)
    requires SentInOrder(chains, emitted) && EachOnce(emitted) && k in chains
    requires env.h.rk == Pub(k) && env.h.n == chains[k].front
    ensures EachOnce(emitted + [env])
  {
    forall i: nat, j: nat
      ensures !Twins(HeaderPair, emitted + [env], i, j)
    {
      if i < j < |emitted| {
        assert !Twins(HeaderPair, emitted, i, j);
      } else if i < j == |emitted| {
        assert OnSomeChain(chains, emitted[i]);
        var l: nat, n: nat :| At(chains, emitted[i], l, n);
      }
    }
  }

  /** Storing a stale call repeats a key and a header, or puts the record back where the next `encrypt` will. */
  lemma SaveStale(st: State, id: CallId, what: By)
    requires Inv(st) && id in st.calls && Stale(st, id)
    ensures Repeats(what, SaveNext(st, id))
  {
    var c, n := st.calls[id], SaveNext(st, id);
    assert CallOk(st.chains, c);
    var env :| env in st.emitted && SamePlace(env, c.loaded);
    var i: nat :| i < |st.emitted| && st.emitted[i] == env;
    if c.sent.Some? {
      assert Twins(what, n.emitted, i, |st.emitted|);
    } else {
      assert env in n.emitted && WouldRepeat(what, env, n.record);
    }
  }

  /** A step that stores a stale call. */
  predicate StoresStale(st: State, step: Step)
    requires Enabled(st, step)
  {
    step.Save? && Stale(st, step.id)
  }

  /** One step, from a state where nothing repeats: something does afterwards exactly when the step stores a stale
      call. */
  lemma StepExactly(st: State, step: Step, what: By)
    requires Inv(st) && Enabled(st, step)
    ensures Repeats(what, Next(st, step)) <==> StoresStale(st, step)
    ensures !StoresStale(st, step) ==> Inv(Next(st, step))
  {
    match step {
      case Encrypt(id, plain) => EncryptInv(st, id, plain);
      case Decrypt(id, hd, ct, newKey) => DecryptInv(st, id, hd, ct, newKey);
      case Save(id) => if Stale(st, id) { SaveStale(st, id, what); } else { SaveFresh(st, id); }
    }
    if !StoresStale(st, step) {
      NothingRepeats(Next(st, step), what);
    }
  }

  // ── Runs ──

  ghost predicate NeverRepeats(what: By, st: State, steps: seq<Step>)
    decreases |steps|
  {
    !Repeats(what, st) && (|steps| != 0 && Enabled(st, steps[0]) ==> NeverRepeats(what, Next(st, steps[0]), steps[1..]))
  }

  ghost predicate NeverStale(st: State, steps: seq<Step>)
    decreases |steps|
  {
    |steps| != 0 && Enabled(st, steps[0]) ==> !StoresStale(st, steps[0]) && NeverStale(Next(st, steps[0]), steps[1..])
  }

  lemma {:induction false} RunExactly(what: By, st: State, steps: seq<Step>)
    requires Inv(st)
    ensures NeverRepeats(what, st, steps) <==> NeverStale(st, steps)
    decreases |steps|
  {
    NothingRepeats(st, what);
    if |steps| != 0 && Enabled(st, steps[0]) {
      StepExactly(st, steps[0], what);
      if StoresStale(st, steps[0]) {
        assert !NeverRepeats(what, Next(st, steps[0]), steps[1..]);
      } else {
        RunExactly(what, Next(st, steps[0]), steps[1..]);
      }
    }
  }

  /** One record, no calls, nothing sent; `seen` holds whatever keys were met before. */
  function Opening(s: Session, seen: set<nat>): State
    requires s.sendChainKey.Some?
  {
    State(s, map[], [], map[s.ourRatchetPublic.id := SendChain(s.sendChainKey.value, s.sendCount, s.sendCount)],
          s.ourRatchetPublic.id, seen + {SeedDh(s.sendChainKey.value).lo, SeedDh(s.sendChainKey.value).hi})
  }

  lemma OpeningInv(s: Session, seen: set<nat>)
    requires s.sendChainKey.Some?
    ensures Inv(Opening(s, seen))
  {
  }

  /** Over every run of `encrypt` and `decrypt` calls on one record, in any interleaving of their loads and stores:
      at no point has a message key been used twice, or is about to be, exactly when no call without a ratchet step
      stores over an `encrypt` begun at the same place; and likewise for header pairs. */
  lemma UniqueExactly(s: Session, seen: set<nat>, steps: seq<Step>)
    requires s.sendChainKey.Some?
    ensures NeverRepeats(Key, Opening(s, seen), steps) <==> NeverStale(Opening(s, seen), steps)
    ensures NeverRepeats(HeaderPair, Opening(s, seen), steps) <==> NeverStale(Opening(s, seen), steps)
  {
    OpeningInv(s, seen);
    RunExactly(Key, Opening(s, seen), steps);
    RunExactly(HeaderPair, Opening(s, seen), steps);
  }
}
