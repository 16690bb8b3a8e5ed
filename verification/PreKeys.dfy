/** One-time pre-keys: upload and hand-out on the server (`server/src/auth.rs`), use on the responder. */
module PreKeys {
  import opened Crypto
  import Ratchet

  type User = nat
  type Device = int
  type KeyId = int

  datatype OneTime = OneTime(keyId: KeyId, key: PublicKey)

  /** The signed pre-key bundle of one device. */
  datatype Signed = Signed(registrationId: int, identity: PublicKey, spkId: int, spk: PublicKey, signature: Signature)

  datatype Table = Table(bundles: map<(User, Device), Signed>, keys: map<(User, KeyId), PublicKey>)

  // ── Upload ──

  /** Insert with ON CONFLICT DO NOTHING: a key id that is there keeps its key. */
  function Insert(keys: map<(User, KeyId), PublicKey>, u: User, k: OneTime): map<(User, KeyId), PublicKey> {
    if (u, k.keyId) in keys then keys else keys[(u, k.keyId) := k.key]
  }

  function InsertAll(keys: map<(User, KeyId), PublicKey>, u: User, ks: seq<OneTime>): map<(User, KeyId), PublicKey> {
    if ks == [] then keys else Insert(InsertAll(keys, u, ks[..|ks| - 1]), u, ks[|ks| - 1])
  }

  function Upload(t: Table, u: User, d: Device, signed: Signed, ks: seq<OneTime>): Table {
    Table(t.bundles[(u, d) := signed], InsertAll(t.keys, u, ks))
  }

  // ── Fetch ──

  function IdsOf(keys: map<(User, KeyId), PublicKey>, u: User): set<KeyId> {
    set k | k in keys && k.0 == u :: k.1
  }

  ghost predicate Least(s: set<KeyId>, k: KeyId) {
    k in s && forall j :: j in s ==> k <= j
  }

  lemma {:induction false} LeastExists(s: set<KeyId>)
    requires s != {}
    ensures exists k :: Least(s, k)
  {
    assert (forall x :: x !in s) ==> s == {};
    var x :| x in s;
    var rest := s - {x};
    assert forall j :: j in s ==> j == x || j in rest;
    if rest == {} {
      assert Least(s, x);
    } else {
      LeastExists(rest);
      var k :| Least(rest, k);
      assert Least(s, if k <= x then k else x);
    }
  }

  /** ORDER BY ... LIMIT 1. */
  function Lowest(s: set<KeyId>): (k: KeyId)
    requires s != {}
    ensures k in s && forall j :: j in s ==> k <= j
  {
    LeastExists(s);
    assert forall k :: Least(s, k) ==> k in s && forall j :: j in s ==> k <= j;
    var k :| k in s && forall j :: j in s ==> k <= j;
    k
  }

  function DevicesOf(bundles: map<(User, Device), Signed>, u: User): set<Device> {
    set b | b in bundles && b.0 == u :: b.1
  }

  datatype Fetched = NoBundle | Bundle(device: Device, signed: Signed, oneTime: Option<OneTime>)

  /** The bundle of the user's lowest device is looked up first: without one no key is consumed. */
  function Fetch(t: Table, u: User): (Table, Fetched) {
    if DevicesOf(t.bundles, u) == {} then (t, NoBundle)
    else
      var d := Lowest(DevicesOf(t.bundles, u));
      assert (u, d) in t.bundles;
      var signed := t.bundles[(u, d)];
      if IdsOf(t.keys, u) == {} then (t, Bundle(d, signed, None))
      else
        var id := Lowest(IdsOf(t.keys, u));
        assert (u, id) in t.keys;
        (t.(keys := t.keys - {(u, id)}), Bundle(d, signed, Some(OneTime(id, t.keys[(u, id)]))))
  }

  class Server {
    var bundles: map<(User, Device), Signed>
    var keys: map<(User, KeyId), PublicKey>

    ghost function Value(): Table
      reads this
    {
      Table(bundles, keys)
    }

    constructor ()
      ensures Value() == Table(map[], map[])
    {
      bundles, keys := map[], map[];
    }

    method UploadBundle(u: User, d: Device, signed: Signed, ks: seq<OneTime>)
      modifies this
      ensures Value() == Upload(old(Value()), u, d, signed, ks)
    {
      bundles := bundles[(u, d) := signed];
      for i := 0 to |ks|
        invariant bundles == old(bundles)[(u, d) := signed]
        invariant keys == InsertAll(old(keys), u, ks[..i])
      {
        if (u, ks[i].keyId) !in keys {
          keys := keys[(u, ks[i].keyId) := ks[i].key];
        }
        assert ks[..i + 1][..i] == ks[..i];
      }
      assert ks[..|ks|] == ks;
    }

    method FetchBundle(u: User) returns (r: Fetched)
      modifies this
      ensures (Value(), r) == Fetch(old(Value()), u)
    {
      var devices := DevicesOf(bundles, u);
      if devices == {} {
        return NoBundle;
      }
      var d := Lowest(devices);
      assert (u, d) in bundles;
      var ids := IdsOf(keys, u);
      if ids == {} {
        return Bundle(d, bundles[(u, d)], None);
      }
      var id := Lowest(ids);
      assert (u, id) in keys;
      r := Bundle(d, bundles[(u, d)], Some(OneTime(id, keys[(u, id)])));
      keys := keys - {(u, id)};
    }
  }

  // ── Runs ──

  datatype Event = Uploaded(u: User, d: Device, signed: Signed, ks: seq<OneTime>) | Asked(u: User)

  function Apply(t: Table, e: Event): Table {
    if e.Uploaded? then Upload(t, e.u, e.d, e.signed, e.ks) else Fetch(t, e.u).0
  }

  function Run(es: seq<Event>): Table {
    if es == [] then Table(map[], map[]) else Apply(Run(es[..|es| - 1]), es[|es| - 1])
  }

  /** The event hands out this key of this user. */
  predicate Hands(t: Table, e: Event, u: User, id: KeyId) {
    e == Asked(u) && Fetch(t, u).1.Bundle? && Fetch(t, u).1.oneTime.Some? && Fetch(t, u).1.oneTime.value.keyId == id
  }

  predicate Lists(ks: seq<OneTime>, id: KeyId) {
    exists k :: k in ks && k.keyId == id
  }

  /** The event puts the key id in the table: it lists it and the table does not have it. */
  predicate Adds(t: Table, e: Event, u: User, id: KeyId) {
    e.Uploaded? && e.u == u && Lists(e.ks, id) && (u, id) !in t.keys
  }

  /** How often the key was handed out. */
  function Handed(es: seq<Event>, u: User, id: KeyId): nat {
    if es == [] then 0
    else Handed(es[..|es| - 1], u, id) + if Hands(Run(es[..|es| - 1]), es[|es| - 1], u, id) then 1 else 0
  }

  function Added(es: seq<Event>, u: User, id: KeyId): nat {
    if es == [] then 0
    else Added(es[..|es| - 1], u, id) + if Adds(Run(es[..|es| - 1]), es[|es| - 1], u, id) then 1 else 0
  }

  /** In how many uploads the key id is listed. */
  function Listings(es: seq<Event>, u: User, id: KeyId): nat {
    if es == [] then 0
    else
      var e := es[|es| - 1];
      Listings(es[..|es| - 1], u, id) + if e.Uploaded? && e.u == u && Lists(e.ks, id) then 1 else 0
  }

  // ── What one statement does ──

  lemma {:induction false} InsertAllExactly(keys: map<(User, KeyId), PublicKey>, u: User, ks: seq<OneTime>,
                                            k: (User, KeyId))
    ensures k in InsertAll(keys, u, ks) <==> k in keys || (k.0 == u && Lists(ks, k.1))
    ensures k in keys ==> InsertAll(keys, u, ks)[k] == keys[k]
  {
    if ks != [] {
      var before, last := ks[..|ks| - 1], ks[|ks| - 1];
      InsertAllExactly(keys, u, before, k);
      assert ks == before + [last];
      assert last in ks;
    }
  }

  /** A fetch returns the bundle of the user's lowest device and hands out the lowest id the user has, with its key;
      it removes that row and no other. */
  lemma FetchExactly(t: Table, u: User)
    ensures Fetch(t, u).0.bundles == t.bundles
    ensures Fetch(t, u).1.NoBundle? <==> forall b :: b in t.bundles ==> b.0 != u
    ensures Fetch(t, u).1.NoBundle? ==> Fetch(t, u).0 == t
    ensures Fetch(t, u).1.Bundle? ==>
              var o, d := Fetch(t, u).1.oneTime, Fetch(t, u).1.device;
              && (u, d) in t.bundles && Fetch(t, u).1.signed == t.bundles[(u, d)]
              && (forall b :: b in t.bundles && b.0 == u ==> d <= b.1)
              && (o.None? <==> forall k :: k in t.keys ==> k.0 != u)
              && (o.Some? ==> (u, o.value.keyId) in t.keys && t.keys[(u, o.value.keyId)] == o.value.key
                              && (forall k :: k in t.keys && k.0 == u ==> o.value.keyId <= k.1)
                              && Fetch(t, u).0.keys == t.keys - {(u, o.value.keyId)})
  {
    forall k | k in t.keys && k.0 == u
      ensures k.1 in IdsOf(t.keys, u)
    {
      assert k == (u, k.1);
    }
    forall b | b in t.bundles && b.0 == u
      ensures b.1 in DevicesOf(t.bundles, u)
    {
      assert b == (u, b.1);
    }
    if Fetch(t, u).1.Bundle? && Fetch(t, u).1.oneTime.None? {
      forall k | k in t.keys
        ensures k.0 != u
      {
        assert k.0 == u ==> k.1 in IdsOf(t.keys, u);
      }
    }
  }

  // ── Upload ──

  /** The first of the keys with this id. */
  predicate FirstListed(ks: seq<OneTime>, i: nat, id: KeyId) {
    i < |ks| && ks[i].keyId == id && forall j :: 0 <= j < i ==> ks[j].keyId != id
  }

  /** A new id gets the key first listed under it. */
  lemma {:induction false} NewKeyExactly(
      keys: map<(User, KeyId), PublicKey>, u: User, ks: seq<OneTime>, id: KeyId, i: nat)
    requires (u, id) !in keys && FirstListed(ks, i, id)
    ensures (u, id) in InsertAll(keys, u, ks) && InsertAll(keys, u, ks)[(u, id)] == ks[i].key
  {
    var before := ks[..|ks| - 1];
    if i < |before| {
      NewKeyExactly(keys, u, before, id, i);
    } else {
      InsertAllExactly(keys, u, before, (u, id));
      NotListed(before, id);
    }
  }

  lemma NotListed(ks: seq<OneTime>, id: KeyId)
    requires forall j :: 0 <= j < |ks| ==> ks[j].keyId != id
    ensures !Lists(ks, id)
  {
  }

  /** An upload replaces the signed bundle of its device and no other, keeps every one-time key that is there, and adds
      each new id with the key first listed under it. */
  lemma UploadExactly(t: Table, u: User, d: Device, signed: Signed, ks: seq<OneTime>, id: KeyId)
    ensures var n := Upload(t, u, d, signed, ks);
            && (forall b :: b in n.bundles <==> b in t.bundles || b == (u, d))
            && (u, d) in n.bundles && n.bundles[(u, d)] == signed
            && (forall b :: b in t.bundles && b != (u, d) ==> n.bundles[b] == t.bundles[b])
            && (forall k :: k in t.keys ==> k in n.keys && n.keys[k] == t.keys[k])
            && (forall k :: k in n.keys ==> k in t.keys || (k.0 == u && Lists(ks, k.1)))
            && (forall i: nat :: FirstListed(ks, i, id) && (u, id) !in t.keys ==>
                  (u, id) in n.keys && n.keys[(u, id)] == ks[i].key)
  {
    var n := Upload(t, u, d, signed, ks);
    forall k
      ensures k in n.keys <==> k in t.keys || (k.0 == u && Lists(ks, k.1))
      ensures k in t.keys ==> n.keys[k] == t.keys[k]
    {
      InsertAllExactly(t.keys, u, ks, k);
    }
    forall i: nat | FirstListed(ks, i, id) && (u, id) !in t.keys
      ensures (u, id) in n.keys && n.keys[(u, id)] == ks[i].key
    {
      NewKeyExactly(t.keys, u, ks, id, i);
    }
  }

  // ── Hand-out over runs ──

  /** Conservation: every key put in the table is still there or was handed out, once. */
  lemma {:induction false} HandedOrThere(es: seq<Event>, u: User, id: KeyId)
    ensures Handed(es, u, id) + (if (u, id) in Run(es).keys then 1 else 0) == Added(es, u, id)
  {
    if es != [] {
      var before, e := es[..|es| - 1], es[|es| - 1];
      HandedOrThere(before, u, id);
      StepHands(Run(before), e, u, id);
    }
  }

  lemma StepHands(t: Table, e: Event, u: User, id: KeyId)
    ensures (u, id) in Apply(t, e).keys <==> ((u, id) in t.keys && !Hands(t, e, u, id)) || Adds(t, e, u, id)
    ensures Hands(t, e, u, id) ==> (u, id) in t.keys
  {
    if e.Uploaded? {
      InsertAllExactly(t.keys, e.u, e.ks, (u, id));
    } else {
      FetchExactly(t, e.u);
    }
  }

  lemma {:induction false} AddedWhenListed(es: seq<Event>, u: User, id: KeyId)
    ensures Added(es, u, id) <= Listings(es, u, id)
  {
    if es != [] {
      AddedWhenListed(es[..|es| - 1], u, id);
    }
  }

  /** A key id uploaded at most once is handed to at most one fetch. */
  lemma HandedOnce(es: seq<Event>, u: User, id: KeyId)
    requires Listings(es, u, id) <= 1
    ensures Handed(es, u, id) <= 1
  {
    HandedOrThere(es, u, id);
    AddedWhenListed(es, u, id);
  }

  function Cycles(u: User, d: Device, signed: Signed, k: OneTime, n: nat): seq<Event> {
    if n == 0 then [] else Cycles(u, d, signed, k, n - 1) + [Uploaded(u, d, signed, [k]), Asked(u)]
  }

  lemma OneEventMore(es: seq<Event>, e: Event, u: User, id: KeyId)
    ensures Run(es + [e]) == Apply(Run(es), e)
    ensures Handed(es + [e], u, id) == Handed(es, u, id) + if Hands(Run(es), e, u, id) then 1 else 0
  {
    assert (es + [e])[..|es|] == es;
  }

  lemma CyclesStep(u: User, d: Device, signed: Signed, k: OneTime, n: nat)
    requires n > 0
    ensures Cycles(u, d, signed, k, n) == Cycles(u, d, signed, k, n - 1) + [Uploaded(u, d, signed, [k]), Asked(u)]
  {
  }

  lemma NoEvents(u: User, id: KeyId)
    ensures Handed([], u, id) == 0 && Run([]).keys == map[]
  {
  }

  /** A key id uploaded again after each hand-out goes out again each time. */
  lemma {:induction false} UploadedAgain(u: User, d: Device, signed: Signed, k: OneTime, n: nat)
    ensures Handed(Cycles(u, d, signed, k, n), u, k.keyId) == n && Run(Cycles(u, d, signed, k, n)).keys == map[]
  {
    if n == 0 {
      NoEvents(u, k.keyId);
    } else {
      UploadedAgain(u, d, signed, k, n - 1);
      CycleMore(u, d, signed, k, n);
    }
  }

  lemma CycleMore(u: User, d: Device, signed: Signed, k: OneTime, n: nat)
    requires n > 0
    requires Handed(Cycles(u, d, signed, k, n - 1), u, k.keyId) == n - 1
    requires Run(Cycles(u, d, signed, k, n - 1)).keys == map[]
    ensures Handed(Cycles(u, d, signed, k, n), u, k.keyId) == n && Run(Cycles(u, d, signed, k, n)).keys == map[]
  {
    CyclesStep(u, d, signed, k, n);
    OneCycle(Cycles(u, d, signed, k, n - 1), u, d, signed, k);
  }

  lemma OneCycle(es: seq<Event>, u: User, d: Device, signed: Signed, k: OneTime)
    requires Run(es).keys == map[]
    ensures var all := es + [Uploaded(u, d, signed, [k]), Asked(u)];
            Handed(all, u, k.keyId) == Handed(es, u, k.keyId) + 1 && Run(all).keys == map[]
  {
    var uploaded := es + [Uploaded(u, d, signed, [k])];
    assert es + [Uploaded(u, d, signed, [k]), Asked(u)] == uploaded + [Asked(u)];
    OneEventMore(es, Uploaded(u, d, signed, [k]), u, k.keyId);
    OneEventMore(uploaded, Asked(u), u, k.keyId);
    OnlyKey(Run(es), u, d, signed, k);
  }

  lemma OnlyKey(t: Table, u: User, d: Device, signed: Signed, k: OneTime)
    requires t.keys == map[]
    ensures var n := Upload(t, u, d, signed, [k]); Hands(n, Asked(u), u, k.keyId) && Fetch(n, u).0.keys == map[]
  {
    var n := Upload(t, u, d, signed, [k]);
    assert [k][..0] == [] && InsertAll(t.keys, u, []) == t.keys;
    assert InsertAll(t.keys, u, [k]) == Insert(t.keys, u, k);
    assert n.keys == map[(u, k.keyId) := k.key];
    assert (u, d) in n.bundles && d in DevicesOf(n.bundles, u);
    FetchExactly(n, u);
    assert (u, k.keyId) in n.keys && forall x :: x in n.keys ==> x == (u, k.keyId);
  }

  // ── Lowest first ──

  ghost predicate NoUploadOf(es: seq<Event>, u: User) {
    forall i :: 0 <= i < |es| ==> !(es[i].Uploaded? && es[i].u == u)
  }

  /** From one upload to the next a user's ids go out in increasing order: after `id`, only higher ones. */
  lemma {:induction false} LowestFirst(t: Table, es: seq<Event>, u: User, id: KeyId)
    requires NoUploadOf(es, u) && Hands(t, Asked(u), u, id)
    ensures forall k :: k in RunFrom(Fetch(t, u).0, es).keys && k.0 == u ==> id < k.1
  {
    if es == [] {
      FetchExactly(t, u);
    } else {
      var before, e := es[..|es| - 1], es[|es| - 1];
      LowestFirst(t, before, u, id);
      var now := RunFrom(Fetch(t, u).0, before);
      forall k | k in Apply(now, e).keys && k.0 == u
        ensures k in now.keys
      {
        if e.Uploaded? {
          InsertAllExactly(now.keys, e.u, e.ks, k);
        }
      }
    }
  }

  function RunFrom(t: Table, es: seq<Event>): Table {
    if es == [] then t else Apply(RunFrom(t, es[..|es| - 1]), es[|es| - 1])
  }

  /** So of two hand-outs with no upload of that user between them, the later has the higher id. */
  lemma IdsAscend(t: Table, es: seq<Event>, u: User, id: KeyId, later: KeyId)
    requires NoUploadOf(es, u) && Hands(t, Asked(u), u, id) && Hands(RunFrom(Fetch(t, u).0, es), Asked(u), u, later)
    ensures id < later
  {
    LowestFirst(t, es, u, id);
    FetchExactly(RunFrom(Fetch(t, u).0, es), u);
  }

  // ── The responder's side ──

  datatype Incoming = Incoming(peer: Ratchet.PeerId, env: Ratchet.Envelope, newKey: nat)

  function Decrypts(st: Ratchet.Store, ins: seq<Incoming>): Ratchet.Store {
    if ins == [] then st
    else
      var m := ins[|ins| - 1];
      Ratchet.Decrypt(Decrypts(st, ins[..|ins| - 1]), m.peer, m.env, m.newKey).0
  }

  /** The call computes a shared secret with the private one-time key of this id. */
  predicate Uses(st: Ratchet.Store, m: Incoming, id: int) {
    && m.env.PreKeyMessage? && st.identity.Some? && m.env.spkId in st.signedPreKeys
    && m.env.opkId == Some(id) && Ratchet.OneTimeKey(st, m.env.opkId).Some?
  }

  function TimesUsed(st: Ratchet.Store, ins: seq<Incoming>, id: int): nat {
    if ins == [] then 0
    else
      TimesUsed(st, ins[..|ins| - 1], id)
      + if Uses(Decrypts(st, ins[..|ins| - 1]), ins[|ins| - 1], id) then 1 else 0
  }

  lemma OneUse(st: Ratchet.Store, m: Incoming, id: int)
    ensures var n := Ratchet.Decrypt(st, m.peer, m.env, m.newKey).0;
            (id in n.preKeys <==> id in st.preKeys && !Uses(st, m, id))
            && (id in n.preKeys ==> n.preKeys[id] == st.preKeys[id])
  {
  }

  /** Over any run of incoming envelopes, replayed or forged as they may be, each private one-time key enters
      at most one shared secret: it is still in the store or was used once. */
  lemma {:induction false} UsedOnce(st: Ratchet.Store, ins: seq<Incoming>, id: int)
    ensures TimesUsed(st, ins, id) + (if id in Decrypts(st, ins).preKeys then 1 else 0)
            == (if id in st.preKeys then 1 else 0)
    ensures id in Decrypts(st, ins).preKeys ==> Decrypts(st, ins).preKeys[id] == st.preKeys[id]
  {
    if ins != [] {
      UsedOnce(st, ins[..|ins| - 1], id);
      OneUse(Decrypts(st, ins[..|ins| - 1]), ins[|ins| - 1], id);
    }
  }
}
