/** Two devices, a network that delays, drops and reorders, and every run of them.

    `hist`, `epoch`, `got` and the `slot` and `plain` of a packet are bookkeeping: no session reads
    them. They say what was sent and consumed, and the delivery assumptions are stated with them. */
module TwoParty {
  import opened Crypto
  import opened Ratchet
  import opened History

  datatype Role = Alice | Bob

  function Peer(r: Role): PeerId { if r == Alice then 1 else 0 }

  function Other(r: Role): Role { if r == Alice then Bob else Alice }

  /** The key material of the X3DH handshake Alice opens with Bob's bundle. */
  datatype Handshake = Handshake(ikA: nat, ekA: nat, ikB: nat, spkId: int, spkB: nat, opk: Option<(int, nat)>)

  datatype Packet = Packet(from: Role, slot: Slot, plain: Plaintext, env: Envelope)

  datatype Party = Party(store: Store, epoch: nat, got: set<Slot>)

  datatype Sys = Sys(hs: Handshake, hist: Hist, a: Party, b: Party, net: seq<Packet>)

  datatype Step =
    | Send(who: Role, plain: Plaintext)
    | Deliver(i: nat, newKey: nat)

  function PartyOf(s: Sys, r: Role): Party { if r == Alice then s.a else s.b }

  function WithParty(s: Sys, r: Role, p: Party): Sys { if r == Alice then s.(a := p) else s.(b := p) }

  function Info(hs: Handshake): PreKeyInfo {
    PreKeyInfo(Pub(hs.ikA), Pub(hs.ekA), hs.spkId, if hs.opk.Some? then Some(hs.opk.value.0) else None)
  }

  function BundleOf(hs: Handshake): Bundle {
    Bundle(Pub(hs.ikB), hs.spkId, Pub(hs.spkB), Signature(hs.ikB, Pub(hs.spkB)),
           if hs.opk.Some? then Some((hs.opk.value.0, Pub(hs.opk.value.1))) else None)
  }

  function Secret(hs: Handshake): RootKey {
    X3dh(Priv(hs.ikA), Priv(hs.ekA), Pub(hs.ikB), Pub(hs.spkB),
         if hs.opk.Some? then Some(Pub(hs.opk.value.1)) else None)
  }

  predicate Used(hs: Handshake, k: nat) {
    k == hs.ikA || k == hs.ekA || k == hs.ikB || k == hs.spkB || (hs.opk.Some? && k == hs.opk.value.1)
  }

  predicate DistinctIds(hs: Handshake) {
    && hs.ikA != hs.ekA && hs.ikA != hs.ikB && hs.ikA != hs.spkB && hs.ekA != hs.ikB && hs.ekA != hs.spkB && hs.ikB !=
    hs.spkB
    && (hs.opk.Some? ==> hs.opk.value.1 !in {hs.ikA, hs.ekA, hs.ikB, hs.spkB})
  }

  // ── Steps ──

  function SendStep(s: Sys, who: Role, plain: Plaintext): Sys {
    var p := PartyOf(s, who);
    var (st, r) := Encrypt(p.store, Peer(who), plain);
    if r.NotSent? || p.epoch >= |s.hist.cnt| then s
    else
      var n := s.hist.cnt[p.epoch];
      WithParty(s, who, p.(store := st)).(
        hist := s.hist.(cnt := s.hist.cnt[p.epoch := n + 1]),
        net := s.net + [Packet(who, Slot(p.epoch, n), plain, r.envelope)])
  }

  function Decrypted(s: Sys, i: nat, newKey: nat): (Store, Outcome)
    requires i < |s.net|
  {
    var who := Other(s.net[i].from);
    Decrypt(PartyOf(s, who).store, Peer(who), s.net[i].env, newKey)
  }

  function DeliverStep(s: Sys, i: nat, newKey: nat): Sys
    requires i < |s.net| && 1 <= |s.hist.keys| == |s.hist.roots|
  {
    var who := Other(s.net[i].from);
    var p := PartyOf(s, who);
    var slot := s.net[i].slot;
    var (st, o) := Decrypted(s, i, newKey);
    if o.Opened? then
      var t := WithParty(s, who, Party(st, slot.chain + 1, p.got + {slot}));
      if slot.chain + 1 == p.epoch then t else t.(hist := Extend(s.hist, newKey))
    else
      WithParty(s, who, p.(store := st))
  }

  /** The delivery assumptions: a packet is not consumed twice, and none of a superseded chain comes
      up for delivery; generated key pairs are new. A refused packet may be offered again. */
  predicate Enabled(s: Sys, step: Step) {
    match step
    case Send(_, _) => true
    case Deliver(i, k) =>
      && i < |s.net|
      && k !in s.hist.keys && !Used(s.hs, k)
      && s.net[i].slot !in PartyOf(s, Other(s.net[i].from)).got
      && s.net[i].slot.chain + 1 >= PartyOf(s, Other(s.net[i].from)).epoch
  }

  function Next(s: Sys, step: Step): Sys
    requires 1 <= |s.hist.keys| == |s.hist.roots|
    requires Enabled(s, step)
    ensures 1 <= |Next(s, step).hist.keys| == |Next(s, step).hist.roots|
  {
    match step
    case Send(who, plain) => SendStep(s, who, plain)
    case Deliver(i, k) => DeliverStep(s, i, k)
  }

  // ── Invariant ──

  ghost function EnvelopeAt(hs: Handshake, h: Hist, sl: Slot, plain: Plaintext): Envelope
    requires Chain(h, sl.chain)
  {
    var hd, box := HeaderAt(h, sl.chain, sl.n), Box(KeyAt(h, sl.chain, sl.n), plain);
    if sl == Slot(1, 0) then
      var pk := Info(hs);
      PreKeyMessage(pk.identityKey, pk.ephemeralKey, pk.spkId, pk.opkId, hd, box)
    else SignalMessage(hd, box)
  }

  ghost predicate PacketOk(hs: Handshake, h: Hist, p: Packet) {
    && Chain(h, p.slot.chain)
    && p.slot.n < h.cnt[p.slot.chain]
    && (p.slot.chain % 2 == 1 <==> p.from == Alice)
    && p.env == EnvelopeAt(hs, h, p.slot, p.plain)
  }

  ghost predicate NetInv(hs: Handshake, h: Hist, net: seq<Packet>) {
    && (forall i :: 0 <= i < |net| ==> PacketOk(hs, h, net[i]))
    && (forall i, j :: 0 <= i < j < |net| ==> net[i].slot != net[j].slot)
  }

  ghost predicate BobReady(hs: Handshake, st: Store) {
    && st.identity == Some(hs.ikB)
    && hs.spkId in st.signedPreKeys && st.signedPreKeys[hs.spkId] == Priv(hs.spkB)
    && (hs.opk.Some? ==> hs.opk.value.0 in st.preKeys && st.preKeys[hs.opk.value.0] == Priv(hs.opk.value.1))
  }

  /** After the handshake Bob still has his identity and signed pre-key, but no longer the one-time key. */
  ghost predicate BobSpent(hs: Handshake, st: Store) {
    && st.identity == Some(hs.ikB)
    && hs.spkId in st.signedPreKeys && st.signedPreKeys[hs.spkId] == Priv(hs.spkB)
    && (hs.opk.Some? ==> hs.opk.value.0 !in st.preKeys)
  }

  ghost predicate HistInv(hs: Handshake, h: Hist) {
    && WellFormed(h) && DistinctIds(hs)
    && h.keys[0] == hs.spkB && h.roots[0] == Secret(hs)
    && (forall i :: 1 <= i < |h.keys| ==> !Used(hs, h.keys[i]))
    && (|h.keys| > 2 ==> h.cnt[1] > 0)
  }

  ghost predicate AliceInv(hs: Handshake, h: Hist, p: Party) {
    && p.epoch % 2 == 1
    && Peer(Alice) in p.store.sessions
    && var t := p.store.sessions[Peer(Alice)];
      && PartyInv(h, p.epoch, t, p.got)
      && t.isInitiator
      && t.pendingPreKeyMsg == if h.cnt[1] == 0 then Some(Info(hs)) else None
  }

  ghost predicate BobInv(hs: Handshake, h: Hist, p: Party) {
    if p.epoch == 0 then
      p.got == {} && Peer(Bob) !in p.store.sessions && BobReady(hs, p.store)
    else
      && p.epoch % 2 == 0
      && Peer(Bob) in p.store.sessions
      && Slot(1, 0) in p.got
      && BobSpent(hs, p.store)
      && !p.store.sessions[Peer(Bob)].isInitiator
      && PartyInv(h, p.epoch, p.store.sessions[Peer(Bob)], p.got)
  }

  ghost predicate RoleInv(hs: Handshake, h: Hist, p: Party, r: Role) {
    if r == Alice then AliceInv(hs, h, p) else BobInv(hs, h, p)
  }

  /** The parties are one ratchet step apart, and the history ends with the later one's key. */
  ghost predicate Paired(h: Hist, ea: nat, eb: nat) {
    && 1 <= ea
    && (ea == eb + 1 || eb == ea + 1 || (eb == 0 && ea == 1))
    && |h.keys| == 1 + if ea < eb then eb else ea
  }

  ghost predicate Inv(s: Sys) {
    && HistInv(s.hs, s.hist) && NetInv(s.hs, s.hist, s.net)
    && RoleInv(s.hs, s.hist, s.a, Alice) && RoleInv(s.hs, s.hist, s.b, Bob)
    && Paired(s.hist, s.a.epoch, s.b.epoch)
  }

  // ── The opening state ──

  /** Alice has processed Bob's bundle with `initSessionFromBundle`; nothing has been sent. */
  ghost predicate Opening(s: Sys, a0: Store, ratchet: nat) {
    && DistinctIds(s.hs) && !Used(s.hs, ratchet)
    && a0.identity == Some(s.hs.ikA)
    && InitFromBundle(a0, Peer(Alice), BundleOf(s.hs), s.hs.ekA, ratchet) == (s.a.store, None)
    && s.a.epoch == 1 && s.a.got == {}
    && s.b.epoch == 0 && s.b.got == {} && BobReady(s.hs, s.b.store) && Peer(Bob) !in s.b.store.sessions
    && s.net == []
    && s.hist == Hist([s.hs.spkB, ratchet],
                      [Secret(s.hs), NextRoot(Secret(s.hs), Dh(Priv(ratchet), Pub(s.hs.spkB)))], [0, 0])
  }

  lemma OpeningInv(s: Sys, a0: Store, ratchet: nat)
    requires Opening(s, a0, ratchet)
    ensures Inv(s)
  {
    var t := s.a.store.sessions[Peer(Alice)];
    assert Advance(Seed(s.hist, 1), 0) == Seed(s.hist, 1);
    assert PartyInv(s.hist, 1, t, {});
  }

  // ── Sending ──

  ghost function Bump(h: Hist, e: nat): Hist
    requires e < |h.cnt|
  {
    h.(cnt := h.cnt[e := h.cnt[e] + 1])
  }

  lemma SealInv(h: Hist, e: nat, s: Session, got: set<Slot>, plain: Plaintext)
    requires PartyInv(h, e, s, got)
    ensures var (t, env) := Seal(s, plain);
            PartyInv(Bump(h, e), e, t, got)
            && env.h == HeaderAt(h, e, h.cnt[e]) && env.ct == Box(KeyAt(h, e, h.cnt[e]), plain)
  {
    var (t, env) := Seal(s, plain);
    var g := Bump(h, e);
    LedgerFrame(h, g, e, s.recvCount, s.skipped, got);
    assert Seed(g, e) == Seed(h, e);
    assert InStep(g, e, t);
  }

  lemma NetFrame(hs: Handshake, h: Hist, g: Hist, net: seq<Packet>)
    requires NetInv(hs, h, net)
    requires |h.keys| == |h.roots| == |h.cnt| <= |g.keys| == |g.roots| == |g.cnt|
    requires forall i :: 0 <= i < |h.keys| ==> g.keys[i] == h.keys[i] && g.roots[i] == h.roots[i]
    requires forall i :: 0 <= i < |h.keys| ==> g.cnt[i] >= h.cnt[i]
    requires forall i :: 0 <= i < |h.keys| - 2 ==> g.cnt[i] == h.cnt[i]
    ensures NetInv(hs, g, net)
  {
    forall i | 0 <= i < |net|
      ensures PacketOk(hs, g, net[i])
    {
      assert PacketOk(hs, h, net[i]);
    }
  }

  lemma SendNet(hs: Handshake, h: Hist, net: seq<Packet>, p: Packet)
    requires WellFormed(h) && NetInv(hs, h, net) && Chain(h, p.slot.chain) && p.slot.chain >= |h.keys| - 2
    requires p.slot.n == h.cnt[p.slot.chain] && PacketOk(hs, Bump(h, p.slot.chain), p)
    ensures NetInv(hs, Bump(h, p.slot.chain), net + [p])
  {
    NetFrame(hs, h, Bump(h, p.slot.chain), net);
    forall i | 0 <= i < |net|
      ensures net[i].slot != p.slot
    {
      assert PacketOk(hs, h, net[i]);
    }
  }

  /** The envelope produced is the one the history prescribes: type 1 for the very first, type 2 after. */
  lemma RoleSends(hs: Handshake, h: Hist, p: Party, who: Role, plain: Plaintext)
    requires HistInv(hs, h) && RoleInv(hs, h, p, who) && p.epoch != 0
    requires p.epoch >= 2 ==> h.cnt[1] > 0
    ensures var (t, env) := Seal(p.store.sessions[Peer(who)], plain);
            var g := Bump(h, p.epoch);
            && RoleInv(hs, g, p.(store := p.store.(sessions := p.store.sessions[Peer(who) := t])), who)
            && PacketOk(hs, g, Packet(who, Slot(p.epoch, h.cnt[p.epoch]), plain, env))
  {
    SealInv(h, p.epoch, p.store.sessions[Peer(who)], p.got, plain);
  }

  /** A party's invariant survives the other one sending or ratcheting. */
  lemma RoleFrame(hs: Handshake, h: Hist, g: Hist, p: Party, r: Role)
    requires HistInv(hs, h) && RoleInv(hs, h, p, r) && WellFormed(g)
    requires p.epoch != 0 ==> Grows(h, g, p.epoch)
    requires r == Alice ==> h.cnt[1] == g.cnt[1]
    ensures RoleInv(hs, g, p, r)
  {
    if p.epoch != 0 {
      Frame(h, g, p.epoch, p.store.sessions[Peer(r)], p.got);
    }
  }

  lemma Parts(s: Sys, who: Role)
    requires Inv(s)
    ensures HistInv(s.hs, s.hist) && NetInv(s.hs, s.hist, s.net) && Paired(s.hist, s.a.epoch, s.b.epoch)
    ensures RoleInv(s.hs, s.hist, PartyOf(s, who), who) && RoleInv(s.hs, s.hist, PartyOf(s, Other(who)), Other(who))
  {
  }

  lemma Assembled(s: Sys, who: Role)
    requires HistInv(s.hs, s.hist) && NetInv(s.hs, s.hist, s.net) && Paired(s.hist, s.a.epoch, s.b.epoch)
    requires RoleInv(s.hs, s.hist, PartyOf(s, who), who) && RoleInv(s.hs, s.hist, PartyOf(s, Other(who)), Other(who))
    ensures Inv(s)
  {
  }

  /** The parties' epochs, seen from either side. */
  ghost predicate PairedAs(h: Hist, who: Role, mine: nat, theirs: nat) {
    if who == Alice then Paired(h, mine, theirs) else Paired(h, theirs, mine)
  }

  /** One more message on the sending chain of one party, seen from the other. */
  lemma BumpKeeps(hs: Handshake, h: Hist, who: Role, mine: nat, q: Party)
    requires HistInv(hs, h) && RoleInv(hs, h, q, Other(who)) && mine != 0 && PairedAs(h, who, mine, q.epoch)
    requires mine % 2 == 1 <==> who == Alice
    ensures HistInv(hs, Bump(h, mine)) && RoleInv(hs, Bump(h, mine), q, Other(who))
  {
    RoleFrame(hs, h, Bump(h, mine), q, Other(who));
  }

  lemma GrowInv(s: Sys, who: Role, p: Party, pk: Packet)
    requires Inv(s) && p.epoch == PartyOf(s, who).epoch != 0
    requires pk.slot == Slot(p.epoch, s.hist.cnt[p.epoch])
    requires RoleInv(s.hs, Bump(s.hist, p.epoch), p, who)
    requires PacketOk(s.hs, Bump(s.hist, p.epoch), pk)
    ensures Inv(WithParty(s, who, p).(hist := Bump(s.hist, p.epoch), net := s.net + [pk]))
  {
    Parts(s, who);
    SendNet(s.hs, s.hist, s.net, pk);
    BumpKeeps(s.hs, s.hist, who, p.epoch, PartyOf(s, Other(who)));
    Assembled(WithParty(s, who, p).(hist := Bump(s.hist, p.epoch), net := s.net + [pk]), who);
  }

  lemma SendStepIs(s: Sys, who: Role, plain: Plaintext)
    requires var p := PartyOf(s, who); p.epoch != 0 && p.epoch < |s.hist.cnt| && Peer(who) in p.store.sessions
    requires PartyOf(s, who).store.sessions[Peer(who)].sendChainKey.Some?
    ensures var p := PartyOf(s, who);
            var (t, env) := Seal(p.store.sessions[Peer(who)], plain);
            var q := p.(store := p.store.(sessions := p.store.sessions[Peer(who) := t]));
            var pk := Packet(who, Slot(p.epoch, s.hist.cnt[p.epoch]), plain, env);
            SendStep(s, who, plain) == WithParty(s, who, q).(hist := Bump(s.hist, p.epoch), net := s.net + [pk])
  {
  }

  lemma CanSeal(s: Sys, who: Role)
    requires Inv(s) && PartyOf(s, who).epoch != 0
    ensures var p := PartyOf(s, who);
            && p.epoch < |s.hist.cnt| && Peer(who) in p.store.sessions && p.store.sessions[Peer(who)].sendChainKey.Some?
            && HistInv(s.hs, s.hist) && RoleInv(s.hs, s.hist, p, who) && (p.epoch >= 2 ==> s.hist.cnt[1] > 0)
  {
  }

  lemma SendInv(s: Sys, who: Role, plain: Plaintext)
    requires Inv(s)
    ensures Inv(SendStep(s, who, plain))
  {
    var p := PartyOf(s, who);
    if p.epoch != 0 {
      CanSeal(s, who);
      SendStepIs(s, who, plain);
      SealedInv(s, who, plain);
    }
  }

  lemma SealedInv(s: Sys, who: Role, plain: Plaintext)
    requires Inv(s) && PartyOf(s, who).epoch != 0
    requires var p := PartyOf(s, who);
             p.epoch < |s.hist.cnt| && Peer(who) in p.store.sessions && p.store.sessions[Peer(who)].sendChainKey.Some?
    ensures var p := PartyOf(s, who);
            var (t, env) := Seal(p.store.sessions[Peer(who)], plain);
            var q := p.(store := p.store.(sessions := p.store.sessions[Peer(who) := t]));
            var pk := Packet(who, Slot(p.epoch, s.hist.cnt[p.epoch]), plain, env);
            Inv(WithParty(s, who, q).(hist := Bump(s.hist, p.epoch), net := s.net + [pk]))
  {
    var p := PartyOf(s, who);
    var (t, env) := Seal(p.store.sessions[Peer(who)], plain);
    CanSeal(s, who);
    RoleSends(s.hs, s.hist, p, who, plain);
    GrowInv(s, who, p.(store := p.store.(sessions := p.store.sessions[Peer(who) := t])),
            Packet(who, Slot(p.epoch, s.hist.cnt[p.epoch]), plain, env));
  }

  // ── Delivering ──

  /** Bob's session built from the type-1 envelope is in step at epoch 2. */
  lemma RespondInv(hs: Handshake, h: Hist, st: Store, plain: Plaintext, newKey: nat)
    requires HistInv(hs, h) && |h.keys| == 2 && BobReady(hs, st) && newKey !in h.keys
    ensures var env := EnvelopeAt(hs, h, Slot(1, 0), plain);
            var t := RespondSession(hs.ikB, Priv(hs.spkB), OneTimeKey(st, env.opkId), env, newKey);
            PartyInv(Extend(h, newKey), 2, t, {}) && t.recvCount == 0
  {
    var g := Extend(h, newKey);
    var env := EnvelopeAt(hs, h, Slot(1, 0), plain);
    var opk := OneTimeKey(st, env.opkId);
    var t := RespondSession(hs.ikB, Priv(hs.spkB), opk, env, newKey);
    ExtendWellFormed(h, newKey);
    assert X3dhRespond(Priv(hs.ikB), Priv(hs.spkB), opk, Pub(hs.ikA), Pub(hs.ekA)) == Secret(hs);
    assert g.roots[1] == NextRoot(h.roots[0], Dh(Priv(h.keys[0]), Pub(h.keys[1])));
    assert g.roots[2] == NextRoot(h.roots[1], Dh(Priv(newKey), Pub(h.keys[1])));
    assert Advance(Seed(g, 1), 0) == Seed(g, 1);
    assert Advance(Seed(g, 2), 0) == Seed(g, 2);
    assert InStep(g, 2, t);
    assert Ledger(g, 2, 0, t.skipped, {});
  }

  /** When a packet is refused: exactly when it lies more than MAX_SKIP ahead, on the chain the receiver
      is on or (through the announced length) on the one the packet supersedes. */
  ghost predicate TooFarAhead(s: Sys, i: nat)
    requires i < |s.net|
  {
    var who := Other(s.net[i].from);
    var p, sl := PartyOf(s, who), s.net[i].slot;
    && Peer(who) in p.store.sessions && p.epoch <= |s.hist.cnt|
    && var rc := p.store.sessions[Peer(who)].recvCount;
      if sl.chain + 1 == p.epoch then sl.n > rc + MAX_SKIP
      else (p.epoch >= 2 && s.hist.cnt[p.epoch - 1] > rc + MAX_SKIP) || sl.n > MAX_SKIP
  }

  ghost function Expected(s: Sys, i: nat): Outcome
    requires i < |s.net|
  {
    var who := Other(s.net[i].from);
    if Peer(who) !in PartyOf(s, who).store.sessions && s.net[i].env.SignalMessage? then Failed(NoSession)
    else if TooFarAhead(s, i) then Failed(TooManySkipped)
    else Opened(s.net[i].plain)
  }

  /** The first message reaches Bob. */
  lemma DeliverFirst(s: Sys, i: nat, newKey: nat)
    requires Inv(s) && Enabled(s, Deliver(i, newKey))
    requires s.b.epoch == 0 && s.net[i].slot == Slot(1, 0)
    ensures Decrypted(s, i, newKey).1 == Opened(s.net[i].plain)
    ensures Inv(DeliverStep(s, i, newKey))
  {
    var h, plain := s.hist, s.net[i].plain;
    assert PacketOk(s.hs, h, s.net[i]);
    var env := EnvelopeAt(s.hs, h, Slot(1, 0), plain);
    RespondInv(s.hs, h, s.b.store, plain, newKey);
    var g := Extend(h, newKey);
    var t := RespondSession(s.hs.ikB, Priv(s.hs.spkB), OneTimeKey(s.b.store, env.opkId), env, newKey);
    ReceiveCurrent(g, 2, t, {}, 0, 0, plain, newKey);
    assert KeyAt(g, 1, 0) == KeyAt(h, 1, 0);
    ExtendHistInv(s.hs, h, s.net, newKey);
    RoleFrame(s.hs, h, g, s.a, Alice);
    assert {} + {Slot(1, 0)} == {Slot(1, 0)};
  }

  lemma DeliverCurrent(s: Sys, i: nat, newKey: nat)
    requires Inv(s) && Enabled(s, Deliver(i, newKey))
    requires var e := PartyOf(s, Other(s.net[i].from)).epoch; e != 0 && s.net[i].slot.chain == e - 1
    ensures Decrypted(s, i, newKey).1 == Expected(s, i)
    ensures if Expected(s, i).Opened? then Inv(DeliverStep(s, i, newKey))
            else Decrypted(s, i, newKey).0 == PartyOf(s, Other(s.net[i].from)).store
  {
    var pk := s.net[i];
    var who := Other(pk.from);
    var p := PartyOf(s, who);
    assert PacketOk(s.hs, s.hist, pk);
    assert pk.env.SignalMessage?;
    ReceiveCurrent(s.hist, p.epoch, p.store.sessions[Peer(who)], p.got, pk.slot.n, pk.env.h.pn, pk.plain, newKey);
  }

  lemma RoleReceivesNext(hs: Handshake, h: Hist, p: Party, who: Role, n: nat, plain: Plaintext, newKey: nat)
    requires HistInv(hs, h) && RoleInv(hs, h, p, who) && p.epoch != 0
    requires |h.keys| == p.epoch + 2 && newKey !in h.keys && n < h.cnt[p.epoch + 1]
    ensures var c := p.epoch + 1;
            var s := p.store.sessions[Peer(who)];
            var (t, o) := Receive(s, HeaderAt(h, c, n), Box(KeyAt(h, c, n), plain), newKey);
            if (p.epoch >= 2 && h.cnt[p.epoch - 1] > s.recvCount + MAX_SKIP) || n > MAX_SKIP
            then o == Failed(TooManySkipped)
            else o == Opened(plain)
                 && RoleInv(hs, Extend(h, newKey),
                            Party(p.store.(sessions := p.store.sessions[Peer(who) := t]), c + 1, p.got + {Slot(c, n)}),
                            who)
  {
    var s := p.store.sessions[Peer(who)];
    RoleSession(hs, h, p, who);
    ReceiveNext(h, p.epoch, s, p.got, n, plain, newKey);
    var (t, o) := Receive(s, HeaderAt(h, p.epoch + 1, n), Box(KeyAt(h, p.epoch + 1, n), plain), newKey);
    if o.Opened? {
      RoleMovesOn(hs, h, p, who, t, Slot(p.epoch + 1, n), newKey);
    }
  }

  lemma RoleSession(hs: Handshake, h: Hist, p: Party, who: Role)
    requires RoleInv(hs, h, p, who) && p.epoch != 0
    ensures Peer(who) in p.store.sessions && PartyInv(h, p.epoch, p.store.sessions[Peer(who)], p.got)
  {
  }

  lemma RoleMovesOn(hs: Handshake, h: Hist, p: Party, who: Role, t: Session, sl: Slot, newKey: nat)
    requires RoleInv(hs, h, p, who) && p.epoch != 0 && |h.keys| == |h.roots| == |h.cnt| == p.epoch + 2
    requires PartyInv(Extend(h, newKey), p.epoch + 2, t, p.got + {sl})
    requires t.isInitiator == p.store.sessions[Peer(who)].isInitiator
    requires t.pendingPreKeyMsg == p.store.sessions[Peer(who)].pendingPreKeyMsg
    ensures RoleInv(hs, Extend(h, newKey),
                    Party(p.store.(sessions := p.store.sessions[Peer(who) := t]), p.epoch + 2, p.got + {sl}), who)
  {
    if who == Alice {
      AliceMovesOn(hs, h, p, t, p.got + {sl}, newKey);
    } else {
      BobMovesOn(hs, h, p, t, p.got + {sl}, newKey);
    }
  }

  lemma AliceMovesOn(hs: Handshake, h: Hist, p: Party, t: Session, got: set<Slot>, newKey: nat)
    requires p.epoch % 2 == 1 && |h.keys| == |h.roots| == |h.cnt| == p.epoch + 2
    requires PartyInv(Extend(h, newKey), p.epoch + 2, t, got)
    requires t.isInitiator && t.pendingPreKeyMsg == if h.cnt[1] == 0 then Some(Info(hs)) else None
    ensures AliceInv(hs, Extend(h, newKey),
                     Party(p.store.(sessions := p.store.sessions[Peer(Alice) := t]), p.epoch + 2, got))
  {
  }

  lemma BobMovesOn(hs: Handshake, h: Hist, p: Party, t: Session, got: set<Slot>, newKey: nat)
    requires p.epoch % 2 == 0 && |h.keys| == |h.roots| == |h.cnt| == p.epoch + 2
    requires PartyInv(Extend(h, newKey), p.epoch + 2, t, got)
    requires BobSpent(hs, p.store) && Slot(1, 0) in got && !t.isInitiator
    ensures BobInv(hs, Extend(h, newKey),
                   Party(p.store.(sessions := p.store.sessions[Peer(Bob) := t]), p.epoch + 2, got))
  {
  }

  lemma ExtendHistInv(hs: Handshake, h: Hist, net: seq<Packet>, newKey: nat)
    requires HistInv(hs, h) && NetInv(hs, h, net) && newKey !in h.keys && !Used(hs, newKey) && h.cnt[1] > 0
    ensures HistInv(hs, Extend(h, newKey)) && NetInv(hs, Extend(h, newKey), net)
  {
    ExtendWellFormed(h, newKey);
    NetFrame(hs, h, Extend(h, newKey), net);
  }

  /** One more ratchet key in the history, seen from the party that has not moved. */
  lemma ExtendKeeps(hs: Handshake, h: Hist, who: Role, mine: nat, q: Party, newKey: nat)
    requires HistInv(hs, h) && RoleInv(hs, h, q, Other(who)) && mine != 0 && PairedAs(h, who, mine, q.epoch)
    requires |h.keys| == mine + 2 && newKey !in h.keys
    ensures RoleInv(hs, Extend(h, newKey), q, Other(who)) && PairedAs(Extend(h, newKey), who, mine + 2, q.epoch)
  {
    ExtendWellFormed(h, newKey);
    RoleFrame(hs, h, Extend(h, newKey), q, Other(who));
  }

  /** The receiver `who` has moved on to `p`, in a history extended by its new key. */
  lemma RatchetInv(s: Sys, who: Role, p: Party, newKey: nat)
    requires Inv(s) && newKey !in s.hist.keys && !Used(s.hs, newKey)
    requires PartyOf(s, who).epoch != 0 && |s.hist.keys| == PartyOf(s, who).epoch + 2 == p.epoch
    requires s.hist.cnt[1] > 0
    requires RoleInv(s.hs, Extend(s.hist, newKey), p, who)
    ensures Inv(WithParty(s, who, p).(hist := Extend(s.hist, newKey)))
  {
    Parts(s, who);
    ExtendHistInv(s.hs, s.hist, s.net, newKey);
    ExtendKeeps(s.hs, s.hist, who, PartyOf(s, who).epoch, PartyOf(s, Other(who)), newKey);
    Assembled(WithParty(s, who, p).(hist := Extend(s.hist, newKey)), who);
  }

  lemma DeliverNext(s: Sys, i: nat, newKey: nat)
    requires Inv(s) && Enabled(s, Deliver(i, newKey))
    requires var e := PartyOf(s, Other(s.net[i].from)).epoch;
             e != 0 && s.net[i].slot.chain == e + 1 && |s.hist.keys| == e + 2
    ensures Decrypted(s, i, newKey).1 == Expected(s, i)
    ensures if Expected(s, i).Opened? then Inv(DeliverStep(s, i, newKey))
            else Decrypted(s, i, newKey).0 == PartyOf(s, Other(s.net[i].from)).store
  {
    var pk := s.net[i];
    var who := Other(pk.from);
    var p := PartyOf(s, who);
    assert PacketOk(s.hs, s.hist, pk);
    RoleReceivesNext(s.hs, s.hist, p, who, pk.slot.n, pk.plain, newKey);
    var (st, o) := Decrypted(s, i, newKey);
    if o.Opened? {
      var q := Party(st, pk.slot.chain + 1, p.got + {pk.slot});
      RatchetInv(s, who, q, newKey);
      assert DeliverStep(s, i, newKey) == WithParty(s, who, q).(hist := Extend(s.hist, newKey));
    }
  }

  /** A packet for a party with a session is on the chain that party receives on, or the one after it. */
  lemma LiveChains(s: Sys, i: nat, newKey: nat)
    requires Inv(s) && Enabled(s, Deliver(i, newKey))
    requires PartyOf(s, Other(s.net[i].from)).epoch != 0
    ensures var e := PartyOf(s, Other(s.net[i].from)).epoch;
            s.net[i].slot.chain == e - 1 || (s.net[i].slot.chain == e + 1 && |s.hist.keys| == e + 2)
  {
    assert PacketOk(s.hs, s.hist, s.net[i]);
  }

  lemma DeliverInv(s: Sys, i: nat, newKey: nat)
    requires Inv(s) && Enabled(s, Deliver(i, newKey))
    ensures Decrypted(s, i, newKey).1 == Expected(s, i)
    ensures if Expected(s, i).Opened? then Inv(DeliverStep(s, i, newKey)) else DeliverStep(s, i, newKey) == s
  {
    assert PacketOk(s.hs, s.hist, s.net[i]);
    var e := PartyOf(s, Other(s.net[i].from)).epoch;
    if e != 0 {
      LiveChains(s, i, newKey);
      if s.net[i].slot.chain == e - 1 {
        DeliverCurrent(s, i, newKey);
      } else {
        DeliverNext(s, i, newKey);
      }
    } else if s.net[i].slot == Slot(1, 0) {
      DeliverFirst(s, i, newKey);
    }
  }

  // ── Whole runs ──

  ghost predicate Reaches(s: Sys, steps: seq<Step>, t: Sys)
    decreases |steps|
  {
    if |steps| == 0 then s == t
    else
      && 1 <= |s.hist.keys| == |s.hist.roots|
      && Enabled(s, steps[0])
      && Reaches(Next(s, steps[0]), steps[1..], t)
  }

  /** A state some run from some opening state leads to. */
  ghost predicate Reachable(t: Sys) {
    exists s: Sys, a0: Store, ratchet: nat, steps: seq<Step> :: Opening(s, a0, ratchet) && Reaches(s, steps, t)
  }

  /** Every step of either party keeps the two-party invariant. */
  lemma StepInv(s: Sys, step: Step)
    requires Inv(s) && Enabled(s, step)
    ensures Inv(Next(s, step))
  {
    match step {
      case Send(who, plain) => SendInv(s, who, plain);
      case Deliver(i, k) => DeliverInv(s, i, k);
    }
  }

  lemma {:induction false} RunKeepsInv(s: Sys, steps: seq<Step>, t: Sys)
    requires Reaches(s, steps, t)
    ensures Inv(s) ==> Inv(t)
    decreases |steps|
  {
    if Inv(s) && |steps| != 0 {
      StepInv(s, steps[0]);
      RunKeepsInv(Next(s, steps[0]), steps[1..], t);
    }
  }

  /** The two-party invariant holds in every reachable state. */
  lemma ReachableInv(t: Sys)
    requires Reachable(t)
    ensures Inv(t)
  {
    var s, a0, ratchet, steps :| Opening(s, a0, ratchet) && Reaches(s, steps, t);
    OpeningInv(s, a0, ratchet);
    RunKeepsInv(s, steps, t);
  }

  /** End-to-end agreement: in every run, whatever packet the network delivers next comes out as the
      plaintext its `encrypt` was given, or is refused because it lies more than MAX_SKIP ahead, or
      finds no session because the opening message has not arrived; and a packet that does not come
      out leaves the receiver as it was. */
  lemma EndToEnd(s: Sys, i: nat, newKey: nat)
    requires Reachable(s) && Enabled(s, Deliver(i, newKey))
    ensures Decrypted(s, i, newKey).1 == Expected(s, i)
    ensures Inv(s) && (Expected(s, i).Failed? ==> DeliverStep(s, i, newKey) == s)
  {
    ReachableInv(s);
    DeliverInv(s, i, newKey);
  }

  // ── No key is used twice ──

  lemma {:induction false} RootDepth(h: Hist, i: nat)
    requires WellFormed(h) && i < |h.roots|
    ensures Depth(h.roots[i]) == Depth(h.roots[0]) + i
  {
    if i != 0 {
      RootDepth(h, i - 1);
    }
  }

  /** Distinct slots have distinct message keys. */
  lemma KeysDistinct(h: Hist, i: nat, n: nat, j: nat, m: nat)
    requires WellFormed(h) && Chain(h, i) && Chain(h, j)
    ensures KeyAt(h, i, n) == KeyAt(h, j, m) <==> i == j && n == m
  {
    AdvanceShape(Seed(h, i), n);
    AdvanceShape(Seed(h, j), m);
    RootDepth(h, i - 1);
    RootDepth(h, j - 1);
  }

  /** Across a whole run of both parties, no two `encrypt` calls use the same message key, and no two
      envelopes carry the same header pair (`rk`, `n`). */
  lemma MessageKeysUnique(s: Sys, i: nat, j: nat)
    requires Reachable(s) && i < j < |s.net|
    ensures s.net[i].env.ct.key != s.net[j].env.ct.key
    ensures (s.net[i].env.h.rk, s.net[i].env.h.n) != (s.net[j].env.h.rk, s.net[j].env.h.n)
  {
    ReachableInv(s);
    assert PacketOk(s.hs, s.hist, s.net[i]) && PacketOk(s.hs, s.hist, s.net[j]);
    var p, q := s.net[i].slot, s.net[j].slot;
    KeysDistinct(s.hist, p.chain, p.n, q.chain, q.n);
  }
}
