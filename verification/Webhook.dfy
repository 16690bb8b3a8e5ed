/** Supporter webhooks (`server/src/bmac.rs`): each event is recorded once by its external id, and only the
    first delivery has effects. */
module Webhook {
  import opened Crypto

  type User = nat
  type Time = int

  datatype Account = Account(plus: bool, expires: Option<Time>, extras: set<string>, slots: int, groupChat: bool)

  /** What the payload asks for: `plusTier` is the tier match, `expires` the parsed or default period end. */
  datatype Kind =
    | Membership(plusTier: bool, expires: Time)
    | Cancelled
    | Extra(sku: string, quantity: Option<int>)
    | Ignored

  /** One delivery, with the user its email matched when it came in. */
  datatype Delivery = Delivery(externalId: string, kind: Kind, user: Option<User>)

  datatype State = State(accounts: map<User, Account>, seen: set<string>)

  const SLOT_SKU := "buddy-slots-10"
  const GROUP_SKU := "group-unlock"
  const PACK := 10
  const MAX_I32 := 0x7FFF_FFFF

  // ── 32-bit arithmetic ──

  predicate Fits(x: int) {
    -MAX_I32 - 1 <= x <= MAX_I32
  }

  /** A cast or an arithmetic result in a release build wraps. */
  function Wrap(x: int): int {
    (x + MAX_I32 + 1) % (2 * (MAX_I32 + 1)) - MAX_I32 - 1
  }

  function AtLeastOne(quantity: Option<int>): int {
    if quantity.Some? && quantity.value > 1 then quantity.value else 1
  }

  /** The number of slots a purchase adds, as computed. */
  function Slots(quantity: Option<int>): int {
    Wrap(PACK * Wrap(AtLeastOne(quantity)))
  }

  // ── Effects ──

  /** The INTEGER column refuses a sum out of range, and the account stays as it was. */
  function AddSlots(a: Account, extra: int): Account {
    if Fits(a.slots + extra) then a.(slots := a.slots + extra) else a
  }

  function Effect(a: Account, k: Kind): Account {
    match k
    case Membership(plusTier, expires) => if plusTier then a.(plus := true, expires := Some(expires)) else a
    case Cancelled => a.(plus := false, expires := None)
    case Extra(sku, quantity) =>
      if sku == SLOT_SKU then AddSlots(a, Slots(quantity))
      else if sku == GROUP_SKU then a.(groupChat := true)
      else if sku != "" then a.(extras := a.extras + {sku})
      else a
    case Ignored => a
  }

  function Apply(accounts: map<User, Account>, d: Delivery): map<User, Account> {
    if d.user.Some? && d.user.value in accounts
    then accounts[d.user.value := Effect(accounts[d.user.value], d.kind)]
    else accounts
  }

  datatype Response = BadRequest | Replayed | Ok

  function Handle(st: State, d: Delivery): (State, Response) {
    if d.externalId == "" then (st, BadRequest)
    else if d.externalId in st.seen then (st, Replayed)
    else (State(Apply(st.accounts, d), st.seen + {d.externalId}), Ok)
  }

  class Ledger {
    var accounts: map<User, Account>
    var seen: set<string>

    ghost function Value(): State
      reads this
    {
      State(accounts, seen)
    }

    constructor (accounts: map<User, Account>)
      ensures Value() == State(accounts, {})
    {
      this.accounts, seen := accounts, {};
    }

    /** Insert with ON CONFLICT DO NOTHING: true exactly for the first delivery of an id. */
    method RecordEvent(id: string) returns (first: bool)
      modifies this`seen
      ensures first <==> id !in old(seen)
      ensures seen == old(seen) + {id}
    {
      first := id !in seen;
      seen := seen + {id};
    }

    method Webhook(d: Delivery) returns (r: Response)
      modifies this
      ensures (Value(), r) == Handle(old(Value()), d)
    {
      if d.externalId == "" {
        return BadRequest;
      }
      var first := RecordEvent(d.externalId);
      if !first {
        assert seen == old(seen);
        return Replayed;
      }
      if d.user.Some? && d.user.value in accounts {
        accounts := accounts[d.user.value := Effect(accounts[d.user.value], d.kind)];
      }
      return Ok;
    }
  }

  // ── Runs ──

  function Run(accounts: map<User, Account>, ds: seq<Delivery>): State {
    if ds == [] then State(accounts, {}) else Handle(Run(accounts, ds[..|ds| - 1]), ds[|ds| - 1]).0
  }

  predicate Carried(ds: seq<Delivery>, id: string) {
    exists e :: e in ds && e.externalId == id
  }

  /** The first delivery of each external id. */
  function Firsts(ds: seq<Delivery>): seq<Delivery> {
    if ds == [] then []
    else
      var d, before := ds[|ds| - 1], ds[..|ds| - 1];
      if d.externalId == "" || Carried(before, d.externalId) then Firsts(before)
      else Firsts(before) + [d]
  }

  /** Effects one after another, with no record of what was seen. */
  function Fold(accounts: map<User, Account>, ds: seq<Delivery>): map<User, Account> {
    if ds == [] then accounts else Apply(Fold(accounts, ds[..|ds| - 1]), ds[|ds| - 1])
  }

  lemma {:induction false} SeenExactly(accounts: map<User, Account>, ds: seq<Delivery>, id: string)
    ensures id in Run(accounts, ds).seen <==> id != "" && Carried(ds, id)
  {
    if ds != [] {
      var d, before := ds[|ds| - 1], ds[..|ds| - 1];
      SeenExactly(accounts, before, id);
      assert ds == before + [d];
      assert d in ds;
    }
  }

  /** Whatever is delivered, in whatever order and however often, the accounts are those of applying the first
      delivery of each external id once. */
  lemma {:induction false} ReplaysHaveNoEffect(accounts: map<User, Account>, ds: seq<Delivery>)
    ensures Run(accounts, ds).accounts == Fold(accounts, Firsts(ds))
  {
    if ds != [] {
      var d, before := ds[|ds| - 1], ds[..|ds| - 1];
      ReplaysHaveNoEffect(accounts, before);
      SeenExactly(accounts, before, d.externalId);
      assert (Firsts(before) + [d])[..|Firsts(before)|] == Firsts(before);
    }
  }

  lemma {:induction false} FirstsCarry(ds: seq<Delivery>, id: string)
    ensures Carried(Firsts(ds), id) <==> id != "" && Carried(ds, id)
  {
    if ds != [] {
      var d, before := ds[|ds| - 1], ds[..|ds| - 1];
      FirstsCarry(before, id);
      assert ds == before + [d];
      assert d in ds;
      if Firsts(ds) != Firsts(before) {
        assert d in Firsts(ds);
      }
    }
  }

  /** The first deliveries carry each id that was delivered exactly once. */
  lemma {:induction false} FirstsExactly(ds: seq<Delivery>, i: nat, j: nat)
    requires i < j < |Firsts(ds)|
    ensures Firsts(ds)[i].externalId != Firsts(ds)[j].externalId
  {
    var before := ds[..|ds| - 1];
    if j < |Firsts(before)| {
      FirstsExactly(before, i, j);
    } else {
      FirstsCarry(before, Firsts(ds)[i].externalId);
      assert Firsts(before)[i] in Firsts(before);
    }
  }

  // ── Slots ──

  predicate BuysSlots(d: Delivery, u: User) {
    d.user == Some(u) && d.kind.Extra? && d.kind.sku == SLOT_SKU
  }

  /** The packs a user bought, each purchase counting at least one. */
  function Packs(ds: seq<Delivery>, u: User): nat {
    if ds == [] then 0
    else Packs(ds[..|ds| - 1], u) + if BuysSlots(ds[|ds| - 1], u) then AtLeastOne(ds[|ds| - 1].kind.quantity) else 0
  }

  lemma {:induction false} SlotsInRange(accounts: map<User, Account>, ds: seq<Delivery>, u: User)
    requires u in accounts && Fits(accounts[u].slots)
    ensures u in Fold(accounts, ds) && Fits(Fold(accounts, ds)[u].slots)
  {
    if ds != [] {
      SlotsInRange(accounts, ds[..|ds| - 1], u);
    }
  }

  lemma SmallPurchase(quantity: Option<int>)
    requires PACK * AtLeastOne(quantity) <= MAX_I32
    ensures Slots(quantity) == PACK * AtLeastOne(quantity)
  {
  }

  lemma {:induction false} SlotsAddUp(accounts: map<User, Account>, ds: seq<Delivery>, u: User)
    requires u in accounts && accounts[u].slots >= 0 && accounts[u].slots + PACK * Packs(ds, u) <= MAX_I32
    ensures u in Fold(accounts, ds) && Fold(accounts, ds)[u].slots == accounts[u].slots + PACK * Packs(ds, u)
  {
    if ds != [] {
      SlotsAddUp(accounts, ds[..|ds| - 1], u);
      var d := ds[|ds| - 1];
      if BuysSlots(d, u) {
        SmallPurchase(d.kind.quantity);
      }
    }
  }

  /** The slots are ten times the packs of the first-seen matched purchases exactly when that total fits the
      32-bit column. */
  lemma SlotsExactly(accounts: map<User, Account>, ds: seq<Delivery>, u: User)
    requires u in accounts && 0 <= accounts[u].slots <= MAX_I32
    ensures u in Run(accounts, ds).accounts
    ensures Run(accounts, ds).accounts[u].slots == accounts[u].slots + PACK * Packs(Firsts(ds), u)
            <==> accounts[u].slots + PACK * Packs(Firsts(ds), u) <= MAX_I32
  {
    ReplaysHaveNoEffect(accounts, ds);
    SlotsInRange(accounts, Firsts(ds), u);
    if accounts[u].slots + PACK * Packs(Firsts(ds), u) <= MAX_I32 {
      SlotsAddUp(accounts, Firsts(ds), u);
    }
  }

  /** `n` purchases of one pack, one after another. */
  function OneByOne(a: Account, n: nat): Account {
    if n == 0 then a else Effect(OneByOne(a, n - 1), Extra(SLOT_SKU, None))
  }

  lemma {:induction false} OneByOneAdds(a: Account, n: nat)
    requires 0 <= a.slots && a.slots + 10 * n <= MAX_I32
    ensures OneByOne(a, n) == a.(slots := a.slots + 10 * n)
  {
    if n > 0 {
      OneByOneAdds(a, n - 1);
      SmallPurchase(None);
    }
  }

  /** Packs bought at once are packs bought one by one, ten slots each, as long as they fit the column; a quantity that
      is zero or negative buys one. */
  lemma PacksOneByOne(a: Account, n: nat, none: int)
    requires 0 < n && none <= 0 && 0 <= a.slots && a.slots + 10 * n <= MAX_I32
    ensures Effect(a, Extra(SLOT_SKU, Some(n))) == OneByOne(a, n) == a.(slots := a.slots + 10 * n)
    ensures Effect(a, Extra(SLOT_SKU, Some(none))) == OneByOne(a, 1)
  {
    SmallPurchase(Some(n));
    SmallPurchase(Some(none));
    OneByOneAdds(a, n);
    OneByOneAdds(a, 1);
  }

  /** One purchase of a large quantity can take slots away. */
  lemma LargePurchaseTakesSlots(d: Delivery, a: Account)
    requires d.kind == Extra(SLOT_SKU, Some(300_000_000)) && d.externalId != "" && d.user == Some(0) && a.slots == 0
    ensures var n := Run(map[0 := a], [d]).accounts; 0 in n && n[0].slots < 0
  {
    assert [d][..0] == [];
    assert Run(map[0 := a], []).accounts == map[0 := a];
  }

  // ── The other purchases ──

  predicate Buys(d: Delivery, u: User, sku: string) {
    d.user == Some(u) && d.kind.Extra? && d.kind.sku == sku
  }

  lemma {:induction false} ExtrasFold(accounts: map<User, Account>, ds: seq<Delivery>, u: User, sku: string)
    requires u in accounts && sku != "" && sku != SLOT_SKU && sku != GROUP_SKU
    ensures u in Fold(accounts, ds)
    ensures sku in Fold(accounts, ds)[u].extras <==> sku in accounts[u].extras || exists d :: d in ds && Buys(d, u, sku)
  {
    if ds != [] {
      var d, before := ds[|ds| - 1], ds[..|ds| - 1];
      ExtrasFold(accounts, before, u, sku);
      assert ds == before + [d];
      assert d in ds;
    }
  }

  lemma {:induction false} GroupFold(accounts: map<User, Account>, ds: seq<Delivery>, u: User)
    requires u in accounts
    ensures u in Fold(accounts, ds)
    ensures Fold(accounts, ds)[u].groupChat <==> accounts[u].groupChat || exists d :: d in ds && Buys(d, u, GROUP_SKU)
  {
    if ds != [] {
      var d, before := ds[|ds| - 1], ds[..|ds| - 1];
      GroupFold(accounts, before, u);
      assert ds == before + [d];
      assert d in ds;
    }
  }

  /** An extra is owned exactly when it was, or a first-seen purchase matched to the user bought it. */
  lemma ExtrasExactly(accounts: map<User, Account>, ds: seq<Delivery>, u: User, sku: string)
    requires u in accounts && sku != "" && sku != SLOT_SKU && sku != GROUP_SKU
    ensures u in Run(accounts, ds).accounts
    ensures sku in Run(accounts, ds).accounts[u].extras
            <==> sku in accounts[u].extras || exists d :: d in Firsts(ds) && Buys(d, u, sku)
    ensures Run(accounts, ds).accounts[u].groupChat
            <==> accounts[u].groupChat || exists d :: d in Firsts(ds) && Buys(d, u, GROUP_SKU)
  {
    ReplaysHaveNoEffect(accounts, ds);
    ExtrasFold(accounts, Firsts(ds), u, sku);
    GroupFold(accounts, Firsts(ds), u);
  }

  // ── The membership ──

  /** The event sets the tier of the user: a membership of the plus tier, or a cancellation. */
  predicate SetsTier(d: Delivery, u: User) {
    d.user == Some(u) && (d.kind.Cancelled? || (d.kind.Membership? && d.kind.plusTier))
  }

  predicate SetsTierAt(ds: seq<Delivery>, i: nat, u: User) {
    i < |ds| && SetsTier(ds[i], u)
  }

  ghost predicate LastTier(ds: seq<Delivery>, i: nat, u: User) {
    SetsTierAt(ds, i, u) && forall j: nat :: i < j ==> !SetsTierAt(ds, j, u)
  }

  lemma {:induction false} TierFold(accounts: map<User, Account>, ds: seq<Delivery>, u: User, i: nat)
    requires u in accounts && LastTier(ds, i, u)
    ensures u in Fold(accounts, ds)
    ensures var a := Fold(accounts, ds)[u];
            if ds[i].kind.Cancelled? then !a.plus && a.expires == None
            else a.plus && a.expires == Some(ds[i].kind.expires)
  {
    var before := ds[..|ds| - 1];
    if i < |before| {
      assert SetsTierAt(before, i, u);
      assert !SetsTierAt(ds, |before|, u);
      forall j: nat | i < j
        ensures !SetsTierAt(before, j, u)
      {
        assert SetsTierAt(before, j, u) ==> SetsTierAt(ds, j, u);
      }
      TierFold(accounts, before, u, i);
    } else {
      AccountStays(accounts, before, u);
    }
  }

  lemma {:induction false} AccountStays(accounts: map<User, Account>, ds: seq<Delivery>, u: User)
    requires u in accounts
    ensures u in Fold(accounts, ds)
  {
    if ds != [] {
      AccountStays(accounts, ds[..|ds| - 1], u);
    }
  }

  lemma {:induction false} TierKept(accounts: map<User, Account>, ds: seq<Delivery>, u: User)
    requires u in accounts && forall i: nat :: !SetsTierAt(ds, i, u)
    ensures u in Fold(accounts, ds)
    ensures Fold(accounts, ds)[u].plus == accounts[u].plus && Fold(accounts, ds)[u].expires == accounts[u].expires
  {
    if ds != [] {
      var before := ds[..|ds| - 1];
      assert !SetsTierAt(ds, |before|, u);
      forall j: nat
        ensures !SetsTierAt(before, j, u)
      {
        assert SetsTierAt(before, j, u) ==> SetsTierAt(ds, j, u);
      }
      TierKept(accounts, before, u);
    }
  }

  /** After any deliveries the membership is the one of the last first-seen event matched to the user that sets it: plus
      until that event's end after a plus membership, free after a cancellation, and as before without such an event. */
  lemma TierExactly(accounts: map<User, Account>, ds: seq<Delivery>, u: User)
    requires u in accounts
    ensures u in Run(accounts, ds).accounts
    ensures forall i: nat :: LastTier(Firsts(ds), i, u) ==>
              var a, d := Run(accounts, ds).accounts[u], Firsts(ds)[i];
              if d.kind.Cancelled? then !a.plus && a.expires == None else a.plus && a.expires == Some(d.kind.expires)
    ensures (forall i: nat :: !SetsTierAt(Firsts(ds), i, u)) ==>
              var a := Run(accounts, ds).accounts[u];
              a.plus == accounts[u].plus && a.expires == accounts[u].expires
  {
    ReplaysHaveNoEffect(accounts, ds);
    AccountStays(accounts, Firsts(ds), u);
    forall i: nat | LastTier(Firsts(ds), i, u)
      ensures var a, d := Run(accounts, ds).accounts[u], Firsts(ds)[i];
              if d.kind.Cancelled? then !a.plus && a.expires == None else a.plus && a.expires == Some(d.kind.expires)
    {
      TierFold(accounts, Firsts(ds), u, i);
    }
    if forall i: nat :: !SetsTierAt(Firsts(ds), i, u) {
      TierKept(accounts, Firsts(ds), u);
    }
  }

  /** An event recorded for an unknown email is spent: delivered again once the user is known, it has no effect. */
  lemma UnmatchedIsSpent(accounts: map<User, Account>, ds: seq<Delivery>, d: Delivery, u: User)
    requires d.externalId != "" && Carried(ds, d.externalId)
    ensures Run(accounts, ds + [d.(user := Some(u))]) == Run(accounts, ds)
  {
    var more := ds + [d.(user := Some(u))];
    assert more[..|more| - 1] == ds;
    SeenExactly(accounts, ds, d.externalId);
  }
}
