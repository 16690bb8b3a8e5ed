/** The buddy cap of a user who stays on the free tier, when the check and the insert of AddContact are
    separate statements and several of the user's connections interleave them. */
module BuddyCap {
  import Contacts

  type User = Contacts.User
  type Conn = nat

  const FREE_BUDDY_CAP := 25

  /** `checked` holds the handlers between the cap check and the insert, with their targets; a connection runs
      one command at a time. Whatever the block check in between found, it is not looked at again when the row is
      inserted; a handler that was refused gives up. `peak` is bookkeeping: the most handlers that were in between at
      once. */
  datatype State = State(db: Contacts.Db, slots: nat, caps: map<Conn, int>, checked: map<Conn, User>, peak: nat)

  datatype Step =
    | Connect(c: Conn)
    | Disconnect(c: Conn)
    | Purchase(extra: nat)
    | Check(c: Conn, t: User)
    | Insert(c: Conn)
    | GiveUp(c: Conn)
    | Other(command: Contacts.Command)

  /** Outgoing contacts: requests of `u` that are pending or accepted. */
  function Out(db: Contacts.Db, u: User): set<User> {
    set k | k in db.requests && k.0 == u && db.requests[k].status != Contacts.Rejected :: k.1
  }

  function Cap(st: State): int {
    FREE_BUDDY_CAP + st.slots
  }

  predicate Enabled(st: State, u: User, step: Step) {
    match step
    case Connect(c) => c !in st.caps
    case Disconnect(c) => c in st.caps && c !in st.checked
    case Purchase(extra) => true
    case Check(c, t) => c in st.caps && c !in st.checked && t != u && |Contacts.Counted(st.db, u)| < st.caps[c]
    case Insert(c) => c in st.checked && st.checked[c] in st.db.users
    case GiveUp(c) => c in st.checked
    case Other(command) => !(command.Add? && command.u == u)
  }

  function Max(a: nat, b: nat): nat {
    if a < b then b else a
  }

  /** A connection keeps the cap it read when it authenticated. */
  function Next(st: State, u: User, step: Step): State
    requires Enabled(st, u, step)
  {
    match step
    case Connect(c) => st.(caps := st.caps[c := Cap(st)])
    case Disconnect(c) => st.(caps := st.caps - {c})
    case Purchase(extra) => st.(slots := st.slots + extra)
    case Check(c, t) => st.(checked := st.checked[c := t], peak := Max(st.peak, |st.checked| + 1))
    case Insert(c) => st.(db := Contacts.CreateRequest(st.db, u, st.checked[c]), checked := st.checked - {c})
    case GiveUp(c) => st.(checked := st.checked - {c})
    case Other(command) => st.(db := Contacts.Handle(st.db, command).0)
  }

  ghost predicate Reaches(st: State, u: User, steps: seq<Step>, t: State)
    decreases |steps|
  {
    if |steps| == 0 then st == t
    else Enabled(st, u, steps[0]) && Reaches(Next(st, u, steps[0]), u, steps[1..], t)
  }

  function Initial(users: set<User>): State {
    State(Contacts.Db(users, map[], {}, 0), 0, map[], map[], 0)
  }

  // ── The bound ──

  ghost predicate SnapshotsOld(caps: map<Conn, int>, cap: int) {
    forall c :: c in caps ==> caps[c] <= cap
  }

  /** Room is left for every handler that has passed its check, but for the handlers that passed beside it. */
  ghost predicate Inv(st: State, u: User) {
    && SnapshotsOld(st.caps, Cap(st)) && |st.checked| <= st.peak
    && |Out(st.db, u)| + |st.checked| <= Cap(st) + Max(st.peak, 1) - 1
  }

  lemma SubsetCount<T>(a: set<T>, b: set<T>)
    requires a <= b
    ensures |a| <= |b|
  {
    assert a + (b - a) == b;
  }

  lemma OutIsCounted(db: Contacts.Db, u: User)
    ensures Out(db, u) <= Contacts.Counted(db, u) && |Out(db, u)| <= |Contacts.Counted(db, u)|
  {
    SubsetCount(Out(db, u), Contacts.Counted(db, u));
  }

  /** Only the user's own requests add to the outgoing contacts: acceptances, rejections, blocks and other
      users' requests never do. */
  lemma OthersNeverGrow(db: Contacts.Db, u: User, c: Contacts.Command)
    requires !(c.Add? && c.u == u)
    ensures Out(Contacts.Handle(db, c).0, u) <= Out(db, u)
  {
    match c {
      case Add(x, t, cap) =>
      case Accept(x, f, rid) =>
      case Reject(x, f, rid) =>
      case BlockRequest(x, f, rid, cleared) => Contacts.ClearExact(db.(blocks := db.blocks + {(x, f)}), x, f);
      case BlockByName(x, t, cleared) => Contacts.ClearExact(db.(blocks := db.blocks + {(x, t)}), x, t);
      case UnblockUser(x, t) =>
      case Message(x, t) =>
    }
  }

  lemma CreateAdds(db: Contacts.Db, u: User, t: User)
    ensures Out(Contacts.CreateRequest(db, u, t), u) == Out(db, u) + {t}
  {
    var n := Contacts.CreateRequest(db, u, t);
    assert (u, t) in n.requests && n.requests[(u, t)].status == Contacts.Pending;
    forall v | v in Out(db, u)
      ensures v in Out(n, u)
    {
      assert (u, v) in n.requests && n.requests[(u, v)].status != Contacts.Rejected;
    }
  }

  lemma FewerChecked(checked: map<Conn, User>, c: Conn)
    requires c in checked
    ensures |checked - {c}| == |checked| - 1
  {
    assert (checked - {c}).Keys == checked.Keys - {c};
    assert |(checked - {c}).Keys| == |checked.Keys| - 1;
  }

  lemma MoreChecked(checked: map<Conn, User>, c: Conn, t: User)
    requires c !in checked
    ensures |checked[c := t]| == |checked| + 1
  {
    assert checked[c := t].Keys == checked.Keys + {c};
  }

  lemma StepInv(st: State, u: User, step: Step)
    requires Inv(st, u) && Enabled(st, u, step)
    ensures Inv(Next(st, u, step), u)
  {
    match step {
      case Connect(c) =>
      case Disconnect(c) =>
      case Purchase(extra) =>
      case Check(c, t) =>
        OutIsCounted(st.db, u);
        MoreChecked(st.checked, c, t);
      case Insert(c) =>
        CreateAdds(st.db, u, st.checked[c]);
        FewerChecked(st.checked, c);
      case GiveUp(c) =>
        FewerChecked(st.checked, c);
      case Other(command) =>
        OthersNeverGrow(st.db, u, command);
        SubsetCount(Out(Contacts.Handle(st.db, command).0, u), Out(st.db, u));
    }
  }

  lemma {:induction false} RunInv(st: State, u: User, steps: seq<Step>, t: State)
    requires Inv(st, u) && Reaches(st, u, steps, t)
    ensures Inv(t, u)
    decreases |steps|
  {
    if |steps| != 0 {
      StepInv(st, u, steps[0]);
      RunInv(Next(st, u, steps[0]), u, steps[1..], t);
    }
  }

  /** Over every run, the distinct outgoing contacts stay within 25 plus the purchased slots, plus one less than
      the most AddContact handlers that were ever between check and insert at once. */
  lemma CapOverRuns(users: set<User>, u: User, steps: seq<Step>, t: State)
    requires Reaches(Initial(users), u, steps, t)
    ensures |Out(t.db, u)| <= FREE_BUDDY_CAP + t.slots + Max(t.peak, 1) - 1
  {
    assert Out(Initial(users).db, u) == {};
    RunInv(Initial(users), u, steps, t);
  }

  /** When AddContact is atomic the cap holds as it stands. */
  lemma CapWhenAtomic(users: set<User>, u: User, steps: seq<Step>, t: State)
    requires Reaches(Initial(users), u, steps, t) && t.peak <= 1
    ensures |Out(t.db, u)| <= FREE_BUDDY_CAP + t.slots
  {
    CapOverRuns(users, u, steps, t);
  }

  // ── The bound is reached ──

  ghost predicate Arises(users: set<User>, u: User, t: State) {
    exists steps: seq<Step> :: Reaches(Initial(users), u, steps, t)
  }

  lemma {:induction false} ReachesOneMore(st: State, u: User, steps: seq<Step>, t: State, step: Step)
    requires Reaches(st, u, steps, t) && Enabled(t, u, step)
    ensures Reaches(st, u, steps + [step], Next(t, u, step))
    decreases |steps|
  {
    if |steps| == 0 {
      assert (steps + [step])[1..] == [];
    } else {
      ReachesOneMore(Next(st, u, steps[0]), u, steps[1..], t, step);
      assert (steps + [step])[1..] == steps[1..] + [step];
    }
  }

  lemma OneMore(users: set<User>, u: User, st: State, step: Step) returns (n: State)
    requires Arises(users, u, st) && Enabled(st, u, step)
    ensures n == Next(st, u, step) && Arises(users, u, n)
  {
    var steps :| Reaches(Initial(users), u, steps, st);
    ReachesOneMore(Initial(users), u, steps, st, step);
    n := Next(st, u, step);
  }

  /** Handlers below `j` have passed the check, each for a contact of its own. */
  ghost predicate Passed(checked: map<Conn, User>, top: nat, j: nat) {
    |checked| == j && (forall i :: i in checked <==> 0 <= i < j) && (forall i :: i in checked ==> checked[i] == top + i)
  }

  /** The table holds only user 0's own requests, and nobody is blocked. */
  ghost predicate Own(db: Contacts.Db) {
    db.blocks == {} && forall i :: i in db.requests ==> i.0 == 0
  }

  /** Contacts 1 to `n` are asked. */
  ghost predicate AskedUpTo(db: Contacts.Db, n: nat) {
    |Out(db, 0)| == n && forall i :: i in Out(db, 0) ==> i <= n
  }

  ghost predicate CapsAre(caps: map<Conn, int>, top: nat, k: nat) {
    (forall c :: c in caps <==> 0 <= c < k) && (forall c :: c in caps ==> caps[c] == top)
  }

  /** User 0 has asked `n` contacts, on `k` connections with the cap `top`. */
  ghost predicate Plain(top: nat, st: State, users: set<User>, k: nat, n: nat) {
    && Arises(users, 0, st) && FREE_BUDDY_CAP + st.slots == top && st.db.users == users && CapsAre(st.caps, top, k)
    && Own(st.db) && AskedUpTo(st.db, n)
  }

  lemma PlainCount(db: Contacts.Db)
    requires Own(db)
    ensures Contacts.Counted(db, 0) == Out(db, 0)
  {
  }

  lemma CreateOwn(db: Contacts.Db, t: User)
    requires Own(db)
    ensures Own(Contacts.CreateRequest(db, 0, t))
  {
  }

  lemma CheckOne(top: nat, a: State, users: set<User>, k: nat, n: nat, c: Conn, t: User) returns (st: State)
    requires Plain(top, a, users, k, n) && n < top && c < k && c !in a.checked && t != 0
    ensures Plain(top, st, users, k, n) && st.checked == a.checked[c := t] && st.peak == Max(a.peak, |a.checked| + 1)
  {
    PlainCount(a.db);
    st := OneMore(users, 0, a, Check(c, t));
  }

  lemma InsertOne(top: nat, a: State, users: set<User>, k: nat, n: nat, c: Conn) returns (st: State)
    requires Plain(top, a, users, k, n) && c in a.checked && a.checked[c] == n + 1 && n + 1 in users
    ensures Plain(top, st, users, k, n + 1) && st.checked == a.checked - {c} && st.peak == a.peak
  {
    CreateAdds(a.db, 0, n + 1);
    CreateOwn(a.db, n + 1);
    st := OneMore(users, 0, a, Insert(c));
  }

  lemma Started(top: nat, users: set<User>) returns (st: State)
    requires top >= FREE_BUDDY_CAP
    ensures Plain(top, st, users, 0, 0) && st.checked == map[] && st.peak == 0
  {
    st := Initial(users);
    assert Reaches(st, 0, [], st);
    st := OneMore(users, 0, st, Purchase(top - FREE_BUDDY_CAP));
  }

  lemma ConnectOne(top: nat, a: State, users: set<User>, k: nat) returns (st: State)
    requires Plain(top, a, users, k, 0) && a.checked == map[] && a.peak == 0
    ensures Plain(top, st, users, k + 1, 0) && st.checked == map[] && st.peak == 0
  {
    CapsMore(a.caps, top, k);
    st := OneMore(users, 0, a, Connect(k));
  }

  lemma CapsMore(caps: map<Conn, int>, top: nat, k: nat)
    requires CapsAre(caps, top, k)
    ensures k !in caps && CapsAre(caps[k := top], top, k + 1)
  {
  }

  lemma {:induction false} Connected(top: nat, users: set<User>, k: nat) returns (st: State)
    requires top >= FREE_BUDDY_CAP
    ensures Plain(top, st, users, k, 0) && st.checked == map[] && st.peak == 0
  {
    if k == 0 {
      st := Started(top, users);
    } else {
      st := Connected(top, users, k - 1);
      st := ConnectOne(top, st, users, k - 1);
    }
  }

  lemma {:induction false} Filled(top: nat, users: set<User>, k: nat, n: nat) returns (st: State)
    requires top >= FREE_BUDDY_CAP && k > 0 && n < top && forall i :: 1 <= i <= n ==> i in users
    ensures Plain(top, st, users, k, n) && st.checked == map[] && st.peak <= 1
  {
    if n == 0 {
      st := Connected(top, users, k);
    } else {
      st := Filled(top, users, k, n - 1);
      st := AddOne(top, st, users, k, n - 1);
    }
  }

  lemma AddOne(top: nat, a: State, users: set<User>, k: nat, n: nat) returns (st: State)
    requires Plain(top, a, users, k, n) && a.checked == map[] && a.peak <= 1 && k > 0 && n < top && n + 1 in users
    ensures Plain(top, st, users, k, n + 1) && st.checked == map[] && st.peak <= 1
  {
    st := CheckOne(top, a, users, k, n, 0, n + 1);
    st := InsertOne(top, st, users, k, n, 0);
  }

  lemma {:induction false} AllChecked(top: nat, users: set<User>, k: nat, j: nat) returns (st: State)
    requires top >= FREE_BUDDY_CAP && k > 0 && j <= k && forall i :: 1 <= i < top + k ==> i in users
    ensures Plain(top, st, users, k, top - 1) && Passed(st.checked, top, j) && st.peak <= Max(j, 1)
  {
    if j == 0 {
      st := Filled(top, users, k, top - 1);
    } else {
      st := AllChecked(top, users, k, j - 1);
      st := CheckNext(top, st, users, k, j);
    }
  }

  lemma CheckNext(top: nat, a: State, users: set<User>, k: nat, j: nat) returns (st: State)
    requires 0 < j <= k && top > 0 && Plain(top, a, users, k, top - 1)
    requires Passed(a.checked, top, j - 1) && a.peak <= Max(j - 1, 1)
    ensures Plain(top, st, users, k, top - 1) && Passed(st.checked, top, j) && st.peak <= Max(j, 1)
  {
    PassedMore(a.checked, top, j - 1);
    st := CheckOne(top, a, users, k, top - 1, j - 1, top + j - 1);
  }

  lemma PassedMore(checked: map<Conn, User>, top: nat, j: nat)
    requires Passed(checked, top, j)
    ensures j !in checked && Passed(checked[j := top + j], top, j + 1)
  {
    MoreChecked(checked, j, top + j);
  }

  /** Handlers `j` to `k` still wait to insert. */
  ghost predicate Waiting(top: nat, checked: map<Conn, User>, j: nat, k: nat) {
    forall i :: j <= i < k ==> i in checked && checked[i] == top + i
  }

  lemma {:induction false} AllInserted(top: nat, users: set<User>, k: nat, j: nat) returns (st: State)
    requires top >= FREE_BUDDY_CAP && k > 0 && j <= k && forall i :: 1 <= i < top + k ==> i in users
    ensures Plain(top, st, users, k, top - 1 + j) && st.peak <= k && Waiting(top, st.checked, j, k)
  {
    if j == 0 {
      st := AllChecked(top, users, k, k);
    } else {
      st := AllInserted(top, users, k, j - 1);
      st := InsertNext(top, st, users, k, j);
    }
  }

  lemma InsertNext(top: nat, a: State, users: set<User>, k: nat, j: nat) returns (st: State)
    requires top >= FREE_BUDDY_CAP && 0 < j <= k && top + j - 1 in users
    requires Plain(top, a, users, k, top + j - 2) && a.peak <= k && Waiting(top, a.checked, j - 1, k)
    ensures Plain(top, st, users, k, top - 1 + j) && st.peak <= k && Waiting(top, st.checked, j, k)
  {
    st := InsertOne(top, a, users, k, top + j - 2, j - 1);
  }

  /** With `k` handlers in between at once the bound is reached, for every `k` and any purchased slots. */
  lemma CapIsTight(users: set<User>, slots: nat, k: nat) returns (st: State)
    requires k > 0 && forall i :: 1 <= i < FREE_BUDDY_CAP + slots + k ==> i in users
    ensures Arises(users, 0, st) && st.slots == slots && st.peak <= k
    ensures |Out(st.db, 0)| == FREE_BUDDY_CAP + slots + k - 1
  {
    st := AllInserted(FREE_BUDDY_CAP + slots, users, k, k);
  }
}
