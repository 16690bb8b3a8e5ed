/** Contact requests and blocks: the tables of `server/src/db.rs` and the handlers of `server/src/router.rs`
    that change them, each handler atomic. */
module Contacts {
  import opened Crypto

  type User = nat
  type RequestId = nat

  datatype Status = Pending | Accepted | Rejected

  datatype Request = Request(id: RequestId, status: Status)

  /** One row per (from, to), one block per (blocker, blocked). */
  datatype Db = Db(users: set<User>, requests: map<(User, User), Request>, blocks: set<(User, User)>, nextId: RequestId)

  // ── Queries ──

  predicate Has(db: Db, f: User, t: User, s: Status) {
    (f, t) in db.requests && db.requests[(f, t)].status == s
  }

  predicate IsBlockedBetween(db: Db, a: User, b: User) {
    (a, b) in db.blocks || (b, a) in db.blocks
  }

  /** A row that `count_roster` counts for `u`, and the contact it stands for. */
  predicate Occupies(db: Db, u: User, v: User) {
    Has(db, u, v, Pending) || Has(db, u, v, Accepted) || Has(db, v, u, Accepted)
  }

  /** Distinct contacts of accepted and outbound pending rows: UNION of two selects. */
  function Counted(db: Db, u: User): set<User> {
    (set k | k in db.requests && k.0 == u && db.requests[k].status != Rejected :: k.1)
    + (set k | k in db.requests && k.1 == u && db.requests[k].status == Accepted :: k.0)
  }

  function Other(k: (User, User), u: User): User {
    if k.0 == u then k.1 else k.0
  }

  /** The rows of `list_contact_roster`. */
  function RosterRows(db: Db, u: User): set<(User, User)> {
    set k | k in db.requests && (k.0 == u || k.1 == u)
            && (db.requests[k].status == Accepted || (db.requests[k].status == Pending && k.0 == u))
            && !IsBlockedBetween(db, u, Other(k, u))
  }

  function Roster(db: Db, u: User): set<User> {
    set k | k in RosterRows(db, u) :: Other(k, u)
  }

  predicate Inbound(db: Db, u: User, rid: RequestId, k: (User, User)) {
    k in db.requests && k.1 == u && db.requests[k] == Request(rid, Pending)
  }

  // ── Table updates ──

  /** Insert, or reset the existing row to pending whatever its status. */
  function CreateRequest(db: Db, f: User, t: User): Db {
    if (f, t) in db.requests then db.(requests := db.requests[(f, t) := Request(db.requests[(f, t)].id, Pending)])
    else db.(requests := db.requests[(f, t) := Request(db.nextId, Pending)], nextId := db.nextId + 1)
  }

  function SetStatus(db: Db, k: (User, User), s: Status): Db
    requires k in db.requests
  {
    db.(requests := db.requests[k := db.requests[k].(status := s)])
  }

  function RejectPending(db: Db, k: (User, User)): Db {
    if Has(db, k.0, k.1, Pending) then SetStatus(db, k, Rejected) else db
  }

  function ClearPendingBetween(db: Db, a: User, b: User): Db {
    RejectPending(RejectPending(db, (a, b)), (b, a))
  }

  // ── Handlers ──

  datatype Outcome = RequestSent(id: RequestId) | SelfAdd | RosterFull | NotFound | Refused
                   | ContactAccepted(from: User) | ContactRejected | ContactBlocked(who: User)
                   | Unblocked | MessageAccepted

  function AddContact(db: Db, u: User, t: User, cap: Option<int>): (Db, Outcome) {
    if t == u then (db, SelfAdd)
    else if cap.Some? && |Counted(db, u)| >= cap.value then (db, RosterFull)
    else if t !in db.users then (db, NotFound)
    else if IsBlockedBetween(db, u, t) then (db, Refused)
    else var n := CreateRequest(db, u, t); (n, RequestSent(n.requests[(u, t)].id))
  }

  /** One conditional update: the row must be addressed to the caller and pending. */
  function Answer(db: Db, u: User, f: User, rid: RequestId, s: Status): (Db, Outcome) {
    if Inbound(db, u, rid, (f, u))
    then (SetStatus(db, (f, u), s), if s == Accepted then ContactAccepted(f) else ContactRejected)
    else (db, Refused)
  }

  /** `cleared` is false when clearing the pending rows fails, which is only logged. */
  function Block(db: Db, u: User, t: User, cleared: bool): (Db, Outcome) {
    if u == t then (db, Refused)
    else
      var b := db.(blocks := db.blocks + {(u, t)});
      (if cleared then ClearPendingBetween(b, u, t) else b, ContactBlocked(t))
  }

  function BlockContact(db: Db, u: User, f: User, rid: RequestId, cleared: bool): (Db, Outcome) {
    if Inbound(db, u, rid, (f, u)) then Block(db, u, f, cleared) else (db, NotFound)
  }

  function BlockUser(db: Db, u: User, t: User, cleared: bool): (Db, Outcome) {
    if u == t then (db, Refused) else if t !in db.users then (db, NotFound) else Block(db, u, t, cleared)
  }

  function Unblock(db: Db, u: User, t: User): (Db, Outcome) {
    (db.(blocks := db.blocks - {(u, t)}), Unblocked)
  }

  function SendMessage(db: Db, u: User, t: User): (Db, Outcome) {
    if t !in db.users then (db, NotFound)
    else if IsBlockedBetween(db, u, t) then (db, Refused)
    else (db, MessageAccepted)
  }

  /** The row a request id names is found by its sender, which the row's id determines. */
  datatype Command =
    | Add(u: User, t: User, cap: Option<int>)
    | Accept(u: User, f: User, rid: RequestId)
    | Reject(u: User, f: User, rid: RequestId)
    | BlockRequest(u: User, f: User, rid: RequestId, cleared: bool)
    | BlockByName(u: User, t: User, cleared: bool)
    | UnblockUser(u: User, t: User)
    | Message(u: User, t: User)

  function Handle(db: Db, c: Command): (Db, Outcome) {
    match c
    case Add(u, t, cap) => AddContact(db, u, t, cap)
    case Accept(u, f, rid) => Answer(db, u, f, rid, Accepted)
    case Reject(u, f, rid) => Answer(db, u, f, rid, Rejected)
    case BlockRequest(u, f, rid, cleared) => BlockContact(db, u, f, rid, cleared)
    case BlockByName(u, t, cleared) => BlockUser(db, u, t, cleared)
    case UnblockUser(u, t) => Unblock(db, u, t)
    case Message(u, t) => SendMessage(db, u, t)
  }

  function After(users: set<User>, cs: seq<Command>): Db {
    if cs == [] then Db(users, map[], {}, 0) else Handle(After(users, cs[..|cs| - 1]), cs[|cs| - 1]).0
  }

  // ── The handlers in place ──

  class Directory {
    const users: set<User>
    var requests: map<(User, User), Request>
    var blocks: set<(User, User)>
    var nextId: RequestId

    function Value(): Db
      reads this
    {
      Db(users, requests, blocks, nextId)
    }

    constructor (users: set<User>)
      ensures Value() == Db(users, map[], {}, 0)
    {
      this.users := users;
      requests, blocks, nextId := map[], {}, 0;
    }

    method HandleAdd(u: User, t: User, cap: Option<int>) returns (r: Outcome)
      modifies this
      ensures (Value(), r) == AddContact(old(Value()), u, t, cap)
    {
      if t == u {
        return SelfAdd;
      }
      if cap.Some? {
        var n := |Counted(Value(), u)|;
        if n >= cap.value {
          return RosterFull;
        }
      }
      if t !in users {
        return NotFound;
      }
      if IsBlockedBetween(Value(), u, t) {
        return Refused;
      }
      var id := nextId;
      if (u, t) in requests {
        id := requests[(u, t)].id;
      } else {
        nextId := nextId + 1;
      }
      requests := requests[(u, t) := Request(id, Pending)];
      return RequestSent(id);
    }

    method HandleAnswer(u: User, f: User, rid: RequestId, accept: bool) returns (r: Outcome)
      modifies this
      ensures (Value(), r) == Answer(old(Value()), u, f, rid, if accept then Accepted else Rejected)
    {
      if !Inbound(Value(), u, rid, (f, u)) {
        return Refused;
      }
      requests := requests[(f, u) := Request(rid, if accept then Accepted else Rejected)];
      r := if accept then ContactAccepted(f) else ContactRejected;
    }

    /** Insert the block, then turn down what is pending either way; a failure to do so is only logged. */
    method HandleBlock(u: User, t: User, cleared: bool) returns (r: Outcome)
      modifies this
      ensures (Value(), r) == Block(old(Value()), u, t, cleared)
    {
      if u == t {
        return Refused;
      }
      blocks := blocks + {(u, t)};
      if cleared {
        RejectIfPending(u, t);
        RejectIfPending(t, u);
      }
      r := ContactBlocked(t);
    }

    method RejectIfPending(f: User, t: User)
      modifies this`requests
      ensures Value() == RejectPending(old(Value()), (f, t))
    {
      if (f, t) in requests && requests[(f, t)].status == Pending {
        requests := requests[(f, t) := requests[(f, t)].(status := Rejected)];
      }
    }

    method HandleUnblock(u: User, t: User) returns (r: Outcome)
      modifies this
      ensures (Value(), r) == Unblock(old(Value()), u, t)
    {
      blocks := blocks - {(u, t)};
      r := Unblocked;
    }
  }

  // ── The invariant ──

  ghost predicate DistinctIds(requests: map<(User, User), Request>, nextId: RequestId) {
    && (forall k :: k in requests ==> requests[k].id < nextId)
    && (forall k, l :: k in requests && l in requests && k != l ==> requests[k].id != requests[l].id)
  }

  ghost predicate NoneWithSelf(keys: set<(User, User)>) {
    forall k :: k in keys ==> k.0 != k.1
  }

  /** Request ids name one row, nobody has a row or a block with themselves. */
  ghost predicate WellFormed(db: Db) {
    DistinctIds(db.requests, db.nextId) && NoneWithSelf(db.requests.Keys) && NoneWithSelf(db.blocks)
  }

  predicate PendingBetween(db: Db, a: User, b: User) {
    Has(db, a, b, Pending) || Has(db, b, a, Pending)
  }

  /** Clearing touches the pending rows of the pair and nothing else. */
  lemma ClearExact(db: Db, a: User, b: User)
    ensures var n := ClearPendingBetween(db, a, b);
            && n == db.(requests := n.requests) && n.requests.Keys == db.requests.Keys
            && forall k :: k in db.requests ==> n.requests[k] == Cleared(db.requests[k], k == (a, b) || k == (b, a))
  {
  }

  function Cleared(r: Request, between: bool): Request {
    if between && r.status == Pending then r.(status := Rejected) else r
  }

  lemma SameIds(before: map<(User, User), Request>, after: map<(User, User), Request>, nextId: RequestId)
    requires DistinctIds(before, nextId) && after.Keys == before.Keys
    requires forall k :: k in before ==> after[k].id == before[k].id
    ensures DistinctIds(after, nextId)
  {
  }

  lemma AddWellFormed(db: Db, u: User, t: User)
    requires WellFormed(db) && u != t
    ensures WellFormed(CreateRequest(db, u, t))
  {
    if (u, t) in db.requests {
      SameIds(db.requests, CreateRequest(db, u, t).requests, db.nextId);
    }
  }

  lemma AnswerWellFormed(db: Db, u: User, f: User, rid: RequestId, s: Status)
    requires WellFormed(db)
    ensures WellFormed(Answer(db, u, f, rid, s).0)
  {
    SameIds(db.requests, Answer(db, u, f, rid, s).0.requests, db.nextId);
  }

  lemma BlockWellFormed(db: Db, u: User, t: User, cleared: bool)
    requires WellFormed(db)
    ensures WellFormed(Block(db, u, t, cleared).0)
  {
    var b := db.(blocks := db.blocks + {(u, t)});
    ClearExact(b, u, t);
    SameIds(b.requests, ClearPendingBetween(b, u, t).requests, b.nextId);
  }

  lemma StepWellFormed(db: Db, c: Command)
    requires WellFormed(db)
    ensures WellFormed(Handle(db, c).0)
  {
    match c {
      case Add(u, t, cap) => if u != t { AddWellFormed(db, u, t); }
      case Accept(u, f, rid) => AnswerWellFormed(db, u, f, rid, Accepted);
      case Reject(u, f, rid) => AnswerWellFormed(db, u, f, rid, Rejected);
      case BlockRequest(u, f, rid, cleared) => BlockWellFormed(db, u, f, cleared);
      case BlockByName(u, t, cleared) => BlockWellFormed(db, u, t, cleared);
      case UnblockUser(u, t) =>
      case Message(u, t) =>
    }
  }

  /** A request id names at most one row, so answering by id answers one request. */
  lemma OneRowPerId(db: Db, u: User, rid: RequestId, k: (User, User), l: (User, User))
    requires WellFormed(db) && Inbound(db, u, rid, k) && Inbound(db, u, rid, l)
    ensures k == l
  {
  }

  lemma {:induction false} RunWellFormed(users: set<User>, cs: seq<Command>)
    ensures WellFormed(After(users, cs))
  {
    if cs != [] {
      RunWellFormed(users, cs[..|cs| - 1]);
      StepWellFormed(After(users, cs[..|cs| - 1]), cs[|cs| - 1]);
    }
  }

  // ── Blocked pairs ──

  predicate Pair(u: User, v: User, a: User, b: User) {
    (u == a && v == b) || (u == b && v == a)
  }

  /** The command is a block between `a` and `b` whose clearing failed. */
  predicate ClearFailsFor(c: Command, a: User, b: User) {
    match c
    case BlockRequest(u, f, _, cleared) => !cleared && Pair(u, f, a, b)
    case BlockByName(u, t, cleared) => !cleared && Pair(u, t, a, b)
    case _ => false
  }

  predicate Apart(db: Db, a: User, b: User) {
    IsBlockedBetween(db, a, b) ==> !PendingBetween(db, a, b)
  }

  /** A block between them leaves no pending row between them exactly when it could clear them, or there were
      none to clear; any other block leaves the pair as it was. */
  lemma BlockExactly(db: Db, u: User, t: User, cleared: bool, a: User, b: User)
    requires u != t
    ensures var n := Block(db, u, t, cleared).0;
            if Pair(u, t, a, b) then IsBlockedBetween(n, a, b)
                && (PendingBetween(n, a, b) <==> !cleared && PendingBetween(db, a, b))
            else (IsBlockedBetween(n, a, b) <==> IsBlockedBetween(db, a, b))
                 && (PendingBetween(n, a, b) <==> PendingBetween(db, a, b))
  {
    ClearExact(db.(blocks := db.blocks + {(u, t)}), u, t);
  }

  /** The command leaves a pending row between users it blocks: a block between them goes through, there is a row
      to clear, and clearing it fails. */
  predicate LeavesPending(db: Db, c: Command, a: User, b: User) {
    ClearFailsFor(c, a, b) && PendingBetween(db, a, b) && Handle(db, c).1.ContactBlocked?
  }

  lemma StepApart(db: Db, c: Command, a: User, b: User)
    requires Apart(db, a, b)
    ensures Apart(Handle(db, c).0, a, b) <==> !LeavesPending(db, c, a, b)
  {
    match c {
      case Add(u, t, cap) =>
      case Accept(u, f, rid) =>
      case Reject(u, f, rid) =>
      case BlockRequest(u, f, rid, cleared) => if u != f { BlockExactly(db, u, f, cleared, a, b); }
      case BlockByName(u, t, cleared) => if u != t { BlockExactly(db, u, t, cleared, a, b); }
      case UnblockUser(u, t) =>
      case Message(u, t) =>
    }
  }

  predicate LeavesPendingAt(users: set<User>, cs: seq<Command>, k: nat, a: User, b: User) {
    k < |cs| && LeavesPending(After(users, cs[..k]), cs[k], a, b)
  }

  predicate ApartAt(users: set<User>, cs: seq<Command>, k: nat, a: User, b: User) {
    k <= |cs| ==> Apart(After(users, cs[..k]), a, b)
  }

  lemma SoFar(users: set<User>, cs: seq<Command>, k: nat)
    requires k < |cs|
    ensures After(users, cs[..k + 1]) == Handle(After(users, cs[..k]), cs[k]).0
  {
    assert cs[..k + 1][..k] == cs[..k];
  }

  lemma {:induction false} ApartUpTo(users: set<User>, cs: seq<Command>, k: nat, a: User, b: User)
    requires k <= |cs| && forall i: nat :: i < k ==> !LeavesPendingAt(users, cs, i, a, b)
    ensures ApartAt(users, cs, k, a, b)
  {
    if k > 0 {
      ApartUpTo(users, cs, k - 1, a, b);
      SoFar(users, cs, k - 1);
      assert ApartAt(users, cs, k - 1, a, b) && !LeavesPendingAt(users, cs, k - 1, a, b);
      StepApart(After(users, cs[..k - 1]), cs[k - 1], a, b);
    }
  }

  /** Two users never have a pending row between them while blocked, at any point of a run, exactly when no command
      of the run leaves one behind. */
  lemma ApartExactly(users: set<User>, cs: seq<Command>, a: User, b: User)
    ensures (forall k: nat :: ApartAt(users, cs, k, a, b)) <==> (forall k: nat :: !LeavesPendingAt(users, cs, k, a, b))
  {
    if k: nat :| LeavesPendingAt(users, cs, k, a, b) {
      SoFar(users, cs, k);
      if ApartAt(users, cs, k, a, b) {
        StepApart(After(users, cs[..k]), cs[k], a, b);
        assert !ApartAt(users, cs, k + 1, a, b);
      }
    } else {
      forall k: nat
        ensures ApartAt(users, cs, k, a, b)
      {
        if k <= |cs| {
          ApartUpTo(users, cs, k, a, b);
        }
      }
    }
  }

  /** The command would bring `a` and `b` together: a request, an acceptance or a message between them. */
  predicate Between(c: Command, a: User, b: User) {
    match c
    case Add(u, t, _) => (u == a && t == b) || (u == b && t == a)
    case Accept(u, f, _) => (u == a && f == b) || (u == b && f == a)
    case Message(u, t) => (u == a && t == b) || (u == b && t == a)
    case _ => false
  }

  /** While either blocks the other, after any run in which no command left a pending row between them behind: there
      is none, no request, acceptance or message between them goes through or changes anything, and neither is in
      the other's roster. */
  lemma {:induction false} BlockedPairsApart(users: set<User>, cs: seq<Command>, a: User, b: User, c: Command)
    requires forall k: nat :: !LeavesPendingAt(users, cs, k, a, b)
    requires IsBlockedBetween(After(users, cs), a, b)
    ensures !PendingBetween(After(users, cs), a, b)
    ensures b !in Roster(After(users, cs), a) && a !in Roster(After(users, cs), b)
    ensures Between(c, a, b) ==>
              var r := Handle(After(users, cs), c);
              r.0 == After(users, cs) && !r.1.RequestSent? && !r.1.ContactAccepted? && !r.1.MessageAccepted?
  {
    ApartUpTo(users, cs, |cs|, a, b);
    assert cs[..|cs|] == cs;
    RunWellFormed(users, cs);
  }

  /** Without clearing, an acceptance between blocked users goes through: acceptance does not look at blocks. */
  lemma UnclearedAcceptance(a: User, b: User)
    requires a != b
    ensures var cs := [Add(a, b, None), BlockByName(a, b, false)];
            var db := After({a, b}, cs);
            IsBlockedBetween(db, a, b) && Handle(db, Accept(b, a, 0)).1 == ContactAccepted(a)
  {
    var cs := [Add(a, b, None), BlockByName(a, b, false)];
    assert cs[..1] == [Add(a, b, None)] && cs[..1][..0] == [];
    var first := After({a, b}, cs[..1]);
    assert first == Handle(After({a, b}, []), Add(a, b, None)).0;
    assert first.requests == map[(a, b) := Request(0, Pending)];
  }

  // ── The roster ──

  lemma CountedExact(db: Db, u: User)
    ensures forall v :: v in Counted(db, u) <==> Occupies(db, u, v)
  {
    forall v | Occupies(db, u, v)
      ensures v in Counted(db, u)
    {
      if Has(db, v, u, Accepted) {
        assert (v, u) in db.requests;
      } else {
        assert (u, v) in db.requests;
      }
    }
  }

  /** The contacts of the roster are those the cap counts, without the blocked ones. */
  lemma RosterIsCountedUnblocked(db: Db, u: User)
    requires WellFormed(db)
    ensures Roster(db, u) == set v | v in Counted(db, u) && !IsBlockedBetween(db, u, v)
  {
    CountedExact(db, u);
    forall v
      ensures v in Roster(db, u) <==> v in Counted(db, u) && !IsBlockedBetween(db, u, v)
    {
      RosterExact(db, u, v);
    }
  }

  /** The cap counts the contacts of the roster exactly when none of the counted contacts is blocked. */
  lemma CountMatchesContacts(db: Db, u: User)
    requires WellFormed(db)
    ensures |Roster(db, u)| + |BlockedCounted(db, u)| == |Counted(db, u)|
    ensures Roster(db, u) == Counted(db, u) <==> BlockedCounted(db, u) == {}
  {
    RosterIsCountedUnblocked(db, u);
    assert Roster(db, u) + BlockedCounted(db, u) == Counted(db, u);
  }

  function BlockedCounted(db: Db, u: User): set<User> {
    set v | v in Counted(db, u) && IsBlockedBetween(db, u, v)
  }

  /** The contacts with two rows in the roster. */
  function Doubled(db: Db, u: User): set<User> {
    set v | v in Roster(db, u) && (u, v) in RosterRows(db, u) && (v, u) in RosterRows(db, u)
  }

  /** A contact is listed twice exactly when both sides asked and the other's request was accepted. */
  lemma ListedTwice(db: Db, u: User, v: User)
    requires NoneWithSelf(db.requests.Keys) && u != v
    ensures v in Doubled(db, u)
            <==> !IsBlockedBetween(db, u, v) && Has(db, v, u, Accepted)
                 && (Has(db, u, v, Pending) || Has(db, u, v, Accepted))
  {
    RosterExact(db, u, v);
  }

  /** The rows of one contact. */
  function RowsOf(db: Db, u: User, v: User): set<(User, User)> {
    set k | k in RosterRows(db, u) && Other(k, u) == v
  }

  lemma RowsOfExact(db: Db, u: User, v: User)
    requires NoneWithSelf(db.requests.Keys)
    ensures |RowsOf(db, u, v)| == if v in Doubled(db, u) then 2 else if v in Roster(db, u) then 1 else 0
  {
    var rows := RowsOf(db, u, v);
    assert forall k :: k in rows ==> (k == (u, v) || k == (v, u)) && u != v;
    if v in Doubled(db, u) {
      assert rows == {(u, v), (v, u)};
    } else if v in Roster(db, u) {
      var k :| k in RosterRows(db, u) && Other(k, u) == v;
      assert rows == {k};
    } else {
      assert rows == {};
    }
  }

  /** Every counted contact has exactly one row in the roster exactly when none is blocked and none is listed twice. */
  lemma OneRowEach(db: Db, u: User)
    requires WellFormed(db)
    ensures (forall v :: v in Counted(db, u) ==> |RowsOf(db, u, v)| == 1)
            <==> BlockedCounted(db, u) == {} && Doubled(db, u) == {}
  {
    RosterIsCountedUnblocked(db, u);
    forall v
      ensures |RowsOf(db, u, v)| == if v in Doubled(db, u) then 2 else if v in Roster(db, u) then 1 else 0
    {
      RowsOfExact(db, u, v);
    }
    if v :| v in BlockedCounted(db, u) {
      assert v in Counted(db, u) && v !in Roster(db, u);
    }
    if v :| v in Doubled(db, u) {
      assert v in Counted(db, u);
    }
  }

  function Outgoing(db: Db, u: User): set<User> {
    set k | k in RosterRows(db, u) && k.0 == u :: k.1
  }

  function Incoming(db: Db, u: User): set<User> {
    set k | k in RosterRows(db, u) && k.0 != u :: k.0
  }

  function FromTo(u: User, vs: set<User>): set<(User, User)> {
    set v | v in vs :: (u, v)
  }

  function ToFrom(u: User, vs: set<User>): set<(User, User)> {
    set v | v in vs :: (v, u)
  }

  lemma {:induction false} PairsCount(u: User, vs: set<User>)
    ensures |FromTo(u, vs)| == |vs| && |ToFrom(u, vs)| == |vs|
  {
    if v :| v in vs {
      var rest := vs - {v};
      PairsCount(u, rest);
      assert FromTo(u, vs) == FromTo(u, rest) + {(u, v)} && ToFrom(u, vs) == ToFrom(u, rest) + {(v, u)};
    } else {
      assert FromTo(u, vs) == {} && ToFrom(u, vs) == {};
    }
  }

  lemma RowsAreTwoKinds(db: Db, u: User)
    requires NoneWithSelf(db.requests.Keys)
    ensures |RosterRows(db, u)| == |Outgoing(db, u)| + |Incoming(db, u)|
  {
    var rows, o, i := RosterRows(db, u), FromTo(u, Outgoing(db, u)), ToFrom(u, Incoming(db, u));
    PairsCount(u, Outgoing(db, u));
    PairsCount(u, Incoming(db, u));
    forall k
      ensures k in rows <==> k in o + i
    {
      if k in rows {
        assert k == (k.0, k.1) && (k.0 == u ==> k.1 in Outgoing(db, u)) && (k.0 != u ==> k.0 in Incoming(db, u));
      }
    }
    assert rows == o + i && o * i == {};
  }

  lemma KindsOverlap(db: Db, u: User)
    requires NoneWithSelf(db.requests.Keys)
    ensures Outgoing(db, u) + Incoming(db, u) == Roster(db, u)
    ensures Outgoing(db, u) * Incoming(db, u) == Doubled(db, u)
  {
    forall v
      ensures v in Outgoing(db, u) <==> (u, v) in RosterRows(db, u)
      ensures v in Incoming(db, u) <==> v != u && (v, u) in RosterRows(db, u)
    {
      if v in Incoming(db, u) {
        var k :| k in RosterRows(db, u) && k.0 != u && k.0 == v;
        assert k == (v, u);
      }
      if v in Outgoing(db, u) {
        var k :| k in RosterRows(db, u) && k.0 == u && k.1 == v;
        assert k == (u, v);
      }
    }
    forall v | v in Outgoing(db, u) || v in Incoming(db, u)
      ensures v in Roster(db, u)
    {
      var k := if v in Outgoing(db, u) then (u, v) else (v, u);
      assert k in RosterRows(db, u) && Other(k, u) == v;
    }
    forall v | v in Roster(db, u)
      ensures v in Outgoing(db, u) || v in Incoming(db, u)
    {
      var k :| k in RosterRows(db, u) && Other(k, u) == v;
      assert k == (k.0, k.1);
    }
  }

  /** The rows the roster shows against the number the cap uses: blocked contacts are counted and not shown, and
      a contact with two rows is shown twice and counted once. */
  lemma CountMatchesRoster(db: Db, u: User)
    requires WellFormed(db)
    ensures |RosterRows(db, u)| + |BlockedCounted(db, u)| == |Counted(db, u)| + |Doubled(db, u)|
  {
    RowsAreTwoKinds(db, u);
    KindsOverlap(db, u);
    CountMatchesContacts(db, u);
    var o, i := Outgoing(db, u), Incoming(db, u);
    assert |o + i| + |o * i| == |o| + |i|;
  }

  // ── What a command undoes ──

  lemma RosterExact(db: Db, u: User, v: User)
    requires NoneWithSelf(db.requests.Keys)
    ensures v in Roster(db, u) <==> Occupies(db, u, v) && !IsBlockedBetween(db, u, v)
  {
    if Occupies(db, u, v) && !IsBlockedBetween(db, u, v) {
      var k := if Has(db, v, u, Accepted) then (v, u) else (u, v);
      assert k in RosterRows(db, u) && Other(k, u) == v;
    }
  }

  /** Blocking and unblocking leaves the accepted contacts and turns down the requests that were pending. It lifts the
      caller's own block, if there was one before, and nothing the other has blocked. */
  lemma BlockThenUnblock(db: Db, u: User, t: User, v: User)
    requires NoneWithSelf(db.requests.Keys) && u != t && t in db.users
    ensures var n := Unblock(BlockUser(db, u, t, true).0, u, t).0;
            && n == ClearPendingBetween(db, u, t).(blocks := db.blocks - {(u, t)})
            && (v != t ==> (v in Roster(n, u) <==> v in Roster(db, u)))
            && (t in Roster(n, u) <==> (t, u) !in db.blocks && (Has(db, u, t, Accepted) || Has(db, t, u, Accepted)))
  {
    var n := Unblock(BlockUser(db, u, t, true).0, u, t).0;
    ClearExact(db.(blocks := db.blocks + {(u, t)}), u, t);
    ClearExact(db, u, t);
    assert db.blocks + {(u, t)} - {(u, t)} == db.blocks - {(u, t)};
    RosterExact(db, u, v);
    RosterExact(n, u, v);
    RosterExact(n, u, t);
  }

  /** A second request resets the row whatever its status: whoever asks again drops out of the other's roster
      unless the other has a request of their own standing. */
  lemma AskingAgain(db: Db, u: User, t: User, cap: Option<int>)
    requires NoneWithSelf(db.requests.Keys) && AddContact(db, u, t, cap).1.RequestSent?
    ensures var n := AddContact(db, u, t, cap).0;
            && Has(n, u, t, Pending) && t in Roster(n, u)
            && (u in Roster(n, t) <==> Has(db, t, u, Pending) || Has(db, t, u, Accepted))
  {
    var n := AddContact(db, u, t, cap).0;
    RosterExact(n, u, t);
    RosterExact(n, t, u);
  }
}
