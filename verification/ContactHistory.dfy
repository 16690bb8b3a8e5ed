/** What the history of commands says about every row and every block: who asked, who answered, who blocked. */
module ContactHistory {
  import opened Crypto
  import opened Contacts

  // ── What a command did ──

  datatype Deed =
    | Asked(f: User, t: User)
    | Accepts(f: User, t: User)
    | Rejects(f: User, t: User)
    | Clears(a: User, b: User)
    | Blocks(a: User, b: User)
    | Lifts(a: User, b: User)

  /** The user a block command is about. */
  function Target(c: Command): Option<User> {
    match c
    case BlockRequest(u, f, _, _) => Some(f)
    case BlockByName(u, t, _) => Some(t)
    case _ => None
  }

  /** The command, given at this state, did it: a request went out, an answer was taken, pending rows between two users
      were cleared by a block, a block was set, or lifted by the one who set it. */
  predicate Does(db: Db, c: Command, d: Deed) {
    match d
    case Asked(f, t) => c.Add? && c.u == f && c.t == t && Handle(db, c).1.RequestSent?
    case Accepts(f, t) => c.Accept? && c.u == t && c.f == f && Handle(db, c).1 == ContactAccepted(f)
    case Rejects(f, t) => c.Reject? && c.u == t && c.f == f && Handle(db, c).1 == ContactRejected
    case Clears(a, b) =>
      && Target(c).Some? && (c.BlockRequest? || c.BlockByName?) && c.cleared && Pair(c.u, Target(c).value, a, b)
      && Handle(db, c).1.ContactBlocked?
    case Blocks(a, b) => Target(c) == Some(b) && c.u == a && Handle(db, c).1 == ContactBlocked(b)
    case Lifts(a, b) => c == UnblockUser(a, b)
  }

  predicate DoesAt(users: set<User>, cs: seq<Command>, i: nat, d: Deed) {
    i < |cs| && Does(After(users, cs[..i]), cs[i], d)
  }

  /** None of these was done after `i`. */
  ghost predicate NoneSince(users: set<User>, cs: seq<Command>, i: nat, ends: set<Deed>) {
    forall j: nat, d :: i < j && d in ends ==> !DoesAt(users, cs, j, d)
  }

  /** It was done, and nothing that ends it has been done since. */
  ghost predicate Standing(users: set<User>, cs: seq<Command>, d: Deed, ends: set<Deed>) {
    exists i: nat :: DoesAt(users, cs, i, d) && NoneSince(users, cs, i, ends)
  }

  // ── One command more ──

  lemma DoesMore(users: set<User>, cs: seq<Command>, c: Command, i: nat, d: Deed)
    ensures DoesAt(users, cs + [c], i, d) <==> DoesAt(users, cs, i, d) || (i == |cs| && Does(After(users, cs), c, d))
  {
    assert i <= |cs| ==> (cs + [c])[..i] == cs[..i];
    assert cs[..|cs|] == cs;
  }

  ghost predicate DoesAny(db: Db, c: Command, ends: set<Deed>) {
    exists d :: d in ends && Does(db, c, d)
  }

  lemma NoneMore(users: set<User>, cs: seq<Command>, c: Command, i: nat, ends: set<Deed>)
    requires i < |cs|
    ensures NoneSince(users, cs + [c], i, ends)
            <==> NoneSince(users, cs, i, ends) && !DoesAny(After(users, cs), c, ends)
  {
    if NoneSince(users, cs + [c], i, ends) {
      forall j: nat, d | i < j && d in ends
        ensures !DoesAt(users, cs, j, d)
      {
        DoesMore(users, cs, c, j, d);
      }
      forall d | d in ends
        ensures !Does(After(users, cs), c, d)
      {
        DoesMore(users, cs, c, |cs|, d);
        assert !DoesAt(users, cs + [c], |cs|, d);
      }
    } else {
      var j: nat, d :| i < j && d in ends && DoesAt(users, cs + [c], j, d);
      DoesMore(users, cs, c, j, d);
    }
  }

  lemma NoneAfterLast(users: set<User>, cs: seq<Command>, c: Command, ends: set<Deed>)
    ensures NoneSince(users, cs + [c], |cs|, ends)
  {
  }

  /** A deed stands after one command more exactly when that command did it, or it stood and that did not end it. */
  lemma StandingMore(users: set<User>, cs: seq<Command>, c: Command, d: Deed, ends: set<Deed>)
    ensures Standing(users, cs + [c], d, ends) <==>
              Does(After(users, cs), c, d) || (Standing(users, cs, d, ends) && !DoesAny(After(users, cs), c, ends))
  {
    if Does(After(users, cs), c, d) {
      DoesMore(users, cs, c, |cs|, d);
      NoneAfterLast(users, cs, c, ends);
    } else if i: nat :| DoesAt(users, cs + [c], i, d) && NoneSince(users, cs + [c], i, ends) {
      DoesMore(users, cs, c, i, d);
      NoneMore(users, cs, c, i, ends);
    } else if i: nat :| DoesAt(users, cs, i, d) && NoneSince(users, cs, i, ends) {
      DoesMore(users, cs, c, i, d);
      NoneMore(users, cs, c, i, ends);
      assert DoesAny(After(users, cs), c, ends);
    }
  }

  lemma AfterMore(users: set<User>, cs: seq<Command>, c: Command)
    ensures After(users, cs + [c]) == Handle(After(users, cs), c).0
  {
    assert (cs + [c])[..|cs|] == cs;
  }

  lemma NothingStands(users: set<User>, d: Deed, ends: set<Deed>)
    ensures !Standing(users, [], d, ends)
  {
  }

  // ── Blocks ──

  lemma StepBlocked(db: Db, c: Command, a: User, b: User)
    ensures (a, b) in Handle(db, c).0.blocks
            <==> Does(db, c, Blocks(a, b)) || ((a, b) in db.blocks && !Does(db, c, Lifts(a, b)))
  {
    match c {
      case Add(u, x, cap) =>
      case Accept(u, x, rid) =>
      case Reject(u, x, rid) =>
      case BlockRequest(u, x, rid, cleared) => ClearExact(db.(blocks := db.blocks + {(u, x)}), u, x);
      case BlockByName(u, x, cleared) => ClearExact(db.(blocks := db.blocks + {(u, x)}), u, x);
      case UnblockUser(u, x) =>
      case Message(u, x) =>
    }
  }

  /** After any run, one user blocks another exactly when she blocked him by a command that went through and has not
      unblocked him since. Nobody else's commands play a part. */
  lemma {:induction false} BlockedExactly(users: set<User>, cs: seq<Command>, a: User, b: User)
    ensures (a, b) in After(users, cs).blocks <==> Standing(users, cs, Blocks(a, b), {Lifts(a, b)})
  {
    if cs == [] {
      NothingStands(users, Blocks(a, b), {Lifts(a, b)});
    } else {
      var before, c := cs[..|cs| - 1], cs[|cs| - 1];
      assert cs == before + [c];
      BlockedExactly(users, before, a, b);
      StandingMore(users, before, c, Blocks(a, b), {Lifts(a, b)});
      AfterMore(users, before, c);
      StepBlocked(After(users, before), c, a, b);
      OneEnds(After(users, before), c, Lifts(a, b));
    }
  }

  lemma OneEnds(db: Db, c: Command, d: Deed)
    ensures DoesAny(db, c, {d}) <==> Does(db, c, d)
  {
    if Does(db, c, d) {
      assert d in {d};
    }
  }

  lemma {:induction false} UsersStay(users: set<User>, cs: seq<Command>)
    ensures After(users, cs).users == users
  {
    if cs != [] {
      UsersStay(users, cs[..|cs| - 1]);
      StepUsers(After(users, cs[..|cs| - 1]), cs[|cs| - 1]);
    }
  }

  lemma StepUsers(db: Db, c: Command)
    ensures Handle(db, c).0.users == db.users
  {
  }

  // ── Rows ──

  lemma StepAccepted(db: Db, c: Command, f: User, t: User)
    ensures Has(Handle(db, c).0, f, t, Accepted)
            <==> Does(db, c, Accepts(f, t)) || (Has(db, f, t, Accepted) && !Does(db, c, Asked(f, t)))
  {
    match c {
      case Add(u, x, cap) =>
      case Accept(u, x, rid) =>
      case Reject(u, x, rid) =>
      case BlockRequest(u, x, rid, cleared) => ClearExact(db.(blocks := db.blocks + {(u, x)}), u, x);
      case BlockByName(u, x, cleared) => ClearExact(db.(blocks := db.blocks + {(u, x)}), u, x);
      case UnblockUser(u, x) =>
      case Message(u, x) =>
    }
  }

  /** After any run a row is accepted exactly when its addressee accepted it and its sender has not asked again
      since. */
  lemma {:induction false} AcceptedByConsent(users: set<User>, cs: seq<Command>, f: User, t: User)
    ensures Has(After(users, cs), f, t, Accepted) <==> Standing(users, cs, Accepts(f, t), {Asked(f, t)})
  {
    if cs == [] {
      NothingStands(users, Accepts(f, t), {Asked(f, t)});
    } else {
      var before, c := cs[..|cs| - 1], cs[|cs| - 1];
      assert cs == before + [c];
      AcceptedByConsent(users, before, f, t);
      StandingMore(users, before, c, Accepts(f, t), {Asked(f, t)});
      AfterMore(users, before, c);
      StepAccepted(After(users, before), c, f, t);
      OneEnds(After(users, before), c, Asked(f, t));
    }
  }

  /** What settles a pending request: either answer of the addressee, or a block between the two that clears it. */
  function Settles(f: User, t: User): set<Deed> {
    {Accepts(f, t), Rejects(f, t), Clears(f, t)}
  }

  lemma BlockClears(db: Db, u: User, x: User, cleared: bool, f: User, t: User)
    requires u != x
    ensures Has(Block(db, u, x, cleared).0, f, t, Pending) <==> Has(db, f, t, Pending) && !(cleared && Pair(u, x, f, t))
  {
    ClearExact(db.(blocks := db.blocks + {(u, x)}), u, x);
  }

  lemma StepPending(db: Db, c: Command, f: User, t: User)
    ensures Has(Handle(db, c).0, f, t, Pending)
            <==> Does(db, c, Asked(f, t)) || (Has(db, f, t, Pending) && !DoesAny(db, c, Settles(f, t)))
  {
    assert DoesAny(db, c, Settles(f, t)) <==>
           (Does(db, c, Accepts(f, t)) || Does(db, c, Rejects(f, t)) || Does(db, c, Clears(f, t))) by {
      assert Accepts(f, t) in Settles(f, t) && Rejects(f, t) in Settles(f, t) && Clears(f, t) in Settles(f, t);
    }
    match c {
      case Add(u, x, cap) =>
      case Accept(u, x, rid) =>
      case Reject(u, x, rid) =>
      case BlockRequest(u, x, rid, cleared) => if u != x { BlockClears(db, u, x, cleared, f, t); }
      case BlockByName(u, x, cleared) => if u != x { BlockClears(db, u, x, cleared, f, t); }
      case UnblockUser(u, x) =>
      case Message(u, x) =>
    }
  }

  /** After any run a request is pending exactly when it was sent and has been neither answered by its addressee nor
      cleared by a block between the two since. */
  lemma {:induction false} PendingExactly(users: set<User>, cs: seq<Command>, f: User, t: User)
    ensures Has(After(users, cs), f, t, Pending) <==> Standing(users, cs, Asked(f, t), Settles(f, t))
  {
    if cs == [] {
      NothingStands(users, Asked(f, t), Settles(f, t));
    } else {
      var before, c := cs[..|cs| - 1], cs[|cs| - 1];
      assert cs == before + [c];
      PendingExactly(users, before, f, t);
      StandingMore(users, before, c, Asked(f, t), Settles(f, t));
      AfterMore(users, before, c);
      StepPending(After(users, before), c, f, t);
    }
  }

  lemma StepRow(db: Db, c: Command, f: User, t: User)
    ensures (f, t) in Handle(db, c).0.requests <==> Does(db, c, Asked(f, t)) || (f, t) in db.requests
    ensures (f, t) in db.requests ==>
              (f, t) in Handle(db, c).0.requests && Handle(db, c).0.requests[(f, t)].id == db.requests[(f, t)].id
  {
    match c {
      case Add(u, x, cap) =>
      case Accept(u, x, rid) =>
      case Reject(u, x, rid) =>
      case BlockRequest(u, x, rid, cleared) => ClearExact(db.(blocks := db.blocks + {(u, x)}), u, x);
      case BlockByName(u, x, cleared) => ClearExact(db.(blocks := db.blocks + {(u, x)}), u, x);
      case UnblockUser(u, x) =>
      case Message(u, x) =>
    }
  }

  /** There is a row exactly when its sender ever asked. */
  lemma {:induction false} RowExactly(users: set<User>, cs: seq<Command>, f: User, t: User)
    ensures (f, t) in After(users, cs).requests <==> Standing(users, cs, Asked(f, t), {})
  {
    if cs == [] {
      NothingStands(users, Asked(f, t), {});
    } else {
      var before, c := cs[..|cs| - 1], cs[|cs| - 1];
      assert cs == before + [c];
      RowExactly(users, before, f, t);
      StandingMore(users, before, c, Asked(f, t), {});
      AfterMore(users, before, c);
      StepRow(After(users, before), c, f, t);
    }
  }

  /** And it is rejected exactly when it is there and neither pending nor accepted: when it was asked for, settled, and
      not accepted since the last time. */
  lemma RejectedExactly(users: set<User>, cs: seq<Command>, f: User, t: User)
    ensures Has(After(users, cs), f, t, Rejected) <==>
              && Standing(users, cs, Asked(f, t), {}) && !Standing(users, cs, Asked(f, t), Settles(f, t))
              && !Standing(users, cs, Accepts(f, t), {Asked(f, t)})
  {
    RowExactly(users, cs, f, t);
    PendingExactly(users, cs, f, t);
    AcceptedByConsent(users, cs, f, t);
  }

  // ── The cap in one command ──

  /** A request under a cap goes out only while there is room for it, and a full list is the reason exactly when there
      is none; afterwards the cap still holds. */
  lemma AddWithinCap(db: Db, u: User, t: User, cap: int)
    requires t != u
    ensures var (n, r) := AddContact(db, u, t, Some(cap));
            && (r == RosterFull <==> |Counted(db, u)| >= cap)
            && (r.RequestSent? ==> |Counted(n, u)| <= cap)
            && (!r.RequestSent? ==> n == db)
  {
    if AddContact(db, u, t, Some(cap)).1.RequestSent? {
      CountedMore(db, u, t);
      assert |Counted(db, u) + {t}| <= |Counted(db, u)| + 1;
    }
  }

  lemma CountedMore(db: Db, u: User, t: User)
    requires u != t
    ensures Counted(CreateRequest(db, u, t), u) == Counted(db, u) + {t}
  {
    var n := CreateRequest(db, u, t);
    CountedExact(db, u);
    CountedExact(n, u);
    assert Has(n, u, t, Pending);
    forall v
      ensures Occupies(n, u, v) <==> Occupies(db, u, v) || v == t
    {
    }
  }

  // ── What goes through ──

  /** Neither user has a block standing against the other. */
  ghost predicate Free(users: set<User>, cs: seq<Command>, a: User, b: User) {
    !Standing(users, cs, Blocks(a, b), {Lifts(a, b)}) && !Standing(users, cs, Blocks(b, a), {Lifts(b, a)})
  }

  lemma FreeExactly(users: set<User>, cs: seq<Command>, a: User, b: User)
    ensures Free(users, cs, a, b) <==> !IsBlockedBetween(After(users, cs), a, b)
  {
    BlockedExactly(users, cs, a, b);
    BlockedExactly(users, cs, b, a);
  }

  /** The outcome of a request: told apart in this order are oneself, a full list, an unknown name, and a block standing
      either way. */
  lemma RequestGoesOutExactly(users: set<User>, cs: seq<Command>, u: User, t: User, cap: Option<int>)
    ensures var r := Handle(After(users, cs), Add(u, t, cap)).1;
            var room := cap.Some? ==> |Counted(After(users, cs), u)| < cap.value;
            && (r.RequestSent? <==> u != t && room && t in users && Free(users, cs, u, t))
            && (r == SelfAdd <==> u == t)
            && (r == RosterFull <==> u != t && !room)
            && (r == NotFound <==> u != t && room && t !in users)
  {
    FreeExactly(users, cs, u, t);
    UsersStay(users, cs);
  }

  /** The id that is sent out with a request is the one that answers it, and no other answers it. */
  lemma SentIdAnswers(users: set<User>, cs: seq<Command>, u: User, t: User, cap: Option<int>, rid: RequestId)
    requires Handle(After(users, cs), Add(u, t, cap)).1.RequestSent?
    ensures var (db, r) := Handle(After(users, cs), Add(u, t, cap));
            Handle(db, Accept(t, u, rid)).1 == ContactAccepted(u) <==> rid == r.id
  {
  }

  // ── The roster ──

  /** `u` has an open or accepted request to `v`, or accepted one of `v`. */
  ghost predicate Together(users: set<User>, cs: seq<Command>, u: User, v: User) {
    || Standing(users, cs, Asked(u, v), Settles(u, v)) || Standing(users, cs, Accepts(u, v), {Asked(u, v)})
    || Standing(users, cs, Accepts(v, u), {Asked(v, u)})
  }

  lemma TogetherExactly(users: set<User>, cs: seq<Command>, u: User, v: User)
    ensures Together(users, cs, u, v) <==> Occupies(After(users, cs), u, v)
  {
    PendingExactly(users, cs, u, v);
    AcceptedByConsent(users, cs, u, v);
    AcceptedByConsent(users, cs, v, u);
  }

  /** The cap counts whom the user asked, unless turned down, and whom he or she accepted; the roster lists them but for
      those with a block standing either way. */
  lemma RosterExactly(users: set<User>, cs: seq<Command>, u: User, v: User)
    ensures v in Counted(After(users, cs), u) <==> Together(users, cs, u, v)
    ensures v in Roster(After(users, cs), u) <==> Together(users, cs, u, v) && Free(users, cs, u, v)
  {
    RunWellFormed(users, cs);
    TogetherExactly(users, cs, u, v);
    FreeExactly(users, cs, u, v);
    CountedExact(After(users, cs), u);
    RosterExact(After(users, cs), u, v);
  }

  // ── Answers ──

  /** The request of `f` to `t` still waits for its answer, and this is its id. */
  ghost predicate Waits(users: set<User>, cs: seq<Command>, f: User, t: User, rid: RequestId) {
    Standing(users, cs, Asked(f, t), Settles(f, t)) && (f, t) in After(users, cs).requests
    && After(users, cs).requests[(f, t)].id == rid
  }

  /** An answer, or a block by request id, goes through exactly while the request waits: sent, addressed to the caller,
      and neither answered nor cleared since. Answered otherwise, nothing changes. */
  lemma AnswerGoesThroughExactly(users: set<User>, cs: seq<Command>, t: User, f: User, rid: RequestId, cleared: bool)
    ensures var db := After(users, cs);
            && (Handle(db, Accept(t, f, rid)).1 == ContactAccepted(f) <==> Waits(users, cs, f, t, rid))
            && (Handle(db, Reject(t, f, rid)).1 == ContactRejected <==> Waits(users, cs, f, t, rid))
            && (Handle(db, BlockRequest(t, f, rid, cleared)).1 == ContactBlocked(f) <==> Waits(users, cs, f, t, rid))
            && (!Waits(users, cs, f, t, rid) ==>
                  && Handle(db, Accept(t, f, rid)).0 == db && Handle(db, Reject(t, f, rid)).0 == db
                  && Handle(db, BlockRequest(t, f, rid, cleared)).0 == db)
  {
    PendingExactly(users, cs, f, t);
    RunWellFormed(users, cs);
  }

  /** A block by name goes through exactly against another existing user. */
  lemma BlockGoesThroughExactly(users: set<User>, cs: seq<Command>, u: User, t: User, cleared: bool)
    ensures Handle(After(users, cs), BlockByName(u, t, cleared)).1 == ContactBlocked(t) <==> u != t && t in users
  {
    UsersStay(users, cs);
  }

  /** A message is accepted exactly to an existing user, with no block standing either way. */
  lemma MessageAcceptedExactly(users: set<User>, cs: seq<Command>, u: User, t: User)
    ensures Handle(After(users, cs), Message(u, t)).1 == MessageAccepted <==> t in users && Free(users, cs, u, t)
  {
    FreeExactly(users, cs, u, t);
    UsersStay(users, cs);
  }
}
