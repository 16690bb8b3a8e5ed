/** The client's conversations (`apps/web/src/stores/chatStore.ts`): optimistic append, merge by id,
    delivery receipts, and what any run of events leaves. */
module ChatStore {
  import opened Crypto

  type Name = nat
  type MessageId = nat
  type Field = nat
  type Value = nat

  datatype Kind = Text | Winkd | Nudge | Wink | System

  /** `extra` holds the fields that only some messages have. */
  datatype Message = Message(id: MessageId, conversationId: Name, senderId: Name, kind: Kind, sentAt: nat,
                             delivered: bool, read: bool, extra: map<Field, Value>)

  /** Spreading a conversation that does not exist leaves its fields undefined. */
  datatype Conversation = Conversation(id: Option<Name>, contactId: Option<Name>, messages: Option<seq<Message>>,
                                       isShaking: Option<bool>)

  type Conversations = map<Name, Conversation>

  const UNDEFINED := Conversation(None, None, None, None)

  function Spread(s: Conversations, c: Name): Conversation {
    if c in s then s[c] else UNDEFINED
  }

  function Messages(s: Conversations, c: Name): seq<Message> {
    if Spread(s, c).messages.Some? then Spread(s, c).messages.value else []
  }

  // ── Actions ──

  /** `{ ...a, ...b }`: every field of `b`, and those of `a` that `b` lacks. */
  function Merge(a: Message, b: Message): Message {
    b.(extra := a.extra + b.extra)
  }

  /** `findIndex`: the first position with this id, or -1. */
  function FindIndex(ms: seq<Message>, id: MessageId): (i: int)
    ensures -1 <= i < |ms|
    ensures i == -1 <==> forall k :: 0 <= k < |ms| ==> ms[k].id != id
    ensures i >= 0 ==> ms[i].id == id && forall k :: 0 <= k < i ==> ms[k].id != id
  {
    if ms == [] then -1
    else if ms[0].id == id then 0
    else
      var j := FindIndex(ms[1..], id);
      assert forall k :: 1 <= k < |ms| ==> ms[k] == ms[1..][k - 1];
      if j == -1 then -1 else j + 1
  }

  function Upsert(ms: seq<Message>, m: Message): seq<Message> {
    var i := FindIndex(ms, m.id);
    if i >= 0 then ms[i := Merge(ms[i], m)] else ms + [m]
  }

  function Send(s: Conversations, m: Message): Conversations {
    var c := m.conversationId;
    s[c := Spread(s, c).(messages := Some(Messages(s, c) + [m]))]
  }

  function Receive(s: Conversations, m: Message): Conversations {
    var c := m.conversationId;
    var contact := if Spread(s, c).contactId.Some? then Spread(s, c).contactId.value else m.senderId;
    s[c := Conversation(Some(c), Some(contact), Some(Upsert(Messages(s, c), m)), Some(m.kind == Winkd))]
  }

  function Marked(ms: seq<Message>, id: MessageId): seq<Message> {
    seq(|ms|, i requires 0 <= i < |ms| => if ms[i].id == id then ms[i].(delivered := true) else ms[i])
  }

  /** A conversation without a message list makes the update throw, which leaves the state as it was. */
  function MarkDelivered(s: Conversations, c: Name, id: MessageId): Conversations {
    if c !in s || s[c].messages.None? then s
    else s[c := s[c].(messages := Some(Marked(s[c].messages.value, id)))]
  }

  predicate HasContact(s: Conversations, contact: Name) {
    exists c :: c in s && s[c].contactId == Some(contact)
  }

  function Open(s: Conversations, contact: Name): Conversations {
    if HasContact(s, contact) then s
    else s[contact := Conversation(Some(contact), Some(contact), Some([]), Some(false))]
  }

  function ClearShaking(s: Conversations, c: Name): Conversations {
    s[c := Spread(s, c).(isShaking := Some(false))]
  }

  // ── The store ──

  /** Each action replaces the whole record of conversations. */
  class Store {
    var conversations: Conversations

    constructor ()
      ensures conversations == map[]
    {
      conversations := map[];
    }

    method SendMessage(m: Message)
      modifies this
      ensures conversations == Send(old(conversations), m)
    {
      var c := m.conversationId;
      var before: seq<Message> := [];
      if c in conversations && conversations[c].messages.Some? {
        before := conversations[c].messages.value;
      }
      var conv := if c in conversations then conversations[c] else UNDEFINED;
      conversations := conversations[c := conv.(messages := Some(before + [m]))];
    }

    method ReceiveMessage(m: Message)
      modifies this
      ensures conversations == Receive(old(conversations), m)
    {
      var c := m.conversationId;
      var contact, existing: seq<Message> := m.senderId, [];
      if c in conversations {
        if conversations[c].contactId.Some? {
          contact := conversations[c].contactId.value;
        }
        if conversations[c].messages.Some? {
          existing := conversations[c].messages.value;
        }
      }
      var i := FindIndex(existing, m.id);
      if i >= 0 {
        existing := existing[i := Merge(existing[i], m)];
      } else {
        existing := existing + [m];
      }
      conversations := conversations[c := Conversation(Some(c), Some(contact), Some(existing), Some(m.kind == Winkd))];
    }

    method MarkMessageDelivered(c: Name, id: MessageId)
      modifies this
      ensures conversations == MarkDelivered(old(conversations), c, id)
    {
      if c in conversations && conversations[c].messages.Some? {
        var ms := Marked(conversations[c].messages.value, id);
        conversations := conversations[c := conversations[c].(messages := Some(ms))];
      }
    }
  }

  // ── Runs ──

  datatype Event =
    | Sent(m: Message)
    | Received(m: Message)
    | Receipt(c: Name, id: MessageId)
    | Opened(contact: Name)
    | Cleared(c: Name)

  function Apply(s: Conversations, e: Event): Conversations {
    match e
    case Sent(m) => Send(s, m)
    case Received(m) => Receive(s, m)
    case Receipt(c, id) => MarkDelivered(s, c, id)
    case Opened(contact) => Open(s, contact)
    case Cleared(c) => ClearShaking(s, c)
  }

  function Run(events: seq<Event>): Conversations {
    if events == [] then map[] else Apply(Run(events[..|events| - 1]), events[|events| - 1])
  }

  /** The event carries a message of this conversation. */
  predicate Carries(e: Event, c: Name) {
    (e.Sent? || e.Received?) && e.m.conversationId == c
  }

  /** The ids of the messages of one conversation in the order the client meets them. */
  function Met(events: seq<Event>, c: Name): seq<MessageId> {
    if events == [] then []
    else
      var e, before := events[|events| - 1], Met(events[..|events| - 1], c);
      if Carries(e, c) then before + [e.m.id] else before
  }

  /** Each element once, where it stands first. */
  function Firsts(s: seq<MessageId>): seq<MessageId> {
    if s == [] then []
    else
      var x, before := s[|s| - 1], s[..|s| - 1];
      if x in before then Firsts(before) else Firsts(before) + [x]
  }

  function Ids(ms: seq<Message>): seq<MessageId> {
    seq(|ms|, i requires 0 <= i < |ms| => ms[i].id)
  }

  ghost predicate Distinct(s: seq<MessageId>) {
    forall i, j :: 0 <= i < j < |s| ==> s[i] != s[j]
  }

  /** Opening a chat replaces a conversation that has messages: no conversation names the contact, its own record
      included, which names someone else or nobody. */
  predicate Wipes(s: Conversations, e: Event, c: Name) {
    e == Opened(c) && !HasContact(s, c) && Messages(s, c) != []
  }

  /** The events since the conversation was last wiped. */
  function Kept(events: seq<Event>, c: Name): seq<Event> {
    if events == [] then []
    else
      var e, before := events[|events| - 1], events[..|events| - 1];
      if Wipes(Run(before), e, c) then [] else Kept(before, c) + [e]
  }

  predicate Stale(events: seq<Event>, k: nat, c: Name) {
    k < |events| && events[k].Sent? && Carries(events[k], c) && events[k].m.id in Met(events[..k], c)
  }

  /** The sending client picks ids this conversation has not met. */
  ghost predicate FreshSends(events: seq<Event>, c: Name) {
    forall k: nat :: !Stale(events, k, c)
  }

  /** What one event does to the message with this id. */
  function Update(e: Event, c: Name, id: MessageId, before: Option<Message>): Option<Message> {
    if Carries(e, c) && e.m.id == id then Some(if before.Some? then Merge(before.value, e.m) else e.m)
    else if e == Receipt(c, id) && before.Some? then Some(before.value.(delivered := true))
    else before
  }

  /** All the content one id has received, in order: later fields over earlier ones, receipts in between. */
  function Content(events: seq<Event>, c: Name, id: MessageId): Option<Message> {
    if events == [] then None
    else Update(events[|events| - 1], c, id, Content(events[..|events| - 1], c, id))
  }

  // ── First occurrences ──

  lemma {:induction false} FirstsSame(s: seq<MessageId>)
    ensures forall x :: x in Firsts(s) <==> x in s
    ensures Distinct(Firsts(s))
  {
    if s != [] {
      FirstsSame(s[..|s| - 1]);
      assert s == s[..|s| - 1] + [s[|s| - 1]];
    }
  }

  /** Where an element stands first. */
  ghost predicate FirstAt(s: seq<MessageId>, x: MessageId, p: nat) {
    p < |s| && s[p] == x && x !in s[..p]
  }

  /** The elements stand in the order of their first positions. */
  lemma {:induction false} FirstsInOrder(s: seq<MessageId>, i: nat, j: nat, p: nat, q: nat)
    requires i < j < |Firsts(s)| && FirstAt(s, Firsts(s)[i], p) && FirstAt(s, Firsts(s)[j], q)
    ensures p < q
  {
    var before := s[..|s| - 1];
    FirstsSame(before);
    FirstsSame(s);
    if q < |before| {
      assert before[q] in before && s[..q] == before[..q];
      if j < |Firsts(before)| {
        assert Firsts(before)[i] in before;
        if p < |before| {
          assert s[..p] == before[..p];
          FirstsInOrder(before, i, j, p, q);
        }
      }
    } else {
      assert s[..q] == before;
    }
  }

  // ── Exactly once ──

  lemma Longer(events: seq<Event>, e: Event, c: Name, id: MessageId)
    ensures Met(events + [e], c) == if Carries(e, c) then Met(events, c) + [e.m.id] else Met(events, c)
    ensures FreshSends(events + [e], c)
            <==> FreshSends(events, c) && (e.Sent? && Carries(e, c) ==> e.m.id !in Met(events, c))
    ensures Content(events + [e], c, id) == Update(e, c, id, Content(events, c, id))
  {
    var more, n := events + [e], |events|;
    assert more[..n] == events;
    forall k: nat | k < n
      ensures Stale(more, k, c) == Stale(events, k, c)
    {
      assert more[..k] == events[..k];
    }
    assert Stale(more, n, c) <==> e.Sent? && Carries(e, c) && e.m.id in Met(events, c);
  }

  lemma {:induction false} IdsOf(events: seq<Event>, c: Name)
    requires FreshSends(Kept(events, c), c)
    ensures Ids(Messages(Run(events), c)) == Firsts(Met(Kept(events, c), c))
  {
    if events != [] {
      var before, e := events[..|events| - 1], events[|events| - 1];
      if !Wipes(Run(before), e, c) {
        Longer(Kept(before, c), e, c, 0);
        IdsOf(before, c);
        FirstsSame(Met(Kept(before, c), c));
        StepIds(Run(before), e, c, Met(Kept(before, c), c));
      }
    }
  }

  /** One event on a conversation whose ids are the first occurrences so far. */
  lemma StepIds(s: Conversations, e: Event, c: Name, met: seq<MessageId>)
    requires Ids(Messages(s, c)) == Firsts(met) && (forall x :: x in Firsts(met) <==> x in met)
    requires !Wipes(s, e, c) && (e.Sent? && e.m.conversationId == c ==> e.m.id !in met)
    ensures Ids(Messages(Apply(s, e), c)) == Firsts(if Carries(e, c) then met + [e.m.id] else met)
  {
    StepAppends(s, e, c);
    if Carries(e, c) {
      FirstsMore(met, e.m.id);
    }
  }

  lemma FirstsMore(met: seq<MessageId>, x: MessageId)
    ensures Firsts(met + [x]) == if x in met then Firsts(met) else Firsts(met) + [x]
  {
    assert (met + [x])[..|met|] == met;
  }

  lemma HasId(ms: seq<Message>, id: MessageId)
    ensures id in Ids(ms) <==> FindIndex(ms, id) >= 0
  {
    if FindIndex(ms, id) >= 0 {
      assert Ids(ms)[FindIndex(ms, id)] == id;
    }
  }

  /** Any run of appends, echoes, live deliveries, replays, client re-sends, receipts and openings leaves each id
      met since the last wipe once, at its first position, when the sender's own ids are fresh. */
  lemma ExactlyOnce(events: seq<Event>, c: Name)
    requires FreshSends(Kept(events, c), c)
    ensures Ids(Messages(Run(events), c)) == Firsts(Met(Kept(events, c), c))
    ensures Distinct(Ids(Messages(Run(events), c)))
    ensures forall x :: x in Ids(Messages(Run(events), c)) <==> x in Met(Kept(events, c), c)
  {
    IdsOf(events, c);
    FirstsSame(Met(Kept(events, c), c));
  }

  lemma {:induction false} IdsAreMet(events: seq<Event>, c: Name)
    ensures forall x :: x in Ids(Messages(Run(events), c)) <==> x in Met(Kept(events, c), c)
  {
    if events != [] {
      var before, e := events[..|events| - 1], events[|events| - 1];
      if !Wipes(Run(before), e, c) {
        Longer(Kept(before, c), e, c, 0);
        IdsAreMet(before, c);
        StepMet(Run(before), e, c, Met(Kept(before, c), c));
      }
    }
  }

  lemma StepMet(s: Conversations, e: Event, c: Name, met: seq<MessageId>)
    requires !Wipes(s, e, c) && forall x :: x in Ids(Messages(s, c)) <==> x in met
    ensures forall x :: x in Ids(Messages(Apply(s, e), c)) <==> x in (if Carries(e, c) then met + [e.m.id] else met)
  {
    StepAppends(s, e, c);
  }

  /** An event appends one id or leaves the ids as they are. */
  lemma StepAppends(s: Conversations, e: Event, c: Name)
    requires !Wipes(s, e, c)
    ensures var before, after := Ids(Messages(s, c)), Ids(Messages(Apply(s, e), c));
            after == if Carries(e, c) && (e.Sent? || e.m.id !in before) then before + [e.m.id] else before
  {
    if Carries(e, c) {
      HasId(Messages(s, c), e.m.id);
    }
  }

  /** The freshness of the sender's ids is exactly what distinctness needs, in every run. */
  lemma {:induction false} DistinctExactly(events: seq<Event>, c: Name)
    ensures Distinct(Ids(Messages(Run(events), c))) <==> FreshSends(Kept(events, c), c)
  {
    if events != [] {
      var before, e := events[..|events| - 1], events[|events| - 1];
      if !Wipes(Run(before), e, c) {
        Longer(Kept(before, c), e, c, 0);
        DistinctExactly(before, c);
        IdsAreMet(before, c);
        StepDistinct(Run(before), e, c);
      }
    }
  }

  lemma StepDistinct(s: Conversations, e: Event, c: Name)
    requires !Wipes(s, e, c)
    ensures var before, after := Ids(Messages(s, c)), Ids(Messages(Apply(s, e), c));
            Distinct(after) <==> Distinct(before) && (e.Sent? && Carries(e, c) ==> e.m.id !in before)
  {
    StepAppends(s, e, c);
    if Carries(e, c) {
      DistinctAppend(Ids(Messages(s, c)), e.m.id);
    }
  }

  lemma DistinctAppend(s: seq<MessageId>, x: MessageId)
    ensures Distinct(s + [x]) <==> Distinct(s) && x !in s
  {
    var t := s + [x];
    if Distinct(t) {
      forall i, j | 0 <= i < j < |s|
        ensures s[i] != s[j]
      {
        assert t[i] == s[i] && t[j] == s[j];
      }
      forall i | 0 <= i < |s|
        ensures s[i] != x
      {
        assert t[i] == s[i] && t[|s|] == x;
      }
    }
  }

  // ── Content ──

  ghost predicate Holds(events: seq<Event>, c: Name, ms: seq<Message>) {
    forall i :: 0 <= i < |ms| ==> Content(events, c, ms[i].id) == Some(ms[i])
  }

  lemma {:induction false} ContentMet(events: seq<Event>, c: Name, id: MessageId)
    ensures Content(events, c, id).Some? <==> id in Met(events, c)
    ensures Content(events, c, id).Some? ==> Content(events, c, id).value.id == id
  {
    if events != [] {
      ContentMet(events[..|events| - 1], c, id);
    }
  }

  /** In every run each message is the merge of everything received under its id since the last wipe. */
  lemma {:induction false} ContentExact(events: seq<Event>, c: Name)
    requires FreshSends(Kept(events, c), c)
    ensures Holds(Kept(events, c), c, Messages(Run(events), c))
  {
    if events != [] {
      var before, e := events[..|events| - 1], events[|events| - 1];
      if !Wipes(Run(before), e, c) {
        Longer(Kept(before, c), e, c, 0);
        ContentExact(before, c);
        ExactlyOnce(before, c);
        forall i: nat | i < |Messages(Run(events), c)|
          ensures Content(Kept(events, c), c, Messages(Run(events), c)[i].id) == Some(Messages(Run(events), c)[i])
        {
          StepContent(Run(before), Kept(before, c), e, c, i);
        }
      }
    }
  }

  lemma StepContent(s: Conversations, kept: seq<Event>, e: Event, c: Name, i: nat)
    requires Holds(kept, c, Messages(s, c)) && Distinct(Ids(Messages(s, c))) && FreshSends(kept + [e], c)
    requires forall x :: x in Ids(Messages(s, c)) <==> x in Met(kept, c)
    requires !Wipes(s, e, c) && i < |Messages(Apply(s, e), c)|
    ensures Content(kept + [e], c, Messages(Apply(s, e), c)[i].id) == Some(Messages(Apply(s, e), c)[i])
  {
    Longer(kept, e, c, Messages(Apply(s, e), c)[i].id);
    if i < |Messages(s, c)| {
      OldMessage(s, e, c, i);
    } else {
      NewMessage(s, e, c, i);
      ContentMet(kept, c, Messages(Apply(s, e), c)[i].id);
    }
  }

  lemma OldMessage(s: Conversations, e: Event, c: Name, i: nat)
    requires Distinct(Ids(Messages(s, c))) && i < |Messages(s, c)| && !Wipes(s, e, c)
    requires e.Sent? && Carries(e, c) ==> e.m.id !in Ids(Messages(s, c))
    ensures var ms, next := Messages(s, c), Messages(Apply(s, e), c);
            i < |next| && next[i].id == ms[i].id && Update(e, c, ms[i].id, Some(ms[i])) == Some(next[i])
  {
    var ms := Messages(s, c);
    assert forall k :: 0 <= k < |ms| ==> Ids(ms)[k] == ms[k].id;
    assert Ids(ms)[i] in Ids(ms);
  }

  lemma NewMessage(s: Conversations, e: Event, c: Name, i: nat)
    requires |Messages(s, c)| <= i < |Messages(Apply(s, e), c)|
    ensures var next := Messages(Apply(s, e), c)[i];
            Update(e, c, next.id, None) == Some(next) && (e.Received? ==> next.id !in Ids(Messages(s, c)))
    ensures Carries(e, c) && Messages(Apply(s, e), c)[i].id == e.m.id
  {
    if Carries(e, c) {
      HasId(Messages(s, c), e.m.id);
    }
  }

  // ── Replays ──

  /** Receiving the same message again changes nothing. */
  lemma ReceiveIdempotent(s: Conversations, m: Message)
    ensures Receive(Receive(s, m), m) == Receive(s, m)
  {
    var ms := Messages(s, m.conversationId);
    UpsertTwice(ms, m);
    var once := Receive(s, m);
    assert Messages(once, m.conversationId) == Upsert(ms, m);
    assert once[m.conversationId := once[m.conversationId]] == once;
  }

  lemma UpsertTwice(ms: seq<Message>, m: Message)
    ensures Upsert(Upsert(ms, m), m) == Upsert(ms, m)
  {
    var once := Upsert(ms, m);
    var i := FindIndex(ms, m.id);
    var p := if i >= 0 then i else |ms|;
    assert once[p].id == m.id && forall k :: 0 <= k < p ==> once[k].id != m.id;
    assert FindIndex(once, m.id) == p;
    assert Merge(once[p], m) == once[p] by {
      assert once[p].extra + m.extra == once[p].extra;
    }
  }

  /** Receipts and merges of different ids commute: the order in which they arrive does not matter. */
  lemma ReceiptCommutes(s: Conversations, m: Message, id: MessageId)
    requires m.id != id
    ensures Messages(MarkDelivered(Receive(s, m), m.conversationId, id), m.conversationId)
            == Messages(Receive(MarkDelivered(s, m.conversationId, id), m), m.conversationId)
  {
    var ms := Messages(s, m.conversationId);
    assert Messages(MarkDelivered(s, m.conversationId, id), m.conversationId) == Marked(ms, id);
    assert FindIndex(Marked(ms, id), m.id) == FindIndex(ms, m.id) by {
      assert forall k :: 0 <= k < |ms| ==> Marked(ms, id)[k].id == ms[k].id;
    }
    assert Marked(Upsert(ms, m), id) == Upsert(Marked(ms, id), m);
  }

  // ── When opening a chat keeps its messages ──

  /** Opening a chat changes the messages of a conversation exactly when it wipes them. */
  lemma OpenExactly(s: Conversations, contact: Name, c: Name)
    ensures Messages(Open(s, contact), c) == Messages(s, c) <==> !Wipes(s, Opened(contact), c)
  {
  }

  /** A record that names its own conversation as contact does so for good, and its messages are safe. */
  lemma OwnContactStays(s: Conversations, e: Event, c: Name)
    requires Spread(s, c).contactId == Some(c)
    ensures Spread(Apply(s, e), c).contactId == Some(c) && !Wipes(s, e, c)
  {
    assert c in s;
  }

  /** What the relay sends: in a conversation with a buddy, the buddy's messages and echoes of one's own. */
  ghost predicate Relayed(events: seq<Event>, me: Name) {
    forall i :: 0 <= i < |events| && events[i].Received? ==>
      events[i].m.senderId == events[i].m.conversationId || events[i].m.senderId == me
  }

  /** Whom the record of a conversation names, from its own events alone: whoever was heard first in it, or the
      buddy once the chat was opened. */
  function Named(events: seq<Event>, c: Name): Option<Name> {
    if events == [] then None
    else
      var e, before := events[|events| - 1], Named(events[..|events| - 1], c);
      if e == Opened(c) then Some(c)
      else if e.Received? && Carries(e, c) && before.None? then Some(e.m.senderId)
      else before
  }

  /** The chat is opened after a message was met in it, and the first thing ever heard in it, if any, was not from
      the buddy but an echo. */
  predicate OpensLate(events: seq<Event>, k: nat, c: Name) {
    k < |events| && events[k] == Opened(c) && Met(events[..k], c) != [] && Named(events[..k], c) != Some(c)
  }

  ghost predicate Unwiped(events: seq<Event>, c: Name) {
    Kept(events, c) == events
  }

  lemma {:induction false} NamedExactly(events: seq<Event>, c: Name, me: Name)
    requires Relayed(events, me) && c != me
    ensures Spread(Run(events), c).contactId == Named(events, c)
    ensures HasContact(Run(events), c) <==> Named(events, c) == Some(c)
  {
    OthersNameOthers(events, c, me);
    if events != [] {
      NamedExactly(events[..|events| - 1], c, me);
    }
    if Named(events, c) == Some(c) {
      assert c in Run(events);
    }
  }

  lemma {:induction false} OthersNameOthers(events: seq<Event>, c: Name, me: Name)
    requires Relayed(events, me) && c != me
    ensures forall d :: d in Run(events) && Run(events)[d].contactId == Some(c) ==> d == c
  {
    if events != [] {
      OthersNameOthers(events[..|events| - 1], c, me);
    }
  }

  lemma {:induction false} KeptLength(events: seq<Event>, c: Name)
    ensures |Kept(events, c)| <= |events|
  {
    if events != [] {
      KeptLength(events[..|events| - 1], c);
    }
  }

  lemma UnwipedStep(events: seq<Event>, c: Name)
    requires events != []
    ensures var before, e := events[..|events| - 1], events[|events| - 1];
            Unwiped(events, c) <==> Unwiped(before, c) && !Wipes(Run(before), e, c)
  {
    var before, e := events[..|events| - 1], events[|events| - 1];
    KeptLength(before, c);
    assert events == before + [e];
  }

  lemma OpensLateStep(events: seq<Event>, c: Name)
    requires events != []
    ensures var n := |events| - 1;
            (forall k: nat :: !OpensLate(events, k, c))
            <==> (forall k: nat :: !OpensLate(events[..n], k, c)) && !OpensLate(events, n, c)
  {
    var n := |events| - 1;
    forall k: nat | k < n
      ensures OpensLate(events[..n], k, c) == OpensLate(events, k, c)
    {
      assert events[..n][..k] == events[..k];
    }
    forall k: nat | !(k < n)
      ensures !OpensLate(events[..n], k, c)
    {
    }
  }

  /** In what the relay sends, a conversation is never wiped exactly when its chat is never opened late: a test on
      the events alone. */
  lemma {:induction false} UnwipedExactly(events: seq<Event>, c: Name, me: Name)
    requires Relayed(events, me) && c != me
    ensures Unwiped(events, c) <==> forall k: nat :: !OpensLate(events, k, c)
  {
    if events != [] {
      var n := |events| - 1;
      UnwipedStep(events, c);
      OpensLateStep(events, c);
      UnwipedExactly(events[..n], c, me);
      NamedExactly(events[..n], c, me);
      IdsAreMet(events[..n], c);
      if Unwiped(events[..n], c) {
        SomethingMet(Messages(Run(events[..n]), c), Met(events[..n], c));
      }
    }
  }

  lemma SomethingMet(ms: seq<Message>, met: seq<MessageId>)
    requires forall x :: x in Ids(ms) <==> x in met
    ensures ms == [] <==> met == []
  {
    if ms != [] {
      assert Ids(ms)[0] in met;
    }
    if met != [] {
      assert met[0] in Ids(ms);
    }
  }

  /** So a chat that is never opened late keeps every id it ever met, once, at its first position, with all its
      content. */
  lemma NeverOpenedLate(events: seq<Event>, c: Name, me: Name)
    requires Relayed(events, me) && c != me && FreshSends(events, c)
    requires forall k: nat :: !OpensLate(events, k, c)
    ensures Ids(Messages(Run(events), c)) == Firsts(Met(events, c)) && Holds(events, c, Messages(Run(events), c))
  {
    UnwipedExactly(events, c, me);
    ExactlyOnce(events, c);
    ContentExact(events, c);
  }

  /** An echo of one's own message does not save it: the record then names oneself. */
  lemma EchoDoesNotSave(m: Message)
    requires m.senderId != m.conversationId
    ensures var s := Run([Sent(m), Received(m)]);
            Ids(Messages(s, m.conversationId)) == [m.id] && Wipes(s, Opened(m.conversationId), m.conversationId)
  {
    var events := [Sent(m), Received(m)];
    assert events[..1] == [Sent(m)] && [Sent(m)][..0] == [];
    assert Run([]) == map[];
    assert Run([Sent(m)]) == Send(map[], m);
  }
}
