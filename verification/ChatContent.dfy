/** What a message says after a run, field by field, and whether its window shakes. */
module ChatContent {
  import opened Crypto
  import opened ChatStore

  /** The event carries this message of the conversation. */
  predicate CarriesId(e: Event, c: Name, id: MessageId) {
    Carries(e, c) && e.m.id == id
  }

  predicate CarriesAt(es: seq<Event>, l: nat, c: Name, id: MessageId) {
    l < |es| && CarriesId(es[l], c, id)
  }

  /** No later event carries it. */
  ghost predicate LastCarrying(es: seq<Event>, l: nat, c: Name, id: MessageId) {
    CarriesAt(es, l, c, id) && forall k: nat :: l < k ==> !CarriesAt(es, k, c, id)
  }

  /** The event carries the message with this extra field. */
  predicate BringsAt(es: seq<Event>, l: nat, c: Name, id: MessageId, f: Field) {
    CarriesAt(es, l, c, id) && f in es[l].m.extra
  }

  ghost predicate LastBringing(es: seq<Event>, l: nat, c: Name, id: MessageId, f: Field) {
    BringsAt(es, l, c, id, f) && forall k: nat :: l < k ==> !BringsAt(es, k, c, id, f)
  }

  predicate ReceiptAt(es: seq<Event>, k: nat, c: Name, id: MessageId) {
    k < |es| && es[k] == Receipt(c, id)
  }

  ghost predicate ReceiptAfter(es: seq<Event>, l: nat, c: Name, id: MessageId) {
    exists k: nat :: l < k && ReceiptAt(es, k, c, id)
  }

  // ── One event more ──

  lemma CarriesMore(es: seq<Event>, e: Event, l: nat, c: Name, id: MessageId)
    ensures CarriesAt(es + [e], l, c, id) <==> CarriesAt(es, l, c, id) || (l == |es| && CarriesId(e, c, id))
    ensures forall f :: BringsAt(es + [e], l, c, id, f) <==>
                        (BringsAt(es, l, c, id, f) || (l == |es| && CarriesId(e, c, id) && f in e.m.extra))
    ensures ReceiptAt(es + [e], l, c, id) <==> ReceiptAt(es, l, c, id) || (l == |es| && e == Receipt(c, id))
  {
  }

  lemma LastBefore(es: seq<Event>, e: Event, l: nat, c: Name, id: MessageId)
    requires LastCarrying(es + [e], l, c, id) && l < |es|
    ensures LastCarrying(es, l, c, id) && !CarriesId(e, c, id)
  {
    CarriesMore(es, e, l, c, id);
    CarriesMore(es, e, |es|, c, id);
    forall k: nat | l < k
      ensures !CarriesAt(es, k, c, id)
    {
      CarriesMore(es, e, k, c, id);
    }
  }

  lemma ReceiptMore(es: seq<Event>, e: Event, l: nat, c: Name, id: MessageId)
    requires l < |es|
    ensures ReceiptAfter(es + [e], l, c, id) <==> ReceiptAfter(es, l, c, id) || e == Receipt(c, id)
  {
    if k: nat :| l < k && ReceiptAt(es + [e], k, c, id) {
      CarriesMore(es, e, k, c, id);
    }
    if k: nat :| l < k && ReceiptAt(es, k, c, id) {
      CarriesMore(es, e, k, c, id);
    }
    if e == Receipt(c, id) {
      assert ReceiptAt(es + [e], |es|, c, id);
    }
  }

  // ── Fixed fields ──

  /** What every message has comes from the last event that carried it, and a receipt after that delivers it. */
  lemma {:induction false} FieldsOf(es: seq<Event>, l: nat, c: Name, id: MessageId)
    requires LastCarrying(es, l, c, id)
    ensures Content(es, c, id).Some?
    ensures var m := Content(es, c, id).value;
            && m.id == id && m.conversationId == es[l].m.conversationId && m.senderId == es[l].m.senderId
            && m.kind == es[l].m.kind && m.sentAt == es[l].m.sentAt && m.read == es[l].m.read
            && (m.delivered <==> es[l].m.delivered || ReceiptAfter(es, l, c, id))
  {
    var before, e := es[..|es| - 1], es[|es| - 1];
    assert es == before + [e];
    Longer(before, e, c, id);
    if l < |before| {
      LastBefore(before, e, l, c, id);
      FieldsOf(before, l, c, id);
      ReceiptMore(before, e, l, c, id);
    } else {
      assert forall k: nat :: l < k ==> !ReceiptAt(es, k, c, id);
    }
  }

  // ── Extra fields ──

  lemma BringsBefore(es: seq<Event>, e: Event, l: nat, c: Name, id: MessageId, f: Field)
    requires LastBringing(es + [e], l, c, id, f) && l < |es|
    ensures LastBringing(es, l, c, id, f) && !(CarriesId(e, c, id) && f in e.m.extra)
  {
    CarriesMore(es, e, l, c, id);
    CarriesMore(es, e, |es|, c, id);
    forall k: nat | l < k
      ensures !BringsAt(es, k, c, id, f)
    {
      CarriesMore(es, e, k, c, id);
    }
  }

  /** An extra field is that of the last event that brought it. */
  lemma {:induction false} ExtraOf(es: seq<Event>, l: nat, c: Name, id: MessageId, f: Field)
    requires LastBringing(es, l, c, id, f)
    ensures Content(es, c, id).Some?
    ensures f in Content(es, c, id).value.extra && Content(es, c, id).value.extra[f] == es[l].m.extra[f]
  {
    var before, e := es[..|es| - 1], es[|es| - 1];
    assert es == before + [e];
    Longer(before, e, c, id);
    if l < |before| {
      BringsBefore(before, e, l, c, id, f);
      ExtraOf(before, l, c, id, f);
    }
  }

  /** And there is none that no event brought. */
  lemma {:induction false} ExtraBrought(es: seq<Event>, c: Name, id: MessageId, f: Field)
    requires Content(es, c, id).Some? && f in Content(es, c, id).value.extra
    ensures exists l: nat :: BringsAt(es, l, c, id, f)
  {
    var before, e := es[..|es| - 1], es[|es| - 1];
    assert es == before + [e];
    Longer(before, e, c, id);
    if CarriesId(e, c, id) && f in e.m.extra {
      assert BringsAt(es, |before|, c, id, f);
    } else {
      ExtraBrought(before, c, id, f);
      var l: nat :| BringsAt(before, l, c, id, f);
      CarriesMore(before, e, l, c, id);
      assert BringsAt(es, l, c, id, f);
    }
  }

  // ── Main results ──

  /** In every run with fresh ids: the fixed fields of a message are those of the last event that carried its id since
      the last wipe, and it is delivered exactly when that event said so or a receipt came after it. */
  lemma LastEventWins(es: seq<Event>, c: Name, i: nat, l: nat)
    requires FreshSends(Kept(es, c), c) && i < |Messages(Run(es), c)|
    requires LastCarrying(Kept(es, c), l, c, Messages(Run(es), c)[i].id)
    ensures var m, last := Messages(Run(es), c)[i], Kept(es, c)[l].m;
            && m.conversationId == last.conversationId && m.senderId == last.senderId && m.kind == last.kind
            && m.sentAt == last.sentAt && m.read == last.read
            && (m.delivered <==> last.delivered || ReceiptAfter(Kept(es, c), l, c, m.id))
  {
    ContentAt(es, c, i);
    FieldsOf(Kept(es, c), l, c, Messages(Run(es), c)[i].id);
  }

  /** The extra field of a message is that of the last event that brought it, and absent exactly when none did. */
  ghost predicate FromLastBringer(es: seq<Event>, c: Name, m: Message, f: Field) {
    && (f in m.extra <==> exists l: nat :: BringsAt(es, l, c, m.id, f))
    && forall l: nat :: LastBringing(es, l, c, m.id, f) ==> f in m.extra && m.extra[f] == es[l].m.extra[f]
  }

  lemma ExtraOfContent(es: seq<Event>, c: Name, m: Message, f: Field)
    requires Content(es, c, m.id) == Some(m)
    ensures FromLastBringer(es, c, m, f)
  {
    BroughtExactly(es, c, m.id, f);
    forall l: nat | LastBringing(es, l, c, m.id, f)
      ensures f in m.extra && m.extra[f] == es[l].m.extra[f]
    {
      ExtraOf(es, l, c, m.id, f);
    }
  }

  lemma ContentAt(es: seq<Event>, c: Name, i: nat)
    requires FreshSends(Kept(es, c), c) && i < |Messages(Run(es), c)|
    ensures Content(Kept(es, c), c, Messages(Run(es), c)[i].id) == Some(Messages(Run(es), c)[i])
  {
    ContentExact(es, c);
  }

  /** So it is in every run with fresh ids, for every extra field of every message. */
  lemma LastBringerWins(es: seq<Event>, c: Name, i: nat, f: Field)
    requires FreshSends(Kept(es, c), c) && i < |Messages(Run(es), c)|
    ensures FromLastBringer(Kept(es, c), c, Messages(Run(es), c)[i], f)
  {
    ContentAt(es, c, i);
    ExtraOfContent(Kept(es, c), c, Messages(Run(es), c)[i], f);
  }

  lemma BroughtExactly(es: seq<Event>, c: Name, id: MessageId, f: Field)
    requires Content(es, c, id).Some?
    ensures f in Content(es, c, id).value.extra <==> exists l: nat :: BringsAt(es, l, c, id, f)
  {
    if f in Content(es, c, id).value.extra {
      ExtraBrought(es, c, id, f);
    }
    if l: nat :| BringsAt(es, l, c, id, f) {
      var last := LastBringer(es, l, c, id, f);
      ExtraOf(es, last, c, id, f);
    }
  }

  lemma {:induction false} LastBringer(es: seq<Event>, l: nat, c: Name, id: MessageId, f: Field) returns (last: nat)
    requires BringsAt(es, l, c, id, f)
    ensures LastBringing(es, last, c, id, f)
    decreases |es| - l
  {
    if k: nat :| l < k && BringsAt(es, k, c, id, f) {
      last := LastBringer(es, k, c, id, f);
    } else {
      last := l;
    }
  }

  /** Every message of the conversation has such a last event. */
  lemma CarriedLast(es: seq<Event>, c: Name, i: nat) returns (l: nat)
    requires i < |Messages(Run(es), c)|
    ensures LastCarrying(Kept(es, c), l, c, Messages(Run(es), c)[i].id)
  {
    var id := Messages(Run(es), c)[i].id;
    IdsAreMet(es, c);
    assert Ids(Messages(Run(es), c))[i] == id;
    var k := MetAt(Kept(es, c), c, id);
    l := LastCarrier(Kept(es, c), k, c, id);
  }

  lemma {:induction false} MetAt(es: seq<Event>, c: Name, id: MessageId) returns (k: nat)
    requires id in Met(es, c)
    ensures CarriesAt(es, k, c, id)
  {
    var before, e := es[..|es| - 1], es[|es| - 1];
    if CarriesId(e, c, id) {
      k := |before|;
    } else {
      k := MetAt(before, c, id);
    }
  }

  lemma {:induction false} LastCarrier(es: seq<Event>, l: nat, c: Name, id: MessageId) returns (last: nat)
    requires CarriesAt(es, l, c, id)
    ensures LastCarrying(es, last, c, id)
    decreases |es| - l
  {
    if k: nat :| l < k && CarriesAt(es, k, c, id) {
      last := LastCarrier(es, k, c, id);
    } else {
      last := l;
    }
  }

  // ── Shaking ──

  /** The event sets whether the window shakes: a message received, a new record, or the end of the shaking. */
  predicate SetsShaking(s: Conversations, e: Event, c: Name) {
    (e.Received? && Carries(e, c)) || e == Cleared(c) || (e == Opened(c) && !HasContact(s, c))
  }

  predicate SetsAt(es: seq<Event>, k: nat, c: Name) {
    k < |es| && SetsShaking(Run(es[..k]), es[k], c)
  }

  predicate WinkdAt(es: seq<Event>, k: nat, c: Name) {
    k < |es| && es[k].Received? && Carries(es[k], c) && es[k].m.kind == Winkd
  }

  /** The last event that sets it is a winkd received. */
  ghost predicate LastIsWinkd(es: seq<Event>, c: Name) {
    exists k: nat :: WinkdAt(es, k, c) && forall j: nat :: k < j ==> !SetsAt(es, j, c)
  }

  lemma WinkdMore(es: seq<Event>, e: Event, c: Name)
    ensures LastIsWinkd(es + [e], c) <==>
              if SetsShaking(Run(es), e, c) then e.Received? && e.m.kind == Winkd else LastIsWinkd(es, c)
  {
    var more := es + [e];
    assert more[..|es|] == es;
    forall k: nat | k < |es|
      ensures SetsAt(more, k, c) == SetsAt(es, k, c) && WinkdAt(more, k, c) == WinkdAt(es, k, c)
    {
      assert more[..k] == es[..k];
    }
    if SetsShaking(Run(es), e, c) {
      assert SetsAt(more, |es|, c);
      if e.Received? && e.m.kind == Winkd {
        assert WinkdAt(more, |es|, c);
      }
    } else {
      KeptWinkd(es, e, c);
    }
  }

  lemma KeptWinkd(es: seq<Event>, e: Event, c: Name)
    requires !SetsShaking(Run(es), e, c)
    requires forall k: nat :: k < |es| ==> SetsAt(es + [e], k, c) == SetsAt(es, k, c)
    requires forall k: nat :: k < |es| ==> WinkdAt(es + [e], k, c) == WinkdAt(es, k, c)
    ensures LastIsWinkd(es + [e], c) <==> LastIsWinkd(es, c)
  {
    var more := es + [e];
    assert more[..|es|] == es;
    assert !SetsAt(more, |es|, c) && !WinkdAt(more, |es|, c);
    if k: nat :| WinkdAt(es, k, c) && forall j: nat :: k < j ==> !SetsAt(es, j, c) {
      forall j: nat | k < j
        ensures !SetsAt(more, j, c)
      {
        assert j < |es| ==> SetsAt(more, j, c) == SetsAt(es, j, c);
      }
      assert WinkdAt(more, k, c);
    }
    if k: nat :| WinkdAt(more, k, c) && forall j: nat :: k < j ==> !SetsAt(more, j, c) {
      forall j: nat | k < j
        ensures !SetsAt(es, j, c)
      {
        assert j < |es| ==> SetsAt(more, j, c) == SetsAt(es, j, c);
      }
      assert WinkdAt(es, k, c);
    }
  }

  lemma ShakesStep(s: Conversations, e: Event, c: Name)
    ensures Spread(Apply(s, e), c).isShaking == Some(true) <==>
              if SetsShaking(s, e, c) then e.Received? && e.m.kind == Winkd else Spread(s, c).isShaking == Some(true)
  {
  }

  /** A window shakes after a run exactly when the last event that sets it was a winkd received. */
  lemma {:induction false} ShakesExactly(es: seq<Event>, c: Name)
    ensures Spread(Run(es), c).isShaking == Some(true) <==> LastIsWinkd(es, c)
  {
    if es != [] {
      var before, e := es[..|es| - 1], es[|es| - 1];
      assert es == before + [e];
      ShakesExactly(before, c);
      ShakesStep(Run(before), e, c);
      WinkdMore(before, e, c);
    }
  }
}
