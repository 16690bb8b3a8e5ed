/** Whatever the closed description of an attacker's knowledge covers, the attacker's rules can derive. */
module Derivability {
  import opened Crypto
  import opened Secrecy

  lemma DerivesMore(k: Knowledge, a: set<Term>, b: set<Term>, t: Term)
    requires a <= b && Derives(k, a, t)
    ensures Derives(k, b, t)
  {
  }

  /** One derivation after another is a derivation. */
  lemma Concatenated(k: Knowledge, a: seq<Term>, b: seq<Term>)
    requires Derivation(k, a) && Derivation(k, b)
    ensures Derivation(k, a + b)
  {
    var ts := a + b;
    forall i | 0 <= i < |ts|
      ensures Derives(k, set j | 0 <= j < i :: ts[j], ts[i])
    {
      var have := set j | 0 <= j < i :: ts[j];
      var had := if i < |a| then set j | 0 <= j < i :: a[j] else set j | 0 <= j < i - |a| :: b[j];
      forall t | t in had
        ensures t in have
      {
        if i < |a| {
          var j :| 0 <= j < i && a[j] == t;
          assert ts[j] == t;
        } else {
          var j :| 0 <= j < i - |a| && b[j] == t;
          assert ts[j + |a|] == t;
        }
      }
      DerivesMore(k, had, have, ts[i]);
    }
  }

  /** A derivation of everything one last rule needs, and then that rule. */
  lemma Concluded(k: Knowledge, ts: seq<Term>, t: Term)
    requires Derivation(k, ts) && Derives(k, set j | 0 <= j < |ts| :: ts[j], t)
    ensures Derivation(k, ts + [t])
  {
    var more := ts + [t];
    forall i | 0 <= i < |more|
      ensures Derives(k, set j | 0 <= j < i :: more[j], more[i])
    {
      var have, had := set j | 0 <= j < i :: more[j], set j | 0 <= j < i :: ts[j];
      forall u | u in had
        ensures u in have
      {
        var j :| 0 <= j < i && ts[j] == u;
        assert more[j] == u;
      }
      DerivesMore(k, had, have, more[i]);
    }
  }

  /** The terms a term is derived from. */
  function Needs(k: Knowledge, t: Term): seq<Term> {
    match t
    case DhTerm(d) => []
    case RootTerm(r) =>
      if r in k.roots then []
      else (match r
            case SharedSecret(d1, d2, d3, d4) =>
              if d4.Some? then [DhTerm(d1), DhTerm(d2), DhTerm(d3), DhTerm(d4.value)]
              else [DhTerm(d1), DhTerm(d2), DhTerm(d3)]
            case NextRoot(q, d) => [RootTerm(q), DhTerm(d)])
    case ChainTerm(c) =>
      if c in k.chains then []
      else (match c
            case ChainSeed(r, d) => [RootTerm(r), DhTerm(d)]
            case NextChain(p) => [ChainTerm(p)])
    case KeyTerm(m) => if m in k.keys then [] else [ChainTerm(m.chain)]
  }

  lemma NeedsKnown(k: Knowledge, t: Term)
    requires Knows(k, t)
    ensures |Needs(k, t)| <= 4
    ensures forall u :: u in Needs(k, t) ==> Knows(k, u) && Size(u) < Size(t)
  {
  }

  function RootSize(r: RootKey): nat {
    if r.SharedSecret? then 1 else 1 + RootSize(r.root)
  }

  function ChainSize(c: ChainKey): nat {
    if c.ChainSeed? then 1 + RootSize(c.root) else 1 + ChainSize(c.chain)
  }

  function Size(t: Term): nat {
    match t
    case DhTerm(_) => 0
    case RootTerm(r) => RootSize(r)
    case ChainTerm(c) => ChainSize(c)
    case KeyTerm(m) => 1 + ChainSize(m.chain)
  }

  /** And whatever `Knows` covers can be derived. */
  lemma {:induction false} DerivationsComplete(k: Knowledge, t: Term) returns (ts: seq<Term>)
    requires Knows(k, t)
    ensures Derivation(k, ts) && t in ts
    decreases Size(t), 5
  {
    var needs := Needs(k, t);
    NeedsKnown(k, t);
    ts := DerivedAll(k, needs, Size(t));
    var have := set j | 0 <= j < |ts| :: ts[j];
    forall u | u in needs
      ensures u in have
    {
      var j :| 0 <= j < |ts| && ts[j] == u;
    }
    FromNeeds(k, have, t);
    Concluded(k, ts, t);
    ts := ts + [t];
  }

  lemma FromNeeds(k: Knowledge, have: set<Term>, t: Term)
    requires Knows(k, t) && forall u :: u in Needs(k, t) ==> u in have
    ensures Derives(k, have, t)
  {
    var needs := Needs(k, t);
    assert forall i :: 0 <= i < |needs| ==> needs[i] in have;
  }

  lemma {:induction false} DerivedAll(k: Knowledge, us: seq<Term>, size: nat) returns (ts: seq<Term>)
    requires forall u :: u in us ==> Knows(k, u) && Size(u) < size
    ensures Derivation(k, ts) && forall u :: u in us ==> u in ts
    decreases size, |us|
  {
    if us == [] {
      ts := [];
    } else {
      var first := DerivationsComplete(k, us[0]);
      var rest := DerivedAll(k, us[1..], size);
      Concatenated(k, first, rest);
      ts := first + rest;
      assert us == [us[0]] + us[1..];
    }
  }
}
