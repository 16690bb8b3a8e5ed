/** Safety numbers (`packages/core/src/encryption/crypto.ts`): both peers show the same digits. UTF-8 and SHA-512 are
    parameters. */
module SafetyNumber {
  import opened Encoding

  const GROUPS := 12

  // ── What is hashed ──

  /** The order `<` of two strings, first difference first. */
  predicate Before(a: string, b: string) {
    b != [] && (a == [] || a[0] < b[0] || (a[0] == b[0] && Before(a[1..], b[1..])))
  }

  function Data(utf8: string -> seq<byte>, mine: string, myKey: seq<byte>, theirs: string,
                theirKey: seq<byte>): seq<byte> {
    if Before(mine, theirs) then Flatten([utf8(mine), myKey, utf8(theirs), theirKey])
    else Flatten([utf8(theirs), theirKey, utf8(mine), myKey])
  }

  lemma {:induction false} OneIsBefore(a: string, b: string)
    ensures Before(a, b) ==> !Before(b, a)
    ensures a != b ==> Before(a, b) || Before(b, a)
    ensures a == b ==> !Before(a, b)
  {
    if a != [] && b != [] && a[0] == b[0] {
      OneIsBefore(a[1..], b[1..]);
      assert a == [a[0]] + a[1..] && b == [b[0]] + b[1..];
    }
  }

  lemma FourParts(a: seq<byte>, b: seq<byte>, c: seq<byte>, d: seq<byte>)
    ensures Flatten([a, b, c, d]) == a + b + c + d
  {
    assert [a, b, c, d][1..] == [b, c, d] && [b, c, d][1..] == [c, d] && [c, d][1..] == [d];
    assert Flatten([d]) == d;
    assert Flatten([c, d]) == c + d;
    assert Flatten([b, c, d]) == b + (c + d);
  }

  /** Both peers hash the same bytes exactly when their ids differ or their keys do not. */
  lemma BothHashTheSame(utf8: string -> seq<byte>, a: string, ka: seq<byte>, b: string, kb: seq<byte>)
    requires |ka| == |kb|
    ensures Data(utf8, a, ka, b, kb) == Data(utf8, b, kb, a, ka) <==> a != b || ka == kb
  {
    OneIsBefore(a, b);
    if a == b {
      var u := utf8(a);
      FourParts(u, kb, u, ka);
      FourParts(u, ka, u, kb);
      assert (u + kb + u + ka)[|u|..|u| + |ka|] == kb;
      assert (u + ka + u + kb)[|u|..|u| + |ka|] == ka;
    }
  }

  // ── The order of the two ids ──

  /** The first difference decides, or the end of the shorter id. */
  lemma {:induction false} BeforeExactly(a: string, b: string, k: nat)
    requires k <= |a| && k <= |b| && a[..k] == b[..k] && (k == |a| || k == |b| || a[k] != b[k])
    ensures Before(a, b) <==> k < |b| && (k == |a| || a[k] < b[k])
  {
    if k > 0 {
      assert a[..k][0] == a[0] && b[..k][0] == b[0];
      assert a[1..][..k - 1] == a[..k][1..] && b[1..][..k - 1] == b[..k][1..];
      BeforeExactly(a[1..], b[1..], k - 1);
    }
  }

  /** What is hashed, from either side: the smaller id and its key, then the other's. */
  lemma DataInOrder(utf8: string -> seq<byte>, a: string, ka: seq<byte>, b: string, kb: seq<byte>)
    requires Before(a, b)
    ensures Data(utf8, a, ka, b, kb) == utf8(a) + ka + utf8(b) + kb
    ensures Data(utf8, b, kb, a, ka) == utf8(a) + ka + utf8(b) + kb
  {
    OneIsBefore(a, b);
    FourParts(utf8(a), ka, utf8(b), kb);
  }

  // ── What is shown ──

  function Group(hash: seq<byte>, i: nat): nat
    requires 5 * i + 5 <= |hash|
  {
    var o := 5 * i;
    ((((hash[o] as int * 256 + hash[o + 1] as int) * 256 + hash[o + 2] as int) * 256 + hash[o + 3] as int) * 256
    + hash[o + 4] as int) % 100_000
  }

  function Values(hash: seq<byte>, n: nat): seq<nat>
    requires 5 * n <= |hash|
  {
    seq(n, i requires 0 <= i < n => Group(hash, i))
  }

  function PadStart(s: string): string
    decreases 5 - |s|
  {
    if |s| >= 5 then s else PadStart("0" + s)
  }

  function Join(groups: seq<string>): string {
    if groups == [] then ""
    else if |groups| == 1 then groups[0]
    else groups[0] + " " + Join(groups[1..])
  }

  function Padded(values: seq<nat>): seq<string> {
    seq(|values|, i requires 0 <= i < |values| => PadStart(Digits(values[i])))
  }

  method ComputeDigits(hash: seq<byte>) returns (r: string)
    requires |hash| == 64
    ensures r == Join(Padded(Values(hash, GROUPS)))
  {
    var groups: seq<string> := [];
    for i := 0 to GROUPS
      invariant groups == Padded(Values(hash, i))
    {
      var n: nat := Group(hash, i);
      groups := groups + [PadStart(Digits(n))];
      assert Values(hash, i + 1) == Values(hash, i) + [n];
    }
    r := Join(groups);
  }

  lemma {:induction false} ZeroInFront(s: string)
    ensures Eval("0" + s) == Eval(s)
  {
    if s != "" {
      ZeroInFront(s[..|s| - 1]);
      assert ("0" + s)[..|s|] == "0" + s[..|s| - 1];
    } else {
      assert "0" + s == "0" && "0"[..0] == "";
      assert Eval("0") == 0;
    }
  }

  lemma {:induction false} PadKeeps(s: string)
    ensures Eval(PadStart(s)) == Eval(s) && |PadStart(s)| == if |s| < 5 then 5 else |s|
    decreases 5 - |s|
  {
    if |s| < 5 {
      ZeroInFront(s);
      PadKeeps("0" + s);
    }
  }

  lemma {:induction false} DigitCount(n: nat, bound: nat, k: nat)
    requires k > 0 && bound == Power(k) && n < bound
    ensures |Digits(n)| <= k
  {
    if n >= 10 {
      DigitCount(n / 10, Power(k - 1), k - 1);
    }
  }

  function Power(k: nat): nat {
    if k == 0 then 1 else 10 * Power(k - 1)
  }

  /** A group always shows five digits, and they read back as its value. */
  lemma GroupReads(n: nat)
    requires n < 100_000
    ensures |PadStart(Digits(n))| == 5 && Eval(PadStart(Digits(n))) == n
  {
    assert Power(1) == 10 && Power(2) == 100 && Power(3) == 1000 && Power(4) == 10_000 && Power(5) == 100_000;
    DigitCount(n, 100_000, 5);
    PadKeeps(Digits(n));
    EvalDigits(n);
  }

  /** Groups of five digits can be told apart again. */
  lemma {:induction false} JoinInjective(xs: seq<string>, ys: seq<string>)
    requires |xs| == |ys| && (forall x :: x in xs ==> |x| == 5) && (forall y :: y in ys ==> |y| == 5)
    requires Join(xs) == Join(ys)
    ensures xs == ys
  {
    if |xs| > 1 {
      assert xs[0] in xs && ys[0] in ys;
      assert Join(xs)[..5] == xs[0] && Join(ys)[..5] == ys[0];
      assert Join(xs)[6..] == Join(xs[1..]) && Join(ys)[6..] == Join(ys[1..]);
      JoinInjective(xs[1..], ys[1..]);
      assert xs == [xs[0]] + xs[1..] && ys == [ys[0]] + ys[1..];
    }
  }

  lemma {:induction false} JoinLength(xs: seq<string>)
    requires xs != [] && forall x :: x in xs ==> |x| == 5
    ensures |Join(xs)| == 6 * |xs| - 1
  {
    assert xs[0] in xs;
    if |xs| > 1 {
      JoinLength(xs[1..]);
    }
  }

  /** The value of bytes, most significant first. */
  function BigEndian(s: seq<byte>): nat {
    if s == [] then 0 else 256 * BigEndian(s[..|s| - 1]) + s[|s| - 1] as nat
  }

  lemma BigEndianMore(s: seq<byte>, b: byte)
    ensures BigEndian(s + [b]) == 256 * BigEndian(s) + b as nat
  {
    assert (s + [b])[..|s|] == s;
  }

  lemma BigEndianOfFive(a: byte, b: byte, c: byte, d: byte, e: byte)
    ensures BigEndian([a, b, c, d, e]) ==
            256 * (256 * (256 * (256 * a as nat + b as nat) + c as nat) + d as nat) + e as nat
  {
    assert [] + [a] == [a];
    BigEndianMore([], a);
    assert [a] + [b] == [a, b];
    BigEndianMore([a], b);
    assert [a, b] + [c] == [a, b, c];
    BigEndianMore([a, b], c);
    assert [a, b, c] + [d] == [a, b, c, d];
    BigEndianMore([a, b, c], d);
    assert [a, b, c, d] + [e] == [a, b, c, d, e];
    BigEndianMore([a, b, c, d], e);
  }

  /** Group `i` shows the bytes from `5 * i`, most significant first, modulo 100 000. */
  lemma GroupIs(hash: seq<byte>, i: nat)
    requires 5 * i + 5 <= |hash|
    ensures Group(hash, i) == BigEndian(hash[5 * i..5 * i + 5]) % 100_000
  {
    var o := 5 * i;
    assert hash[o..o + 5] == [hash[o], hash[o + 1], hash[o + 2], hash[o + 3], hash[o + 4]];
    BigEndianOfFive(hash[o], hash[o + 1], hash[o + 2], hash[o + 3], hash[o + 4]);
  }

  lemma PartOfTail(s: string, n: nat, tail: string, k: nat)
    requires n <= |s| && s[n..] == tail && k + 5 <= |tail|
    ensures s[n + k..n + k + 5] == tail[k..k + 5] && (k + 5 < |tail| ==> s[n + k + 5] == tail[k + 5])
  {
    assert s[n..][k..k + 5] == s[n + k..n + k + 5];
  }

  /** The groups stand six characters apart, with a space between. */
  lemma {:induction false} JoinAt(xs: seq<string>, i: nat)
    requires i < |xs| && forall x :: x in xs ==> |x| == 5
    ensures 6 * i + 5 <= |Join(xs)| && Join(xs)[6 * i..6 * i + 5] == xs[i]
    ensures i + 1 < |xs| ==> 6 * i + 5 < |Join(xs)| && Join(xs)[6 * i + 5] == ' '
  {
    assert xs[0] in xs;
    if i > 0 {
      JoinAt(xs[1..], i - 1);
      JoinTail(xs);
      PartOfTail(Join(xs), 6, Join(xs[1..]), 6 * (i - 1));
    } else if |xs| > 1 {
      JoinTail(xs);
    }
  }

  lemma JoinTail(xs: seq<string>)
    requires |xs| > 1 && |xs[0]| == 5
    ensures |Join(xs)| == 6 + |Join(xs[1..])| && Join(xs)[..5] == xs[0] && Join(xs)[5] == ' '
    ensures Join(xs)[6..] == Join(xs[1..])
  {
  }

  /** So the five characters from `6 * i` of the number read as the value of the five bytes from `5 * i`, modulo
      100 000. */
  lemma NumberReads(hash: seq<byte>, i: nat)
    requires |hash| == 64 && i < GROUPS
    ensures var r := Join(Padded(Values(hash, GROUPS)));
            6 * i + 5 <= |r| && Eval(r[6 * i..6 * i + 5]) == BigEndian(hash[5 * i..5 * i + 5]) % 100_000
  {
    var v := Values(hash, GROUPS);
    forall j | 0 <= j < GROUPS
      ensures |Padded(v)[j]| == 5 && Eval(Padded(v)[j]) == Group(hash, j)
    {
      GroupReads(Group(hash, j));
    }
    JoinAt(Padded(v), i);
    GroupIs(hash, i);
  }

  /** The number has 60 digits in 71 characters, and two hashes show the same number exactly when all twelve
      groups agree. */
  lemma NumbersDiffer(g: seq<byte>, h: seq<byte>)
    requires |g| == 64 && |h| == 64
    ensures |Join(Padded(Values(g, GROUPS)))| == 71
    ensures Join(Padded(Values(g, GROUPS))) == Join(Padded(Values(h, GROUPS)))
            <==> forall i :: 0 <= i < GROUPS ==> Group(g, i) == Group(h, i)
  {
    var v, w := Values(g, GROUPS), Values(h, GROUPS);
    forall i | 0 <= i < GROUPS
      ensures |Padded(v)[i]| == 5 && Eval(Padded(v)[i]) == Group(g, i)
      ensures |Padded(w)[i]| == 5 && Eval(Padded(w)[i]) == Group(h, i)
    {
      GroupReads(Group(g, i));
      GroupReads(Group(h, i));
    }
    JoinLength(Padded(v));
    if Join(Padded(v)) == Join(Padded(w)) {
      JoinInjective(Padded(v), Padded(w));
    }
    if forall i :: 0 <= i < GROUPS ==> Group(g, i) == Group(h, i) {
      assert v == w;
    }
  }

  /** Peers with different ids and keys of one length show the same number whatever the hash is. */
  lemma PeersShowTheSame(utf8: string -> seq<byte>, sha: seq<byte> -> seq<byte>, a: string, ka: seq<byte>, b: string,
                         kb: seq<byte>)
    requires |ka| == |kb| && a != b && forall d :: |sha(d)| == 64
    ensures Join(Padded(Values(sha(Data(utf8, a, ka, b, kb)), GROUPS)))
            == Join(Padded(Values(sha(Data(utf8, b, kb, a, ka)), GROUPS)))
  {
    BothHashTheSame(utf8, a, ka, b, kb);
  }
}
