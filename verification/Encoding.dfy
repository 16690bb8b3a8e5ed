/** Byte and text encodings of `crypto.ts`, and the text index of saved message keys. */
module Encoding {

  newtype byte = x: int | 0 <= x < 256

  // ── Hex ──

  function HexDigit(d: int): char
    requires 0 <= d < 16
  {
    "0123456789abcdef"[d]
  }

  /** `b.toString(16).padStart(2, "0")` */
  function ByteHex(b: byte): (s: string)
    ensures |s| == 2
  {
    [HexDigit(b as int / 16), HexDigit(b as int % 16)]
  }

  /** The bytes in hex, joined. */
  function BufToHex(buf: seq<byte>): string {
    if buf == [] then "" else ByteHex(buf[0]) + BufToHex(buf[1..])
  }

  predicate IsHex(c: char) {
    '0' <= c <= '9' || 'a' <= c <= 'f' || 'A' <= c <= 'F'
  }

  function HexValue(c: char): int
    requires IsHex(c)
  {
    if c <= '9' then c as int - '0' as int
    else if c >= 'a' then c as int - 'a' as int + 10
    else c as int - 'A' as int + 10
  }

  predicate IsSpace(c: char) {
    c in " \t\n\r" || c as int in {0x0B, 0x0C, 0xA0, 0x1680, 0x2028, 0x2029, 0x202F, 0x205F, 0x3000, 0xFEFF}
    || 0x2000 <= c as int <= 0x200A
  }

  /** `parseInt(cd, 16)` stored into a byte: leading space and sign are accepted, a prefix of digits is
      read, and no digits at all gives NaN, which is stored as 0. */
  function ParsePair(c: char, d: char): byte {
    if IsHex(c) then
      if IsHex(d) then (16 * HexValue(c) + HexValue(d)) as byte else HexValue(c) as byte
    else if !IsHex(d) then 0
    else if IsSpace(c) || c == '+' then HexValue(d) as byte
    else if c == '-' then ((256 - HexValue(d)) % 256) as byte
    else 0
  }

  function ParsePairs(hex: string): seq<byte> {
    if |hex| < 2 then [] else [ParsePair(hex[0], hex[1])] + ParsePairs(hex[2..])
  }

  lemma {:induction false} ParsePairsAt(hex: string, k: nat)
    requires k < |hex| / 2
    ensures |ParsePairs(hex)| == |hex| / 2 && ParsePairs(hex)[k] == ParsePair(hex[2*k], hex[2*k+1])
  {
    if k > 0 {
      ParsePairsAt(hex[2..], k - 1);
    } else if |hex| >= 4 {
      ParsePairsAt(hex[2..], 0);
    } else {
      assert ParsePairs(hex[2..]) == [];
    }
  }

  /** `hexToBuf`: a buffer of half the length, filled pair by pair; a write past its end is ignored. */
  method HexToBuf(hex: string) returns (bytes: array<byte>)
    ensures fresh(bytes) && bytes[..] == ParsePairs(hex)
  {
    bytes := new byte[|hex| / 2];
    var i := 0;
    while i < |hex|
      invariant 0 <= i <= |hex| + 1 && i % 2 == 0
      invariant forall k :: 0 <= k < i / 2 && k < bytes.Length ==> bytes[k] == ParsePair(hex[2*k], hex[2*k+1])
    {
      if i / 2 < bytes.Length {
        bytes[i / 2] := ParsePair(hex[i], hex[i+1]);
      }
      i := i + 2;
    }
    ParsePairsLength(hex);
    forall k: nat | k < bytes.Length
      ensures bytes[k] == ParsePairs(hex)[k]
    {
      ParsePairsAt(hex, k);
    }
  }

  lemma {:induction false} ParsePairsLength(hex: string)
    ensures |ParsePairs(hex)| == |hex| / 2
  {
    if |hex| >= 2 {
      ParsePairsLength(hex[2..]);
    }
  }

  predicate IsLowerHex(c: char) {
    '0' <= c <= '9' || 'a' <= c <= 'f'
  }

  predicate Canonical(hex: string) {
    |hex| % 2 == 0 && forall c :: c in hex ==> IsLowerHex(c)
  }

  lemma DigitValue(d: int)
    requires 0 <= d < 16
    ensures IsHex(HexDigit(d)) && HexValue(HexDigit(d)) == d
  {
  }

  lemma ByteRoundTrip(b: byte)
    ensures ParsePair(ByteHex(b)[0], ByteHex(b)[1]) == b
  {
    DigitValue(b as int / 16);
    DigitValue(b as int % 16);
  }

  /** The digits are those of the text, in increasing order, with no capital among them. */
  lemma DigitsIncrease(d: int, e: int)
    requires 0 <= d < e < 16
    ensures HexDigit(d) < HexDigit(e) && IsLowerHex(HexDigit(d)) && IsLowerHex(HexDigit(e))
  {
  }

  /** The first of the two digits of a byte is the more significant. */
  lemma ByteReads(b: byte)
    ensures IsHex(ByteHex(b)[0]) && IsHex(ByteHex(b)[1])
    ensures b as int == 16 * HexValue(ByteHex(b)[0]) + HexValue(ByteHex(b)[1])
  {
    DigitValue(b as int / 16);
    DigitValue(b as int % 16);
  }

  /** No byte string is changed by going through hex. */
  lemma {:induction false} HexRoundTrip(buf: seq<byte>)
    ensures ParsePairs(BufToHex(buf)) == buf
  {
    if buf != [] {
      HexRoundTrip(buf[1..]);
      ByteRoundTrip(buf[0]);
      assert BufToHex(buf)[2..] == BufToHex(buf[1..]);
      assert buf == [buf[0]] + buf[1..];
    }
  }

  lemma DigitOfValue(c: char)
    requires IsLowerHex(c)
    ensures 0 <= HexValue(c) < 16 && HexDigit(HexValue(c)) == c
  {
  }

  lemma TwoDigits(b: byte, h: int, l: int)
    requires 0 <= h < 16 && 0 <= l < 16 && b as int == 16 * h + l
    ensures ByteHex(b) == [HexDigit(h), HexDigit(l)]
  {
    assert b as int / 16 == h && b as int % 16 == l;
  }

  lemma PairValue(c: char, d: char)
    requires IsHex(c) && IsHex(d)
    ensures ParsePair(c, d) as int == 16 * HexValue(c) + HexValue(d)
  {
  }

  lemma PairRoundTrip(c: char, d: char)
    requires IsLowerHex(c) && IsLowerHex(d)
    ensures ByteHex(ParsePair(c, d)) == [c, d]
  {
    DigitOfValue(c);
    DigitOfValue(d);
    PairValue(c, d);
    TwoDigits(ParsePair(c, d), HexValue(c), HexValue(d));
  }

  lemma FirstPair(b: byte, rest: seq<byte>)
    ensures BufToHex([b] + rest) == ByteHex(b) + BufToHex(rest)
  {
    assert ([b] + rest)[1..] == rest;
  }

  lemma CanonicalTail(hex: string)
    requires Canonical(hex) && |hex| >= 2
    ensures Canonical(hex[2..]) && IsLowerHex(hex[0]) && IsLowerHex(hex[1])
  {
    assert hex[0] in hex && hex[1] in hex;
    assert forall c :: c in hex[2..] ==> c in hex;
  }

  lemma {:induction false} CanonicalRoundTrip(hex: string)
    requires Canonical(hex)
    ensures BufToHex(ParsePairs(hex)) == hex
  {
    if |hex| >= 2 {
      CanonicalTail(hex);
      CanonicalRoundTrip(hex[2..]);
      PairRoundTrip(hex[0], hex[1]);
      FirstPair(ParsePair(hex[0], hex[1]), ParsePairs(hex[2..]));
      assert hex == [hex[0], hex[1]] + hex[2..];
    }
  }

  /** A text survives going through bytes exactly when it is an even number of lower-case hex digits. */
  lemma TextRoundTrip(hex: string)
    ensures BufToHex(ParsePairs(hex)) == hex <==> Canonical(hex)
  {
    BufToHexCanonical(ParsePairs(hex));
    if Canonical(hex) {
      CanonicalRoundTrip(hex);
    }
  }

  // ── Capital digits ──

  function Small(c: char): char {
    if 'A' <= c <= 'Z' then (c as int - 'A' as int + 'a' as int) as char else c
  }

  function InSmall(hex: string): string {
    if hex == "" then "" else [Small(hex[0])] + InSmall(hex[1..])
  }

  lemma SmallDigit(c: char)
    requires IsHex(c)
    ensures IsLowerHex(Small(c)) && HexValue(Small(c)) == HexValue(c)
  {
  }

  lemma TwoSmall(hex: string)
    requires |hex| >= 2
    ensures InSmall(hex) == [Small(hex[0]), Small(hex[1])] + InSmall(hex[2..])
  {
    assert hex[1..][0] == hex[1] && hex[1..][1..] == hex[2..];
  }

  lemma SmallPair(c: char, d: char)
    requires IsHex(c) && IsHex(d)
    ensures ByteHex(ParsePair(c, d)) == [Small(c), Small(d)]
  {
    SmallDigit(c);
    SmallDigit(d);
    DigitOfValue(Small(c));
    DigitOfValue(Small(d));
    PairValue(c, d);
    TwoDigits(ParsePair(c, d), HexValue(c), HexValue(d));
  }

  /** Hex digits in either case read alike: an even number of them comes back in lower case. */
  lemma {:induction false} AnyCaseReads(hex: string)
    requires |hex| % 2 == 0 && forall k :: 0 <= k < |hex| ==> IsHex(hex[k])
    ensures BufToHex(ParsePairs(hex)) == InSmall(hex)
  {
    if |hex| >= 2 {
      AnyCaseReads(hex[2..]);
      TwoSmall(hex);
      SmallPair(hex[0], hex[1]);
      FirstPair(ParsePair(hex[0], hex[1]), ParsePairs(hex[2..]));
    }
  }

  lemma {:induction false} BufToHexCanonical(buf: seq<byte>)
    ensures Canonical(BufToHex(buf))
  {
    if buf != [] {
      BufToHexCanonical(buf[1..]);
      ByteHexCanonical(buf[0]);
    }
  }

  lemma ByteHexCanonical(b: byte)
    ensures Canonical(ByteHex(b))
  {
  }

  // ── Concatenation ──

  function Flatten(xs: seq<seq<byte>>): seq<byte> {
    if xs == [] then [] else xs[0] + Flatten(xs[1..])
  }

  lemma {:induction false} FlattenAppend(xs: seq<seq<byte>>, x: seq<byte>)
    ensures Flatten(xs + [x]) == Flatten(xs) + x
  {
    if xs == [] {
      assert xs + [x] == [x];
      assert Flatten([x][1..]) == [];
    } else {
      FlattenAppend(xs[1..], x);
      assert (xs + [x])[1..] == xs[1..] + [x];
    }
  }

  /** `concatBufs`: measure, allocate, copy each part at its offset. */
  method ConcatBufs(xs: seq<seq<byte>>) returns (out: array<byte>)
    ensures fresh(out) && out[..] == Flatten(xs)
  {
    var total := 0;
    for i := 0 to |xs|
      invariant total == |Flatten(xs[..i])|
    {
      FlattenAppend(xs[..i], xs[i]);
      assert xs[..i+1] == xs[..i] + [xs[i]];
      total := total + |xs[i]|;
    }
    assert xs[..|xs|] == xs;
    out := new byte[total];
    var offset := 0;
    for i := 0 to |xs|
      invariant offset == |Flatten(xs[..i])| <= out.Length == |Flatten(xs)|
      invariant out[..offset] == Flatten(xs[..i])
    {
      ghost var before := out[..offset];
      FlattenAppend(xs[..i], xs[i]);
      assert xs[..i+1] == xs[..i] + [xs[i]];
      FlattenPrefix(xs, i + 1);
      forall k | 0 <= k < |xs[i]| {
        out[offset + k] := xs[i][k];
      }
      assert out[..offset] == before;
      assert out[offset..offset + |xs[i]|] == xs[i];
      offset := offset + |xs[i]|;
      assert out[..offset] == before + xs[i];
    }
    assert xs[..|xs|] == xs;
  }

  lemma {:induction false} FlattenPrefix(xs: seq<seq<byte>>, i: nat)
    requires i <= |xs|
    ensures |Flatten(xs[..i])| <= |Flatten(xs)|
    decreases |xs| - i
  {
    if i < |xs| {
      FlattenAppend(xs[..i], xs[i]);
      assert xs[..i+1] == xs[..i] + [xs[i]];
      FlattenPrefix(xs, i + 1);
    } else {
      assert xs[..i] == xs;
    }
  }

  /** Concatenating blocks of one length loses nothing: the key material of X3DH with three secrets never
      collides with that of other secrets, nor with four. */
  lemma {:induction false} BlocksInjective(xs: seq<seq<byte>>, ys: seq<seq<byte>>, size: nat)
    requires size > 0 && (forall x :: x in xs ==> |x| == size) && (forall y :: y in ys ==> |y| == size)
    requires Flatten(xs) == Flatten(ys)
    ensures xs == ys
  {
    FlattenBlocks(xs, size);
    FlattenBlocks(ys, size);
    if xs != [] && ys != [] {
      assert xs[0] in xs && ys[0] in ys;
      assert Flatten(xs)[..size] == xs[0] && Flatten(ys)[..size] == ys[0];
      assert Flatten(xs)[size..] == Flatten(xs[1..]) && Flatten(ys)[size..] == Flatten(ys[1..]);
      BlocksInjective(xs[1..], ys[1..], size);
      assert xs == [xs[0]] + xs[1..] && ys == [ys[0]] + ys[1..];
    }
  }

  lemma FlattenBlocks(xs: seq<seq<byte>>, size: nat)
    requires size > 0 && forall x :: x in xs ==> |x| == size
    ensures Flatten(xs) == [] <==> xs == []
  {
    if xs != [] {
      assert xs[0] in xs;
    }
  }

  // ── The index of a saved message key ──

  function Digits(n: nat): string {
    (if n < 10 then "" else Digits(n / 10)) + [Digit(n % 10)]
  }

  function Decimal(n: int): string {
    if n < 0 then "-" + Digits(-n) else Digits(n)
  }

  function Eval(s: string): int {
    if s == "" then 0 else 10 * Eval(s[..|s|-1]) + (s[|s|-1] as int - '0' as int)
  }

  function Digit(d: nat): char
    requires d < 10
  {
    "0123456789"[d]
  }

  lemma DigitIs(d: nat)
    requires d < 10
    ensures Digit(d) as int - '0' as int == d && '0' <= Digit(d) <= '9'
  {
  }

  lemma EvalLast(s: string, c: char)
    ensures Eval(s + [c]) == 10 * Eval(s) + (c as int - '0' as int)
  {
    assert (s + [c])[..|s|] == s;
  }

  lemma {:induction false} EvalDigits(n: nat)
    ensures Eval(Digits(n)) == n && Digits(n) != "" && (forall c :: c in Digits(n) ==> '0' <= c <= '9')
  {
    DigitIs(n % 10);
    if n >= 10 {
      EvalDigits(n / 10);
      EvalLast(Digits(n / 10), Digit(n % 10));
    } else {
      EvalLast("", Digit(n % 10));
      assert Digits(n) == "" + [Digit(n % 10)];
    }
  }

  /** `${rk}:${n}` */
  function SkippedIndex(rk: string, n: int): string {
    rk + ":" + Decimal(n)
  }

  /** Two different pairs never share an index, whatever text the key is. */
  lemma SkippedIndexInjective(rk: string, n: int, rl: string, m: int)
    ensures SkippedIndex(rk, n) == SkippedIndex(rl, m) <==> rk == rl && n == m
  {
    DecimalShape(n);
    DecimalShape(m);
    if SkippedIndex(rk, n) == SkippedIndex(rl, m) {
      LastColon(rk, Decimal(n), rl, Decimal(m));
      DecimalInjective(n, m);
    }
  }

  /** A text splits at its last colon in one way only. */
  lemma LastColon(a: string, d: string, b: string, e: string)
    requires a + ":" + d == b + ":" + e && ':' !in d && ':' !in e
    ensures a == b && d == e
  {
    var s := a + ":" + d;
    assert s[|a|] == ':' && (forall i :: |a| < i < |s| ==> s[i] == d[i - |a| - 1]);
    assert s[|b|] == ':' && (forall i :: |b| < i < |s| ==> s[i] == e[i - |b| - 1]);
    assert |a| == |b|;
    assert s[..|a|] == a && s[..|b|] == b;
    assert s[|a|+1..] == d && s[|b|+1..] == e;
  }

  /** Digits are not empty and hold neither separator nor sign. */
  lemma DigitsShape(n: nat)
    ensures Digits(n) != "" && ':' !in Digits(n) && Digits(n)[0] != '-'
  {
    EvalDigits(n);
    assert Digits(n)[0] in Digits(n);
  }

  lemma DecimalShape(n: int)
    ensures Decimal(n) != "" && ':' !in Decimal(n)
    ensures Decimal(n)[0] == '-' <==> n < 0
  {
    if n < 0 {
      DigitsShape(-n);
      assert Decimal(n) == "-" + Digits(-n);
    } else {
      DigitsShape(n);
    }
  }

  lemma DecimalInjective(n: int, m: int)
    requires Decimal(n) == Decimal(m)
    ensures n == m
  {
    DecimalShape(n);
    DecimalShape(m);
    EvalDigits(if n < 0 then -n else n);
    EvalDigits(if m < 0 then -m else m);
    if n < 0 {
      assert Decimal(n)[1..] == Digits(-n) && Decimal(m)[1..] == Digits(-m);
    }
  }
}
