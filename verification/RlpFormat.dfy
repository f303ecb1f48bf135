/** Recursive length prefix (appendix B of the Ethereum Yellow Paper): the encoding of trees of byte strings, as a
    recursive definition. */
module RlpFormat {

  type Byte = x: nat | x < 256

  datatype Item = Str(bytes: seq<Byte>) | List(items: seq<Item>)

  const TWO64: nat := 0x1_0000_0000_0000_0000

  // ------------------------------------------------------------- big-endian numbers

  /** The shortest big-endian form; one byte for 0. */
  function BigEndian(n: nat): (b: seq<Byte>)
    ensures |b| > 0
  {
    if n < 256 then [n] else BigEndian(n / 256) + [n % 256]
  }

  function FromBigEndian(b: seq<Byte>): nat {
    if b == [] then 0 else FromBigEndian(b[..|b| - 1]) * 256 + b[|b| - 1]
  }

  lemma {:induction false} FromOfBigEndian(n: nat)
    ensures FromBigEndian(BigEndian(n)) == n
  {
    if n < 256 {
      assert [n][..0] == [];
      assert FromBigEndian([]) == 0;
    } else {
      FromOfBigEndian(n / 256);
      var b := BigEndian(n);
      assert b[..|b| - 1] == BigEndian(n / 256);
    }
  }

  /** Canonical: no leading zero, except in the single byte. */
  lemma {:induction false} BigEndianOfFrom(b: seq<Byte>)
    requires |b| > 0 && (|b| == 1 || b[0] != 0)
    ensures BigEndian(FromBigEndian(b)) == b && (|b| > 1 ==> FromBigEndian(b) >= 256)
  {
    var q := b[..|b| - 1];
    if |b| == 1 {
      assert q == [];
      assert FromBigEndian(q) == 0;
    } else {
      BigEndianOfFrom(q);
      if |q| == 1 { assert q[..0] == []; assert FromBigEndian(q[..0]) == 0; }
      assert q + [b[|b| - 1]] == b;
    }
  }

  lemma {:induction false} NoLeadingZero(n: nat)
    ensures n > 0 ==> BigEndian(n)[0] != 0
  {
    if n >= 256 { NoLeadingZero(n / 256); }
  }

  lemma {:induction false} FromIsBounded(b: seq<Byte>)
    requires |b| <= 8
    ensures FromBigEndian(b) < Power256(|b|)
  {
    if b != [] { FromIsBounded(b[..|b| - 1]); }
  }

  function Power256(k: nat): (p: nat)
    ensures p > 0
  {
    if k == 0 then 1 else 256 * Power256(k - 1)
  }

  lemma PowersOf256()
    ensures Power256(1) == 0x100 && Power256(2) == 0x1_0000 && Power256(3) == 0x100_0000 && Power256(4) == 0x1_0000_0000
    ensures Power256(5) == 0x100_0000_0000 && Power256(6) == 0x1_0000_0000_0000 && Power256(7) == 0x100_0000_0000_0000
    ensures Power256(8) == TWO64
  {
    assert Power256(1) == 256 * Power256(0); assert Power256(2) == 256 * Power256(1); assert Power256(3) == 256 * Power256(2);
    assert Power256(4) == 256 * Power256(3); assert Power256(5) == 256 * Power256(4); assert Power256(6) == 256 * Power256(5);
    assert Power256(7) == 256 * Power256(6); assert Power256(8) == 256 * Power256(7);
  }

  /** The number of bytes that a number takes. */
  lemma {:induction false} LengthOfBigEndian(n: nat, k: nat)
    requires k > 0
    ensures |BigEndian(n)| <= k <==> n < Power256(k)
  {
    if n < 256 {
      AtLeast256(k);
    } else if k == 1 {
      assert Power256(1) == 256 * Power256(0);
    } else {
      LengthOfBigEndian(n / 256, k - 1);
    }
  }

  lemma {:induction false} AtLeast256(k: nat)
    requires k > 0
    ensures Power256(k) >= 256
  {
    if k > 1 { AtLeast256(k - 1); }
  }

  lemma ShortBigEndian(n: nat)
    requires n < TWO64
    ensures 1 <= |BigEndian(n)| <= 8
  {
    PowersOf256();
    LengthOfBigEndian(n, 8);
  }

  // ------------------------------------------------------------- the encoding

  /** The conversion byte(i) of Go. */
  function ToByte(i: nat): Byte {
    i % 256
  }

  /** A string or list header for a payload of n bytes. */
  function Header(smallTag: nat, largeTag: nat, n: nat): (h: seq<Byte>)
    ensures |h| > 0
  {
    if n < 56 then [ToByte(smallTag + n)] else [ToByte(largeTag + |BigEndian(n)|)] + BigEndian(n)
  }

  function StringHeader(n: nat): seq<Byte> {
    Header(0x80, 0xB7, n)
  }

  function ListHeader(n: nat): seq<Byte> {
    Header(0xC0, 0xF7, n)
  }

  function EncodeString(b: seq<Byte>): seq<Byte> {
    if |b| == 1 && b[0] < 0x80 then b else StringHeader(|b|) + b
  }

  function Encode(x: Item): (e: seq<Byte>)
    ensures |e| > 0
    decreases x
  {
    match x
    case Str(b) => EncodeString(b)
    case List(items) => ListHeader(|EncodeAll(items)|) + EncodeAll(items)
  }

  function EncodeAll(items: seq<Item>): seq<Byte>
    decreases items
  {
    if items == [] then [] else Encode(items[0]) + EncodeAll(items[1..])
  }

  /** Every payload has a length that fits in 64 bits. */
  predicate Encodable(x: Item)
    decreases x
  {
    match x
    case Str(b) => |b| < TWO64
    case List(items) => |EncodeAll(items)| < TWO64 && forall i :: 0 <= i < |items| ==> Encodable(items[i])
  }

  lemma {:induction false} EncodeAllAppend(items: seq<Item>, x: Item)
    ensures EncodeAll(items + [x]) == EncodeAll(items) + Encode(x)
  {
    if items == [] {
      assert items + [x] == [x] && [x][1..] == [];
      assert EncodeAll([]) == [];
    } else {
      hide Encode;
      EncodeAllAppend(items[1..], x);
      assert (items + [x])[1..] == items[1..] + [x] && (items + [x])[0] == items[0];
      assert Encode(items[0]) + (EncodeAll(items[1..]) + Encode(x)) == Encode(items[0]) + EncodeAll(items[1..]) + Encode(x);
    }
  }

  // ------------------------------------------------------------- published encodings

  lemma PublishedStrings(b: seq<Byte>)
    ensures Encode(Str([])) == [0x80] && Encode(Str([0x7F])) == [0x7F] && Encode(Str([0x80])) == [0x81, 0x80]
    ensures Encode(Str([0x64, 0x6F, 0x67])) == [0x83, 0x64, 0x6F, 0x67]
    ensures |b| == 55 ==> Encode(Str(b)) == [0xB7] + b
    ensures |b| == 56 ==> Encode(Str(b)) == [0xB8, 56] + b
    ensures |b| == 0x400 ==> Encode(Str(b)) == [0xB9, 0x04, 0x00] + b
  {
    DigitsOf(0x400);
  }

  lemma DigitsOf(n: nat)
    ensures n < 0x100 ==> BigEndian(n) == [n]
    ensures 0x100 <= n < 0x1_0000 ==> BigEndian(n) == [n / 0x100, n % 0x100]
  {
    if 0x100 <= n < 0x1_0000 { assert n / 0x100 < 0x100; assert BigEndian(n / 0x100) == [n / 0x100]; }
  }

  lemma PublishedLists(items: seq<Item>)
    ensures |EncodeAll(items)| == 55 ==> Encode(List(items)) == [0xF7] + EncodeAll(items)
    ensures |EncodeAll(items)| == 60 ==> Encode(List(items)) == [0xF8, 0x3C] + EncodeAll(items)
    ensures |EncodeAll(items)| == 0x200 ==> Encode(List(items)) == [0xF9, 0x02, 0x00] + EncodeAll(items)
  {
    DigitsOf(60);
    DigitsOf(0x200);
  }

  lemma NothingEncoded()
    ensures EncodeAll([]) == [] && Encode(List([])) == [0xC0]
  {
  }

  lemma OneItem(x: Item)
    ensures EncodeAll([x]) == Encode(x)
  {
    NothingEncoded();
    EncodeAllAppend([], x);
    assert [] + [x] == [x];
  }

  /** The list of the first three ordinals, as sets. */
  lemma PublishedNesting()
    ensures var none := List([]); var one := List([none]);
      Encode(List([none, one, List([none, one])])) == [0xC7, 0xC0, 0xC1, 0xC0, 0xC3, 0xC0, 0xC1, 0xC0]
  {
    hide EncodeAll;
    NothingEncoded();
    var none := List([]);
    var one := List([none]);
    OneItem(none);
    assert Encode(one) == [0xC1, 0xC0];
    EncodeAllAppend([none], one);
    assert [none] + [one] == [none, one];
    var two := List([none, one]);
    assert Encode(two) == [0xC3, 0xC0, 0xC1, 0xC0];
    EncodeAllAppend([none, one], two);
    assert [none, one] + [two] == [none, one, two];
  }
}
