/** The encoder (encode.go): list headers are kept aside while the string data is written, and spliced in afterwards.
    The writers that reflection selects for []interface{} and []byte values are Encbuf.WriteItem. */
module RlpEncode {
  import opened NumberTheory
  import opened RlpFormat

  // ------------------------------------------------------------- integers

  /** The byte of weight 256^p. */
  function ByteAt(n: nat, p: nat): Byte {
    QuotientIsNat(n, Power256(p));
    ToByte(n / Power256(p))
  }

  lemma QuotientIsNat(n: nat, m: nat)
    requires m > 0
    ensures n / m >= 0
  {
  }

  lemma {:induction false} DigitOfBigEndian(n: nat, k: nat, j: nat)
    requires |BigEndian(n)| == k && j < k
    ensures BigEndian(n)[j] == ByteAt(n, k - 1 - j)
  {
    hide ByteAt, ToByte;
    if j == k - 1 {
      LastDigit(n);
    } else {
      DigitOfBigEndian(n / 256, k - 1, j);
      DivideByPower(n, k - 2 - j);
    }
  }

  lemma LastDigit(n: nat)
    ensures BigEndian(n)[|BigEndian(n)| - 1] == ByteAt(n, 0)
  {
  }

  lemma DivideByPower(n: nat, k: nat)
    ensures ByteAt(n / 256, k) == ByteAt(n, k + 1)
  {
    NestedDivision(n, 256, Power256(k));
  }

  lemma NestedDivision(n: nat, a: nat, m: nat)
    requires a > 0 && m > 0
    ensures a * m > 0 && (n / a) / m == n / (a * m)
  {
    var q, r := n / a, n % a;
    QuotientOfQuotient(n, a, m, q, r, q / m, q % m);
  }

  lemma QuotientOfQuotient(n: int, a: int, m: int, q: int, r: int, h: int, l: int)
    requires a > 0 && m > 0 && n == q * a + r && q == h * m + l && 0 <= r < a && 0 <= l < m
    ensures a * m > 0 && n / (a * m) == h
  {
    Spread(h, m, l, r, a);
    Below(l, m, a, r);
    RemainderIsUnique(n, h, l * a + r, a * m);
  }

  lemma Spread(h: int, m: int, l: int, r: int, a: int)
    ensures (h * m + l) * a + r == h * (a * m) + (l * a + r)
  {
    assert (h * m) * a == h * (a * m);
  }

  lemma Below(l: int, m: int, a: int, r: int)
    requires 0 <= l < m && 0 <= r < a
    ensures 0 <= l * a + r < a * m
  {
    assert (l + 1) * a <= m * a;
  }

  lemma ExactLength(n: nat, k: nat)
    requires n < TWO64 && 1 <= k <= 8 && n < Power256(k) && (k > 1 ==> n >= Power256(k - 1))
    ensures |BigEndian(n)| == k
  {
    LengthOfBigEndian(n, k);
    if k > 1 { LengthOfBigEndian(n, k - 1); }
  }

  /** putint: writes i to b from index at on. */
  method PutInt(b: array<Byte>, at: nat, i: nat) returns (size: nat)
    requires i < TWO64 && at + |BigEndian(i)| <= b.Length
    modifies b
    ensures size == |BigEndian(i)| && forall k :: 0 <= k < size ==> b[at + k] == BigEndian(i)[k]
    ensures forall k :: 0 <= k < b.Length && !(at <= k < at + size) ==> b[k] == old(b[k])
  {
    PowersOf256();
    if i < 0x100 {
      size := 1;
    } else if i < 0x1_0000 {
      size := 2;
    } else if i < 0x100_0000 {
      size := 3;
    } else if i < 0x1_0000_0000 {
      size := 4;
    } else if i < 0x100_0000_0000 {
      size := 5;
    } else if i < 0x1_0000_0000_0000 {
      size := 6;
    } else if i < 0x100_0000_0000_0000 {
      size := 7;
    } else {
      size := 8;
    }
    ExactLength(i, size);
    PutBytes(b, at, i, size);
  }

  /** The assignments of one case of putint, from the most significant byte on. */
  method PutBytes(b: array<Byte>, at: nat, i: nat, size: nat)
    requires size == |BigEndian(i)| && at + size <= b.Length
    modifies b
    ensures forall k :: 0 <= k < size ==> b[at + k] == BigEndian(i)[k]
    ensures forall k :: 0 <= k < b.Length && !(at <= k < at + size) ==> b[k] == old(b[k])
  {
    hide BigEndian, ByteAt;
    var j := 0;
    while j < size
      invariant j <= size
      invariant forall k :: 0 <= k < j ==> b[at + k] == BigEndian(i)[k]
      invariant forall k :: 0 <= k < b.Length && !(at <= k < at + size) ==> b[k] == old(b[k])
    {
      DigitOfBigEndian(i, size, j);
      b[at + j] := ByteAt(i, size - 1 - j);
      j := j + 1;
    }
  }

  /** intsize. */
  method IntSize(i': nat) returns (size: nat)
    requires i' < TWO64
    ensures size == |BigEndian(i')|
  {
    var i := i';
    size := 1;
    while true
      invariant size - 1 + |BigEndian(i)| == |BigEndian(i')|
      decreases i
    {
      ghost var before := i;
      i := i / 256;
      if i == 0 {
        return size;
      }
      size := size + 1;
    }
  }

  /** headsize. */
  method HeadSize(size: nat) returns (n: nat)
    requires size < TWO64
    ensures forall s, l :: n == |Header(s, l, size)|
  {
    if size < 56 {
      return 1;
    }
    var k := IntSize(size);
    return 1 + k;
  }

  /** ListSize: what a list of that content size takes, in 64 bits. */
  method ListSize(contentSize: nat) returns (n: nat)
    requires contentSize < TWO64
    ensures n == (|ListHeader(contentSize)| + contentSize) % TWO64
    ensures n == |ListHeader(contentSize)| + contentSize <==> contentSize < TWO64 - 9
  {
    hide Header;
    var h := HeadSize(contentSize);
    HeaderNearTheEnd(contentSize);
    assert h == |ListHeader(contentSize)|;
    n := (h + contentSize) % TWO64;
  }

  /** From 2^56 on, a header takes nine bytes, and none takes more. */
  lemma HeaderNearTheEnd(n: nat)
    requires n < TWO64
    ensures 0 < |ListHeader(n)| <= 9 && (n >= 0x100_0000_0000_0000 ==> |ListHeader(n)| == 9)
  {
    ShortBigEndian(n);
    PowersOf256();
    LengthOfBigEndian(n, 7);
  }

  /** puthead: writes a header to buf from index at on. */
  method PutHead(buf: array<Byte>, at: nat, smallTag: nat, largeTag: nat, size: nat) returns (n: nat)
    requires size < TWO64 && at + |Header(smallTag, largeTag, size)| <= buf.Length
    modifies buf
    ensures n == |Header(smallTag, largeTag, size)| && buf[at..at + n] == Header(smallTag, largeTag, size)
    ensures forall k :: 0 <= k < buf.Length && !(at <= k < at + n) ==> buf[k] == old(buf[k])
  {
    hide BigEndian, ToByte, Header;
    HeaderForms(smallTag, largeTag, size);
    if size < 56 {
      buf[at] := ToByte(smallTag + size);
      n := 1;
    } else {
      var sizesize := PutInt(buf, at + 1, size);
      buf[at] := ToByte(largeTag + sizesize);
      n := sizesize + 1;
    }
    var h := Header(smallTag, largeTag, size);
    forall k | 0 <= k < n
      ensures buf[at + k] == h[k]
    {
      if k > 0 { assert buf[at + 1 + (k - 1)] == BigEndian(size)[k - 1]; }
    }
  }

  lemma HeaderForms(smallTag: nat, largeTag: nat, n: nat)
    ensures n < 56 ==> Header(smallTag, largeTag, n) == [ToByte(smallTag + n)]
    ensures n >= 56 ==> var h := Header(smallTag, largeTag, n); var d := BigEndian(n);
      |h| == 1 + |d| && h[0] == ToByte(largeTag + |d|) && forall k :: 0 < k < |h| ==> h[k] == d[k - 1]
  {
    hide ToByte, BigEndian;
  }

  // ------------------------------------------------------------- what the buffer holds

  datatype ListHead = ListHead(offset: nat, size: int)

  /** The string data of an item: everything but list headers. */
  function Flat(x: Item): seq<Byte>
    decreases x
  {
    match x
    case Str(b) => EncodeString(b)
    case List(items) => FlatAll(items)
  }

  function FlatAll(items: seq<Item>): seq<Byte>
    decreases items
  {
    if items == [] then [] else Flat(items[0]) + FlatAll(items[1..])
  }

  /** Its list headers, when its string data starts at an offset. */
  function Heads(x: Item, offset: nat): seq<ListHead>
    decreases x
  {
    match x
    case Str(b) => []
    case List(items) => [ListHead(offset, |EncodeAll(items)|)] + HeadsAll(items, offset)
  }

  function HeadsAll(items: seq<Item>, offset: nat): seq<ListHead>
    decreases items
  {
    if items == [] then [] else Heads(items[0], offset) + HeadsAll(items[1..], offset + |Flat(items[0])|)
  }

  /** The bytes that its list headers take. */
  function HeadBytes(x: Item): nat
    decreases x
  {
    match x
    case Str(b) => 0
    case List(items) => |ListHeader(|EncodeAll(items)|)| + HeadBytesAll(items)
  }

  function HeadBytesAll(items: seq<Item>): nat
    decreases items
  {
    if items == [] then 0 else HeadBytes(items[0]) + HeadBytesAll(items[1..])
  }

  lemma {:induction false} EncodedLength(x: Item)
    ensures |Encode(x)| == |Flat(x)| + HeadBytes(x)
    decreases x
  {
    match x
    case Str(b) =>
    case List(items) => EncodedLengthAll(items);
  }

  lemma {:induction false} EncodedLengthAll(items: seq<Item>)
    ensures |EncodeAll(items)| == |FlatAll(items)| + HeadBytesAll(items)
    decreases items
  {
    if items != [] {
      EncodedLength(items[0]);
      EncodedLengthAll(items[1..]);
    }
  }

  // ------------------------------------------------------------- splicing

  function HeaderOf(h: ListHead): seq<Byte>
    requires h.size >= 0
  {
    Header(0xC0, 0xF7, h.size)
  }

  /** The headers are in order, from a position in the string data on. */
  predicate InOrder(str: seq<Byte>, heads: seq<ListHead>, strpos: nat)
    decreases |heads|
  {
    if heads == [] then strpos <= |str|
    else strpos <= heads[0].offset <= |str| && 0 <= heads[0].size < TWO64 && InOrder(str, heads[1..], heads[0].offset)
  }

  /** The string data from strpos on, with the headers put in. */
  function Splice(str: seq<Byte>, heads: seq<ListHead>, strpos: nat): seq<Byte>
    requires InOrder(str, heads, strpos)
    decreases |heads|
  {
    if heads == [] then str[strpos..]
    else str[strpos..heads[0].offset] + HeaderOf(heads[0]) + Splice(str, heads[1..], heads[0].offset)
  }

  lemma SpliceFirst(str: seq<Byte>, heads: seq<ListHead>, at: nat)
    requires heads != [] && InOrder(str, heads, at)
    ensures InOrder(str, heads[1..], heads[0].offset)
    ensures Splice(str, heads, at) == str[at..heads[0].offset] + HeaderOf(heads[0]) + Splice(str, heads[1..], heads[0].offset)
  {
  }

  lemma SpliceHead(str: seq<Byte>, at: nat, n: nat, tail: seq<ListHead>)
    requires n < TWO64 && at <= |str| && InOrder(str, tail, at)
    ensures InOrder(str, [ListHead(at, n)] + tail, at)
    ensures Splice(str, [ListHead(at, n)] + tail, at) == ListHeader(n) + Splice(str, tail, at)
  {
    hide Header, Splice;
    var heads := [ListHead(at, n)] + tail;
    assert heads[1..] == tail && heads[0] == ListHead(at, n);
    SpliceFirst(str, heads, at);
    assert str[at..at] == [];
  }

  /** All the items' headers come before the rest, and splicing them in gives the items' encoding. */
  lemma {:induction false} SpliceItem(x: Item, str: seq<Byte>, at: nat, rest: seq<ListHead>)
    requires Encodable(x) && at + |Flat(x)| <= |str| && str[at..at + |Flat(x)|] == Flat(x)
    requires InOrder(str, rest, at + |Flat(x)|)
    ensures InOrder(str, Heads(x, at) + rest, at)
    ensures Splice(str, Heads(x, at) + rest, at) == Encode(x) + Splice(str, rest, at + |Flat(x)|)
    decreases x
  {
    hide RlpFormat.EncodeString, ListHeader, Splice, InOrder;
    match x
    case Str(b) =>
      assert Heads(x, at) + rest == rest;
      SkipData(str, rest, at, at + |Flat(x)|);
    case List(items) =>
      hide FlatAll, HeadsAll, EncodeAll;
      SpliceItems(items, str, at, rest);
      var n, tail := |EncodeAll(items)|, HeadsAll(items, at) + rest;
      SpliceHead(str, at, n, tail);
      assert Heads(x, at) + rest == [ListHead(at, n)] + tail;
      var end := Splice(str, rest, at + |Flat(x)|);
      assert Encode(x) + end == ListHeader(n) + (EncodeAll(items) + end);
  }

  lemma {:induction false} SpliceItems(items: seq<Item>, str: seq<Byte>, at: nat, rest: seq<ListHead>)
    requires forall i :: 0 <= i < |items| ==> Encodable(items[i])
    requires at + |FlatAll(items)| <= |str| && str[at..at + |FlatAll(items)|] == FlatAll(items)
    requires InOrder(str, rest, at + |FlatAll(items)|)
    ensures InOrder(str, HeadsAll(items, at) + rest, at)
    ensures Splice(str, HeadsAll(items, at) + rest, at) == EncodeAll(items) + Splice(str, rest, at + |FlatAll(items)|)
    decreases items
  {
    hide Splice, InOrder, Flat, Heads, Encode, Encodable;
    if items == [] {
      assert HeadsAll(items, at) + rest == rest;
    } else {
      var x, n := items[0], |Flat(items[0])|;
      var m := |FlatAll(items[1..])|;
      var tail := HeadsAll(items[1..], at + n);
      PartsOfData(str, at, Flat(x), FlatAll(items[1..]));
      SpliceItems(items[1..], str, at + n, rest);
      SpliceItem(x, str, at, tail + rest);
      ConcatAssociates(Heads(x, at), tail, rest);
      ConcatAssociates(Encode(x), EncodeAll(items[1..]), Splice(str, rest, at + n + m));
    }
  }

  lemma PartsOfData(str: seq<Byte>, at: nat, a: seq<Byte>, b: seq<Byte>)
    requires at + |a + b| <= |str| && str[at..at + |a + b|] == a + b
    ensures str[at..at + |a|] == a && str[at + |a|..at + |a| + |b|] == b
  {
    assert str[at..at + |a|] == (a + b)[..|a|];
    assert str[at + |a|..at + |a| + |b|] == (a + b)[|a|..];
  }

  /** String data before the next header is copied as it is. */
  lemma SkipData(str: seq<Byte>, heads: seq<ListHead>, a: nat, b: nat)
    requires a <= b && InOrder(str, heads, b) && b <= |str|
    ensures InOrder(str, heads, a)
    ensures Splice(str, heads, a) == str[a..b] + Splice(str, heads, b)
  {
    hide Splice, InOrder, HeaderOf;
    InOrderEarlier(str, heads, a, b);
    if heads == [] {
      LastPiece(str, a);
      LastPiece(str, b);
      assert str[a..] == str[a..b] + str[b..];
    } else {
      var h := heads[0];
      SpliceStep(str, heads, b);
      SpliceStep(str, heads, a);
      JoinData(str, a, b, h.offset, HeaderOf(h), Splice(str, heads[1..], h.offset));
    }
  }

  lemma InOrderEarlier(str: seq<Byte>, heads: seq<ListHead>, a: nat, b: nat)
    requires a <= b && InOrder(str, heads, b) && b <= |str|
    ensures InOrder(str, heads, a)
  {
  }

  lemma JoinData(str: seq<Byte>, a: nat, b: nat, c: nat, h: seq<Byte>, rest: seq<Byte>)
    requires a <= b <= c <= |str|
    ensures str[a..c] + h + rest == str[a..b] + (str[b..c] + h + rest)
  {
    assert str[a..c] == str[a..b] + str[b..c];
  }

  lemma {:induction false} InOrderSizes(str: seq<Byte>, heads: seq<ListHead>, strpos: nat)
    requires InOrder(str, heads, strpos)
    ensures strpos <= |str| && forall i :: 0 <= i < |heads| ==> 0 <= heads[i].size < TWO64 && 0 <= heads[i].offset <= |str|
    decreases |heads|
  {
    if heads != [] { InOrderSizes(str, heads[1..], heads[0].offset); }
  }

  // ------------------------------------------------------------- the buffer

  class Encbuf {
    var str: seq<Byte>
    var lheads: seq<ListHead>
    var lhsize: int
    const sizebuf: array<Byte>
    /** The values written so far. */
    ghost var written: seq<Item>

    /** No list is open, and the buffer holds the values written. */
    ghost predicate Valid()
      reads this
    {
      sizebuf.Length == 9 && str == FlatAll(written) && lheads == HeadsAll(written, 0) && lhsize == HeadBytesAll(written)
      && forall i :: 0 <= i < |written| ==> Encodable(written[i])
    }

    constructor ()
      ensures Valid() && written == [] && fresh(sizebuf)
    {
      str, lheads, lhsize := [], [], 0;
      sizebuf := new Byte[9](_ => 0);
      written := [];
    }

    /** reset. */
    method Reset()
      requires sizebuf.Length == 9
      modifies this
      ensures Valid() && written == []
    {
      lhsize := 0;
      str := [];
      lheads := [];
      written := [];
    }

    /** encodeStringHeader. */
    method EncodeStringHeader(size: nat)
      requires sizebuf.Length == 9 && size < TWO64
      modifies this`str, sizebuf
      ensures str == old(str) + StringHeader(size)
    {
      if size < 56 {
        str := str + [ToByte(0x80 + size)];
      } else {
        ShortBigEndian(size);
        var sizesize := PutInt(sizebuf, 1, size);
        sizebuf[0] := ToByte(0xB7 + sizesize);
        assert sizebuf[..sizesize + 1] == [sizebuf[0]] + BigEndian(size);
        str := str + sizebuf[..sizesize + 1];
      }
    }

    /** encodeString. */
    method EncodeString(b: seq<Byte>)
      requires sizebuf.Length == 9 && |b| < TWO64
      modifies this`str, sizebuf
      ensures str == old(str) + RlpFormat.EncodeString(b)
    {
      hide StringHeader;
      if |b| == 1 && b[0] <= 0x7F {
        // such a byte is its own encoding
        str := str + [b[0]];
        assert b == [b[0]];
      } else {
        EncodeStringHeader(|b|);
        str := str + b;
        assert old(str) + StringHeader(|b|) + b == old(str) + (StringHeader(|b|) + b);
      }
    }

    /** writeUint. */
    method WriteUint(i: nat)
      requires sizebuf.Length == 9 && i < TWO64
      modifies this`str, sizebuf
      ensures str == old(str) + RlpFormat.EncodeString(if i == 0 then [] else BigEndian(i))
    {
      if i == 0 {
        str := str + [0x80];
      } else if i < 128 {
        // so is a small integer
        str := str + [ToByte(i)];
      } else {
        ShortBigEndian(i);
        var s := PutInt(sizebuf, 1, i);
        sizebuf[0] := ToByte(0x80 + s);
        assert sizebuf[..s + 1] == [sizebuf[0]] + BigEndian(i);
        str := str + sizebuf[..s + 1];
      }
    }

    /** list: opens a list. The header remembers where it starts and how many header bytes there were before; its index
        stands for the pointer to it. */
    method OpenList() returns (lh: nat)
      modifies this`lheads
      ensures lh == |old(lheads)| && lheads == old(lheads) + [ListHead(|str|, lhsize)]
    {
      lh := |lheads|;
      lheads := lheads + [ListHead(|str|, lhsize)];
    }

    /** listEnd: the size is what was added since the list was opened. */
    method ListEnd(lh: nat)
      requires lh < |lheads| && 0 <= |str| + lhsize - lheads[lh].offset - lheads[lh].size < TWO64
      modifies this`lheads, this`lhsize
      ensures var n := |str| + old(lhsize) - old(lheads)[lh].offset - old(lheads)[lh].size;
        lheads == old(lheads)[lh := ListHead(old(lheads)[lh].offset, n)] && lhsize == old(lhsize) + |ListHeader(n)|
    {
      var size := Size();
      var h := lheads[lh].(size := size - lheads[lh].offset - lheads[lh].size);
      lheads := lheads[lh := h];
      if h.size < 56 {
        lhsize := lhsize + 1; // the kind byte holds the size
      } else {
        var k := IntSize(h.size);
        lhsize := lhsize + 1 + k;
      }
    }

    /** size: of a finished buffer, the length of the encoding. */
    method Size() returns (n: int)
      ensures n == |str| + lhsize
      ensures Valid() ==> n == |EncodeAll(written)|
    {
      n := |str| + lhsize;
      if Valid() { BufferSplices(str, lheads, lhsize, written); }
    }

    /** Writing a value: a string, or a list of values between list and listEnd. */
    method WriteItem(x: Item)
      requires sizebuf.Length == 9 && Encodable(x)
      modifies this`str, this`lheads, this`lhsize, sizebuf
      ensures str == old(str) + Flat(x) && lheads == old(lheads) + Heads(x, |old(str)|)
      ensures lhsize == old(lhsize) + HeadBytes(x)
      decreases x
    {
      hide ListHeader, RlpFormat.EncodeString;
      match x
      case Str(b) =>
        EncodeString(b);
      case List(items) =>
        ghost var heads := lheads;
        var lh := OpenList();
        WriteItems(items);
        EncodedLengthAll(items);
        ListEnd(lh);
        assert lheads == heads + ([ListHead(|old(str)|, |EncodeAll(items)|)] + HeadsAll(items, |old(str)|));
    }

    method WriteItems(items: seq<Item>)
      requires sizebuf.Length == 9 && forall i :: 0 <= i < |items| ==> Encodable(items[i])
      modifies this`str, this`lheads, this`lhsize, sizebuf
      ensures str == old(str) + FlatAll(items) && lheads == old(lheads) + HeadsAll(items, |old(str)|)
      ensures lhsize == old(lhsize) + HeadBytesAll(items)
      decreases items
    {
      hide Flat, Heads, HeadBytes, Encodable;
      ghost var s0, h0, n0 := str, lheads, lhsize;
      NoItems(s0, h0, |s0|);
      assert items[..0] == [];
      var i := 0;
      while i < |items|
        invariant 0 <= i <= |items|
        invariant str == s0 + FlatAll(items[..i]) && lheads == h0 + HeadsAll(items[..i], |s0|)
        invariant lhsize == n0 + HeadBytesAll(items[..i])
      {
        ghost var before := items[..i];
        WriteItem(items[i]);
        NextItem(before, items[i], |s0|);
        assert items[..i + 1] == before + [items[i]];
        assert str == s0 + (FlatAll(before) + Flat(items[i]));
        assert lheads == h0 + (HeadsAll(before, |s0|) + Heads(items[i], |s0| + |FlatAll(before)|));
        i := i + 1;
      }
      assert items[..i] == items;
    }

    /** Encoding one more value at the outermost level. */
    method Encode(x: Item)
      requires Valid() && Encodable(x)
      modifies this, sizebuf
      ensures Valid() && written == old(written) + [x]
    {
      hide Flat, Heads, HeadBytes, Encodable;
      ghost var before := written;
      WriteItem(x);
      NextItem(before, x, 0);
      written := before + [x];
    }

    /** toBytes. */
    method ToBytes() returns (out: array<Byte>)
      requires Valid()
      ensures fresh(out) && out[..] == EncodeAll(written)
    {
      hide FlatAll, HeadsAll, HeadBytesAll, Encodable, Header, Splice, InOrder, EncodeAll;
      BufferSplices(str, lheads, lhsize, written);
      var n := Size();
      out := new Byte[n](_ => 0);
      var strpos: nat, pos: nat := 0, 0;
      var i := 0;
      while i < |lheads|
        invariant 0 <= i <= |lheads| && InOrder(str, lheads[i..], strpos) && pos <= n == out.Length
        invariant out[..pos] + Splice(str, lheads[i..], strpos) == EncodeAll(written)
      {
        var head := lheads[i];
        SpliceStep(str, lheads[i..], strpos);
        assert lheads[i..][1..] == lheads[i + 1..];
        ghost var done := out[..pos];
        RoomForPiece(out[..], pos, str[strpos..head.offset], head, Splice(str, lheads[i + 1..], head.offset),
                     EncodeAll(written));
        pos := PutPiece(out, pos, str[strpos..head.offset], head);
        strpos := head.offset;
        i := i + 1;
      }
      assert lheads[i..] == [];
      LastPiece(str, strpos);
      CopyBytes(out, pos, str[strpos..]);
      assert out[..] == out[..pos] + out[pos..pos + |str[strpos..]|];
    }

    /** String data before a header, if there is any, and the header. */
    method WriteSegment(out: Writer, data: seq<Byte>, head: ListHead, ghost rest: seq<Byte>, ghost whole: seq<Byte>)
      returns (ok: bool)
      requires sizebuf.Length == 9 && sizebuf != out.guard && 0 <= head.size < TWO64
      requires out.data + (data + HeaderOf(head) + rest) == whole
      modifies out, sizebuf
      ensures out.data <= whole && out.room + |out.data| == old(out.room) + |old(out.data)|
      ensures ok ==> out.data + rest == whole
      ensures !ok ==> old(out.room) < |data| + |HeaderOf(head)|
    {
      hide Header;
      if |data| > 0 {
        ok := WritePiece(out, data, HeaderOf(head) + rest, whole);
        if !ok {
          return false;
        }
      }
      assert out.data + HeaderOf(head) + rest == out.data + (HeaderOf(head) + rest);
      HeaderFits(head.size);
      var n := PutHead(sizebuf, 0, 0xC0, 0xF7, head.size);
      ok := WritePiece(out, sizebuf[..n], rest, whole);
    }

    /** toWriter, to a writer that may fail; nothing more is written after a failure. */
    method ToWriter(out: Writer) returns (ok: bool)
      requires Valid() && sizebuf != out.guard
      modifies out, sizebuf
      ensures ok ==> out.data == old(out.data) + EncodeAll(written)
      ensures out.data <= old(out.data) + EncodeAll(written)
      ensures old(out.room) >= |EncodeAll(written)| ==> ok
    {
      hide FlatAll, HeadsAll, HeadBytesAll, Encodable, Header, Splice, InOrder, EncodeAll, HeaderOf;
      BufferSplices(str, lheads, lhsize, written);
      ghost var s0, whole, room := out.data, out.data + EncodeAll(written), out.room;
      var strpos: nat := 0;
      var i := 0;
      while i < |lheads|
        invariant 0 <= i <= |lheads| && InOrder(str, lheads[i..], strpos)
        invariant out.data + Splice(str, lheads[i..], strpos) == whole
        invariant out.room + |out.data| == room + |s0|
      {
        var head := lheads[i];
        SpliceStep(str, lheads[i..], strpos);
        assert lheads[i..][1..] == lheads[i + 1..];
        ok := WriteSegment(out, str[strpos..head.offset], head, Splice(str, lheads[i + 1..], head.offset), whole);
        if !ok {
          return false;
        }
        strpos := head.offset;
        i := i + 1;
      }
      assert lheads[i..] == [];
      LastPiece(str, strpos);
      ok := true;
      if strpos < |str| {
        ok := WritePiece(out, str[strpos..], [], whole);
      }
    }
  }

  /** One write of toWriter, with what is still to be written. */
  method WritePiece(out: Writer, p: seq<Byte>, ghost rest: seq<Byte>, ghost whole: seq<Byte>) returns (ok: bool)
    requires out.data + p + rest == whole || out.data + (p + rest) == whole
    modifies out
    ensures ok == (|p| <= old(out.room)) && out.room + |out.data| == old(out.room) + |old(out.data)|
    ensures out.data <= whole && (ok ==> out.data == old(out.data) + p && out.data + rest == whole)
  {
    ghost var done := out.data;
    assert done + p + rest == done + (p + rest);
    ok := out.Write(p);
    assert out.data == whole[..|out.data|];
    assert done + p + [] == done + p;
  }

  /** An io.Writer with limited room: a write that does not fit stores what fits and fails. */
  class Writer {
    var data: seq<Byte>
    var room: nat
    const guard: array<Byte>

    constructor (room: nat)
      ensures this.room == room && data == [] && fresh(guard)
    {
      this.room, data := room, [];
      guard := new Byte[0];
    }

    method Write(p: seq<Byte>) returns (ok: bool)
      modifies this`data, this`room
      ensures ok == (|p| <= old(room))
      ensures data == old(data) + (if ok then p else p[..old(room)])
      ensures room + |data| == old(room) + |old(data)|
    {
      ok := |p| <= room;
      var n := if ok then |p| else room;
      data := data + p[..n];
      room := room - n;
      assert p[..|p|] == p;
    }
  }

  lemma RoomForPiece(out: seq<Byte>, pos: nat, data: seq<Byte>, head: ListHead, rest: seq<Byte>, whole: seq<Byte>)
    requires pos <= |out| == |whole| && head.size >= 0 && out[..pos] + (data + HeaderOf(head) + rest) == whole
    ensures pos + |data| + |HeaderOf(head)| <= |out|
    ensures out[..pos] + data + HeaderOf(head) + rest == whole
  {
    hide HeaderOf;
    assert out[..pos] + data + HeaderOf(head) + rest == out[..pos] + (data + HeaderOf(head) + rest);
  }

  /** String data, and the header after it. */
  method PutPiece(out: array<Byte>, at: nat, data: seq<Byte>, head: ListHead) returns (pos: nat)
    requires 0 <= head.size < TWO64 && at + |data| + |HeaderOf(head)| <= out.Length
    modifies out
    ensures pos == at + |data| + |HeaderOf(head)| && out[..pos] == old(out[..at]) + data + HeaderOf(head)
  {
    hide Header;
    ghost var done := out[..at];
    CopyBytes(out, at, data);
    pos := at + |data|;
    assert out[..pos] == done + out[at..pos];
    ghost var done' := out[..pos];
    var enc := PutHead(out, pos, 0xC0, 0xF7, head.size);
    assert out[..pos] == done';
    assert out[..pos + enc] == out[..pos] + out[pos..pos + enc];
    pos := pos + enc;
  }

  method CopyBytes(out: array<Byte>, at: nat, data: seq<Byte>)
    requires at + |data| <= out.Length
    modifies out
    ensures out[at..at + |data|] == data
    ensures forall k :: 0 <= k < out.Length && !(at <= k < at + |data|) ==> out[k] == old(out[k])
  {
    for k := 0 to |data|
      invariant forall j :: 0 <= j < k ==> out[at + j] == data[j]
      invariant forall j :: 0 <= j < out.Length && !(at <= j < at + |data|) ==> out[j] == old(out[j])
    {
      out[at + k] := data[k];
    }
  }

  lemma NoItems(s: seq<Byte>, h: seq<ListHead>, at: nat)
    ensures s == s + FlatAll([]) && h == h + HeadsAll([], at) && HeadBytesAll([]) == 0
  {
  }

  lemma {:induction false} NextItem(items: seq<Item>, x: Item, at: nat)
    ensures FlatAll(items + [x]) == FlatAll(items) + Flat(x)
    ensures HeadsAll(items + [x], at) == HeadsAll(items, at) + Heads(x, at + |FlatAll(items)|)
    ensures HeadBytesAll(items + [x]) == HeadBytesAll(items) + HeadBytes(x)
  {
    hide Flat, Heads, HeadBytes, FlatAll, HeadsAll, HeadBytesAll;
    if items == [] {
      assert items + [x] == [x] + [];
      NoItems([], [], at); NoItems([], [], at + |Flat(x)|);
      ItemFirst(x, [], at);
    } else {
      var y, rest := items[0], items[1..];
      NextItem(rest, x, at + |Flat(y)|);
      assert items == [y] + rest && items + [x] == [y] + (rest + [x]);
      ItemFirst(y, rest, at);
      ItemFirst(y, rest + [x], at);
      ConcatAssociates(Flat(y), FlatAll(rest), Flat(x));
      ConcatAssociates(Heads(y, at), HeadsAll(rest, at + |Flat(y)|), Heads(x, at + |FlatAll(items)|));
    }
  }

  lemma ItemFirst(y: Item, rest: seq<Item>, at: nat)
    ensures FlatAll([y] + rest) == Flat(y) + FlatAll(rest)
    ensures HeadsAll([y] + rest, at) == Heads(y, at) + HeadsAll(rest, at + |Flat(y)|)
    ensures HeadBytesAll([y] + rest) == HeadBytes(y) + HeadBytesAll(rest)
  {
    hide Flat, Heads, HeadBytes;
    assert ([y] + rest)[1..] == rest;
  }

  /** The finished buffer: its headers are in order, splicing gives the encoding, and size is its length. */
  lemma BufferSplices(str: seq<Byte>, lheads: seq<ListHead>, lhsize: int, items: seq<Item>)
    requires str == FlatAll(items) && lheads == HeadsAll(items, 0) && lhsize == HeadBytesAll(items)
    requires forall i :: 0 <= i < |items| ==> Encodable(items[i])
    ensures InOrder(str, lheads[0..], 0) && lheads[0..] == lheads && Splice(str, lheads, 0) == EncodeAll(items)
    ensures |str| + lhsize == |EncodeAll(items)|
  {
    hide FlatAll, HeadsAll, EncodeAll, Encodable;
    EncodedLengthAll(items);
    assert str[0..0 + |str|] == str;
    SpliceItems(items, str, 0, []);
    assert lheads + [] == lheads;
    assert str[|str|..] == [];
  }

  lemma SpliceStep(str: seq<Byte>, heads: seq<ListHead>, strpos: nat)
    requires heads != [] && InOrder(str, heads, strpos)
    ensures var h := heads[0];
      strpos <= h.offset <= |str| && 0 <= h.size < TWO64 && InOrder(str, heads[1..], h.offset)
      && Splice(str, heads, strpos) == str[strpos..h.offset] + HeaderOf(h) + Splice(str, heads[1..], h.offset)
  {
  }

  lemma LastPiece(str: seq<Byte>, strpos: nat)
    requires InOrder(str, [], strpos)
    ensures strpos <= |str| && Splice(str, [], strpos) == str[strpos..]
  {
  }

  lemma HeaderFits(n: nat)
    requires n < TWO64
    ensures |Header(0xC0, 0xF7, n)| <= 9
  {
    ShortBigEndian(n);
  }

  // ------------------------------------------------------------- the reader

  /** encReader. An empty piece stands for nil. */
  class EncReader {
    var buf: Encbuf?
    var lhpos: nat
    var strpos: nat
    var piece: seq<Byte>

    /** buf.str and the headers from lhpos on, from strpos on. */
    ghost predicate Positioned()
      reads this`buf, this`lhpos, this`strpos, buf
    {
      buf != null && buf.Valid() && lhpos <= |buf.lheads| && InOrder(buf.str, buf.lheads[lhpos..], strpos)
    }

    ghost predicate Valid()
      reads this, buf
    {
      buf != null ==> Positioned()
    }

    /** What comes after the piece at hand. */
    ghost function After(): seq<Byte>
      requires Positioned()
      reads this`buf, this`lhpos, this`strpos, buf
    {
      Splice(buf.str, buf.lheads[lhpos..], strpos)
    }

    /** The bytes still to be read. */
    ghost function Remaining(): seq<Byte>
      requires Valid()
      reads this, buf
    {
      if buf == null then [] else piece + After()
    }

    constructor (buf: Encbuf)
      requires buf.Valid()
      ensures Valid() && this.buf == buf && Remaining() == EncodeAll(buf.written)
    {
      this.buf, lhpos, strpos, piece := buf, 0, 0, [];
      new;
      BufferSplices(buf.str, buf.lheads, buf.lhsize, buf.written);
    }

    /** next: the piece at hand, or else string data before the next header, that header, or the data at the end. */
    method Next() returns (p: seq<Byte>)
      requires Valid()
      modifies this`lhpos, this`strpos, if buf == null then {} else {buf.sizebuf}
      ensures Valid() && piece == old(piece) && buf == old(buf)
      ensures buf == null ==> p == []
      ensures buf != null ==> p + After() == old(Remaining()) && (p == [] ==> old(Remaining()) == [])
      ensures buf != null && piece != [] ==> p == piece
    {
      hide FlatAll, HeadsAll, HeadBytesAll, Encodable, Splice, InOrder, EncodeAll;
      if buf == null {
        return [];
      } else if piece != [] {
        // the last piece has not been used up
        return piece;
      } else if lhpos < |buf.lheads| {
        // some header is still to come
        var head := buf.lheads[lhpos];
        ghost var heads := buf.lheads[lhpos..];
        SpliceStep(buf.str, heads, strpos);
        assert heads[1..] == buf.lheads[lhpos + 1..];
        ghost var rest := Splice(buf.str, heads[1..], head.offset);
        var sizebefore := head.offset - strpos;
        if sizebefore > 0 {
          p := buf.str[strpos..head.offset];
          NextHead(buf.str, heads, strpos);
          strpos := strpos + sizebefore;
        } else {
          lhpos := lhpos + 1;
          HeaderFits(head.size);
          var n := PutHead(buf.sizebuf, 0, 0xC0, 0xF7, head.size);
          p := buf.sizebuf[..n];
          assert p == HeaderOf(head);
        }
      } else {
        assert buf.lheads[lhpos..] == [];
        LastPiece(buf.str, strpos);
        if strpos < |buf.str| {
          p := buf.str[strpos..];
          EndOfData(buf.str);
          strpos := |buf.str|;
          LastPiece(buf.str, strpos);
        } else {
          return [];
        }
      }
    }

    /** The next piece becomes the one at hand; at the end of the data the buffer is given back. */
    method Advance() returns (more: bool)
      requires Valid()
      modifies this, if buf == null then {} else {buf.sizebuf}
      ensures Valid() && Remaining() == old(Remaining()) && (buf == null || buf == old(buf))
      ensures if more then buf == old(buf) && buf != null && piece != [] && piece <= Remaining() else Remaining() == [] && buf == null
    {
      hide Encbuf.Valid, EncReader.Positioned, EncReader.After;
      piece := Next();
      if piece == [] {
        buf := null;
        return false;
      }
      return true;
    }

    /** The first n bytes of the piece have been taken. */
    method Take(n: nat)
      requires Valid() && buf != null && n <= |piece|
      modifies this`piece
      ensures Valid() && piece == old(piece)[n..] && old(Remaining()) == old(piece)[..n] + Remaining()
    {
      hide Encbuf.Valid, EncReader.Positioned, EncReader.After;
      PieceSplit(piece, After(), n);
      piece := piece[n..];
    }

    /** As much of the piece as fits into the buffer. */
    method FillFromPiece(b: array<Byte>, n: nat) returns (nn: nat, fits: bool)
      requires Valid() && buf != null && b != buf.sizebuf && n <= b.Length && piece != [] && piece <= Remaining()
      modifies this`piece, b
      ensures Valid() && n + nn <= b.Length && b[..n + nn] + Remaining() == old(b[..n] + Remaining())
      ensures if fits then |Remaining()| < |old(Remaining())| else n + nn == b.Length && Remaining() != []
    {
      hide EncReader.Valid, EncReader.Remaining;
      ghost var done, left := b[..n], Remaining();
      nn := Fill(b, n, piece);
      fits := nn == |piece|;
      ghost var taken := piece[..nn];
      Take(nn);
      ConcatAssociates(done, taken, Remaining());
    }

    /** Read: fills the buffer as far as there is data, and reports the end when it has been reached. */
    method Read(b: array<Byte>) returns (n: nat, eof: bool)
      requires Valid() && (buf != null ==> b != buf.sizebuf)
      modifies this, b, if buf == null then {} else {buf.sizebuf}
      ensures Valid() && (buf == null || buf == old(buf))
      ensures n == (if |old(Remaining())| < b.Length then |old(Remaining())| else b.Length)
      ensures b[..n] == old(Remaining())[..n] && Remaining() == old(Remaining())[n..]
      ensures eof <==> |old(Remaining())| <= b.Length
    {
      hide EncReader.Valid, EncReader.Remaining;
      ghost var todo := Remaining();
      n := 0;
      assert b[..0] + Remaining() == todo;
      while true
        invariant Valid() && buf == old(buf) && n <= b.Length && b[..n] + Remaining() == todo
        decreases |Remaining()|
      {
        var more := Advance();
        if !more {
          TakenAndLeft(b[..n], [], todo);
          return n, true;
        }
        var nn, fits := FillFromPiece(b, n);
        n := n + nn;
        if !fits {
          // the buffer is full
          TakenAndLeft(b[..n], Remaining(), todo);
          return n, false;
        }
      }
    }
  }

  lemma PieceSplit(p: seq<Byte>, after: seq<Byte>, n: nat)
    requires n <= |p|
    ensures p + after == p[..n] + (p[n..] + after)
  {
    assert p == p[..n] + p[n..];
  }

  lemma ConcatAssociates<T>(a: seq<T>, b: seq<T>, c: seq<T>)
    ensures (a + b) + c == a + (b + c)
  {
  }

  lemma TakenAndLeft(done: seq<Byte>, left: seq<Byte>, todo: seq<Byte>)
    requires done + left == todo
    ensures |done| <= |todo| && done == todo[..|done|] && left == todo[|done|..]
  {
  }

  /** copy: as much of p as fits into b from index n on. */
  method Fill(b: array<Byte>, n: nat, p: seq<Byte>) returns (nn: nat)
    requires n <= b.Length
    modifies b
    ensures nn == (if b.Length - n < |p| then b.Length - n else |p|)
    ensures b[..n + nn] == old(b[..n]) + p[..nn]
  {
    nn := if b.Length - n < |p| then b.Length - n else |p|;
    ghost var done := b[..n];
    CopyBytes(b, n, p[..nn]);
    assert b[..n] == done;
    assert b[..n + nn] == b[..n] + b[n..n + nn];
  }

  lemma NextHead(str: seq<Byte>, heads: seq<ListHead>, strpos: nat)
    requires heads != [] && InOrder(str, heads, strpos)
    ensures InOrder(str, heads, heads[0].offset)
    ensures Splice(str, heads, strpos) == str[strpos..heads[0].offset] + Splice(str, heads, heads[0].offset)
  {
    SkipHead(str, heads);
    SkipData(str, heads, strpos, heads[0].offset);
  }

  lemma SkipHead(str: seq<Byte>, heads: seq<ListHead>)
    requires heads != [] && exists s: nat :: InOrder(str, heads, s)
    ensures InOrder(str, heads, heads[0].offset)
  {
  }

  lemma EndOfData(str: seq<Byte>)
    ensures InOrder(str, [], |str|) && str[|str|..] == []
  {
  }

  /** Reading with buffers of any sizes gives the encoding, cut only if the buffers end first. */
  method ReadAll(r: EncReader, sizes: seq<nat>) returns (data: seq<Byte>, eof: bool)
    requires r.Valid()
    modifies r, if r.buf == null then {} else {r.buf.sizebuf}
    ensures r.Valid()
    ensures data == if Sum(sizes) < |old(r.Remaining())| then old(r.Remaining())[..Sum(sizes)] else old(r.Remaining())
    ensures eof <==> sizes != [] && |old(r.Remaining())| <= Sum(sizes)
  {
    hide Sum, EncReader.Valid, EncReader.Remaining;
    ghost var total := r.Remaining();
    ghost var buf := r.buf;
    data, eof := [], false;
    NothingSummed();
    assert sizes[..0] == [];
    for i := 0 to |sizes|
      invariant r.Valid() && (r.buf == null || r.buf == buf)
      invariant data + r.Remaining() == total
      invariant |data| == if Sum(sizes[..i]) < |total| then Sum(sizes[..i]) else |total|
      invariant eof <==> i > 0 && |total| <= Sum(sizes[..i])
    {
      ghost var before := r.Remaining();
      var chunk;
      chunk, eof := ReadChunk(r, sizes[i]);
      ChunkTaken(data, before, chunk, r.Remaining(), total);
      data := data + chunk;
      SumNext(sizes, i);
    }
    assert sizes[..|sizes|] == sizes;
    TakenAndLeft(data, r.Remaining(), total);
  }

  /** One read into a buffer of the given size. */
  method ReadChunk(r: EncReader, size: nat) returns (chunk: seq<Byte>, eof: bool)
    requires r.Valid()
    modifies r, if r.buf == null then {} else {r.buf.sizebuf}
    ensures r.Valid() && (r.buf == null || r.buf == old(r.buf))
    ensures |chunk| == (if |old(r.Remaining())| < size then |old(r.Remaining())| else size)
    ensures chunk + r.Remaining() == old(r.Remaining())
    ensures eof <==> |old(r.Remaining())| <= size
  {
    hide EncReader.Valid, EncReader.Remaining;
    ghost var before := r.Remaining();
    var b := new Byte[size](_ => 0);
    var n;
    n, eof := r.Read(b);
    chunk := b[..n];
    assert before == before[..n] + before[n..];
  }

  lemma ChunkTaken(data: seq<Byte>, before: seq<Byte>, chunk: seq<Byte>, left: seq<Byte>, total: seq<Byte>)
    requires data + before == total && chunk + left == before
    ensures data + chunk + left == total
  {
    assert data + chunk + left == data + (chunk + left);
  }

  lemma NothingSummed()
    ensures Sum([]) == 0
  {
  }

  lemma SumNext(sizes: seq<nat>, i: nat)
    requires i < |sizes|
    ensures Sum(sizes[..i + 1]) == Sum(sizes[..i]) + sizes[i]
  {
    SumAppend(sizes[..i], sizes[i]);
    assert sizes[..i + 1] == sizes[..i] + [sizes[i]];
  }

  function Sum(s: seq<nat>): nat {
    if s == [] then 0 else s[0] + Sum(s[1..])
  }

  lemma {:induction false} SumAppend(s: seq<nat>, n: nat)
    ensures Sum(s + [n]) == Sum(s) + n
  {
    if s == [] {
      assert [n][1..] == [];
    } else {
      SumAppend(s[1..], n);
      assert (s + [n])[1..] == s[1..] + [n];
    }
  }
}
