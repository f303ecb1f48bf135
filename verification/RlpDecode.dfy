/** The streaming decoder (decode.go). Its position is described by a cursor: the place in the input, the limit that is
    left, and the stack of open lists. Sizes and positions are 64-bit words, so that no subtraction can wrap. */
module RlpDecode {
  import opened Machine
  import opened RlpFormat

  datatype Error =
    | Ok | EOL | ErrExpectedString | ErrExpectedList | ErrCanonInt | ErrCanonSize | ErrElemTooLarge | ErrValueTooLarge
    | ErrMoreThanOneValue | ErrNotInList | ErrNotAtEOL | ErrUintOverflow | EOF | ErrUnexpectedEOF

  /** Unread is the -1 that rearms the stream. */
  datatype Kind = Unread | ByteKind | StringKind | ListKind

  datatype ListPos = ListPos(pos: uint64, size: uint64)

  // ------------------------------------------------------------- cursors

  datatype Cursor = Cursor(rpos: nat, limited: bool, remaining: uint64, stack: seq<ListPos>) {
    function Top(): ListPos
      requires stack != []
    {
      stack[|stack| - 1]
    }

    /** Every open list has room for what has been read of it, and for the list opened inside it. */
    ghost predicate Nested() {
      (forall i :: 0 <= i < |stack| ==> stack[i].pos <= stack[i].size)
      && forall i :: 0 <= i < |stack| - 1 ==> stack[i].pos as int + stack[i + 1].size as int <= stack[i].size as int
    }

    /** The number of bytes that can be read here: of the innermost list, of the limit and of the input. */
    function Left(input: seq<Byte>): (n: nat)
      requires Proper(input, this)
    {
      var a := |input| - rpos;
      var b := if limited && (remaining as int) < a then remaining as int else a;
      if stack != [] && (Top().size - Top().pos) as int < b then (Top().size - Top().pos) as int else b
    }

    /** After n bytes. */
    function Step(n: nat): Cursor
      requires limited ==> n <= remaining as int
      requires stack != [] ==> Top().pos as int + n <= Top().size as int
    {
      Cursor(rpos + n, limited, if limited then remaining - n as uint64 else remaining,
             if stack == [] then [] else stack[..|stack| - 1] + [ListPos(Top().pos + n as uint64, Top().size)])
    }

    /** Inside a list of the given size. */
    function Open(size: uint64): Cursor {
      this.(stack := stack + [ListPos(0, size)])
    }

    predicate CanClose() {
      stack != [] && (|stack| > 1 ==> stack[|stack| - 2].pos as int + Top().size as int < TWO64)
    }

    /** Back in the enclosing list. */
    function Close(): Cursor
      requires CanClose()
    {
      if |stack| == 1 then this.(stack := [])
      else
        var outer := stack[|stack| - 2];
        this.(stack := stack[..|stack| - 2] + [ListPos(outer.pos + Top().size, outer.size)])
    }
  }

  /** A cursor that the stream can be at. */
  ghost predicate Proper(input: seq<Byte>, c: Cursor) {
    c.rpos <= |input| && c.Nested()
  }

  /** The bytes that can be read at a cursor. */
  function Available(input: seq<Byte>, c: Cursor): (s: seq<Byte>)
    requires Proper(input, c)
    ensures |s| == c.Left(input)
  {
    input[c.rpos..c.rpos + c.Left(input)]
  }

  lemma StepIsProper(input: seq<Byte>, c: Cursor, n: nat)
    requires Proper(input, c) && n <= c.Left(input)
    ensures Proper(input, c.Step(n)) && c.Step(n).Left(input) == c.Left(input) - n
    ensures Available(input, c.Step(n)) == Available(input, c)[n..]
    ensures n == 0 ==> c.Step(n) == c
  {
    StepIsNested(input, c, n);
    StepLeaves(input, c, n);
  }

  lemma StepIsNested(input: seq<Byte>, c: Cursor, n: nat)
    requires Proper(input, c) && n <= c.Left(input)
    ensures Proper(input, c.Step(n)) && (n == 0 ==> c.Step(n) == c)
  {
    var d := c.Step(n);
    if c.stack != [] {
      var k := |c.stack| - 1;
      assert c.stack == c.stack[..k] + [c.stack[k]];
      assert forall i :: 0 <= i < k ==> d.stack[i] == c.stack[i];
    }
  }

  lemma StepLeaves(input: seq<Byte>, c: Cursor, n: nat)
    requires Proper(input, c) && n <= c.Left(input) && Proper(input, c.Step(n))
    ensures c.Step(n).Left(input) == c.Left(input) - n
    ensures Available(input, c.Step(n)) == Available(input, c)[n..]
  {
  }

  lemma TwoSteps(input: seq<Byte>, c: Cursor, a: nat, b: nat)
    requires Proper(input, c) && a + b <= c.Left(input)
    ensures c.Step(a).Left(input) == c.Left(input) - a && c.Step(a).Step(b) == c.Step(a + b)
  {
    StepIsProper(input, c, a);
  }

  lemma OpenIsProper(input: seq<Byte>, c: Cursor, size: uint64)
    requires Proper(input, c) && (c.stack != [] ==> size <= c.Top().size - c.Top().pos)
    ensures Proper(input, c.Open(size))
    ensures size as int <= c.Left(input) ==> c.Open(size).Left(input) == size as int
  {
    var d := c.Open(size);
    assert forall i :: 0 <= i < |c.stack| ==> d.stack[i] == c.stack[i];
  }

  lemma CloseIsProper(input: seq<Byte>, c: Cursor)
    requires Proper(input, c) && c.stack != []
    ensures c.CanClose() && Proper(input, c.Close())
  {
    if |c.stack| > 1 {
      var k := |c.stack| - 2;
      var d := c.Close();
      assert c.stack[k].pos as int + c.stack[k + 1].size as int <= c.stack[k].size as int;
      assert forall i :: 0 <= i < k ==> d.stack[i] == c.stack[i];
    }
  }

  lemma OpenThenStep(input: seq<Byte>, c: Cursor, size: uint64)
    requires Proper(input, c) && size as int <= c.Left(input)
    ensures c.Open(size).Left(input) == size as int && Proper(input, c.Open(size))
    ensures c.Open(size).Step(size as int) == c.Step(size as int).(stack := c.stack + [ListPos(size, size)])
  {
    OpenIsProper(input, c, size);
    var o := c.Open(size);
    assert o.stack[..|o.stack| - 1] == c.stack;
  }

  /** Reading a list to its end and closing it is reading its size. */
  lemma CloseAfter(input: seq<Byte>, c: Cursor, d: Cursor, size: uint64)
    requires Proper(input, c) && size as int <= c.Left(input)
    requires d == c.Step(size as int).(stack := c.stack + [ListPos(size, size)])
    ensures d.CanClose() && d.Top() == ListPos(size, size) && d.Close() == c.Step(size as int)
  {
    if c.stack != [] {
      assert d.stack[|d.stack| - 2] == c.Top();
      assert d.stack[..|d.stack| - 2] == c.stack[..|c.stack| - 1];
    }
  }

  // ------------------------------------------------------------- headers

  datatype Head = NoHead | Head(kind: Kind, size: nat, byteval: Byte, len: nat)

  /** The bytes of a header; a single byte is its own. */
  function HeadBytes(kind: Kind, size: nat, byteval: Byte): seq<Byte> {
    match kind
    case Unread => []
    case ByteKind => [byteval]
    case StringKind => StringHeader(size)
    case ListKind => ListHeader(size)
  }

  /** A size of k bytes after a long tag: minimal, and too large for a short tag. */
  function LongHead(s: seq<Byte>, kind: Kind, k: nat): Head
    requires 1 <= k <= 8
  {
    if 1 + k > |s| then NoHead
    else if k > 1 && s[1] == 0 then NoHead
    else if FromBigEndian(s[1..1 + k]) < 56 then NoHead
    else Head(kind, FromBigEndian(s[1..1 + k]), 0, 1 + k)
  }

  /** The header at the start of the available bytes, if there is a canonical one. */
  function ParseHead(s: seq<Byte>): Head {
    if s == [] then NoHead
    else if s[0] < 0x80 then Head(ByteKind, 0, s[0], 1)
    else if s[0] < 0xB8 then Head(StringKind, s[0] - 0x80, 0, 1)
    else if s[0] < 0xC0 then LongHead(s, StringKind, s[0] - 0xB7)
    else if s[0] < 0xF8 then Head(ListKind, s[0] - 0xC0, 0, 1)
    else LongHead(s, ListKind, s[0] - 0xF7)
  }

  lemma LongHeadIsCanonical(s: seq<Byte>, kind: Kind, k: nat, small: nat, large: nat)
    requires 1 <= k <= 8 && |s| > 0 && s[0] == large + k && LongHead(s, kind, k).Head?
    ensures var h := LongHead(s, kind, k);
      h.len <= |s| && h.size < TWO64 && s[..h.len] == Header(small, large, h.size)
  {
    var d := s[1..1 + k];
    BigEndianOfFrom(d);
    FromIsBounded(d);
    PowersOf256();
    PowerMonotone(k);
    assert s[..1 + k] == [s[0]] + d;
  }

  lemma PowerMonotone(k: nat)
    requires 1 <= k <= 8
    ensures Power256(k) <= TWO64
  {
    PowersOf256();
    if k == 1 {} else if k == 2 {} else if k == 3 {} else if k == 4 {} else if k == 5 {} else if k == 6 {} else if k == 7 {} else {}
  }

  /** What is parsed is the header that the encoder writes. */
  lemma ParsedHeadIsCanonical(s: seq<Byte>)
    requires ParseHead(s).Head?
    ensures var h := ParseHead(s);
      h.kind != Unread && 0 < h.len <= |s| && h.size < TWO64 && s[..h.len] == HeadBytes(h.kind, h.size, h.byteval)
      && (h.kind == ByteKind ==> h.byteval < 0x80 && h.size == 0) && (h.kind != ByteKind ==> h.byteval == 0)
  {
    hide LongHead, BigEndian, FromBigEndian;
    if s[0] < 0x80 {
      assert s[..1] == [s[0]];
    } else if s[0] < 0xB8 {
      assert s[..1] == [s[0]];
    } else if s[0] < 0xC0 {
      LongHeadIsCanonical(s, StringKind, s[0] - 0xB7, 0x80, 0xB7);
      LongHeadShape(s, StringKind, s[0] - 0xB7);
    } else if s[0] < 0xF8 {
      assert s[..1] == [s[0]];
    } else {
      LongHeadIsCanonical(s, ListKind, s[0] - 0xF7, 0xC0, 0xF7);
      LongHeadShape(s, ListKind, s[0] - 0xF7);
    }
  }

  lemma LongHeadShape(s: seq<Byte>, kind: Kind, k: nat)
    requires 1 <= k <= 8 && LongHead(s, kind, k).Head?
    ensures var h := LongHead(s, kind, k); h.kind == kind && h.len == 1 + k && h.byteval == 0
  {
  }

  lemma LongHeadOf(s: seq<Byte>, kind: Kind, d: seq<Byte>, size: nat)
    requires 1 <= |d| <= 8 && |s| >= 1 + |d| && s[1..1 + |d|] == d && (|d| > 1 ==> d[0] != 0)
    requires FromBigEndian(d) == size >= 56
    ensures LongHead(s, kind, |d|) == Head(kind, size, 0, 1 + |d|)
  {
    hide FromBigEndian;
    assert s[1] == s[1..1 + |d|][0];
  }

  lemma AfterFirst(s: seq<Byte>, x: Byte, d: seq<Byte>)
    requires [x] + d <= s
    ensures |s| >= 1 + |d| && s[0] == x && s[1..1 + |d|] == d
  {
    assert ([x] + d)[1..] == d;
  }

  /** And every header that the encoder writes is parsed. */
  lemma WrittenHeadIsParsed(s: seq<Byte>, kind: Kind, size: nat, byteval: Byte)
    requires kind != Unread && size < TWO64 && HeadBytes(kind, size, byteval) <= s
    requires if kind == ByteKind then byteval < 0x80 && size == 0 else byteval == 0
    ensures ParseHead(s) == Head(kind, size, byteval, |HeadBytes(kind, size, byteval)|)
  {
    if kind != ByteKind && size >= 56 {
      LongHeadIsParsed(s, kind, size);
    } else {
      hide BigEndian, FromBigEndian, LongHead;
      assert s[0] == HeadBytes(kind, size, byteval)[0];
    }
  }

  lemma LongHeadIsParsed(s: seq<Byte>, kind: Kind, size: nat)
    requires (kind == StringKind || kind == ListKind) && 56 <= size < TWO64 && HeadBytes(kind, size, 0) <= s
    ensures ParseHead(s) == Head(kind, size, 0, |HeadBytes(kind, size, 0)|)
  {
    hide BigEndian, FromBigEndian, LongHead;
    var d, tag := BigEndian(size), HeadBytes(kind, size, 0)[0];
    ShortBigEndian(size);
    FromOfBigEndian(size);
    NoLeadingZero(size);
    assert HeadBytes(kind, size, 0) == [tag] + d;
    AfterFirst(s, tag, d);
    LongHeadOf(s, kind, d, size);
  }

  // ------------------------------------------------------------- the stream

  /** The value whose header has been read fits: in the innermost list, or at top level in the limit. */
  predicate Fits(c: Cursor, size: nat)
    requires c.stack != [] ==> c.Top().pos <= c.Top().size
  {
    if c.stack == [] then c.limited ==> size <= c.remaining as int else size <= (c.Top().size - c.Top().pos) as int
  }

  predicate AtEnd(c: Cursor) {
    c.stack != [] && c.Top().pos == c.Top().size
  }

  /** The header of a value with the given kind, size and byte has been read between two cursors. */
  ghost predicate HeadRead(input: seq<Byte>, c: Cursor, kind: Kind, size: nat, byteval: Byte, d: Cursor) {
    Proper(input, c) && var h := ParseHead(Available(input, c));
    h.Head? && h.len <= c.Left(input) && h == Head(kind, size, byteval, h.len) && d == c.Step(h.len)
  }

  /** There is a header, and its value fits. */
  ghost predicate HeadFits(input: seq<Byte>, c: Cursor) {
    Proper(input, c) && var h := ParseHead(Available(input, c));
    h.Head? && h.len <= c.Left(input) && Proper(input, c.Step(h.len)) && Fits(c.Step(h.len), h.size)
  }

  // ------------------------------------------------------------- which error is reported

  /** Why n bytes cannot be read: the innermost list, then the limit, then the input comes to its end. */
  ghost function ReadError(input: seq<Byte>, c: Cursor, n: nat): (e: Error)
    requires Proper(input, c)
    ensures e == Ok || e == ErrElemTooLarge || e == ErrValueTooLarge || e == ErrUnexpectedEOF
    ensures e == ErrElemTooLarge ==> c.stack != []
    ensures e == Ok <==> n <= c.Left(input)
  {
    if c.stack != [] && n > (c.Top().size - c.Top().pos) as int then ErrElemTooLarge
    else if c.limited && n > c.remaining as int then ErrValueTooLarge
    else if n > |input| - c.rpos then ErrUnexpectedEOF
    else Ok
  }

  /** Why a number of n bytes cannot be read: it has a leading zero, at last. */
  ghost function NumberError(input: seq<Byte>, c: Cursor, n: nat): (e: Error)
    requires Proper(input, c)
    ensures e != ErrMoreThanOneValue && e != EOL
    ensures e == Ok ==> n <= c.Left(input)
  {
    if ReadError(input, c, n) != Ok then ReadError(input, c, n)
    else if n > 1 && Available(input, c)[0] == 0 then ErrCanonSize
    else Ok
  }

  /** Why the size after a long tag is refused: a short tag would do, at last. */
  ghost function LongError(input: seq<Byte>, c: Cursor, k: nat): (e: Error)
    requires Proper(input, c)
    ensures e != ErrMoreThanOneValue && e != EOL
  {
    if NumberError(input, c, k) != Ok then NumberError(input, c, k)
    else if FromBigEndian(Available(input, c)[..k]) < 56 then ErrCanonSize
    else Ok
  }

  /** Why there is no header: outside all lists, the plain end if there is not even a byte. */
  ghost function HeadError(input: seq<Byte>, c: Cursor): (e: Error)
    requires Proper(input, c)
    ensures e != ErrMoreThanOneValue && e != EOL
  {
    if ReadError(input, c, 1) != Ok then if c.stack == [] then EOF else ReadError(input, c, 1)
    else
      StepIsProper(input, c, 1);
      var b := Available(input, c)[0];
      if 0xB8 <= b < 0xC0 then LongError(input, c.Step(1), b - 0xB7)
      else if 0xF8 <= b then LongError(input, c.Step(1), b - 0xF7)
      else Ok
  }

  /** Why there is no next value: its header is refused, or it does not fit. */
  ghost function KindError(input: seq<Byte>, c: Cursor): (e: Error)
    requires Proper(input, c)
    ensures e != ErrMoreThanOneValue
  {
    if AtEnd(c) then EOL
    else if HeadError(input, c) != Ok then HeadError(input, c)
    else if HeadFits(input, c) then Ok
    else if c.stack == [] then ErrValueTooLarge else ErrElemTooLarge
  }

  /** Why the bytes of a string of the given size are refused: a single one is its own encoding. */
  ghost function ContentError(input: seq<Byte>, d: Cursor, size: nat): (e: Error)
    requires Proper(input, d)
    ensures e != ErrMoreThanOneValue && e != EOL
    ensures e == Ok <==> size <= d.Left(input) && !(size == 1 && Available(input, d)[0] < 128)
  {
    if ReadError(input, d, size) != Ok then ReadError(input, d, size)
    else if size == 1 && Available(input, d)[0] < 128 then ErrCanonSize
    else Ok
  }

  /** Why the digits of an integer of at most m bytes are refused. */
  ghost function DigitsError(input: seq<Byte>, d: Cursor, size: nat, m: nat): Error
    requires Proper(input, d)
  {
    if size > m then ErrUintOverflow
    else if NumberError(input, d, size) == ErrCanonSize then ErrCanonInt
    else if NumberError(input, d, size) != Ok then NumberError(input, d, size)
    else if size > 0 && FromBigEndian(Available(input, d)[..size]) < 128 then ErrCanonSize
    else Ok
  }

  /** Why the value after a header is no string, and why it is no integer of at most m bytes. */
  ghost function StringErrorAhead(input: seq<Byte>, k: Kind, size: nat, d: Cursor): (e: Error)
    requires Proper(input, d)
    ensures e != ErrMoreThanOneValue
  {
    if k == ByteKind then Ok else if k == StringKind then ContentError(input, d, size) else ErrExpectedString
  }

  ghost function UintErrorAhead(input: seq<Byte>, k: Kind, size: nat, byteval: Byte, d: Cursor, m: nat): Error
    requires Proper(input, d)
  {
    if k == ByteKind then if byteval == 0 then ErrCanonInt else Ok
    else if k == StringKind then DigitsError(input, d, size, m)
    else ErrExpectedString
  }

  ghost function StringError(input: seq<Byte>, c: Cursor): (e: Error)
    requires Proper(input, c)
    ensures e != ErrMoreThanOneValue
  {
    if KindError(input, c) != Ok || !HeadFits(input, c) then KindError(input, c)
    else var h := ParseHead(Available(input, c)); StringErrorAhead(input, h.kind, h.size, c.Step(h.len))
  }

  ghost function UintError(input: seq<Byte>, c: Cursor, m: nat): Error
    requires Proper(input, c)
  {
    if KindError(input, c) != Ok || !HeadFits(input, c) then KindError(input, c)
    else var h := ParseHead(Available(input, c)); UintErrorAhead(input, h.kind, h.size, h.byteval, c.Step(h.len), m)
  }

  ghost function ListError(input: seq<Byte>, c: Cursor): Error
    requires Proper(input, c)
  {
    if KindError(input, c) != Ok || !HeadFits(input, c) then KindError(input, c)
    else if ParseHead(Available(input, c)).kind == ListKind then Ok else ErrExpectedList
  }

  lemma ErrorsOfHead(input: seq<Byte>, c: Cursor, m: nat)
    requires Proper(input, c) && KindError(input, c) != Ok
    ensures StringError(input, c) == UintError(input, c, m) == ListError(input, c) == KindError(input, c)
  {
    hide KindError, ParseHead, HeadFits;
  }

  /** Once the header has been read, the rest decides. */
  lemma ErrorsAhead(input: seq<Byte>, c: Cursor, k: Kind, size: nat, byteval: Byte, d: Cursor, m: nat)
    requires Proper(input, c) && Proper(input, d) && KindError(input, c) == Ok && HeadFits(input, c)
    requires HeadRead(input, c, k, size, byteval, d)
    ensures StringError(input, c) == StringErrorAhead(input, k, size, d)
    ensures UintError(input, c, m) == UintErrorAhead(input, k, size, byteval, d, m)
    ensures ListError(input, c) == if k == ListKind then Ok else ErrExpectedList
  {
    hide ParseHead, KindError, Cursor.Step, Available, StringErrorAhead, UintErrorAhead;
  }

  class Stream {
    const input: seq<Byte>
    var rpos: nat
    var remaining: uint64
    var limited: bool
    var uintbuf: seq<Byte>
    var kind: Kind
    var size: uint64
    var byteval: Byte
    var kinderr: Error
    var stack: seq<ListPos>
    /** The place in the input that a limited stream must not pass. */
    ghost var end: nat

    function Cur(): Cursor
      reads this
    {
      Cursor(rpos, limited, remaining, stack)
    }

    /** Open lists are nested, a value ahead fits into the innermost one, and the limit is kept. */
    ghost predicate Valid()
      reads this
    {
      Proper(input, Cur()) && |uintbuf| == 8
      && (kind != Unread && kinderr == Ok && stack != [] ==> size <= Cur().Top().size - Cur().Top().pos)
      && (limited ==> rpos + remaining as int <= end)
    }

    /** NewStream, on a reader over a byte slice: without an explicit limit, the limit is its length. */
    constructor (input: seq<Byte>, inputLimit: uint64)
      requires |input| < TWO64
      ensures Valid() && this.input == input && kind == Unread && limited && end == remaining as int
      ensures Cur() == Cursor(0, true, if inputLimit > 0 then inputLimit else |input| as uint64, [])
    {
      this.input, rpos := input, 0;
      remaining, limited := if inputLimit > 0 then inputLimit else |input| as uint64, true;
      uintbuf := seq(8, i => 0);
      kind, size, byteval, kinderr, stack := Unread, 0, 0, Ok, [];
      end := if inputLimit > 0 then inputLimit as int else |input|;
    }

    /** NewStream, on a reader whose length is not known. */
    constructor Unlimited(input: seq<Byte>)
      ensures Valid() && this.input == input && kind == Unread && Cur() == Cursor(0, false, 0, [])
    {
      this.input, rpos, remaining, limited := input, 0, 0, false;
      uintbuf := seq(8, i => 0);
      kind, size, byteval, kinderr, stack := Unread, 0, 0, Ok, [];
      end := 0;
    }

    /** NewListStream: pretends that the header of a list has been read. */
    constructor AtList(input: seq<Byte>, len: uint64)
      requires |input| < TWO64
      ensures Valid() && this.input == input && kind == ListKind && size == len && kinderr == Ok
      ensures Cur() == Cursor(0, true, if len > 0 then len else |input| as uint64, [])
    {
      this.input, rpos := input, 0;
      remaining, limited := if len > 0 then len else |input| as uint64, true;
      uintbuf := seq(8, i => 0);
      kind, size, byteval, kinderr, stack := ListKind, len, 0, Ok, [];
      end := if len > 0 then len as int else |input|;
    }

    /** willRead: books n bytes in the innermost list and the limit. */
    method WillRead(n: uint64) returns (err: Error)
      requires Valid()
      modifies this`kind, this`stack, this`remaining
      ensures Valid() && kind == Unread && err != EOL
      ensures stack == [] <==> old(stack) == []
      ensures err == Ok <==>
        (old(stack) != [] ==> n <= old(Cur()).Top().size - old(Cur()).Top().pos) && (limited ==> n <= old(remaining))
      ensures err != Ok ==>
        err == if old(stack) != [] && n > old(Cur()).Top().size - old(Cur()).Top().pos then ErrElemTooLarge else ErrValueTooLarge
      ensures err == Ok ==> Cur() == old(Cur()).Step(n as int).(rpos := rpos)
      ensures err == Ok && limited ==> rpos + n as int + remaining as int <= end
    {
      hide Cursor.Step, Proper;
      ghost var c := Cur();
      ProperPositions(input, c);
      kind := Unread; // rearm Kind
      if |stack| > 0 {
        // the bytes must fit in the innermost list
        var tos := stack[|stack| - 1];
        if n > tos.size - tos.pos {
          return ErrElemTooLarge;
        }
        BookingIsProper(input, Cur(), n);
        stack := stack[..|stack| - 1] + [ListPos(tos.pos + n, tos.size)];
      }
      if limited {
        if n > remaining {
          return ErrValueTooLarge;
        }
        remaining := remaining - n;
      }
      BookedIsStep(input, c, n, Cur());
      return Ok;
    }

    /** readFull, into a buffer of n bytes. */
    method ReadFull(n: uint64) returns (buf: seq<Byte>, err: Error)
      requires Valid()
      modifies this`kind, this`stack, this`remaining, this`rpos
      ensures Valid() && kind == Unread && err != EOL
      ensures stack == [] <==> old(stack) == []
      ensures err == ReadError(input, old(Cur()), n as int)
      ensures err == Ok ==> buf == Available(input, old(Cur()))[..n] && Cur() == old(Cur()).Step(n as int)
      ensures rpos >= old(rpos)
    {
      ghost var c := Cur();
      err := WillRead(n);
      if err != Ok {
        return [], err;
      }
      var m := if n as int <= |input| - rpos then n as int else |input| - rpos;
      buf := input[rpos..rpos + m];
      rpos := rpos + m;
      if m < n as int {
        err := ErrUnexpectedEOF;
      } else {
        StepIsProper(input, c, n as int);
      }
    }

    /** readByte. */
    method ReadByte() returns (b: Byte, err: Error)
      requires Valid()
      modifies this`kind, this`stack, this`remaining, this`rpos
      ensures Valid() && kind == Unread && err != EOL
      ensures stack == [] <==> old(stack) == []
      ensures err == ReadError(input, old(Cur()), 1) && (err != Ok ==> b == 0)
      ensures err == Ok ==> b == Available(input, old(Cur()))[0] && Cur() == old(Cur()).Step(1)
      ensures rpos >= old(rpos)
    {
      ghost var c := Cur();
      err := WillRead(1);
      if err != Ok {
        return 0, err;
      }
      if rpos == |input| {
        return 0, ErrUnexpectedEOF;
      }
      b := input[rpos];
      rpos := rpos + 1;
      StepIsProper(input, c, 1);
    }

    /** readUint: a big-endian number of the given number of bytes, without leading zeros. */
    method ReadUint(size: nat) returns (v: uint64, err: Error)
      requires Valid() && size <= 8
      modifies this`kind, this`stack, this`remaining, this`rpos, this`uintbuf
      ensures Valid() && kind == Unread && err != EOL
      ensures stack == [] <==> old(stack) == []
      ensures err == NumberError(input, old(Cur()), size) && (err != Ok ==> v == 0)
      ensures err == Ok ==> v as int == FromBigEndian(Available(input, old(Cur()))[..size]) && Cur() == old(Cur()).Step(size)
      ensures rpos >= old(rpos)
    {
      hide FromBigEndian, Cursor.Step, Cursor.Left, Proper, Available;
      ghost var c, s := Cur(), Available(input, Cur());
      if size == 0 {
        kind := Unread; // rearm Kind
        StepIsProper(input, c, 0);
        NoDigits(s[..0]);
        return 0, Ok;
      }
      if size == 1 {
        var b;
        b, err := ReadByte();
        if err == Ok { OneDigit(b); assert s[..1] == [b]; }
        return b as uint64, err;
      }
      var start := 8 - size;
      uintbuf := seq(start, i => 0) + uintbuf[start..];
      var buf;
      buf, err := ReadFull(size as uint64);
      if err != Ok {
        return 0, err;
      }
      uintbuf := uintbuf[..start] + buf;
      assert uintbuf == seq(start, i => 0) + buf;
      if uintbuf[start] == 0 {
        // Uint reports this as an integer that is not canonical
        return 0, ErrCanonSize;
      }
      LeadingZeros(start, buf);
      EightBytes(uintbuf);
      v := FromBigEndian(uintbuf) as uint64;
    }

    /** readKind: the header of the next value. */
    method ReadKind() returns (k: Kind, sz: uint64, err: Error)
      requires Valid()
      modifies this`kind, this`stack, this`remaining, this`rpos, this`uintbuf, this`byteval
      ensures Valid() && kind == Unread && k != Unread && err != EOL
      ensures stack == [] <==> old(stack) == []
      ensures err == Ok <==> ParseHead(Available(input, old(Cur()))).Head?
      ensures err == HeadError(input, old(Cur()))
      ensures err == Ok ==> HeadRead(input, old(Cur()), k, sz as int, byteval, Cur())
      ensures rpos >= old(rpos) && (err == Ok ==> rpos > old(rpos))
    {
      hide FromBigEndian, Cursor.Step, Cursor.Left, Proper, Available, LongHead, HeadRead, ReadError;
      ghost var c, s := Cur(), Available(input, Cur());
      var b;
      b, err := ReadByte();
      if err != Ok {
        if |stack| == 0 && (err == ErrUnexpectedEOF || err == ErrValueTooLarge) {
          // outside all lists, a missing byte is the plain end of the input
          err := EOF;
        }
        return ByteKind, 0, err;
      }
      byteval := 0;
      assert s[0] == b;
      if b < 0x80 {
        byteval := b;
        ShortRead(input, c, ByteKind, 0, b);
        return ByteKind, 0, Ok;
      } else if b < 0xB8 {
        ShortRead(input, c, StringKind, b - 0x80, 0);
        return StringKind, (b - 0x80) as uint64, Ok;
      } else if b < 0xC0 {
        sz, err := ReadSize(b - 0xB7, StringKind, c);
        return StringKind, sz, err;
      } else if b < 0xF8 {
        ShortRead(input, c, ListKind, b - 0xC0, 0);
        return ListKind, (b - 0xC0) as uint64, Ok;
      } else {
        sz, err := ReadSize(b - 0xF7, ListKind, c);
        return ListKind, sz, err;
      }
    }

    /** The size after a long tag, of a header that began at c. */
    method ReadSize(k: nat, headKind: Kind, ghost c: Cursor) returns (sz: uint64, err: Error)
      requires Valid() && 1 <= k <= 8 && kind == Unread && Proper(input, c) && c.Left(input) >= 1 && Cur() == c.Step(1)
      requires ParseHead(Available(input, c)) == LongHead(Available(input, c), headKind, k)
      modifies this`kind, this`stack, this`remaining, this`rpos, this`uintbuf
      ensures Valid() && kind == Unread && (stack == [] <==> old(stack) == [])
      ensures err == LongError(input, old(Cur()), k) && (err == Ok <==> ParseHead(Available(input, c)).Head?)
      ensures err == Ok ==> HeadRead(input, c, headKind, sz as int, 0, Cur())
      ensures rpos >= old(rpos) && (err == Ok ==> rpos > c.rpos)
    {
      hide FromBigEndian, Cursor.Step, Cursor.Left, Proper, Available, LongHead, ParseHead, HeadRead, ReadError;
      LongForm(input, c, k, headKind);
      sz, err := ReadUint(k);
      if err == Ok && sz < 56 {
        err := ErrCanonSize;
      }
      if err == Ok { LongRead(input, c, k, headKind); }
    }

    /** The error of a header that announces a value of the given size. */
    function SizeError(sz: uint64): Error
      requires stack == [] || stack[|stack| - 1].pos <= stack[|stack| - 1].size
      reads this
    {
      if |stack| == 0 then
        // outside all lists only the input limit counts
        if limited && sz > remaining then ErrValueTooLarge else Ok
      else
        // in a list, what is left of it
        if sz > stack[|stack| - 1].size - stack[|stack| - 1].pos then ErrElemTooLarge else Ok
    }

    lemma SizeErrorTellsFit(sz: uint64)
      requires stack == [] || stack[|stack| - 1].pos <= stack[|stack| - 1].size
      ensures SizeError(sz) ==
        if Fits(Cur(), sz as int) then Ok else if stack == [] then ErrValueTooLarge else ErrElemTooLarge
      ensures SizeError(sz) == Ok && stack != [] ==> sz <= Cur().Top().size - Cur().Top().pos
    {
    }

    /** Kind: reads the header of the next value, or returns what an earlier call found. */
    method KindAhead() returns (k: Kind, sz: uint64, err: Error)
      requires Valid()
      modifies this`kind, this`size, this`kinderr, this`stack, this`remaining, this`rpos, this`uintbuf, this`byteval
      ensures Valid() && k != Unread && rpos >= old(rpos)
      ensures old(kind) != Unread ==>
        Cur() == old(Cur()) && k == kind == old(kind) && sz == size == old(size) && err == kinderr == old(kinderr)
        && byteval == old(byteval)
      ensures old(kind) == Unread ==> err == KindError(input, old(Cur()))
      ensures old(kind) == Unread && AtEnd(old(Cur())) ==>
        err == EOL && k == ByteKind && sz == 0 && Cur() == old(Cur()) && kind == Unread
      ensures old(kind) == Unread && !AtEnd(old(Cur())) ==>
        k == kind && sz == size && err == kinderr && err != EOL
        && (err == Ok <==> HeadFits(input, old(Cur())))
        && (err == Ok ==> HeadRead(input, old(Cur()), k, sz as int, byteval, Cur()) && rpos > old(rpos))
    {
      hide ParseHead, Available, Cursor.Step, Cursor.Left, HeadRead, HeadFits, HeadError, Fits, SizeError, Proper;
      ghost var c := Cur();
      if kind == Unread {
        kinderr := Ok;
        // a list that has been read to its end is closed first
        if |stack| > 0 && stack[|stack| - 1].pos == stack[|stack| - 1].size {
          return ByteKind, 0, EOL;
        }
        k, sz, err := ReadKind();
        ProperPositions(input, Cur());
        HeadCase(input, c, k, sz as int, byteval, Cur(), err == Ok);
        if err == Ok {
          SizeErrorTellsFit(sz);
          err := SizeError(sz);
        }
        kind, size, kinderr := k, sz, err;
      }
      return kind, size, kinderr;
    }

    /** The bytes of a string whose header has been read. */
    method StringAhead(sz: uint64) returns (b: seq<Byte>, err: Error)
      requires Valid()
      modifies this`kind, this`stack, this`remaining, this`rpos
      ensures Valid() && rpos >= old(rpos) && kind == Unread && err != EOL && (err != Ok ==> b == [])
      ensures err == ContentError(input, old(Cur()), sz as int)
      ensures err == Ok ==> b == Available(input, old(Cur()))[..sz] && Cur() == old(Cur()).Step(sz as int)
    {
      hide Cursor.Step, Cursor.Left, Proper, Available;
      b, err := ReadFull(sz);
      if err != Ok {
        return [], err;
      }
      if sz == 1 && b[0] < 128 {
        return [], ErrCanonSize;
      }
      return b, Ok;
    }

    /** Bytes. */
    method Bytes() returns (b: seq<Byte>, err: Error)
      requires Valid()
      modifies this`kind, this`size, this`kinderr, this`stack, this`remaining, this`rpos, this`uintbuf, this`byteval
      ensures Valid() && rpos >= old(rpos) && (err != Ok ==> b == [])
      ensures old(kind) == ByteKind && old(kinderr) == Ok ==>
        err == Ok && b == [old(byteval)] && Cur() == old(Cur()) && kind == Unread
      ensures old(kind) == StringKind && old(kinderr) == Ok ==>
        kind == Unread && err == ContentError(input, old(Cur()), old(size) as int)
        && (err == Ok ==> b == Available(input, old(Cur()))[..old(size)] && Cur() == old(Cur()).Step(old(size) as int))
      ensures old(kind) == ListKind && old(kinderr) == Ok ==> err == ErrExpectedString && Cur() == old(Cur())
      ensures old(kind) == Unread && err == Ok ==>
        kind == Unread && ValueRead(input, old(Cur()), RlpFormat.EncodeString(b), Cur())
      ensures old(kind) == Unread ==> err == StringError(input, old(Cur())) && (err == Ok <==> StringNext(input, old(Cur())))
      ensures old(kind) != Unread && old(kinderr) != Ok ==> err == old(kinderr) && Cur() == old(Cur())
    {
      hide HeadRead, HeadFits, Cursor.Step, Cursor.Left, Proper, Available, ValueRead, RlpFormat.EncodeString, Fits, Expected,
           ParseHead, KindOf, SizeOf, ByteOf, Payload, KindError, HeadError, ContentError, StringError;
      ghost var c, unread := Cur(), kind == Unread;
      ghost var next, x := unread && StringNext(input, c), Str([]);
      if next {
        var b' :| Expected(input, c, Str(b'));
        x := Str(b');
        ExpectedHead(input, c, x);
      }
      var k, sz;
      k, sz, err := KindAhead();
      if err != Ok {
        if unread { ErrorsOfHead(input, c, 0); }
        return [], err;
      }
      ghost var d := Cur();
      if next { HeadAgrees(input, c, x, k, sz as int, byteval, d); }
      if unread { ErrorsAhead(input, c, k, sz as int, byteval, d, 0); }
      match k
      case ByteKind =>
        kind := Unread; // rearm Kind
        if unread {
          ByteValue(input, c, byteval, sz as int, d);
          ReadWasNext(input, c, [byteval], d);
        }
        return [byteval], Ok;
      case StringKind =>
        b, err := StringAhead(sz);
        if unread && err == Ok {
          StringValue(input, c, byteval, d, sz as int, b);
          ReadWasNext(input, c, b, Cur());
        }
      case ListKind =>
        return [], ErrExpectedString;
    }

    /** The number of a string whose header has been read. */
    method UintAhead(sz: uint64, maxbits: nat) returns (v: uint64, err: Error)
      requires Valid() && (maxbits == 8 || maxbits == 16 || maxbits == 32 || maxbits == 64)
      modifies this`kind, this`stack, this`remaining, this`rpos, this`uintbuf
      ensures Valid() && rpos >= old(rpos) && err != EOL && (err != Ok ==> v == 0)
      ensures err == Ok <==> DigitsAhead(input, old(Cur()), sz as int, maxbits / 8)
      ensures err == DigitsError(input, old(Cur()), sz as int, maxbits / 8)
      ensures err == Ok ==>
        kind == Unread && Cur() == old(Cur()).Step(sz as int)
        && v as int == FromBigEndian(Available(input, old(Cur()))[..sz])
    {
      hide Cursor.Step, Cursor.Left, Proper, Available, FromBigEndian, Power256;
      if sz as int > maxbits / 8 {
        return 0, ErrUintOverflow;
      }
      ghost var d := Available(input, Cur());
      v, err := ReadUint(sz as int);
      if err == ErrCanonSize {
        // the leading zero is one of the contents
        return 0, ErrCanonInt;
      } else if err != Ok {
        return 0, err;
      } else if sz > 0 && v < 128 {
        return 0, ErrCanonSize;
      }
    }

    /** uint, for an integer type of the given number of bits. */
    method Uint(maxbits: nat) returns (v: uint64, err: Error)
      requires Valid() && (maxbits == 8 || maxbits == 16 || maxbits == 32 || maxbits == 64)
      modifies this`kind, this`size, this`kinderr, this`stack, this`remaining, this`rpos, this`uintbuf, this`byteval
      ensures Valid() && rpos >= old(rpos) && (err != Ok ==> v == 0)
      ensures old(kind) == Unread && err == Ok ==>
        (v as int) < Power256(maxbits / 8) && kind == Unread && ValueRead(input, old(Cur()), EncodeUint(v as int), Cur())
      ensures old(kind) == Unread ==>
        err == UintError(input, old(Cur()), maxbits / 8) && (err == Ok <==> UintNext(input, old(Cur()), maxbits / 8))
      ensures old(kind) != Unread && old(kinderr) != Ok ==> err == old(kinderr) && Cur() == old(Cur())
      ensures old(kind) == ByteKind && old(kinderr) == Ok ==>
        Cur() == old(Cur())
        && if old(byteval) == 0 then err == ErrCanonInt else err == Ok && v as int == old(byteval) && kind == Unread
      ensures old(kind) == StringKind && old(kinderr) == Ok ==>
        err == DigitsError(input, old(Cur()), old(size) as int, maxbits / 8)
        && (err == Ok <==> DigitsAhead(input, old(Cur()), old(size) as int, maxbits / 8))
        && (err == Ok ==> v as int == FromBigEndian(Available(input, old(Cur()))[..old(size)]) && kind == Unread
                          && Cur() == old(Cur()).Step(old(size) as int))
      ensures old(kind) == ListKind && old(kinderr) == Ok ==> err == ErrExpectedString && Cur() == old(Cur())
    {
      hide HeadRead, HeadFits, Cursor.Step, Cursor.Left, Proper, Available, FromBigEndian, Power256, EncodeUint, ValueRead, Fits,
           UintNext, AtEnd, DigitsAhead, KindError, HeadError, DigitsError, UintError;
      ghost var c, unread, m := Cur(), kind == Unread, maxbits / 8;
      if unread { UintNeedsHead(input, c, m); }
      var k, sz;
      k, sz, err := KindAhead();
      if err != Ok {
        if unread { ErrorsOfHead(input, c, m); }
        return 0, err;
      }
      ghost var d := Cur();
      if unread { ErrorsAhead(input, c, k, sz as int, byteval, d, m); }
      match k
      case ByteKind =>
        if unread { ByteIsUint(input, c, byteval, sz as int, d, m); }
        if byteval == 0 {
          return 0, ErrCanonInt;
        }
        kind := Unread; // rearm Kind
        return byteval as uint64, Ok;
      case StringKind =>
        if unread { StringIsUint(input, c, byteval, sz as int, d, m); }
        v, err := UintAhead(sz, maxbits);
      case ListKind =>
        if unread { ListIsNoUint(input, c, byteval, sz as int, d, m); }
        return 0, ErrExpectedString;
    }

    /** List. */
    method List() returns (sz: uint64, err: Error)
      requires Valid()
      modifies this`kind, this`size, this`kinderr, this`stack, this`remaining, this`rpos, this`uintbuf, this`byteval
      ensures Valid() && rpos >= old(rpos) && (err != Ok ==> sz == 0)
      ensures old(kind) != Unread && old(kinderr) == Ok ==>
        if old(kind) == ListKind then err == Ok && sz == old(size) && Cur() == old(Cur()).Open(sz) && kind == Unread
        else err == ErrExpectedList && Cur() == old(Cur())
      ensures old(kind) == Unread && err == Ok ==>
        kind == Unread && exists d :: ValueRead(input, old(Cur()), ListHeader(sz as int), d) && Cur() == d.Open(sz)
      ensures old(kind) == Unread ==> err == ListError(input, old(Cur())) && (err == Ok <==> ListNext(input, old(Cur())))
      ensures old(kind) != Unread && old(kinderr) != Ok ==> err == old(kinderr) && Cur() == old(Cur())
    {
      hide HeadFits, Cursor.Step, Cursor.Left, Available, ValueRead, ListHeader, ParseHead, KindError, HeadError, ListError;
      ghost var c, unread := Cur(), kind == Unread;
      var k;
      k, sz, err := KindAhead();
      if err != Ok {
        if unread { ErrorsOfHead(input, c, 0); }
        return 0, err;
      }
      if unread { ErrorsAhead(input, c, k, sz as int, byteval, Cur(), 0); }
      if k != ListKind {
        return 0, ErrExpectedList;
      }
      if unread { HeadIsValue(input, c, ListKind, sz as int, byteval, Cur()); }
      OpenIsProper(input, Cur(), sz);
      stack := stack + [ListPos(0, sz)];
      kind := Unread;
      size := 0;
    }

    /** ListEnd. */
    method ListEnd() returns (err: Error)
      requires Valid()
      modifies this`kind, this`size, this`stack
      ensures Valid() && err != EOL
      ensures err == Ok <==> AtEnd(old(Cur()))
      ensures err != Ok ==> err == if old(stack) == [] then ErrNotInList else ErrNotAtEOL
      ensures err == Ok ==> old(Cur()).CanClose() && Cur() == old(Cur()).Close() && kind == Unread
      ensures err != Ok ==> Cur() == old(Cur())
    {
      if |stack| == 0 {
        return ErrNotInList;
      }
      hide Proper, Cursor.Close, Cursor.CanClose;
      ghost var c := Cur();
      var tos := stack[|stack| - 1];
      if tos.pos != tos.size {
        return ErrNotAtEOL;
      }
      CloseIsProper(input, c);
      CloseForm(c);
      stack := stack[..|stack| - 1]; // pop
      if |stack| > 0 {
        var outer := stack[|stack| - 1];
        stack := stack[..|stack| - 1] + [ListPos(outer.pos + tos.size, outer.size)];
      }
      kind := Unread;
      size := 0;
      return Ok;
    }
  }

  /** An integer is encoded as the string of its big-endian digits; 0 as the empty string. */
  function Digits(v: nat): seq<Byte> {
    if v == 0 then [] else BigEndian(v)
  }

  function EncodeUint(v: nat): seq<Byte> {
    RlpFormat.EncodeString(Digits(v))
  }

  lemma PublishedIntegers()
    ensures EncodeUint(0) == [0x80] && EncodeUint(1) == [0x01] && EncodeUint(127) == [0x7F] && EncodeUint(128) == [0x81, 0x80]
    ensures EncodeUint(256) == [0x82, 0x01, 0x00] && EncodeUint(1024) == [0x82, 0x04, 0x00]
  {
    DigitsOf(256); DigitsOf(1024);
  }

  // what can come next: a string, an integer of at most k bytes, or the header of a list that fits

  ghost predicate StringNext(input: seq<Byte>, c: Cursor) {
    exists b :: Expected(input, c, Str(b))
  }

  ghost predicate UintNext(input: seq<Byte>, c: Cursor, k: nat) {
    exists v: nat :: v < Power256(k) && Expected(input, c, Str(Digits(v)))
  }

  ghost predicate ListNext(input: seq<Byte>, c: Cursor) {
    !AtEnd(c) && HeadFits(input, c) && ParseHead(Available(input, c)).kind == ListKind
  }

  lemma ReadWasNext(input: seq<Byte>, c: Cursor, b: seq<Byte>, d: Cursor)
    requires ValueRead(input, c, RlpFormat.EncodeString(b), d) && |b| < TWO64
    ensures StringNext(input, c)
  {
    assert Expected(input, c, Str(b));
  }

  /** The digits of an integer of at most m bytes come next, after the header of a string of the given size. */
  ghost predicate DigitsAhead(input: seq<Byte>, d: Cursor, size: nat, m: nat) {
    Proper(input, d) && size <= m && size <= d.Left(input)
    && var s := Available(input, d)[..size];
      (|s| > 1 ==> s[0] != 0) && (|s| > 0 ==> FromBigEndian(s) >= 128)
  }

  lemma UintNeedsHead(input: seq<Byte>, c: Cursor, m: nat)
    ensures UintNext(input, c, m) ==> HeadFits(input, c) && !AtEnd(c)
  {
    hide Expected, Digits, HeadFits;
    if UintNext(input, c, m) {
      var v: nat :| v < Power256(m) && Expected(input, c, Str(Digits(v)));
      ExpectedHead(input, c, Str(Digits(v)));
    }
  }

  lemma ByteIsUint(input: seq<Byte>, c: Cursor, b: Byte, size: nat, d: Cursor, m: nat)
    requires HeadRead(input, c, ByteKind, size, b, d) && (m == 1 || m == 2 || m == 4 || m == 8)
    ensures b != 0 <==> UintNext(input, c, m)
    ensures b != 0 ==> b < Power256(m) && ValueRead(input, c, EncodeUint(b), d)
  {
    hide Expected, HeadRead, Digits, ValueRead, Power256, EncodeUint, UintNext;
    if b != 0 {
      UintByte(input, c, b, size, d);
      OneByteFits(b, m);
      UintWasNext(input, c, b, d, m);
    } else if UintNext(input, c, m) {
      var v := UintThatIsNext(input, c, m);
      HeadAgrees(input, c, Str(Digits(v)), ByteKind, size, b, d);
      DigitsAreDecoded(v, m);
    }
  }

  lemma StringIsUint(input: seq<Byte>, c: Cursor, byteval: Byte, size: nat, d: Cursor, m: nat)
    requires HeadRead(input, c, StringKind, size, byteval, d) && Proper(input, d) && 0 < m <= 8
    ensures DigitsAhead(input, d, size, m) <==> UintNext(input, c, m)
    ensures DigitsAhead(input, d, size, m) ==>
      size <= d.Left(input)
      && var v := FromBigEndian(Available(input, d)[..size]);
        v < Power256(m) && ValueRead(input, c, EncodeUint(v), d.Step(size))
  {
    hide Expected, HeadRead, Digits, ValueRead, Power256, EncodeUint, UintNext, FromBigEndian, Cursor.Step, Cursor.Left, Available;
    if DigitsAhead(input, d, size, m) {
      var s := Available(input, d)[..size];
      NumberFits(s, m);
      SmallNumber(s, m);
      StepIsDefined(input, d, size);
      UintValue(input, c, byteval, d, size, FromBigEndian(s));
      UintWasNext(input, c, FromBigEndian(s), d.Step(size), m);
    } else if UintNext(input, c, m) {
      var v := UintThatIsNext(input, c, m);
      HeadAgrees(input, c, Str(Digits(v)), StringKind, size, byteval, d);
      DigitsAreDecoded(v, m);
    }
  }

  lemma SmallNumber(s: seq<Byte>, m: nat)
    requires |s| <= m <= 8
    ensures FromBigEndian(s) < TWO64
  {
    NumberFits(s, 8);
    PowersOf256();
  }

  lemma ListIsNoUint(input: seq<Byte>, c: Cursor, byteval: Byte, size: nat, d: Cursor, m: nat)
    requires HeadRead(input, c, ListKind, size, byteval, d)
    ensures !UintNext(input, c, m)
  {
    hide Expected, HeadRead, Digits, UintNext;
    if UintNext(input, c, m) {
      var v := UintThatIsNext(input, c, m);
      HeadAgrees(input, c, Str(Digits(v)), ListKind, size, byteval, d);
    }
  }

  lemma UintThatIsNext(input: seq<Byte>, c: Cursor, k: nat) returns (v: nat)
    requires UintNext(input, c, k)
    ensures v < Power256(k) && Expected(input, c, Str(Digits(v)))
  {
    v :| v < Power256(k) && Expected(input, c, Str(Digits(v)));
  }

  lemma UintWasNext(input: seq<Byte>, c: Cursor, v: nat, d: Cursor, k: nat)
    requires ValueRead(input, c, EncodeUint(v), d) && v < Power256(k) && v < TWO64
    ensures UintNext(input, c, k)
  {
    ShortBigEndian(v);
    assert Expected(input, c, Str(Digits(v)));
  }

  /** Digits have no leading zero, are as many as fit, and those of a number from 128 on are not a single small byte. */
  lemma DigitsAreDecoded(v: nat, k: nat)
    requires v < Power256(k) && 0 < k
    ensures var d := Digits(v);
      |d| <= k && FromBigEndian(d) == v && (|d| > 0 ==> d[0] != 0) && (|d| == 1 ==> d == [v]) && (|d| > 1 ==> v >= 256)
  {
    if v > 0 {
      LengthOfBigEndian(v, k);
      FromOfBigEndian(v);
      NoLeadingZero(v);
    } else {
      NoDigits([]);
    }
  }

  // ------------------------------------------------------------- facts about what was read

  lemma BookingIsProper(input: seq<Byte>, c: Cursor, n: uint64)
    requires Proper(input, c) && c.stack != [] && n <= c.Top().size - c.Top().pos
    ensures Proper(input, c.(stack := c.stack[..|c.stack| - 1] + [ListPos(c.Top().pos + n, c.Top().size)]))
  {
    var k := |c.stack| - 1;
    var d := c.(stack := c.stack[..k] + [ListPos(c.Top().pos + n, c.Top().size)]);
    assert forall i :: 0 <= i < k ==> d.stack[i] == c.stack[i];
  }

  lemma CloseForm(c: Cursor)
    requires c.CanClose()
    ensures var s := c.stack[..|c.stack| - 1];
      |s| == |c.stack| - 1
      && (s == [] ==> c.Close() == c.(stack := []))
      && (s != [] ==> var o := s[|s| - 1];
            o.pos as int + c.Top().size as int < TWO64
            && c.Close() == c.(stack := s[..|s| - 1] + [ListPos(o.pos + c.Top().size, o.size)]))
  {
    var s := c.stack[..|c.stack| - 1];
    if s != [] { assert s[..|s| - 1] == c.stack[..|c.stack| - 2]; }
  }

  lemma ProperPositions(input: seq<Byte>, c: Cursor)
    requires Proper(input, c)
    ensures c.rpos <= |input| && (c.stack != [] ==> c.Top().pos <= c.Top().size)
  {
  }

  lemma BookedIsStep(input: seq<Byte>, c: Cursor, n: uint64, d: Cursor)
    requires Proper(input, c) && d.rpos == c.rpos && d.limited == c.limited
    requires if c.limited then n <= c.remaining && d.remaining == c.remaining - n else d.remaining == c.remaining
    requires if c.stack == [] then d.stack == []
             else n <= c.Top().size - c.Top().pos && d.stack == c.stack[..|c.stack| - 1] + [ListPos(c.Top().pos + n, c.Top().size)]
    ensures d == c.Step(n as int).(rpos := c.rpos) && Proper(input, d)
  {
    if c.stack != [] { BookingIsProper(input, c, n); }
  }

  lemma NoDigits(s: seq<Byte>)
    requires s == []
    ensures FromBigEndian(s) == 0
  {
  }

  lemma OneDigit(b: Byte)
    ensures FromBigEndian([b]) == b
  {
    assert [b][..0] == [];
  }

  lemma {:induction false} LeadingZeros(n: nat, s: seq<Byte>)
    ensures FromBigEndian(seq(n, i => 0) + s) == FromBigEndian(s)
  {
    var z: seq<Byte> := seq(n, i => 0);
    if s != [] {
      assert (z + s)[..|z + s| - 1] == z + s[..|s| - 1];
      LeadingZeros(n, s[..|s| - 1]);
    } else {
      assert z + s == z;
      OnlyZeros(n);
    }
  }

  lemma {:induction false} OnlyZeros(n: nat)
    ensures FromBigEndian(seq(n, i => 0)) == 0
  {
    var z: seq<Byte> := seq(n, i => 0);
    if n > 0 {
      assert z[..n - 1] == seq(n - 1, i => 0);
      OnlyZeros(n - 1);
    }
  }

  lemma EightBytes(s: seq<Byte>)
    requires |s| == 8
    ensures FromBigEndian(s) < TWO64
  {
    FromIsBounded(s);
    PowersOf256();
  }

  lemma ShortRead(input: seq<Byte>, c: Cursor, kind: Kind, size: nat, byteval: Byte)
    requires Proper(input, c) && c.Left(input) >= 1
    requires ParseHead(Available(input, c)) == Head(kind, size, byteval, 1)
    ensures HeadRead(input, c, kind, size, byteval, c.Step(1)) && c.Step(1).rpos == c.rpos + 1
  {
    hide ParseHead;
    StepIsProper(input, c, 1);
  }

  /** The size after a long tag, as the stream reads it. */
  lemma LongForm(input: seq<Byte>, c: Cursor, k: nat, kind: Kind)
    requires Proper(input, c) && 1 <= k <= 8 && c.Left(input) >= 1
    ensures Proper(input, c.Step(1)) && c.Step(1).Left(input) == c.Left(input) - 1 && c.Step(1).rpos == c.rpos + 1
    ensures var s := Available(input, c.Step(1)); var h := LongHead(Available(input, c), kind, k);
      (h.Head? <==> k <= c.Left(input) - 1 && (k > 1 ==> s[0] != 0) && FromBigEndian(s[..k]) >= 56)
      && (h.Head? ==> h == Head(kind, FromBigEndian(s[..k]), 0, 1 + k))
  {
    hide FromBigEndian;
    StepIsProper(input, c, 1);
    var s, t := Available(input, c), Available(input, c.Step(1));
    if k <= c.Left(input) - 1 {
      assert s[1..1 + k] == t[..k];
    }
  }

  lemma LongRead(input: seq<Byte>, c: Cursor, k: nat, kind: Kind)
    requires Proper(input, c) && 1 <= k <= 8 && c.Left(input) >= 1 + k && Proper(input, c.Step(1))
    requires var s := Available(input, c); LongHead(s, kind, k).Head? && ParseHead(s) == LongHead(s, kind, k)
    ensures c.Step(1).Left(input) == c.Left(input) - 1
    ensures var h := LongHead(Available(input, c), kind, k);
      HeadRead(input, c, kind, h.size, 0, c.Step(1).Step(k)) && c.Step(1).Step(k).rpos == c.rpos + 1 + k
  {
    hide ParseHead, FromBigEndian;
    StepIsProper(input, c, 1);
    TwoSteps(input, c, 1, k);
    LongHeadShape(Available(input, c), kind, k);
  }

  lemma HeadCase(input: seq<Byte>, c: Cursor, kind: Kind, size: nat, byteval: Byte, d: Cursor, ok: bool)
    requires Proper(input, c) && Proper(input, d) && (ok <==> ParseHead(Available(input, c)).Head?)
    requires ok ==> HeadRead(input, c, kind, size, byteval, d)
    ensures HeadFits(input, c) <==> ok && Fits(d, size)
  {
    hide ParseHead, Cursor.Step, Cursor.Left, Available, Fits;
    if ok {
      var h := ParseHead(Available(input, c));
      StepIsProper(input, c, h.len);
    }
  }

  /** The bytes e have been read between two cursors. */
  ghost predicate ValueRead(input: seq<Byte>, c: Cursor, e: seq<Byte>, d: Cursor) {
    Proper(input, c) && e <= Available(input, c) && d == c.Step(|e|)
  }

  lemma HeadIsValue(input: seq<Byte>, c: Cursor, kind: Kind, size: nat, byteval: Byte, d: Cursor)
    requires HeadRead(input, c, kind, size, byteval, d)
    ensures ValueRead(input, c, HeadBytes(kind, size, byteval), d) && size < TWO64
    ensures kind == ByteKind ==> byteval < 0x80 && size == 0
  {
    hide ParseHead, Cursor.Step, Cursor.Left, Available, HeadBytes;
    ParsedHeadIsCanonical(Available(input, c));
  }

  /** Two parts read one after the other. */
  lemma PartsRead(input: seq<Byte>, c: Cursor, e: seq<Byte>, d: Cursor, b: seq<Byte>)
    requires ValueRead(input, c, e, d) && Proper(input, d) && |b| <= d.Left(input) && b == Available(input, d)[..|b|]
    ensures ValueRead(input, c, e + b, d.Step(|b|))
  {
    hide Cursor.Step, Cursor.Left, Available;
    StepIsProper(input, c, |e|);
    TwoSteps(input, c, |e|, |b|);
    var s := Available(input, c);
    assert s[|e|..][..|b|] == b;
    assert e + b == s[..|e| + |b|];
  }

  lemma ByteValue(input: seq<Byte>, c: Cursor, b: Byte, size: nat, d: Cursor)
    requires HeadRead(input, c, ByteKind, size, b, d)
    ensures ValueRead(input, c, RlpFormat.EncodeString([b]), d)
  {
    hide HeadRead, ValueRead;
    HeadIsValue(input, c, ByteKind, size, b, d);
  }

  lemma StringValue(input: seq<Byte>, c: Cursor, byteval: Byte, d: Cursor, size: nat, b: seq<Byte>)
    requires HeadRead(input, c, StringKind, size, byteval, d) && Proper(input, d) && size <= d.Left(input)
    requires b == Available(input, d)[..size] && !(size == 1 && Available(input, d)[0] < 128)
    ensures ValueRead(input, c, RlpFormat.EncodeString(b), d.Step(size))
  {
    hide HeadRead, ValueRead, StringHeader, Cursor.Step, Cursor.Left, Available;
    HeadIsValue(input, c, StringKind, size, byteval, d);
    PartsRead(input, c, StringHeader(size), d, b);
  }

  lemma UintByte(input: seq<Byte>, c: Cursor, b: Byte, size: nat, d: Cursor)
    requires HeadRead(input, c, ByteKind, size, b, d) && b > 0
    ensures ValueRead(input, c, EncodeUint(b), d)
  {
    hide HeadRead, ValueRead;
    HeadIsValue(input, c, ByteKind, size, b, d);
  }

  lemma UintValue(input: seq<Byte>, c: Cursor, byteval: Byte, d: Cursor, size: nat, v: nat)
    requires HeadRead(input, c, StringKind, size, byteval, d) && Proper(input, d) && size <= d.Left(input)
    requires var b := Available(input, d)[..size];
      v == FromBigEndian(b) && (|b| > 1 ==> b[0] != 0) && (|b| > 0 ==> v >= 128)
    ensures ValueRead(input, c, EncodeUint(v), d.Step(size))
  {
    hide HeadRead, ValueRead, Cursor.Step, Cursor.Left, Available, FromBigEndian, BigEndian, RlpFormat.EncodeString;
    var b := Available(input, d)[..size];
    if b == [] {
      NoDigits(b);
    } else {
      BigEndianOfFrom(b);
      if |b| == 1 { OneDigit(b[0]); assert b == [b[0]]; }
    }
    StringValue(input, c, byteval, d, size, b);
  }

  lemma OneByteFits(b: Byte, k: nat)
    requires k == 1 || k == 2 || k == 4 || k == 8
    ensures b < Power256(k)
  {
    AtLeast256(k);
  }

  lemma {:induction false} NumberFits(d: seq<Byte>, k: nat)
    requires |d| <= k <= 8
    ensures FromBigEndian(d) < Power256(k)
  {
    FromIsBounded(d);
    PowersGrow(|d|, k);
  }

  lemma {:induction false} PowersGrow(a: nat, b: nat)
    requires a <= b
    ensures Power256(a) <= Power256(b)
  {
    if a < b { PowersGrow(a, b - 1); }
  }

  // ------------------------------------------------------------- decoding into an interface value

  /** The encoding of x can be read at a cursor. */
  ghost predicate Expected(input: seq<Byte>, c: Cursor, x: Item) {
    Proper(input, c) && Encodable(x) && Encode(x) <= Available(input, c)
  }

  /** The kind and size that the header of x announces. */
  function KindOf(x: Item): Kind {
    match x
    case Str(b) => if |b| == 1 && b[0] < 0x80 then ByteKind else StringKind
    case List(items) => ListKind
  }

  function SizeOf(x: Item): nat {
    match x
    case Str(b) => if |b| == 1 && b[0] < 0x80 then 0 else |b|
    case List(items) => |EncodeAll(items)|
  }

  function ByteOf(x: Item): Byte {
    match x
    case Str(b) => if |b| == 1 && b[0] < 0x80 then b[0] else 0
    case List(items) => 0
  }

  /** The payload that follows the header. */
  function Payload(x: Item): seq<Byte> {
    match x
    case Str(b) => if |b| == 1 && b[0] < 0x80 then [] else b
    case List(items) => EncodeAll(items)
  }

  lemma EncodeParts(x: Item)
    ensures Encode(x) == HeadBytes(KindOf(x), SizeOf(x), ByteOf(x)) + Payload(x) && |Payload(x)| == SizeOf(x)
    ensures KindOf(x) != Unread && (KindOf(x) == ByteKind ==> ByteOf(x) < 0x80 && SizeOf(x) == 0)
    ensures KindOf(x) != ByteKind ==> ByteOf(x) == 0
    ensures Encodable(x) ==> SizeOf(x) < TWO64
  {
    hide Header, EncodeAll;
  }

  /** Where the encoding of x can be read, its header is found, its value fits, and the payload comes next. */
  lemma ExpectedHead(input: seq<Byte>, c: Cursor, x: Item)
    requires Expected(input, c, x)
    ensures HeadFits(input, c) && !AtEnd(c)
    ensures var h := ParseHead(Available(input, c));
      h == Head(KindOf(x), SizeOf(x), ByteOf(x), h.len) && h.len <= c.Left(input)
      && Proper(input, c.Step(h.len)) && Payload(x) <= Available(input, c.Step(h.len))
  {
    hide ParseHead, Encode, Encodable, HeadBytes, Payload, KindOf, SizeOf, ByteOf, Cursor.Step, Cursor.Left;
    EncodeParts(x);
    var s := Available(input, c);
    var e := HeadBytes(KindOf(x), SizeOf(x), ByteOf(x));
    assert e == Encode(x)[..|e|] == s[..|e|];
    WrittenHeadIsParsed(s, KindOf(x), SizeOf(x), ByteOf(x));
    StepIsDefined(input, c, |e|);
    StepIsProper(input, c, |e|);
    assert Payload(x) == Encode(x)[|e|..];
    assert Payload(x) == s[|e|..][..SizeOf(x)];
    RoomForPayload(input, c.Step(|e|), SizeOf(x));
    NotAtEnd(input, c);
  }

  lemma StepIsDefined(input: seq<Byte>, c: Cursor, n: nat)
    requires Proper(input, c) && n <= c.Left(input)
    ensures (c.limited ==> n <= c.remaining as int) && (c.stack != [] ==> c.Top().pos as int + n <= c.Top().size as int)
  {
  }

  lemma RoomForPayload(input: seq<Byte>, c: Cursor, n: nat)
    requires Proper(input, c) && n <= c.Left(input)
    ensures Fits(c, n)
  {
  }

  lemma NotAtEnd(input: seq<Byte>, c: Cursor)
    requires Proper(input, c) && c.Left(input) > 0
    ensures !AtEnd(c)
  {
  }

  /** A list being decoded: the items so far have been read inside it. */
  ghost predicate ItemsRead(input: seq<Byte>, c: Cursor, size: uint64, vs: seq<Item>, d: Cursor) {
    Proper(input, c.Open(size)) && EncodeAll(vs) <= Available(input, c.Open(size)) && d == c.Open(size).Step(|EncodeAll(vs)|)
    && forall i :: 0 <= i < |vs| ==> Encodable(vs[i])
  }

  lemma NoItemsRead(input: seq<Byte>, c: Cursor, size: uint64)
    requires Proper(input, c.Open(size))
    ensures ItemsRead(input, c, size, [], c.Open(size))
  {
    StepIsProper(input, c.Open(size), 0);
  }

  lemma OneMoreItem(input: seq<Byte>, c: Cursor, size: uint64, vs: seq<Item>, d: Cursor, v: Item, d': Cursor)
    requires ItemsRead(input, c, size, vs, d) && ValueRead(input, d, Encode(v), d') && Encodable(v)
    ensures ItemsRead(input, c, size, vs + [v], d')
  {
    hide Cursor.Step, Cursor.Left, Available, EncodeAll, Encode, Encodable;
    var o := c.Open(size);
    EncodeAllAppend(vs, v);
    StepIsProper(input, o, |EncodeAll(vs)|);
    PartsRead(input, o, EncodeAll(vs), d, Encode(v));
  }

  /** At the end of the list the items are its whole content. */
  lemma ListIsComplete(input: seq<Byte>, c: Cursor, size: uint64, vs: seq<Item>, d: Cursor)
    requires Proper(input, c) && (c.stack != [] ==> size <= c.Top().size - c.Top().pos)
    requires ItemsRead(input, c, size, vs, d) && AtEnd(d)
    ensures |EncodeAll(vs)| == size as int <= c.Left(input) && EncodeAll(vs) <= Available(input, c)
    ensures d.CanClose() && d.Close() == c.Step(size as int) && forall i :: 0 <= i < |vs| ==> Encodable(vs[i])
  {
    hide EncodeAll, Encodable;
    var o := c.Open(size);
    assert o.stack[..|o.stack| - 1] == c.stack;
    assert d.Top().pos as int == |EncodeAll(vs)|;
    LeftOfOpen(input, c, size, |EncodeAll(vs)|);
    OpenThenStep(input, c, size);
    CloseAfter(input, c, d, size);
  }

  lemma LeftOfOpen(input: seq<Byte>, c: Cursor, size: uint64, n: nat)
    requires Proper(input, c) && Proper(input, c.Open(size)) && n <= c.Open(size).Left(input) && n == size as int
    ensures n <= c.Left(input) || (c.stack != [] && c.Top().size as int - c.Top().pos as int < n)
    ensures (c.stack != [] ==> size <= c.Top().size - c.Top().pos) ==> n <= c.Left(input)
    ensures n <= c.Left(input) ==> Available(input, c.Open(size))[..n] == Available(input, c)[..n]
  {
    var o := c.Open(size);
    assert o.Top() == ListPos(0, size) && o.rpos == c.rpos;
    if n <= c.Left(input) {
      PrefixOfSlice(input, c.rpos, o.Left(input), n);
      PrefixOfSlice(input, c.rpos, c.Left(input), n);
    }
  }

  lemma PrefixOfSlice(input: seq<Byte>, at: nat, len: nat, n: nat)
    requires n <= len && at + len <= |input|
    ensures input[at..at + len][..n] == input[at..at + n]
  {
  }

  /** The encodings of xs, of the given size in all, can be read at a cursor. */
  ghost predicate ItemsExpected(input: seq<Byte>, c: Cursor, size: uint64, xs: seq<Item>) {
    Proper(input, c) && size as int == |EncodeAll(xs)| && EncodeAll(xs) <= Available(input, c)
    && forall i :: 0 <= i < |xs| ==> Encodable(xs[i])
  }

  /** As long as the expected items have come, the next one is expected, until the list is complete. */
  lemma NextExpected(input: seq<Byte>, c: Cursor, size: uint64, xs: seq<Item>, n: nat, d: Cursor)
    requires Proper(input, c) && n <= |xs| && ItemsRead(input, c, size, xs[..n], d) && ItemsExpected(input, c, size, xs)
    ensures if n < |xs| then Expected(input, d, xs[n]) else AtEnd(d)
  {
    hide EncodeAll, Encodable, Encode;
    var o := c.Open(size);
    OpenThenStep(input, c, size);
    var a, b := EncodeAll(xs[..n]), EncodeAll(xs[n..]);
    SplitItems(xs, n);
    StepIsProper(input, o, |a|);
    OpenSees(input, c, size, EncodeAll(xs));
    assert Available(input, o) == a + b;
    assert Available(input, d) == b;
    if n < |xs| {
      FirstItem(xs[n..]);
      assert xs[n..][0] == xs[n];
    } else {
      assert xs[n..] == [];
      NothingMore();
      EndOfList(input, o, |a|);
    }
  }

  lemma OpenSees(input: seq<Byte>, c: Cursor, size: uint64, e: seq<Byte>)
    requires Proper(input, c) && Proper(input, c.Open(size)) && size as int == |e| && e <= Available(input, c)
    requires c.Open(size).Left(input) == size as int
    ensures Available(input, c.Open(size)) == e
  {
  }

  lemma EndOfList(input: seq<Byte>, o: Cursor, n: nat)
    requires Proper(input, o) && o.stack != [] && o.Top().pos == 0 && o.Top().size as int == n <= o.Left(input)
    ensures AtEnd(o.Step(n))
  {
  }

  lemma NothingMore()
    ensures EncodeAll([]) == []
  {
  }

  lemma FirstItem(xs: seq<Item>)
    requires xs != []
    ensures Encode(xs[0]) <= EncodeAll(xs)
  {
  }

  lemma {:induction false} SplitItems(xs: seq<Item>, n: nat)
    requires n <= |xs|
    ensures EncodeAll(xs) == EncodeAll(xs[..n]) + EncodeAll(xs[n..])
  {
    if n == 0 {
      assert xs[..0] == [] && xs[0..] == xs;
    } else {
      SplitItems(xs, n - 1);
      EncodeAllAppend(xs[..n - 1], xs[n - 1]);
      assert xs[..n] == xs[..n - 1] + [xs[n - 1]];
      assert xs[n - 1..][1..] == xs[n..];
    }
  }

  /** decodeInterface. If the encoding of a ghost item x comes next, x is the result. */
  method DecodeInterface(s: Stream, ghost x: Item) returns (v: Item, err: Error)
    requires s.Valid()
    modifies s
    ensures s.Valid() && s.rpos >= old(s.rpos) && s.end == old(s.end) && s.limited == old(s.limited)
    ensures old(s.kind) == Unread && err == Ok ==>
      s.kind == Unread && s.rpos > old(s.rpos) && Encodable(v) && ValueRead(s.input, old(s.Cur()), Encode(v), s.Cur())
    ensures old(s.kind) == Unread && err == EOL ==> AtEnd(old(s.Cur())) && s.Cur() == old(s.Cur()) && s.kind == Unread
    ensures old(s.kind) == Unread && AtEnd(old(s.Cur())) ==> err == EOL
    ensures old(s.kind) == Unread ==>
      err != ErrMoreThanOneValue && (KindError(s.input, old(s.Cur())) != Ok ==> err == KindError(s.input, old(s.Cur())))
    ensures old(s.kind) == Unread && Expected(s.input, old(s.Cur()), x) ==> err == Ok && v == x
    decreases |s.input| - s.rpos, if s.kind == Unread then 0 else 2
  {
    hide HeadRead, HeadFits, Cursor.Step, Cursor.Left, Proper, Available, ValueRead, Encode, Encodable, EncodeAll, Fits, ParseHead,
         Expected, Payload, KindError, HeadError, StringError, ContentError;
    ghost var c, unread := s.Cur(), s.kind == Unread;
    ghost var expected := unread && Expected(s.input, c, x);
    if expected { ExpectedHead(s.input, c, x); }
    var k, sz;
    k, sz, err := s.KindAhead();
    v := Str([]);
    if err != Ok {
      return v, err;
    }
    ghost var d, byteval := s.Cur(), s.byteval;
    if expected { HeadAgrees(s.input, c, x, k, sz as int, byteval, d); }
    if k == ListKind {
      ProperPositions(s.input, s.Cur());
      var vs;
      vs, err := DecodeListSlice(s, if x.List? then x.items else []);
      if err != Ok {
        return v, err;
      }
      v := List(vs);
      if unread { ListValue(s.input, c, sz as int, byteval, d, vs); }
    } else {
      var b;
      b, err := s.Bytes();
      if err != Ok {
        return v, err;
      }
      v := Str(b);
      if unread { LeafValue(s.input, c, k, sz as int, byteval, d, b, s.Cur()); }
    }
  }

  lemma LeafValue(input: seq<Byte>, c: Cursor, k: Kind, size: nat, byteval: Byte, d: Cursor, b: seq<Byte>, e: Cursor)
    requires HeadRead(input, c, k, size, byteval, d) && Proper(input, d) && (k == ByteKind || k == StringKind)
    requires k == ByteKind ==> b == [byteval] && e == d
    requires k == StringKind ==>
      size <= d.Left(input) && b == Available(input, d)[..size] && !(size == 1 && Available(input, d)[0] < 128) && e == d.Step(size)
    ensures Encodable(Str(b)) && ValueRead(input, c, Encode(Str(b)), e)
  {
    hide HeadRead, ValueRead, Cursor.Step, Cursor.Left, Available, Proper, Encodable, Encode, RlpFormat.EncodeString;
    if k == ByteKind {
      ByteValue(input, c, byteval, size, d);
      ShortString(b);
    } else {
      StringValue(input, c, byteval, d, size, b);
      StringLength(input, c, size, byteval, d, b);
    }
  }

  lemma ShortString(b: seq<Byte>)
    requires |b| <= 1
    ensures Encodable(Str(b)) && Encode(Str(b)) == RlpFormat.EncodeString(b)
  {
  }

  lemma StringLength(input: seq<Byte>, c: Cursor, size: nat, byteval: Byte, d: Cursor, b: seq<Byte>)
    requires HeadRead(input, c, StringKind, size, byteval, d) && |b| == size
    ensures Encodable(Str(b)) && Encode(Str(b)) == RlpFormat.EncodeString(b)
  {
    hide HeadRead, ValueRead, RlpFormat.EncodeString;
    HeadIsValue(input, c, StringKind, size, byteval, d);
  }

  lemma ListValue(input: seq<Byte>, c: Cursor, size: nat, byteval: Byte, d: Cursor, vs: seq<Item>)
    requires HeadRead(input, c, ListKind, size, byteval, d) && Proper(input, d) && size <= d.Left(input)
    requires |EncodeAll(vs)| == size && EncodeAll(vs) <= Available(input, d) && forall i :: 0 <= i < |vs| ==> Encodable(vs[i])
    ensures ValueRead(input, c, Encode(List(vs)), d.Step(size)) && Encodable(List(vs))
  {
    hide HeadRead, ValueRead, EncodeAll, Cursor.Step, Cursor.Left, Available, ListHeader;
    HeadIsValue(input, c, ListKind, size, byteval, d);
    PartsRead(input, c, ListHeader(size), d, EncodeAll(vs));
  }

  /** The header that was found is the expected one. */
  lemma HeadAgrees(input: seq<Byte>, c: Cursor, x: Item, k: Kind, size: nat, byteval: Byte, d: Cursor)
    requires Expected(input, c, x) && HeadRead(input, c, k, size, byteval, d)
    ensures k == KindOf(x) && size == SizeOf(x) && byteval == ByteOf(x)
    ensures Proper(input, d) && Payload(x) <= Available(input, d) && |Payload(x)| == size <= d.Left(input)
    ensures x.Str? && k == StringKind ==> x.bytes == Available(input, d)[..size] && !(size == 1 && Available(input, d)[0] < 128)
    ensures x.Str? && k == ByteKind ==> x.bytes == [byteval]
    ensures k == ListKind <==> x.List?
    ensures x.List? ==> size < TWO64 && ItemsExpected(input, d, size as uint64, x.items)
  {
    hide ParseHead, Encode, EncodeAll, HeadBytes, Cursor.Step, Cursor.Left, HeadFits;
    ExpectedHead(input, c, x);
    EncodeParts(x);
  }

  /** decodeListSlice, for a list whose header has been read; every element goes through decodeInterface. */
  method DecodeListSlice(s: Stream, ghost xs: seq<Item>) returns (vs: seq<Item>, err: Error)
    requires s.Valid() && s.kind == ListKind && s.kinderr == Ok
    modifies s
    ensures s.Valid() && s.rpos >= old(s.rpos) && s.end == old(s.end) && s.limited == old(s.limited)
    ensures err != EOL && err != ErrMoreThanOneValue
    ensures err == Ok ==>
      s.kind == Unread && |EncodeAll(vs)| == old(s.size) as int <= old(s.Cur()).Left(s.input)
      && EncodeAll(vs) <= Available(s.input, old(s.Cur())) && s.Cur() == old(s.Cur()).Step(old(s.size) as int)
      && forall i :: 0 <= i < |vs| ==> Encodable(vs[i])
    ensures ItemsExpected(s.input, old(s.Cur()), old(s.size), xs) ==> err == Ok && vs == xs
    decreases |s.input| - s.rpos, 1
  {
    hide Cursor.Step, Cursor.Left, Available, ValueRead, Encode, Encodable, EncodeAll, ItemsRead, Expected, Proper, AtEnd, Cursor.Close,
         ItemsExpected, KindError, ListError, HeadError;
    ghost var c := s.Cur();
    ghost var expected := ItemsExpected(s.input, c, s.size, xs);
    ProperPositions(s.input, c);
    OpenIsProper(s.input, c, s.size);
    var size;
    size, err := s.List();
    NoItemsRead(s.input, c, size);
    vs := [];
    assert xs[..0] == [];
    if size == 0 {
      EmptyListAtEnd(c.Open(size));
      ListIsComplete(s.input, c, size, vs, s.Cur());
      if expected { EmptyPayload(s.input, c, xs); }
      err := s.ListEnd();
      return vs, err;
    }
    while true
      invariant s.Valid() && s.kind == Unread && s.rpos >= old(s.rpos)
      invariant ItemsRead(s.input, c, size, vs, s.Cur())
      invariant expected ==> |vs| <= |xs| && vs == xs[..|vs|]
      invariant s.rpos <= |s.input| && s.end == old(s.end) && s.limited == old(s.limited)
      decreases |s.input| - s.rpos
    {
      ghost var d := s.Cur();
      if expected { NextExpected(s.input, c, size, xs, |vs|, d); }
      var v;
      v, err := DecodeInterface(s, if |vs| < |xs| then xs[|vs|] else Str([]));
      if err == EOL {
        break;
      } else if err != Ok {
        return vs, err;
      }
      OneMoreItem(s.input, c, size, vs, d, v, s.Cur());
      vs := vs + [v];
      ProperPositions(s.input, s.Cur());
    }
    assert xs[..|xs|] == xs;
    ListIsComplete(s.input, c, size, vs, s.Cur());
    err := s.ListEnd();
  }

  lemma EmptyListAtEnd(o: Cursor)
    requires o.stack != [] && o.Top() == ListPos(0, 0)
    ensures AtEnd(o)
  {
  }

  lemma EmptyPayload(input: seq<Byte>, c: Cursor, xs: seq<Item>)
    requires ItemsExpected(input, c, 0, xs)
    ensures xs == []
  {
  }

  /** DecodeBytes, into an interface value: exactly the encodings are accepted, and decoding inverts encoding. */
  method DecodeBytes(b: seq<Byte>, ghost x: Item) returns (v: Item, err: Error)
    requires |b| < 0x8000_0000_0000_0000
    ensures err == Ok ==> Encodable(v) && Encode(v) == b
    ensures err == ErrMoreThanOneValue ==> Encodable(v) && Encode(v) < b
    ensures Encodable(x) && Encode(x) <= b ==> v == x && err == if Encode(x) == b then Ok else ErrMoreThanOneValue
    ensures b == [] ==> err == EOF
  {
    hide Cursor.Step, Cursor.Left, ValueRead, Encode, Encodable, Expected;
    var s := new Stream(b, |b| as uint64);
    ghost var c := s.Cur();
    WholeInput(b, c, x);
    v, err := DecodeInterface(s, x);
    if err != Ok {
      return v, err;
    }
    ReadFromStart(b, c, Encode(v), s.Cur());
    if s.rpos < |b| {
      return v, ErrMoreThanOneValue;
    }
  }

  lemma WholeInput(b: seq<Byte>, c: Cursor, x: Item)
    requires |b| < TWO64 && c == Cursor(0, true, |b| as uint64, [])
    ensures Encodable(x) && Encode(x) <= b ==> Expected(b, c, x)
    ensures b == [] ==> Proper(b, c) && KindError(b, c) == EOF
  {
  }

  lemma ReadFromStart(b: seq<Byte>, c: Cursor, e: seq<Byte>, d: Cursor)
    requires ValueRead(b, c, e, d) && c.rpos == 0
    ensures d.rpos == |e| <= |b| && e == b[..|e|]
  {
  }
}
