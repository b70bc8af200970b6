/** Bytes, machine integers and big-endian text of integers. */
module Bytes {
  // Go's fixed-width integers are written out as subset types: nothing in this
  // project relies on unbounded arithmetic where the program has a width.

  type byte = b: int | 0 <= b < 256

  const TWO_31 := 0x8000_0000
  const TWO_32 := 0x1_0000_0000
  const TWO_63 := 0x8000_0000_0000_0000
  const TWO_64 := 0x1_0000_0000_0000_0000

  type int32 = x: int | -TWO_31 <= x < TWO_31
  type int64 = x: int | -TWO_63 <= x < TWO_63
  type uint32 = x: int | 0 <= x < TWO_32
  type uint64 = x: int | 0 <= x < TWO_64

  // The number of values a big-endian field of this many bytes can hold.
  function Span(width: nat): (n: nat)
    ensures n >= 1
  {
    if width == 0 then 1 else 256 * Span(width - 1)
  }

  lemma SpanOfWords()
    ensures Span(1) == 256 && Span(2) == 65536 && Span(4) == TWO_32 && Span(8) == TWO_64
  {
    assert Span(4) == 256 * Span(3) && Span(3) == 256 * Span(2) && Span(2) == 256 * Span(1) && Span(1) == 256 * Span(0);
    assert Span(8) == 256 * Span(7) && Span(7) == 256 * Span(6) && Span(6) == 256 * Span(5) && Span(5) == 256 * Span(4);
  }

  function BigEndian(n: nat, width: nat): (b: seq<byte>)
    requires n < Span(width)
    ensures |b| == width
  {
    if width == 0 then [] else BigEndian(n / 256, width - 1) + [n % 256]
  }

  function FromBigEndian(b: seq<byte>): (n: nat)
    ensures n < Span(|b|)
  {
    if b == [] then 0 else FromBigEndian(b[..|b| - 1]) * 256 + b[|b| - 1]
  }

  lemma {:induction false} ReadsBack(n: nat, width: nat)
    requires n < Span(width)
    ensures FromBigEndian(BigEndian(n, width)) == n
  {
    if width > 0 {
      ReadsBack(n / 256, width - 1);
      var b := BigEndian(n, width);
      assert b[..|b| - 1] == BigEndian(n / 256, width - 1);
    }
  }

  lemma {:induction false} WritesBack(b: seq<byte>)
    ensures BigEndian(FromBigEndian(b), |b|) == b
  {
    if b != [] {
      var front := b[..|b| - 1];
      WritesBack(front);
      var n := FromBigEndian(b);
      assert n / 256 == FromBigEndian(front) && n % 256 == b[|b| - 1];
      assert b == front + [b[|b| - 1]];
    }
  }

  // ---------------------------------------------------------------- digit by digit

  // Four bytes, the most significant first.
  function FourBytes(n: nat): seq<byte>
    requires n < TWO_32
  {
    [n / 0x1_00_00_00, n / 0x1_00_00 % 0x100, n / 0x1_00 % 0x100, n % 0x100]
  }

  lemma OneByte(n: nat)
    requires n < 0x100
    ensures Span(1) == 0x100 && BigEndian(n, 1) == [n]
  {
    assert BigEndian(n / 256, 0) == [];
  }

  lemma TwoBytes(n: nat)
    requires n < 0x1_00_00
    ensures Span(2) == 0x1_00_00 && BigEndian(n, 2) == [n / 0x100, n % 0x100]
  {
    SpanOfWords();
    OneByte(n / 0x100);
  }

  lemma InFourBytes(n: nat)
    requires n < TWO_32
    ensures Span(4) == TWO_32 && BigEndian(n, 4) == FourBytes(n)
  {
    SpanOfWords();
    TwoBytes(n / 0x1_00_00);
    assert n / 0x1_00 / 0x1_00 == n / 0x1_00_00;
    assert Span(3) == 256 * Span(2);
    assert BigEndian(n / 0x1_00, 3) == BigEndian(n / 0x1_00_00, 2) + [n / 0x1_00 % 0x100];
  }

  // The last byte aside.
  lemma LastByte(n: nat, width: nat)
    requires n < Span(width + 1)
    ensures Span(width + 1) == 0x100 * Span(width) && n / 0x100 < Span(width)
    ensures BigEndian(n, width + 1) == BigEndian(n / 0x100, width) + [n % 0x100]
  {
  }

  lemma InEightBytes(n: nat)
    requires n < TWO_64
    ensures Span(8) == TWO_64 && BigEndian(n, 8) == FourBytes(n / TWO_32) + FourBytes(n % TWO_32)
  {
    SpanOfWords();
    var low := n % TWO_32;
    LastByte(n, 7);
    LastByte(n / 0x1_00, 6);
    LastByte(n / 0x1_00_00, 5);
    LastByte(n / 0x1_00_00_00, 4);
    assert n / 0x1_00 / 0x1_00 == n / 0x1_00_00 && n / 0x1_00_00 / 0x1_00 == n / 0x1_00_00_00;
    assert n / 0x1_00_00_00 / 0x1_00 == n / TWO_32;
    InFourBytes(n / TWO_32);
    LowDigits(n);
    assert BigEndian(n, 8) == FourBytes(n / TWO_32)
        + [n / 0x1_00_00_00 % 0x100] + [n / 0x1_00_00 % 0x100] + [n / 0x1_00 % 0x100] + [n % 0x100];
  }

  lemma DivideOut(m: nat, x: nat)
    ensures (0x100 * m + x) / 0x100 == m + x / 0x100 && (0x100 * m + x) % 0x100 == x % 0x100
  {
  }

  lemma LowDigits(n: nat)
    ensures FourBytes(n % TWO_32) ==
            [n / 0x1_00_00_00 % 0x100, n / 0x1_00_00 % 0x100, n / 0x1_00 % 0x100, n % 0x100]
  {
    var q, low := n / TWO_32, n % TWO_32;
    DivideOut(0x1_00_00_00 * q, low);
    DivideOut(0x1_00_00 * q, low / 0x1_00);
    DivideOut(0x1_00 * q, low / 0x1_00 / 0x1_00);
    DivideOut(q, low / 0x1_00 / 0x1_00 / 0x1_00);
    Thirds(n);
    Thirds(low);
  }

  lemma Thirds(n: nat)
    ensures n / 0x1_00 / 0x1_00 == n / 0x1_00_00 && n / 0x1_00_00 / 0x1_00 == n / 0x1_00_00_00
  {
  }

  function PutUint32(n: uint32): (b: seq<byte>)
    ensures |b| == 4
  {
    SpanOfWords();
    BigEndian(n, 4)
  }

  function GetUint32(b: seq<byte>): (n: uint32)
    requires |b| == 4
    ensures PutUint32(n) == b
  {
    SpanOfWords();
    WritesBack(b);
    FromBigEndian(b)
  }

  function PutUint64(n: uint64): (b: seq<byte>)
    ensures |b| == 8
  {
    SpanOfWords();
    BigEndian(n, 8)
  }

  function GetUint64(b: seq<byte>): (n: uint64)
    requires |b| == 8
    ensures PutUint64(n) == b
  {
    SpanOfWords();
    WritesBack(b);
    FromBigEndian(b)
  }

  lemma Uint32ReadsBack(n: uint32)
    ensures GetUint32(PutUint32(n)) == n
  {
    SpanOfWords();
    ReadsBack(n, 4);
  }

  lemma Uint64ReadsBack(n: uint64)
    ensures GetUint64(PutUint64(n)) == n
  {
    SpanOfWords();
    ReadsBack(n, 8);
  }

  lemma Join<T>(s: seq<T>, a: nat, b: nat, c: nat)
    requires a <= b <= c <= |s|
    ensures s[a..b] + s[b..c] == s[a..c]
  {
  }

  function Without<T>(s: seq<T>, i: nat): (r: seq<T>)
    requires i < |s|
    ensures |r| == |s| - 1
  {
    s[..i] + s[i + 1..]
  }

  lemma Cancel<T>(a: multiset<T>, b: multiset<T>, x: T)
    requires a + multiset{x} == b + multiset{x}
    ensures a == b
  {
    assert forall y :: a[y] == (a + multiset{x})[y] - multiset{x}[y] && b[y] == (b + multiset{x})[y] - multiset{x}[y];
  }

  lemma TakingOut<T>(s: seq<T>, i: nat)
    requires i < |s|
    ensures multiset(s) == multiset(Without(s, i)) + multiset{s[i]}
  {
    assert s == s[..i] + ([s[i]] + s[i + 1..]);
  }

  lemma SameRest<T>(a: seq<T>, i: nat, b: seq<T>, j: nat)
    requires i < |a| && j < |b| && a[i] == b[j]
    ensures multiset(a) == multiset(b) <==> multiset(Without(a, i)) == multiset(Without(b, j))
  {
    TakingOut(a, i);
    TakingOut(b, j);
    if multiset(a) == multiset(b) {
      Cancel(multiset(Without(a, i)), multiset(Without(b, j)), a[i]);
    }
  }

  // Two's complement: the conversions between a signed word and its bits.
  function Bits32(v: int32): (u: uint32) { if v < 0 then v + TWO_32 else v }

  function Signed32(u: uint32): (v: int32)
    ensures Bits32(v) == u
  {
    if u >= TWO_31 then u - TWO_32 else u
  }

  function Bits64(v: int64): (u: uint64) { if v < 0 then v + TWO_64 else v }

  function Signed64(u: uint64): (v: int64)
    ensures Bits64(v) == u
  {
    if u >= TWO_63 then u - TWO_64 else u
  }
}
