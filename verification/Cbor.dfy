/** Where a CBOR data item ends: section 3 of RFC 8949. */
module Cbor {
  // With section 3.2 and Appendix C; indefinite-length items are refused, as
  // ingest.go refuses them.

  import opened Bytes
  import opened Record

  datatype Extent = Complete(next: nat) | Incomplete | IllFormed

  // The bytes of argument that follow an initial byte with this additional information.
  function HeadWidth(info: nat): nat
    requires info <= 27
  {
    if info < 24 then 0 else if info == 24 then 1 else if info == 25 then 2 else if info == 26 then 4 else 8
  }

  function Argument(info: nat, raw: seq<byte>): (n: nat)
    requires info <= 27 && |raw| == HeadWidth(info)
    ensures n < TWO_64
  {
    SpanOfWords();
    if info < 24 then info else FromBigEndian(raw)
  }

  function ItemEnd(b: seq<byte>, pos: nat): (e: Extent)
    requires pos <= |b|
    ensures e.Complete? ==> pos < e.next <= |b|
    decreases |b| - pos, 0
  {
    if pos == |b| then Incomplete
    else
      var major, info := b[pos] / 32, b[pos] % 32;
      if info > 27 then IllFormed
      else
        var at := pos + 1 + HeadWidth(info);
        if |b| < at then Incomplete
        else ContentEnd(b, major, info, Argument(info, b[pos + 1..at]), at)
  }

  // What follows a head: nothing, a counted string, counted items, or one tagged item.
  function ContentEnd(b: seq<byte>, major: nat, info: nat, n: nat, at: nat): (e: Extent)
    requires at <= |b|
    ensures e.Complete? ==> at <= e.next <= |b|
    decreases |b| - at, 2
  {
    if major <= 1 then Complete(at)
    else if major <= 5 && n >= TWO_63 then IllFormed
    else if major <= 3 then if |b| - at < n then Incomplete else Complete(at + n)
    else if major == 4 then ItemsEnd(b, at, n)
    else if major == 5 then ItemsEnd(b, at, 2 * n)
    else if major == 6 then ItemEnd(b, at)
    else if info == 24 && n < 32 then IllFormed
    else Complete(at)
  }

  function ItemsEnd(b: seq<byte>, pos: nat, count: nat): (e: Extent)
    requires pos <= |b|
    ensures e.Complete? ==> pos <= e.next <= |b|
    decreases |b| - pos, 1
  {
    if count == 0 then Complete(pos)
    else match ItemEnd(b, pos)
      case Complete(next) => ItemsEnd(b, next, count - 1)
      case Incomplete => Incomplete
      case IllFormed => IllFormed
  }

  // --------------------------------------------------- stability under extension

  /** A verdict on a prefix is the verdict on every extension: reading more input
      never moves where an item ends, nor rescues an ill-formed one. */
  lemma {:induction false} ItemStable(b: seq<byte>, c: seq<byte>, pos: nat)
    requires pos <= |b| && b <= c && !ItemEnd(b, pos).Incomplete?
    ensures ItemEnd(c, pos) == ItemEnd(b, pos)
    decreases |b| - pos, 0
  {
    var info := b[pos] % 32;
    if info <= 27 {
      var at := pos + 1 + HeadWidth(info);
      assert b[pos + 1..at] == c[pos + 1..at];
      ContentStable(b, c, b[pos] / 32, info, Argument(info, b[pos + 1..at]), at);
    }
  }

  lemma {:induction false} ContentStable(b: seq<byte>, c: seq<byte>, major: nat, info: nat, n: nat, at: nat)
    requires at <= |b| && b <= c && !ContentEnd(b, major, info, n, at).Incomplete?
    ensures ContentEnd(c, major, info, n, at) == ContentEnd(b, major, info, n, at)
    decreases |b| - at, 2
  {
    if major <= 5 && n >= TWO_63 {
    } else if major == 4 {
      ItemsStable(b, c, at, n);
    } else if major == 5 {
      ItemsStable(b, c, at, 2 * n);
    } else if major == 6 {
      ItemStable(b, c, at);
    }
  }

  lemma {:induction false} ItemsStable(b: seq<byte>, c: seq<byte>, pos: nat, count: nat)
    requires pos <= |b| && b <= c && !ItemsEnd(b, pos, count).Incomplete?
    ensures ItemsEnd(c, pos, count) == ItemsEnd(b, pos, count)
    decreases |b| - pos, 1
  {
    if count > 0 {
      ItemStable(b, c, pos);
      if ItemEnd(b, pos).Complete? {
        ItemsStable(b, c, ItemEnd(b, pos).next, count - 1);
      }
    }
  }

  // Nothing but the bytes up to an item's end is needed to see that it ends there.
  lemma {:induction false} ItemNeedsNoMore(b: seq<byte>, c: seq<byte>, pos: nat)
    requires pos <= |b| && b <= c && ItemEnd(c, pos).Complete? && ItemEnd(c, pos).next <= |b|
    ensures ItemEnd(b, pos) == ItemEnd(c, pos)
    decreases |c| - pos, 0
  {
    var info := c[pos] % 32;
    var at := pos + 1 + HeadWidth(info);
    assert b[pos + 1..at] == c[pos + 1..at];
    ContentNeedsNoMore(b, c, c[pos] / 32, info, Argument(info, c[pos + 1..at]), at);
  }

  lemma {:induction false} ContentNeedsNoMore(b: seq<byte>, c: seq<byte>, major: nat, info: nat, n: nat, at: nat)
    requires at <= |b| && b <= c
    requires ContentEnd(c, major, info, n, at).Complete? && ContentEnd(c, major, info, n, at).next <= |b|
    ensures ContentEnd(b, major, info, n, at) == ContentEnd(c, major, info, n, at)
    decreases |c| - at, 2
  {
    if major == 4 {
      ItemsNeedNoMore(b, c, at, n);
    } else if major == 5 {
      ItemsNeedNoMore(b, c, at, 2 * n);
    } else if major == 6 {
      ItemNeedsNoMore(b, c, at);
    }
  }

  lemma {:induction false} ItemsNeedNoMore(b: seq<byte>, c: seq<byte>, pos: nat, count: nat)
    requires pos <= |b| && b <= c && ItemsEnd(c, pos, count).Complete? && ItemsEnd(c, pos, count).next <= |b|
    ensures ItemsEnd(b, pos, count) == ItemsEnd(c, pos, count)
    decreases |c| - pos, 1
  {
    if count > 0 {
      var next := ItemEnd(c, pos).next;
      assert next <= ItemsEnd(c, next, count - 1).next;
      ItemNeedsNoMore(b, c, pos);
      ItemsNeedNoMore(b, c, next, count - 1);
    }
  }

  // ---------------------------------------------------------------- data items

  /** An item's head: any width that can hold the argument, shortest or not. */
  datatype Head = Head(info: nat, arg: nat)
  {
    predicate Valid() {
      info <= 27 && if info < 24 then arg == info else arg < Span(HeadWidth(info))
    }

    function Bytes(major: nat): (b: seq<byte>)
      requires Valid() && major < 8
      ensures |b| == 1 + HeadWidth(info)
    {
      [major * 32 + info] + (if info < 24 then [] else BigEndian(arg, HeadWidth(info)))
    }
  }

  /** The definite-length data items of RFC 8949. A map lists its keys and values
      in turn. */
  datatype Item =
    | Number(negative: bool, h: Head)
    | Chars(isText: bool, h: Head, bytes: seq<byte>)
    | Sequence(h: Head, items: seq<Item>)
    | Dictionary(h: Head, items: seq<Item>)
    | Tagged(h: Head, item: Item)
    | Simple(h: Head)

  predicate ValidItem(i: Item) {
    match i
    case Number(_, h) => h.Valid()
    case Chars(_, h, bytes) => h.Valid() && |bytes| == h.arg < TWO_63
    case Sequence(h, items) => h.Valid() && |items| == h.arg < TWO_63 && forall x | x in items :: ValidItem(x)
    case Dictionary(h, items) => h.Valid() && h.arg < TWO_63 && |items| == 2 * h.arg
        && forall x | x in items :: ValidItem(x)
    case Tagged(h, item) => h.Valid() && ValidItem(item)
    case Simple(h) => h.Valid() && !(h.info == 24 && h.arg < 32)
  }

  type MapItem = m: Item | m.Dictionary? && ValidItem(m) witness Dictionary(Head(0, 0), [])

  function Spelled(i: Item): (b: seq<byte>)
    requires ValidItem(i)
    ensures |b| >= 1
    decreases i, 0
  {
    match i
    case Number(negative, h) => h.Bytes(if negative then 1 else 0)
    case Chars(isText, h, bytes) => h.Bytes(if isText then 3 else 2) + bytes
    case Sequence(h, items) => h.Bytes(4) + SpelledAll(items)
    case Dictionary(h, items) => h.Bytes(5) + SpelledAll(items)
    case Tagged(h, item) => h.Bytes(6) + Spelled(item)
    case Simple(h) => h.Bytes(7)
  }

  function SpelledAll(items: seq<Item>): seq<byte>
    requires forall x | x in items :: ValidItem(x)
    decreases items, 1
  {
    if items == [] then [] else Spelled(items[0]) + SpelledAll(items[1..])
  }

  // The major type and the content that go with an item's head.
  function Major(i: Item): nat {
    match i
    case Number(negative, _) => if negative then 1 else 0
    case Chars(isText, _, _) => if isText then 3 else 2
    case Sequence(_, _) => 4
    case Dictionary(_, _) => 5
    case Tagged(_, _) => 6
    case Simple(_) => 7
  }

  lemma HeadIsRead(h: Head, major: nat, b: seq<byte>, pos: nat)
    requires h.Valid() && major < 8 && At(b, pos, h.Bytes(major))
    ensures ItemEnd(b, pos) == ContentEnd(b, major, h.info, h.arg, pos + |h.Bytes(major)|)
  {
    var raw := if h.info < 24 then [] else BigEndian(h.arg, HeadWidth(h.info));
    AtParts(b, pos, [major * 32 + h.info], raw);
    assert b[pos..pos + 1][0] == b[pos];
    if h.info >= 24 {
      ReadsBack(h.arg, HeadWidth(h.info));
    }
    assert b[pos] / 32 == major && b[pos] % 32 == h.info;
    assert Argument(h.info, b[pos + 1..pos + 1 + HeadWidth(h.info)]) == h.arg;
  }

  /** Wherever an item's spelling stands, the item is seen to end at its last byte. */
  lemma {:induction false} SpelledItemEnds(i: Item, b: seq<byte>, pos: nat)
    requires ValidItem(i) && At(b, pos, Spelled(i))
    ensures ItemEnd(b, pos) == Complete(pos + |Spelled(i)|)
    decreases i, 0
  {
    hide ItemEnd, Head.Bytes;
    var head := i.h.Bytes(Major(i));
    match i
    case Chars(_, h, bytes) =>
      AtParts(b, pos, head, bytes);
      HeadIsRead(h, Major(i), b, pos);
    case Sequence(h, items) =>
      AtParts(b, pos, head, SpelledAll(items));
      HeadIsRead(h, 4, b, pos);
      SpelledItemsEnd(items, b, pos + |head|);
    case Dictionary(h, items) =>
      AtParts(b, pos, head, SpelledAll(items));
      HeadIsRead(h, 5, b, pos);
      SpelledItemsEnd(items, b, pos + |head|);
    case Tagged(h, item) =>
      AtParts(b, pos, head, Spelled(item));
      HeadIsRead(h, 6, b, pos);
      SpelledItemEnds(item, b, pos + |head|);
    case _ =>
      HeadIsRead(i.h, Major(i), b, pos);
  }

  lemma {:induction false} SpelledItemsEnd(items: seq<Item>, b: seq<byte>, pos: nat)
    requires (forall x | x in items :: ValidItem(x)) && At(b, pos, SpelledAll(items))
    ensures ItemsEnd(b, pos, |items|) == Complete(pos + |SpelledAll(items)|)
    decreases items, 1
  {
    hide ItemEnd, Spelled;
    if items != [] {
      AtParts(b, pos, Spelled(items[0]), SpelledAll(items[1..]));
      SpelledItemEnds(items[0], b, pos);
      SpelledItemsEnd(items[1..], b, pos + |Spelled(items[0])|);
    }
  }

  // ------------------------------------------------------------ and nothing else

  lemma HeadTaken(b: seq<byte>, pos: nat) returns (h: Head)
    requires pos < |b| && b[pos] % 32 <= 27 && pos + 1 + HeadWidth(b[pos] % 32) <= |b|
    ensures h.Valid() && h.info == b[pos] % 32 && |h.Bytes(b[pos] / 32)| == 1 + HeadWidth(h.info)
    ensures b[pos..pos + 1 + HeadWidth(h.info)] == h.Bytes(b[pos] / 32)
    ensures h.arg == Argument(h.info, b[pos + 1..pos + 1 + HeadWidth(h.info)])
  {
    var info := b[pos] % 32;
    var raw := b[pos + 1..pos + 1 + HeadWidth(info)];
    h := Head(info, Argument(info, raw));
    WritesBack(raw);
    assert b[pos..pos + 1 + |raw|] == [b[pos]] + raw;
  }

  /** Every item that is seen to end is the spelling of some data item: with
      SpelledItemEnds, what the scanner takes for an item is what the standard does. */
  lemma {:induction false} TakenIsSpelled(b: seq<byte>, pos: nat) returns (i: Item)
    requires pos <= |b| && ItemEnd(b, pos).Complete?
    ensures ValidItem(i) && Spelled(i) == b[pos..ItemEnd(b, pos).next] && Major(i) == b[pos] / 32
    decreases |b| - pos, 0
  {
    hide Head.Valid, Head.Bytes, Argument;
    var major, next := b[pos] / 32, ItemEnd(b, pos).next;
    var h := HeadTaken(b, pos);
    var at := pos + 1 + HeadWidth(h.info);
    assert b[pos..at] + b[at..next] == b[pos..next];
    if major <= 1 {
      i := Number(major == 1, h);
    } else if major <= 3 {
      i := Chars(major == 3, h, b[at..next]);
    } else if major == 4 {
      var items := ItemsTaken(b, at, h.arg);
      i := Sequence(h, items);
    } else if major == 5 {
      var items := ItemsTaken(b, at, 2 * h.arg);
      i := Dictionary(h, items);
    } else if major == 6 {
      var item := TakenIsSpelled(b, at);
      i := Tagged(h, item);
    } else {
      i := Simple(h);
    }
  }

  lemma {:induction false} ItemsTaken(b: seq<byte>, pos: nat, count: nat) returns (items: seq<Item>)
    requires pos <= |b| && ItemsEnd(b, pos, count).Complete?
    ensures |items| == count && forall x | x in items :: ValidItem(x)
    ensures SpelledAll(items) == b[pos..ItemsEnd(b, pos, count).next]
    decreases |b| - pos, 1, count
  {
    hide ItemEnd, Spelled, ValidItem;
    if count == 0 {
      items := [];
    } else {
      var first := TakenIsSpelled(b, pos);
      var next := ItemEnd(b, pos).next;
      var rest := ItemsTaken(b, next, count - 1);
      items := [first] + rest;
      assert items[1..] == rest;
      assert b[pos..next] + b[next..ItemsEnd(b, pos, count).next] == b[pos..ItemsEnd(b, pos, count).next];
    }
  }

  /** The five widths of a head, byte by byte. */
  lemma HeadsInBytes(major: nat, n: nat)
    requires major < 8
    ensures n < 24 ==> Head(n, n).Valid() && Head(n, n).Bytes(major) == [major * 32 + n]
    ensures n < 0x100 ==> Head(24, n).Valid() && Head(24, n).Bytes(major) == [major * 32 + 24, n]
    ensures n < 0x10000 ==>
              Head(25, n).Valid() && Head(25, n).Bytes(major) == [major * 32 + 25, n / 0x100, n % 0x100]
    ensures n < TWO_32 ==> Head(26, n).Valid() && Head(26, n).Bytes(major) == [major * 32 + 26] + FourBytes(n)
    ensures n < TWO_64 ==>
              Head(27, n).Valid()
              && Head(27, n).Bytes(major) == [major * 32 + 27] + FourBytes(n / TWO_32) + FourBytes(n % TWO_32)
  {
    hide BigEndian, Span, FourBytes;
    SpanOfWords();
    if n < 0x100 {
      OneByte(n);
    }
    if n < 0x10000 {
      TwoBytes(n);
    }
    if n < TWO_32 {
      InFourBytes(n);
    }
    if n < TWO_64 {
      InEightBytes(n);
    }
  }
}
