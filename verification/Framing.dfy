/** The input grammar of an ingest stream. */
module Framing {
  // ingest.go's framing as a function of the whole input: no buffer, no reads.
  // Scanner.dfy proves that the program's buffered scanner computes it for every
  // way the input can arrive.

  import opened Bytes
  import opened Record
  import opened Cbor

  const SLACK := 65536

  const NEWLINE: byte := 10
  const RETURN: byte := 13
  const BRACE: byte := 123

  predicate IsSpace(b: byte) { b == 32 || b == 9 || b == RETURN || b == NEWLINE }

  // A definite-length CBOR map: major type 5 with additional information 0 to 27.
  predicate IsMapHead(b: byte) { b / 32 == 5 && b % 32 <= 27 }

  datatype Numbered = Numbered(number: nat, line: nat, json: bool, item: seq<byte>)

  datatype Fault = Grammar | TooLarge

  datatype Ending = EndOfInput | Refused(fault: Fault, record: nat, line: nat)

  /** A place between records: where it is, the newlines passed, the records read. */
  datatype Spot = Spot(pos: nat, lines: nat, records: nat)

  datatype Next = Taken(rec: Numbered, after: Spot) | Stop(ending: Ending)

  function SkipSpace(input: seq<byte>, pos: nat, lines: nat): (r: (nat, nat))
    requires pos <= |input|
    ensures pos <= r.0 <= |input|
    ensures r.0 < |input| ==> !IsSpace(input[r.0])
    decreases |input| - pos
  {
    if pos < |input| && IsSpace(input[pos]) then
      SkipSpace(input, pos + 1, if input[pos] == NEWLINE then lines + 1 else lines)
    else (pos, lines)
  }

  // The position of the first newline at or after pos, or the end of the bytes.
  function LineEnd(b: seq<byte>, pos: nat): (e: nat)
    requires pos <= |b|
    ensures pos <= e <= |b|
    ensures forall k | pos <= k < e :: b[k] != NEWLINE
    ensures e < |b| ==> b[e] == NEWLINE
    decreases |b| - pos
  {
    if pos == |b| || b[pos] == NEWLINE then pos else LineEnd(b, pos + 1)
  }

  function DropReturn(line: seq<byte>): seq<byte> {
    if line != [] && line[|line| - 1] == RETURN then line[..|line| - 1] else line
  }

  // A line, not counting its terminator; the last one may have none.
  function JsonRecord(input: seq<byte>, at: Spot, limit: nat): Next
    requires at.pos <= |input|
  {
    var e := LineEnd(input, at.pos);
    var ended := e < |input|;
    var item := if ended then DropReturn(input[at.pos..e]) else input[at.pos..e];
    if |item| > limit then Stop(Refused(TooLarge, at.records, at.lines + 1))
    else Taken(Numbered(at.records, at.lines + 1, true, item),
               if ended then Spot(e + 1, at.lines + 1, at.records) else Spot(e, at.lines, at.records))
  }

  function Smaller(a: nat, b: nat): nat { if a < b then a else b }

  // One CBOR item, which says its own length. An item that the largest buffer
  // cannot hold is refused there: before its end is seen, and on a line.
  function CborRecord(input: seq<byte>, at: Spot, limit: nat): Next
    requires at.pos <= |input|
  {
    var window := input[at.pos..at.pos + Smaller(|input| - at.pos, limit + SLACK)];
    match ItemEnd(window, 0)
    case Complete(size) =>
      if size > limit then Stop(Refused(TooLarge, at.records, 0))
      else Taken(Numbered(at.records, 0, false, window[..size]), at.(pos := at.pos + size))
    case IllFormed => Stop(Refused(Grammar, at.records, 0))
    case Incomplete =>
      if |window| == limit + SLACK then Stop(Refused(TooLarge, at.records, at.lines + 1))
      else Stop(Refused(Grammar, at.records, 0))
  }

  // The record starting here, its encoding decided by its own first byte.
  function RecordAt(input: seq<byte>, at: Spot, limit: nat): (r: Next)
    requires at.pos < |input|
    ensures r.Taken? ==> at.pos < r.after.pos <= |input| && r.after.records == at.records
  {
    if input[at.pos] == BRACE then JsonRecord(input, at, limit)
    else if IsMapHead(input[at.pos]) then CborRecord(input, at, limit)
    else Stop(Refused(Grammar, at.records, if input[at.pos] == 0xbf then 0 else at.lines + 1))
  }

  function NextRecord(input: seq<byte>, from: Spot, limit: nat): (r: Next)
    requires from.pos <= |input|
    ensures r.Taken? ==> from.pos < r.after.pos <= |input| && r.after.records == from.records + 1
  {
    var (p, lines) := SkipSpace(input, from.pos, from.lines);
    if p == |input| then Stop(EndOfInput)
    else RecordAt(input, Spot(p, lines, from.records + 1), limit)
  }

  // Every record from a place on, and how the stream ends.
  function Frames(input: seq<byte>, from: Spot, limit: nat): (r: (seq<Numbered>, Ending))
    requires from.pos <= |input|
    decreases |input| - from.pos
  {
    match NextRecord(input, from, limit)
    case Stop(ending) => ([], ending)
    case Taken(rec, after) =>
      var (recs, ending) := Frames(input, after, limit);
      ([rec] + recs, ending)
  }

  const START := Spot(0, 0, 0)

  // Where the first record not taken begins.
  function StopsAt(input: seq<byte>, from: Spot, limit: nat): (p: nat)
    requires from.pos <= |input|
    ensures p <= |input|
    decreases |input| - from.pos
  {
    match NextRecord(input, from, limit)
    case Stop(_) => SkipSpace(input, from.pos, from.lines).0
    case Taken(_, after) => StopsAt(input, after, limit)
  }

  // An unfinished CBOR record that fills the largest buffer with the very last
  // byte of the input.
  predicate Tied(input: seq<byte>, p: nat, limit: nat) {
    p < |input| && |input| - p == limit + SLACK && IsMapHead(input[p]) && ItemEnd(input[p..], 0).Incomplete?
  }

  /** At a tie the grammar's answer is that the record is too large. */
  lemma {:induction false} TieIsTooLarge(input: seq<byte>, from: Spot, limit: nat)
    requires from.pos <= |input| && Tied(input, StopsAt(input, from, limit), limit)
    ensures var (recs, ending) := Frames(input, from, limit);
            ending.Refused? && ending.fault == TooLarge && ending.record == from.records + |recs| + 1
    decreases |input| - from.pos
  {
    hide ItemEnd;
    if NextRecord(input, from, limit).Taken? {
      TieIsTooLarge(input, NextRecord(input, from, limit).after, limit);
    } else {
      var p := StopsAt(input, from, limit);
      assert input[p..p + Smaller(|input| - p, limit + SLACK)] == input[p..];
    }
  }

  // A map of one pair whose first key is announced far longer than the input goes on.
  function Cut(limit: nat): seq<byte> {
    [0xa1, 0x5b, 0x7f, 0xff, 0xff, 0xff, 0xff, 0xff, 0xff, 0xff] + seq(limit + SLACK - 10, _ => 0)
  }

  lemma CutIsLong(b: seq<byte>)
    requires 10 <= |b| < TWO_63 - 1
    requires b[..10] == [0xa1, 0x5b, 0x7f, 0xff, 0xff, 0xff, 0xff, 0xff, 0xff, 0xff]
    ensures ItemEnd(b, 0).Incomplete?
  {
    var raw := b[2..10];
    assert forall k | 0 <= k < 10 :: b[k] == b[..10][k];
    assert raw == [0x7f, 0xff, 0xff, 0xff, 0xff, 0xff, 0xff, 0xff];
    assert FromBigEndian(raw) == TWO_63 - 1 by { LongWord(); }
    assert ItemEnd(b, 1).Incomplete?;
    assert ItemsEnd(b, 1, 2).Incomplete?;
    assert b[1..1] == [];
  }

  lemma ByteAppended(b: seq<byte>, x: byte)
    ensures FromBigEndian(b + [x]) == FromBigEndian(b) * 256 + x
  {
    assert (b + [x])[..|b|] == b;
  }

  lemma LongWord()
    ensures FromBigEndian([0x7f, 0xff, 0xff, 0xff, 0xff, 0xff, 0xff, 0xff]) == TWO_63 - 1
  {
    hide FromBigEndian;
    var word: seq<byte> := [0x7f];
    assert [] + [0x7f] == word && FromBigEndian([]) == 0 by { NoBytes(); }
    ByteAppended([], 0x7f);
    for i := 0 to 7
      invariant |word| == i + 1 && word[0] == 0x7f && forall k | 1 <= k <= i :: word[k] == 0xff
      invariant FromBigEndian(word) + 1 == 128 * Span(i)
    {
      ByteAppended(word, 0xff);
      word := word + [0xff];
    }
    assert word == [0x7f, 0xff, 0xff, 0xff, 0xff, 0xff, 0xff, 0xff];
    SpanOfWords();
    assert Span(8) == 256 * Span(7);
  }

  lemma NoBytes()
    ensures FromBigEndian([]) == 0
  {
  }

  /** Ties happen: under every limit an int can hold, some input stops the stream at one. */
  lemma TiesHappen(limit: nat)
    requires limit + SLACK < TWO_63 - 1
    ensures Tied(Cut(limit), StopsAt(Cut(limit), START, limit), limit)
  {
    hide ItemEnd;
    var input := Cut(limit);
    assert input[0] == 0xa1 && input[..10] == [0xa1, 0x5b, 0x7f, 0xff, 0xff, 0xff, 0xff, 0xff, 0xff, 0xff]
           && input[0..] == input;
    CutIsLong(input);
    assert input[0..0 + Smaller(|input|, limit + SLACK)] == input;
    assert NextRecord(input, START, limit).Stop?;
  }

  /** Records are numbered from one, none is longer than the limit, and a refusal
      names the record after the last one taken. */
  lemma {:induction false} FramesAreNumbered(input: seq<byte>, from: Spot, limit: nat)
    requires from.pos <= |input|
    ensures var (recs, ending) := Frames(input, from, limit);
            && (forall i | 0 <= i < |recs| :: recs[i].number == from.records + 1 + i && |recs[i].item| <= limit)
            && (ending.Refused? ==> ending.record == from.records + |recs| + 1)
    decreases |input| - from.pos
  {
    if NextRecord(input, from, limit).Taken? {
      FramesAreNumbered(input, NextRecord(input, from, limit).after, limit);
    }
  }

  /** The buffer's ceiling never decides about a record within the limit: a CBOR
      item is taken exactly when it is whole and its length is at most the limit. */
  lemma CborTakenIffWithinLimit(input: seq<byte>, at: Spot, limit: nat)
    requires at.pos <= |input|
    ensures CborRecord(input, at, limit).Taken? <==>
            ItemEnd(input[at.pos..], 0).Complete? && ItemEnd(input[at.pos..], 0).next <= limit
    ensures CborRecord(input, at, limit).Taken? ==>
              CborRecord(input, at, limit).rec.item == input[at.pos..][..ItemEnd(input[at.pos..], 0).next]
  {
    hide ItemEnd;
    var rest := input[at.pos..];
    var n := Smaller(|rest|, limit + SLACK);
    var window := input[at.pos..at.pos + n];
    assert window == rest[..n] && window <= rest;
    if ItemEnd(rest, 0).Complete? && ItemEnd(rest, 0).next <= limit {
      ItemNeedsNoMore(window, rest, 0);
    }
    if !ItemEnd(window, 0).Incomplete? {
      ItemStable(window, rest, 0);
    }
  }

  // ------------------------------------------------------------------- printing

  /** A record as a producer writes it, after any whitespace. */
  datatype Printed =
    | Line(space: seq<byte>, text: seq<byte>, crlf: bool)
    | Map(space: seq<byte>, item: MapItem)

  predicate AllSpace(s: seq<byte>) { forall b | b in s :: IsSpace(b) }

  predicate Printable(p: Printed, limit: nat) {
    && AllSpace(p.space)
    && match p
       case Line(_, text, _) =>
         && 1 <= |text| <= limit && text[0] == BRACE && text[|text| - 1] != RETURN
         && forall b | b in text :: b != NEWLINE
       case Map(_, m) => |Spelled(m)| <= limit
  }

  function Content(p: Printed): seq<byte>
  {
    if p.Line? then p.text else Spelled(p.item)
  }

  function Terminator(p: Printed): seq<byte> {
    if p.Map? then [] else if p.crlf then [RETURN, NEWLINE] else [NEWLINE]
  }

  function Print(p: Printed): seq<byte>
  {
    p.space + (Content(p) + Terminator(p))
  }

  predicate AllPrintable(ps: seq<Printed>, limit: nat) {
    forall p | p in ps :: Printable(p, limit)
  }

  function PrintAll(ps: seq<Printed>, limit: nat, trail: seq<byte>): seq<byte>
    requires AllPrintable(ps, limit)
  {
    if ps == [] then trail
    else
      assert Printable(ps[0], limit);
      Print(ps[0]) + PrintAll(ps[1..], limit, trail)
  }

  function Newlines(s: seq<byte>): nat {
    if s == [] then 0 else (if s[0] == NEWLINE then 1 else 0) + Newlines(s[1..])
  }

  // The records printed, numbered in order and carrying the lines they stand on.
  function Expected(ps: seq<Printed>, limit: nat, lines: nat, records: nat): seq<Numbered>
    requires AllPrintable(ps, limit)
  {
    if ps == [] then []
    else
      var p := ps[0];
      assert Printable(p, limit);
      var before := lines + Newlines(p.space);
      [Numbered(records + 1, if p.Line? then before + 1 else 0, p.Line?, Content(p))]
      + Expected(ps[1..], limit, if p.Line? then before + 1 else before, records + 1)
  }

  lemma {:induction false} SpaceIsSkipped(input: seq<byte>, pos: nat, lines: nat, space: seq<byte>)
    requires AllSpace(space) && At(input, pos, space)
    requires pos + |space| < |input| ==> !IsSpace(input[pos + |space|])
    ensures SkipSpace(input, pos, lines) == (pos + |space|, lines + Newlines(space))
    decreases |space|
  {
    if space != [] {
      assert input[pos] == input[pos..pos + |space|][0] == space[0];
      assert input[pos + 1..pos + |space|] == space[1..];
      SpaceIsSkipped(input, pos + 1, if input[pos] == NEWLINE then lines + 1 else lines, space[1..]);
    }
  }

  lemma LineEndAt(input: seq<byte>, pos: nat, text: seq<byte>)
    requires At(input, pos, text) && pos + |text| < |input| && input[pos + |text|] == NEWLINE
    requires forall b | b in text :: b != NEWLINE
    ensures LineEnd(input, pos) == pos + |text|
  {
    forall k | pos <= k < pos + |text|
      ensures input[k] != NEWLINE
    {
      assert input[k] == text[k - pos] && text[k - pos] in text;
    }
  }

  lemma FirstByte(b: seq<byte>, pos: nat, item: seq<byte>)
    requires At(b, pos, item) && item != []
    ensures b[pos] == item[0]
  {
    assert b[pos..pos + |item|][0] == b[pos];
  }

  // What follows the whitespace before a printed record is that record.
  lemma LineIsTaken(p: Printed, input: seq<byte>, at: Spot, limit: nat)
    requires Printable(p, limit) && p.Line? && At(input, at.pos, p.text + Terminator(p))
    ensures at.pos < |input| && input[at.pos] == BRACE
    ensures JsonRecord(input, at, limit) ==
            Taken(Numbered(at.records, at.lines + 1, true, p.text),
                  Spot(at.pos + |p.text| + |Terminator(p)|, at.lines + 1, at.records))
  {
    hide LineEnd, At, DropReturn, JsonRecord;
    var line := if p.crlf then p.text + [RETURN] else p.text;
    assert p.text + Terminator(p) == line + [NEWLINE];
    FirstByte(input, at.pos, p.text + Terminator(p));
    AtParts(input, at.pos, line, [NEWLINE]);
    FirstByte(input, at.pos + |line|, [NEWLINE]);
    assert DropReturn(line) == p.text by { ReturnDropped(p.text, p.crlf); }
    LineRead(input, at, line, limit);
  }

  lemma ReturnDropped(text: seq<byte>, crlf: bool)
    requires text != [] && text[|text| - 1] != RETURN
    ensures DropReturn(if crlf then text + [RETURN] else text) == text
  {
    assert (text + [RETURN])[..|text|] == text;
  }

  // A line that is there, with its newline, is read.
  lemma LineRead(input: seq<byte>, at: Spot, line: seq<byte>, limit: nat)
    requires At(input, at.pos, line) && at.pos + |line| < |input| && input[at.pos + |line|] == NEWLINE
    requires (forall b | b in line :: b != NEWLINE) && |DropReturn(line)| <= limit
    ensures JsonRecord(input, at, limit) ==
            Taken(Numbered(at.records, at.lines + 1, true, DropReturn(line)),
                  Spot(at.pos + |line| + 1, at.lines + 1, at.records))
  {
    hide LineEnd, DropReturn;
    LineEndAt(input, at.pos, line);
    assert input[at.pos..at.pos + |line|] == line;
  }

  // What is said of a line, whichever way it ends.
  predicate ReadsAs(next: Next, text: seq<byte>, at: Spot, limit: nat) {
    if |text| <= limit then next.Taken? && next.rec == Numbered(at.records, at.lines + 1, true, text)
    else next == Stop(Refused(TooLarge, at.records, at.lines + 1))
  }

  lemma EndedLine(front: seq<byte>, line: seq<byte>, rest: seq<byte>, at: Spot, limit: nat)
    requires at.pos == |front| && forall b | b in line :: b != NEWLINE
    ensures ReadsAs(JsonRecord(front + line + [NEWLINE] + rest, at, limit), DropReturn(line), at, limit)
  {
    var input := front + line + [NEWLINE] + rest;
    assert input[at.pos..at.pos + |line|] == line && input[at.pos + |line|] == NEWLINE;
    LineEndAt(input, at.pos, line);
  }

  /** The limit counts a line's text alone: ended by a newline, by a return and a
      newline, or by the end of the input, it is one record, taken exactly when the
      text is within the limit. */
  lemma TerminatorIsFree(front: seq<byte>, text: seq<byte>, rest: seq<byte>, at: Spot, limit: nat)
    requires at.pos == |front| && (forall b | b in text :: b != NEWLINE) && (text != [] ==> text[|text| - 1] != RETURN)
    ensures ReadsAs(JsonRecord(front + text + [NEWLINE] + rest, at, limit), text, at, limit)
    ensures ReadsAs(JsonRecord(front + (text + [RETURN]) + [NEWLINE] + rest, at, limit), text, at, limit)
    ensures ReadsAs(JsonRecord(front + text, at, limit), text, at, limit)
  {
    EndedLine(front, text, rest, at, limit);
    EndedLine(front, text + [RETURN], rest, at, limit);
    assert DropReturn(text + [RETURN]) == text;
    var last := front + text;
    assert last[at.pos..] == text && last[at.pos..|last|] == text;
    forall k | at.pos <= k < |last|
      ensures last[k] != NEWLINE
    {
      assert last[k] == text[k - at.pos] && text[k - at.pos] in text;
    }
    assert LineEnd(last, at.pos) == |last|;
  }

  lemma MapIsTaken(m: MapItem, input: seq<byte>, at: Spot, limit: nat)
    requires |Spelled(m)| <= limit && At(input, at.pos, Spelled(m))
    ensures at.pos < |input| && IsMapHead(input[at.pos])
    ensures CborRecord(input, at, limit) ==
            Taken(Numbered(at.records, 0, false, Spelled(m)), at.(pos := at.pos + |Spelled(m)|))
  {
    hide ItemEnd;
    var b := Spelled(m);
    FirstByte(input, at.pos, b);
    assert b[0] == m.h.Bytes(5)[0] == 5 * 32 + m.h.info;
    var rest := input[at.pos..];
    assert At(rest, 0, b) && rest[..|b|] == b;
    SpelledItemEnds(m, rest, 0);
    CborTakenIffWithinLimit(input, at, limit);
  }

  lemma ContentIsTaken(p: Printed, input: seq<byte>, at: Spot, limit: nat)
    requires Printable(p, limit) && At(input, at.pos, Content(p) + Terminator(p))
    ensures at.pos < |input| && !IsSpace(input[at.pos])
    ensures RecordAt(input, at, limit) ==
            Taken(Numbered(at.records, if p.Line? then at.lines + 1 else 0, p.Line?, Content(p)),
                  Spot(at.pos + |Content(p) + Terminator(p)|, if p.Line? then at.lines + 1 else at.lines, at.records))
  {
    hide Spelled, JsonRecord, CborRecord;
    if p.Line? {
      LineIsTaken(p, input, at, limit);
    } else {
      assert Content(p) + Terminator(p) == Spelled(p.item);
      MapIsTaken(p.item, input, at, limit);
    }
  }

  // One printed record, with the whitespace before it, is the next record.
  lemma PrintedIsNext(p: Printed, input: seq<byte>, from: Spot, limit: nat)
    requires Printable(p, limit) && At(input, from.pos, Print(p))
    ensures var lines := from.lines + Newlines(p.space);
            var line := if p.Line? then lines + 1 else 0;
            NextRecord(input, from, limit) ==
            Taken(Numbered(from.records + 1, line, p.Line?, Content(p)),
                  Spot(from.pos + |Print(p)|, if p.Line? then lines + 1 else lines, from.records + 1))
  {
    hide Content, Terminator, RecordAt, SkipSpace, Newlines, AllSpace, IsSpace;
    AtParts(input, from.pos, p.space, Content(p) + Terminator(p));
    ContentIsTaken(p, input, Spot(from.pos + |p.space|, from.lines + Newlines(p.space), from.records + 1), limit);
    SpaceIsSkipped(input, from.pos, from.lines, p.space);
  }

  // ------------------------------------------------------------- in plain bytes

  predicate Blank(s: seq<byte>) { forall b | b in s :: b == 0x20 || b == 0x09 || b == 0x0d || b == 0x0a }

  lemma {:induction false} NewlinesCounted(s: seq<byte>)
    ensures Newlines(s) == multiset(s)[0x0a]
  {
    if s != [] {
      NewlinesCounted(s[1..]);
      assert s == [s[0]] + s[1..];
    }
  }

  /** Blanks, then a text that begins with an opening brace, then a newline with or
      without a return before it: whatever follows, the next record is that text, on the
      line the newlines before it put it on, and reading goes on after the newline. A
      text over the limit is refused. */
  lemma BraceStartsALine(front: seq<byte>, space: seq<byte>, text: seq<byte>, end: seq<byte>, rest: seq<byte>,
                         lines: nat, records: nat, limit: nat)
    requires Blank(space) && text != [] && text[0] == 0x7b && 0x0a !in text && text[|text| - 1] != 0x0d
    requires end == [0x0a] || end == [0x0d, 0x0a]
    ensures var line, pos := lines + multiset(space)[0x0a] + 1, |front| + |space| + |text| + |end|;
            NextRecord(front + (space + (text + end)) + rest, Spot(|front|, lines, records), limit) ==
            if |text| <= limit then Taken(Numbered(records + 1, line, true, text), Spot(pos, line, records + 1))
            else Stop(Refused(TooLarge, records + 1, line))
  {
    hide NextRecord, Newlines, Print, At;
    var p := Line(space, text, |end| == 2);
    var input := front + (space + (text + end)) + rest;
    LinePrinted(p, |text|);
    NewlinesCounted(space);
    assert At(input, |front|, Print(p)) by { Inside(front, space + (text + end), rest); }
    if |text| <= limit {
      PrintedIsNext(p, input, Spot(|front|, lines, records), limit);
    } else {
      LongLineIsRefused(p, input, Spot(|front|, lines, records), limit);
    }
  }

  /** The last line needs no newline, and loses no return: it is everything to the end
      of the input. */
  lemma LastLineNeedsNoEnd(front: seq<byte>, space: seq<byte>, text: seq<byte>, lines: nat, records: nat, limit: nat)
    requires Blank(space) && text != [] && text[0] == 0x7b && 0x0a !in text && |text| <= limit
    ensures var line := lines + multiset(space)[0x0a] + 1;
            NextRecord(front + space + text, Spot(|front|, lines, records), limit) ==
            Taken(Numbered(records + 1, line, true, text), Spot(|front| + |space| + |text|, line - 1, records + 1))
  {
    hide SkipSpace, Newlines, JsonRecord;
    var input, pos := front + space + text, |front| + |space|;
    NewlinesCounted(space);
    assert At(input, |front|, space) && input[pos] == text[0];
    SpaceIsSkipped(input, |front|, lines, space);
    assert input[pos..] == text;
    LastRead(input, Spot(pos, lines + Newlines(space), records + 1), limit);
  }

  lemma LastRead(input: seq<byte>, at: Spot, limit: nat)
    requires at.pos <= |input| && |input| - at.pos <= limit && 0x0a !in input[at.pos..]
    ensures JsonRecord(input, at, limit) ==
            Taken(Numbered(at.records, at.lines + 1, true, input[at.pos..]), Spot(|input|, at.lines, at.records))
  {
    var text := input[at.pos..];
    forall k | at.pos <= k < |input|
      ensures input[k] != NEWLINE
    {
      assert input[k] == text[k - at.pos];
    }
    assert LineEnd(input, at.pos) == |input|;
    assert input[at.pos..|input|] == text;
  }

  lemma Inside(front: seq<byte>, middle: seq<byte>, rest: seq<byte>)
    ensures At(front + middle + rest, |front|, middle)
  {
  }

  lemma LinePrinted(p: Printed, limit: nat)
    requires p.Line? && Blank(p.space) && p.text != [] && p.text[0] == 0x7b && 0x0a !in p.text
    requires p.text[|p.text| - 1] != 0x0d && |p.text| <= limit
    ensures Printable(p, limit) && Content(p) == p.text
    ensures Print(p) == p.space + (p.text + if p.crlf then [0x0d, 0x0a] else [0x0a])
    ensures |Print(p)| == |p.space| + |p.text| + if p.crlf then 2 else 1
  {
  }

  lemma LongLineIsRefused(p: Printed, input: seq<byte>, from: Spot, limit: nat)
    requires Printable(p, |Content(p)|) && p.Line? && |p.text| > limit && At(input, from.pos, Print(p))
    ensures NextRecord(input, from, limit) ==
            Stop(Refused(TooLarge, from.records + 1, from.lines + Newlines(p.space) + 1))
  {
    hide SkipSpace, Newlines, AllSpace, JsonRecord, CborRecord, Terminator;
    AtParts(input, from.pos, p.space, Content(p) + Terminator(p));
    var at := Spot(from.pos + |p.space|, from.lines + Newlines(p.space), from.records + 1);
    LineIsTaken(p, input, at, |p.text|);
    TakenIsMeasured(input, at, |p.text|, limit);
    SpaceIsSkipped(input, from.pos, from.lines, p.space);
  }

  lemma TakenIsMeasured(input: seq<byte>, at: Spot, enough: nat, limit: nat)
    requires at.pos <= |input| && JsonRecord(input, at, enough).Taken?
    ensures |JsonRecord(input, at, enough).rec.item| > limit ==>
              JsonRecord(input, at, limit) == Stop(Refused(TooLarge, at.records, at.lines + 1))
  {
  }

  /** What a record may begin with: after blanks, a byte that is no blank is refused
      unless it is an opening brace or one of 0xa0 to 0xbb, and those last are taken as
      CBOR exactly when an item within the limit is all there. */
  lemma FirstByteDecides(front: seq<byte>, space: seq<byte>, head: byte, rest: seq<byte>,
                         lines: nat, records: nat, limit: nat)
    requires Blank(space) && !Blank([head]) && head != 0x7b
    ensures var input, line := front + space + ([head] + rest), lines + multiset(space)[0x0a] + 1;
            var next, item := NextRecord(input, Spot(|front|, lines, records), limit), ItemEnd([head] + rest, 0);
            if 0xa0 <= head <= 0xbb then
              if item.Complete? && item.next <= limit then
                next == Taken(Numbered(records + 1, 0, false, ([head] + rest)[..item.next]),
                              Spot(|front| + |space| + item.next, line - 1, records + 1))
              else next.Stop? && next.ending.Refused? && next.ending.record == records + 1
            else next == Stop(Refused(Grammar, records + 1, if head == 0xbf then 0 else line))
  {
    hide ItemEnd, CborRecord;
    var input := front + space + ([head] + rest);
    var at := Spot(|front| + |space|, lines + Newlines(space), records + 1);
    assert [head][0] == head;
    assert !IsSpace(head);
    assert At(input, |front|, space) && input[|front| + |space|] == head;
    assert input[at.pos..] == [head] + rest;
    SpaceIsSkipped(input, |front|, lines, space);
    NewlinesCounted(space);
    if 0xa0 <= head <= 0xbb {
      CborTakenIffWithinLimit(input, at, limit);
      CborRefusalsAreNamed(input, at, limit);
    }
  }

  lemma CborRefusalsAreNamed(input: seq<byte>, at: Spot, limit: nat)
    requires at.pos <= |input|
    ensures var r, item := CborRecord(input, at, limit), ItemEnd(input[at.pos..], 0);
            if item.Complete? && item.next <= limit then
              r == Taken(Numbered(at.records, 0, false, input[at.pos..][..item.next]), at.(pos := at.pos + item.next))
            else r.Stop? && r.ending.Refused? && r.ending.record == at.records
  {
    hide ItemEnd;
    CborTakenIffWithinLimit(input, at, limit);
    var window := input[at.pos..at.pos + Smaller(|input| - at.pos, limit + SLACK)];
    if ItemEnd(window, 0).Complete? {
      ItemStable(window, input[at.pos..], 0);
    }
  }

  /** A CBOR record over the limit is too large, and so is one still unfinished 65536
      bytes past it; one unfinished at an earlier end of the input, and one that is
      ill-formed within that reach, is malformed. */
  lemma CborRefusals(input: seq<byte>, at: Spot, limit: nat)
    requires at.pos <= |input|
    ensures var rest, r := input[at.pos..], CborRecord(input, at, limit);
            var reach := if |rest| < limit + 65536 then rest else rest[..limit + 65536];
            && (ItemEnd(reach, 0).Complete? && ItemEnd(reach, 0).next > limit ==>
                  r == Stop(Refused(TooLarge, at.records, 0)))
            && (ItemEnd(reach, 0).IllFormed? ==> r == Stop(Refused(Grammar, at.records, 0)))
            && (ItemEnd(reach, 0).Incomplete? && |rest| < limit + 65536 ==> r == Stop(Refused(Grammar, at.records, 0)))
            && (ItemEnd(reach, 0).Incomplete? && |rest| >= limit + 65536 ==>
                  r == Stop(Refused(TooLarge, at.records, at.lines + 1)))
  {
    hide ItemEnd;
    var rest := input[at.pos..];
    var n := Smaller(|rest|, limit + SLACK);
    assert input[at.pos..at.pos + n] == rest[..n];
    assert rest[..|rest|] == rest;
  }

  /** Framing undoes printing: any interleaving of JSON lines and CBOR maps, with
      any whitespace between them, frames back to exactly those records in order. */
  lemma {:induction false} FramingUndoesPrinting(ps: seq<Printed>, trail: seq<byte>, limit: nat, input: seq<byte>,
      from: Spot)
    requires AllPrintable(ps, limit) && AllSpace(trail)
    requires At(input, from.pos, PrintAll(ps, limit, trail))
    requires |input| == from.pos + |PrintAll(ps, limit, trail)|
    ensures Frames(input, from, limit) == (Expected(ps, limit, from.lines, from.records), EndOfInput)
    decreases |ps|
  {
    hide Printable, NextRecord, SkipSpace, AllSpace, Print;
    if ps == [] {
      NothingFollows(trail, input, from, limit);
    } else {
      assert Printable(ps[0], limit);
      AtParts(input, from.pos, Print(ps[0]), PrintAll(ps[1..], limit, trail));
      PrintedIsNext(ps[0], input, from, limit);
      FramingUndoesPrinting(ps[1..], trail, limit, input, NextRecord(input, from, limit).after);
    }
  }

  lemma NothingFollows(trail: seq<byte>, input: seq<byte>, from: Spot, limit: nat)
    requires AllSpace(trail) && At(input, from.pos, trail) && |input| == from.pos + |trail|
    ensures NextRecord(input, from, limit) == Stop(EndOfInput)
  {
    SpaceIsSkipped(input, from.pos, from.lines, trail);
  }

  /** The whole-stream form: printing and framing back loses and invents nothing. */
  lemma PrintedStreamFrames(ps: seq<Printed>, trail: seq<byte>, limit: nat)
    requires AllPrintable(ps, limit) && AllSpace(trail)
    ensures Frames(PrintAll(ps, limit, trail), START, limit) == (Expected(ps, limit, 0, 0), EndOfInput)
  {
    var input := PrintAll(ps, limit, trail);
    assert At(input, 0, input);
    FramingUndoesPrinting(ps, trail, limit, input, START);
  }
}
