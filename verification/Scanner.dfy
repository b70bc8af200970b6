/** The buffered record scanner of ingest.go. */
module Scanner {
  // One growing, compacting buffer over a reader that hands over its input in pieces
  // of any size. Each method is proved against the function of the whole input in
  // Framing.dfy.

  import opened Bytes
  import opened Cbor
  import opened Framing

  /** How a reader announces the end of its input: on its own, together with the last
      bytes, or now one and now the other. */
  datatype Manner = Late | Early | Either

  /** An io.Reader that fails at nothing but its end: every read returns some
      bytes, however few, until the input has run out. */
  class Reader {
    const input: seq<byte>
    const manner: Manner
    var given: nat

    constructor (input: seq<byte>, manner: Manner)
      ensures this.input == input && this.manner == manner && given == 0
    {
      this.input, this.manner, given := input, manner, 0;
    }

    method Read(buf: array<byte>, at: nat) returns (n: nat, eof: bool)
      requires given <= |input| && at < buf.Length
      modifies this`given, buf
      ensures at + n <= buf.Length && given == old(given) + n <= |input|
      ensures n > 0 || eof
      ensures eof ==> given == |input| && (manner.Late? ==> n == 0)
      ensures manner.Early? && given == |input| ==> eof
      ensures buf[at..at + n] == input[old(given)..given]
      ensures buf[..at] == old(buf[..at])
    {
      var room := Smaller(buf.Length - at, |input| - given);
      if room == 0 {
        assert buf[at..at] == input[given..given] == [];
        return 0, true;
      }
      n :| 1 <= n <= room;
      forall k | 0 <= k < n {
        buf[at + k] := input[given + k];
      }
      given := given + n;
      var announces := *;
      eof := given == |input| && (manner.Early? || (manner.Either? && announces));
    }
  }

  /** What one call of the scanner hands back. */
  datatype Outcome = Handed(rec: Numbered) | Ended(ending: Ending)

  class RecordScanner {
    const r: Reader
    const limit: nat
    var buf: array?<byte>
    var start: nat
    var end: nat
    var eof: bool
    var lines: nat
    var records: nat

    function Ceiling(): nat { limit + SLACK }

    // The bytes read and not yet consumed are the input's next bytes, and the
    // buffer never outgrows its ceiling.
    ghost predicate Valid()
      reads this`buf, this`start, this`end, this`eof, r`given, buf
    {
      && r.given <= |r.input| && start <= end && end - start <= r.given
      && (buf == null ==> end == 0)
      && (buf != null ==> end <= buf.Length && 1 <= buf.Length <= Ceiling())
      && Buffered() == r.input[r.given - (end - start)..r.given]
      && (eof ==> r.given == |r.input| && buf != null && (r.manner.Late? ==> end < buf.Length))
    }

    // A reader that ends with its data has said so once it has given all of it.
    predicate Told()
      reads this`eof, r`given
    {
      r.manner.Early? && 0 < r.given == |r.input| ==> eof
    }

    function Buffered(): seq<byte>
      reads this`buf, this`start, this`end, buf
    {
      if buf != null && start <= end <= buf.Length then buf[start..end] else []
    }

    // Where in the input the unconsumed bytes begin.
    ghost function Pos(): (p: nat)
      requires Valid()
      reads this`buf, this`start, this`end, this`eof, r`given, buf
      ensures p + |Buffered()| == r.given <= |r.input| && Buffered() == r.input[p..p + |Buffered()|]
      ensures |Buffered()| == end - start <= Ceiling()
      ensures eof ==> r.given == |r.input| && (r.manner.Late? ==> |Buffered()| < Ceiling())
    {
      r.given - (end - start)
    }

    ghost function At(): Spot
      requires Valid()
      reads this, r, buf
    {
      Spot(Pos(), lines, records)
    }

    // The call's answer and the place the scanner is left at are the grammar's.
    ghost predicate Agrees(out: Outcome, next: Next)
      requires Valid()
      reads this, r, buf
    {
      match next
      case Stop(ending) => out == Ended(ending)
      case Taken(rec, after) => out == Handed(rec) && At() == after
    }

    // The one answer that depends on the reader: one that ends with its data turns a
    // record too large for the buffer into one that is cut short.
    ghost predicate Tie(out: Outcome, p: nat)
      reads this
    {
      !r.manner.Late? && Tied(r.input, p, limit) && out == Ended(Refused(Grammar, records, 0))
    }

    constructor (r: Reader, limit: nat)
      requires r.given == 0
      ensures Valid() && Told() && this.r == r && this.limit == limit && At() == START && !eof && buf == null
    {
      this.r, this.limit := r, limit;
      buf, start, end, eof, lines, records := null, 0, 0, false, 0, 0;
    }

    // Moves what is left to the front of the buffer.
    method Compact()
      requires Valid() && buf != null
      modifies this`start, this`end, buf
      ensures Valid() && start == 0 && end == old(end - start) && Buffered() == old(Buffered())
    {
      var n := end - start;
      forall k | 0 <= k < n {
        buf[k] := buf[start + k];
      }
      start, end := 0, n;
      assert buf[0..n] == old(buf[start..end]);
    }

    // Doubles the buffer, but never past the ceiling.
    method Grow()
      requires Valid() && buf != null && start == 0 && buf.Length < Ceiling()
      modifies this`start, this`end, this`buf
      ensures Valid() && fresh(buf) && Buffered() == old(Buffered()) && end < buf.Length && start == 0
    {
      var grown := new byte[Smaller(2 * buf.Length, Ceiling())];
      var n := end - start;
      forall k | 0 <= k < n {
        grown[k] := buf[start + k];
      }
      assert grown[0..n] == buf[start..end];
      end, start, buf := n, 0, grown;
    }

    ghost function Distance(): nat
      requires Valid()
      reads this`buf, this`start, this`end, this`eof, r`given, buf
    {
      |r.input| - r.given + if eof then 0 else 1
    }

    // Makes room to read into, unless the buffer is full-grown and holds nothing
    // but the record being read.
    method MakeRoom() returns (full: bool)
      requires Valid() && !eof
      modifies this`buf, this`start, this`end, buf
      ensures Valid() && (buf != old(buf) ==> fresh(buf)) && Buffered() == old(Buffered()) && Pos() == old(Pos())
      ensures full ==> |Buffered()| == Ceiling()
      ensures !full ==> buf != null && end < buf.Length
    {
      if buf == null {
        buf := new byte[Smaller(65536, Ceiling())];
        assert buf[0..0] == [];
      } else if end < buf.Length {
      } else if start > 0 {
        Compact();
      } else if buf.Length >= Ceiling() {
        return true;
      } else {
        Grow();
      }
      return false;
    }

    // Reads once into the room there is.
    method Receive()
      requires Valid() && !eof && buf != null && end < buf.Length
      modifies this`end, this`eof, r`given, buf
      ensures Valid() && Told() && Pos() == old(Pos()) && Distance() < old(Distance())
    {
      ghost var held, was, before := Buffered(), buf[..end], r.given;
      var n, ended := r.Read(buf, end);
      ReadExtends(r.input, before, was, buf[..], start, end, n);
      assert buf[start..end + n] == r.input[before - (end - start)..r.given];
      end := end + n;
      if ended {
        eof := true;
      }
      assert Valid();
    }

    /** Reads more input. It refuses only when a full-grown buffer holds nothing
        but the record being read; otherwise it gets closer to the end. */
    method Fill() returns (tooLarge: bool)
      requires Valid() && Told() && !eof
      modifies this`buf, this`start, this`end, this`eof, r`given, buf
      ensures Valid() && Told() && (buf != old(buf) ==> fresh(buf))
      ensures Pos() == old(Pos())
      ensures tooLarge ==> |Buffered()| == Ceiling() && Buffered() == old(Buffered())
      ensures !tooLarge ==> Distance() < old(Distance())
    {
      hide Valid, Buffered;
      var full := MakeRoom();
      if full {
        return true;
      }
      Receive();
      return false;
    }

    // Steps over bytes already buffered.
    method Consume(n: nat)
      requires Valid() && n <= end - start
      modifies this`start
      ensures Valid() && Pos() == old(Pos()) + n && Buffered() == old(Buffered())[n..]
    {
      ghost var b := Buffered();
      start := start + n;
      assert Buffered() == b[n..];
    }

    // Consumes the whitespace already buffered.
    method SkipBuffered()
      requires Valid()
      modifies this`start, this`lines
      ensures Valid() && Pos() >= old(Pos())
      ensures SkipSpace(r.input, Pos(), lines) == SkipSpace(r.input, old(Pos()), old(lines))
      ensures start < end ==> !IsSpace(r.input[Pos()])
    {
      hide Valid, Buffered;
      var b := Buffered();
      ghost var from := Pos();
      var i := 0;
      while i < |b| && IsSpace(b[i])
        modifies this`lines
        invariant i <= |b|
        invariant SkipSpace(r.input, from + i, lines) == SkipSpace(r.input, from, old(lines))
      {
        assert b[i] == r.input[from + i];
        if b[i] == NEWLINE {
          lines := lines + 1;
        }
        i := i + 1;
      }
      Consume(i);
      if i < |b| {
        assert b[i] == r.input[from + i];
      }
    }

    /** Consumes whitespace, counting newlines; reports false at a clean end. */
    method SkipBlank() returns (more: bool)
      requires Valid() && Told()
      modifies this`buf, this`start, this`end, this`eof, this`lines, r`given, buf
      ensures Valid() && Told() && (buf != old(buf) ==> fresh(buf))
      ensures (Pos(), lines) == SkipSpace(r.input, old(Pos()), old(lines))
      ensures more == (Pos() < |r.input|)
      ensures more ==> start < end && Buffered()[0] == r.input[Pos()]
    {
      hide Valid, Buffered;
      while true
        invariant Valid() && Told() && (buf != old(buf) ==> fresh(buf))
        invariant SkipSpace(r.input, Pos(), lines) == SkipSpace(r.input, old(Pos()), old(lines))
        decreases Distance()
      {
        SkipBuffered();
        if start < end {
          return true;
        }
        if eof {
          return false;
        }
        var full := Fill();
        assert !full;
      }
    }

    /** Takes one line, or refuses it over the limit. */
    method TakeLine() returns (out: Outcome)
      requires Valid() && Told()
      modifies this`buf, this`start, this`end, this`eof, this`lines, r`given, buf
      ensures Valid() && Told() && (buf != old(buf) ==> fresh(buf))
      ensures Agrees(out, JsonRecord(r.input, old(At()), limit))
    {
      hide LineEnd, DropReturn, JsonRecord, Valid, Buffered;
      var line := lines + 1;
      while true
        invariant Valid() && Told() && (buf != old(buf) ==> fresh(buf)) && At() == old(At())
        decreases Distance()
      {
        var b := Buffered();
        var i := LineEnd(b, 0);
        LineInPiece(r.input, At(), b, limit);
        if i < |b| {
          var item := DropReturn(b[..i]);
          if |item| > limit {
            return Ended(Refused(TooLarge, records, line));
          }
          Consume(i + 1);
          lines := lines + 1;
          return Handed(Numbered(records, line, true, item));
        }
        if eof {
          if |b| > limit {
            return Ended(Refused(TooLarge, records, line));
          }
          Consume(|b|);
          return Handed(Numbered(records, line, true, b));
        }
        var full := Fill();
        if full {
          return Ended(Refused(TooLarge, records, line));
        }
      }
    }

    /** Takes one CBOR item, or refuses it. */
    method TakeItem() returns (out: Outcome)
      requires Valid() && Told() && Pos() < |r.input| && IsMapHead(r.input[Pos()])
      modifies this`buf, this`start, this`end, this`eof, r`given, buf
      ensures Valid() && Told() && (buf != old(buf) ==> fresh(buf))
      ensures Agrees(out, CborRecord(r.input, old(At()), limit)) ||
              (CborRecord(r.input, old(At()), limit).Stop? && Tie(out, old(Pos())))
      ensures r.manner.Early? && Tied(r.input, old(Pos()), limit) ==> Tie(out, old(Pos()))
    {
      hide ItemEnd, CborRecord, Valid, Buffered;
      while true
        invariant Valid() && Told() && (buf != old(buf) ==> fresh(buf)) && At() == old(At())
        decreases Distance()
      {
        var b := Buffered();
        ItemInPiece(r.input, At(), b, limit);
        TiedIsIncomplete(r.input, At(), limit);
        var extent := ItemEnd(b, 0);
        match extent {
          case Complete(size) =>
            if size > limit {
              return Ended(Refused(TooLarge, records, 0));
            }
            Consume(size);
            return Handed(Numbered(records, 0, false, b[..size]));
          case IllFormed =>
            return Ended(Refused(Grammar, records, 0));
          case Incomplete =>
            if eof {
              return Ended(Refused(Grammar, records, 0));
            }
            assert |b| == Ceiling() && Tied(r.input, Pos(), limit) ==> r.given == |r.input|;
            var full := Fill();
            if full {
              return Ended(Refused(TooLarge, records, lines + 1));
            }
        }
      }
    }

    /** The next record, whatever reads it takes to see it. */
    method NextOne() returns (out: Outcome)
      requires Valid() && Told()
      modifies this`buf, this`start, this`end, this`eof, this`lines, this`records, r`given, buf
      ensures Valid() && Told() && (buf != old(buf) ==> fresh(buf))
      ensures Agrees(out, NextRecord(r.input, old(At()), limit)) ||
              (NextRecord(r.input, old(At()), limit).Stop? && Tie(out, SkipSpace(r.input, old(Pos()), old(lines)).0))
      ensures r.manner.Early? && Tied(r.input, SkipSpace(r.input, old(Pos()), old(lines)).0, limit) ==>
                Tie(out, SkipSpace(r.input, old(Pos()), old(lines)).0)
      ensures out == Ended(EndOfInput) || records == old(records) + 1
    {
      hide SkipSpace, JsonRecord, CborRecord, Valid, Buffered;
      var more := SkipBlank();
      if !more {
        return Ended(EndOfInput);
      }
      var head := Buffered()[0];
      records := records + 1;
      if head == BRACE {
        out := TakeLine();
      } else if IsMapHead(head) {
        out := TakeItem();
      } else if head == 0xbf {
        out := Ended(Refused(Grammar, records, 0));
      } else {
        out := Ended(Refused(Grammar, records, lines + 1));
      }
    }
  }

  // Bytes read in after the buffered ones continue them.
  lemma ReadExtends(input: seq<byte>, given: nat, was: seq<byte>, now: seq<byte>, start: nat, end: nat, n: nat)
    requires start <= end == |was| && end + n <= |now| && given + n <= |input| && end - start <= given
    requires was[start..] == input[given - (end - start)..given]
    requires now[..end] == was && now[end..end + n] == input[given..given + n]
    ensures now[start..end + n] == input[given - (end - start)..given + n]
  {
    assert now[start..end] == now[..end][start..];
    Join(now, start, end, end + n);
    Join(input, given - (end - start), given, given + n);
  }

  lemma LineEndInPiece(input: seq<byte>, p: nat, b: seq<byte>)
    requires p + |b| <= |input| && b == input[p..p + |b|]
    ensures LineEnd(b, 0) < |b| ==> LineEnd(input, p) == p + LineEnd(b, 0)
    ensures LineEnd(b, 0) == |b| ==> LineEnd(input, p) >= p + |b|
  {
    hide LineEnd;
    var i := LineEnd(b, 0);
    forall k | p <= k < p + i
      ensures input[k] != NEWLINE
    {
      assert b[k - p] == input[k];
    }
  }

  // What the buffered part of the input says of the line that starts there.
  lemma LineInPiece(input: seq<byte>, at: Spot, b: seq<byte>, limit: nat)
    requires at.pos + |b| <= |input| && b == input[at.pos..at.pos + |b|]
    ensures var i := LineEnd(b, 0);
            var line := at.lines + 1;
            var tooLarge := Stop(Refused(TooLarge, at.records, line));
            if i < |b| then
              JsonRecord(input, at, limit) ==
              if |DropReturn(b[..i])| > limit then tooLarge
              else Taken(Numbered(at.records, line, true, DropReturn(b[..i])), Spot(at.pos + i + 1, line, at.records))
            else
              && (|b| == limit + SLACK ==> JsonRecord(input, at, limit) == tooLarge)
              && (at.pos + |b| == |input| ==>
                    JsonRecord(input, at, limit) ==
                    if |b| > limit then tooLarge
                    else Taken(Numbered(at.records, line, true, b), Spot(|input|, at.lines, at.records)))
  {
    hide LineEnd;
    LineEndInPiece(input, at.pos, b);
    var i := LineEnd(b, 0);
    if i < |b| {
      assert b[..i] == input[at.pos..at.pos + i];
    } else {
      assert |input[at.pos..LineEnd(input, at.pos)]| >= |b|;
    }
  }

  // What the buffered part of the input says of the item that starts there.
  lemma ItemInPiece(input: seq<byte>, at: Spot, b: seq<byte>, limit: nat)
    requires at.pos + |b| <= |input| && b == input[at.pos..at.pos + |b|] && |b| <= limit + SLACK
    ensures ItemEnd(b, 0).Complete? ==>
              var size := ItemEnd(b, 0).next;
              CborRecord(input, at, limit) ==
              if size > limit then Stop(Refused(TooLarge, at.records, 0))
              else Taken(Numbered(at.records, 0, false, b[..size]), at.(pos := at.pos + size))
    ensures ItemEnd(b, 0).IllFormed? ==> CborRecord(input, at, limit) == Stop(Refused(Grammar, at.records, 0))
    ensures ItemEnd(b, 0).Incomplete? ==>
              && (|b| == limit + SLACK && at.pos + |b| == |input| ==> input[at.pos..] == b)
              && (|b| == limit + SLACK ==>
                    CborRecord(input, at, limit) == Stop(Refused(TooLarge, at.records, at.lines + 1)))
              && (at.pos + |b| == |input| && |b| < limit + SLACK ==>
                    CborRecord(input, at, limit) == Stop(Refused(Grammar, at.records, 0)))
  {
    hide ItemEnd;
    var window := input[at.pos..at.pos + Smaller(|input| - at.pos, limit + SLACK)];
    assert b == window[..|b|] && b <= window;
    if !ItemEnd(b, 0).Incomplete? {
      ItemStable(b, window, 0);
      if ItemEnd(b, 0).Complete? {
        assert window[..ItemEnd(b, 0).next] == b[..ItemEnd(b, 0).next];
      }
    } else if |b| == limit + SLACK || at.pos + |b| == |input| {
      assert b == window;
    }
  }

  // At a tie the grammar finds the item unfinished, and the window full.
  lemma TiedIsIncomplete(input: seq<byte>, at: Spot, limit: nat)
    requires at.pos <= |input|
    ensures Tied(input, at.pos, limit) ==>
              CborRecord(input, at, limit) == Stop(Refused(TooLarge, at.records, at.lines + 1))
  {
    hide ItemEnd;
    if Tied(input, at.pos, limit) {
      assert input[at.pos..at.pos + Smaller(|input| - at.pos, limit + SLACK)] == input[at.pos..];
    }
  }

  // The stream's frames, its ending and where it stops, one record at a time.
  lemma FramesStep(input: seq<byte>, from: Spot, limit: nat)
    requires from.pos <= |input|
    ensures var next := NextRecord(input, from, limit);
            if next.Stop? then
              && Frames(input, from, limit) == ([], next.ending)
              && StopsAt(input, from, limit) == SkipSpace(input, from.pos, from.lines).0
            else
              && Frames(input, from, limit).0 == [next.rec] + Frames(input, next.after, limit).0
              && Frames(input, from, limit).1 == Frames(input, next.after, limit).1
              && StopsAt(input, from, limit) == StopsAt(input, next.after, limit)
  {
    hide NextRecord, SkipSpace;
  }

  /** Reads a whole stream: for every way the reader splits its input, the records,
      their numbers and lines, and the ending are those of the pure framing. The one
      exception is the fault named at a tie: a reader that ends with its data always
      gets the other one, a reader that ends after it never does. */
  method ReadRecords(r: Reader, limit: nat) returns (recs: seq<Numbered>, ending: Ending)
    requires r.given == 0
    modifies r
    ensures recs == Frames(r.input, START, limit).0
    ensures ending == Frames(r.input, START, limit).1 ||
            (!r.manner.Late? && Tied(r.input, StopsAt(r.input, START, limit), limit)
                && ending == Refused(Grammar, |recs| + 1, 0))
    ensures r.manner.Early? && Tied(r.input, StopsAt(r.input, START, limit), limit) ==>
            ending == Refused(Grammar, |recs| + 1, 0)
  {
    hide Frames, NextRecord, StopsAt, SkipSpace, RecordScanner.Valid, RecordScanner.Buffered, Tied;
    var s := new RecordScanner(r, limit);
    recs := [];
    while true
      invariant s.Valid() && s.Told() && s.r == r && s.limit == limit && fresh(s) && (s.buf != null ==> fresh(s.buf))
      invariant recs + Frames(r.input, s.At(), limit).0 == Frames(r.input, START, limit).0 && |recs| == s.records
      invariant Frames(r.input, s.At(), limit).1 == Frames(r.input, START, limit).1
      invariant StopsAt(r.input, s.At(), limit) == StopsAt(r.input, START, limit)
      decreases |r.input| - s.Pos()
    {
      ghost var at := s.At();
      FramesStep(r.input, at, limit);
      var next := s.NextOne();
      match next {
        case Ended(end) =>
          return recs, end;
        case Handed(rec) =>
          Regroup(recs, rec, Frames(r.input, s.At(), limit).0);
          recs := recs + [rec];
      }
    }
  }

  lemma Regroup<T>(a: seq<T>, x: T, b: seq<T>)
    ensures a + ([x] + b) == (a + [x]) + b
  {
  }
}
