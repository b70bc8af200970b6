/** The canonical record encoding: internal/canon/record.go. */
module Record {
  // `EncodeSpec` and `DecodeSpec` are the format as functions; `Encode` and
  // `Decode` are the program's loops, proved to compute them.

  import opened Bytes

  datatype Kind = Boolean | Int | Long | Float | Double | Decimal | TimestampTz | String | Binary
  {
    // The byte length of a fixed-width value, and None for the two kinds that
    // carry a length prefix.
    function FixedWidth(): Option<nat> {
      match this
      case Boolean => Some(1)
      case Int => Some(4)
      case Float => Some(4)
      case Long => Some(8)
      case Double => Some(8)
      case Decimal => Some(8)
      case TimestampTz => Some(8)
      case String => None
      case Binary => None
    }
  }

  datatype Option<+T> = None | Some(value: T)

  datatype Field = Field(id: int, name: seq<byte>, kind: Kind, precision: int, scale: int, required: bool)

  /** One column value. Floats are their bit patterns: nothing here computes with them. */
  datatype Value =
    | Null
    | Bool(b: bool)
    | I32(v: int32)
    | I64(w: int64)
    | F32(bits: uint32)
    | F64(word: uint64)
    | Text(chars: seq<byte>)
    | Blob(bytes: seq<byte>)

  datatype ErrorKind = UnsupportedType | BadValue | BadFormat | EmptyBatch | FieldRemoved | FieldRequired | FieldRetyped

  datatype Error = Error(kind: ErrorKind, fieldId: int)

  datatype Result<+T> = Ok(value: T) | Err(error: Error)

  const ENCODING_VERSION: byte := 1
  const MAX_VALUE_BYTES := TWO_32 - 1

  function BadColumn(f: Field): Result<seq<byte>> { Err(Error(BadValue, f.id)) }

  function LengthPrefixed(f: Field, b: seq<byte>): Result<seq<byte>> {
    if |b| > MAX_VALUE_BYTES then BadColumn(f) else Ok(PutUint32(|b|) + b)
  }

  // The bytes of one present value, refusing every type but the column's own.
  function EncodeValue(f: Field, v: Value): Result<seq<byte>> {
    match f.kind
    case Boolean => if v.Bool? then Ok([if v.b then 1 else 0]) else BadColumn(f)
    case Int => if v.I32? then Ok(PutUint32(Bits32(v.v))) else BadColumn(f)
    case Long => if v.I64? then Ok(PutUint64(Bits64(v.w))) else BadColumn(f)
    case Decimal => if v.I64? then Ok(PutUint64(Bits64(v.w))) else BadColumn(f)
    case TimestampTz => if v.I64? then Ok(PutUint64(Bits64(v.w))) else BadColumn(f)
    case Float => if v.F32? then Ok(PutUint32(v.bits)) else BadColumn(f)
    case Double => if v.F64? then Ok(PutUint64(v.word)) else BadColumn(f)
    case String => if v.Text? then LengthPrefixed(f, v.chars) else BadColumn(f)
    case Binary => if v.Blob? then LengthPrefixed(f, v.bytes) else BadColumn(f)
  }

  // One column: a presence byte for an optional column only, then the value.
  function EncodeColumn(f: Field, v: Value): Result<seq<byte>> {
    if v.Null? then
      if f.required then BadColumn(f) else Ok([0])
    else
      match EncodeValue(f, v)
      case Err(e) => Err(e)
      case Ok(b) => Ok(if f.required then b else [1] + b)
  }

  function Prepend(front: seq<byte>, r: Result<seq<byte>>): Result<seq<byte>> {
    match r
    case Err(e) => Err(e)
    case Ok(b) => Ok(front + b)
  }

  // The columns from position i on. The first column refused decides the error.
  function EncodeFrom(fields: seq<Field>, row: seq<Value>, i: nat): Result<seq<byte>>
    requires |row| == |fields| && i <= |fields|
    decreases |fields| - i
  {
    if i == |fields| then Ok([])
    else
      match EncodeColumn(fields[i], row[i])
      case Err(e) => Err(e)
      case Ok(b) => Prepend(b, EncodeFrom(fields, row, i + 1))
  }

  function EncodeSpec(fields: seq<Field>, row: seq<Value>): Result<seq<byte>> {
    if |row| != |fields| then Err(Error(BadValue, 0))
    else Prepend([ENCODING_VERSION], EncodeFrom(fields, row, 0))
  }

  /** A value or column read from a position: what was read, and where reading stopped. */
  datatype Read<+T> = Got(what: T, next: nat) | Bad(error: Error)

  function Malformed<T>(f: Field): Read<T> { Bad(Error(BadFormat, f.id)) }

  // The value bytes of a fixed-width kind.
  function FixedValue(f: Field, raw: seq<byte>, next: nat): Read<Value>
    requires f.kind.FixedWidth() == Some(|raw|)
  {
    match f.kind
    case Boolean =>
      if raw[0] == 0 then Got(Bool(false), next) else if raw[0] == 1 then Got(Bool(true), next) else Malformed(f)
    case Int => Got(I32(Signed32(GetUint32(raw))), next)
    case Float => Got(F32(GetUint32(raw)), next)
    case Double => Got(F64(GetUint64(raw)), next)
    case Long => Got(I64(Signed64(GetUint64(raw))), next)
    case Decimal => Got(I64(Signed64(GetUint64(raw))), next)
    case TimestampTz => Got(I64(Signed64(GetUint64(raw))), next)
  }

  function ReadValue(f: Field, buf: seq<byte>, pos: nat): (r: Read<Value>)
    requires pos <= |buf|
    ensures r.Got? ==> pos <= r.next <= |buf|
  {
    match f.kind.FixedWidth()
    case Some(width) =>
      if |buf| - pos < width then Malformed(f) else FixedValue(f, buf[pos..pos + width], pos + width)
    case None =>
      if |buf| - pos < 4 then Malformed(f)
      else
        var n := GetUint32(buf[pos..pos + 4]);
        if |buf| - (pos + 4) < n then Malformed(f)
        else
          var raw := buf[pos + 4..pos + 4 + n];
          Got(if f.kind.String? then Text(raw) else Blob(raw), pos + 4 + n)
  }

  function ReadColumn(f: Field, buf: seq<byte>, pos: nat): (r: Read<Value>)
    requires pos <= |buf|
    ensures r.Got? ==> pos <= r.next <= |buf|
  {
    if f.required then ReadValue(f, buf, pos)
    else if pos == |buf| then Bad(Error(BadFormat, 0))
    else if buf[pos] == 0 then Got(Null, pos + 1)
    else if buf[pos] == 1 then ReadValue(f, buf, pos + 1)
    else Bad(Error(BadFormat, 0))
  }

  function Cons(v: Value, r: Read<seq<Value>>): Read<seq<Value>> {
    match r
    case Bad(e) => Bad(e)
    case Got(vs, next) => Got([v] + vs, next)
  }

  function DecodeFrom(fields: seq<Field>, i: nat, buf: seq<byte>, pos: nat): (r: Read<seq<Value>>)
    requires i <= |fields| && pos <= |buf|
    ensures r.Got? ==> |r.what| == |fields| - i && pos <= r.next <= |buf|
    decreases |fields| - i
  {
    if i == |fields| then Got([], pos)
    else
      match ReadColumn(fields[i], buf, pos)
      case Bad(e) => Bad(e)
      case Got(v, next) => Cons(v, DecodeFrom(fields, i + 1, buf, next))
  }

  function DecodeSpec(fields: seq<Field>, payload: seq<byte>): (r: Result<seq<Value>>)
    ensures r.Ok? ==> |r.value| == |fields|
  {
    if payload == [] || payload[0] != ENCODING_VERSION then Err(Error(BadFormat, 0))
    else
      match DecodeFrom(fields, 0, payload, 1)
      case Bad(e) => Err(e)
      case Got(row, next) => if next == |payload| then Ok(row) else Err(Error(BadFormat, 0))
  }

  // ---------------------------------------------------------------- the loops

  /** Writes one record by appending each column to a growing buffer. */
  method Encode(fields: seq<Field>, row: seq<Value>) returns (r: Result<seq<byte>>)
    ensures r == EncodeSpec(fields, row)
  {
    if |row| != |fields| {
      return Err(Error(BadValue, 0));
    }
    var out: seq<byte> := [ENCODING_VERSION];
    for i := 0 to |fields|
      invariant EncodeSpec(fields, row) == Prepend(out, EncodeFrom(fields, row, i))
    {
      var f, v := fields[i], row[i];
      ghost var before := out;
      if v.Null? {
        if f.required {
          return BadColumn(f);
        }
        out := out + [0];
      } else {
        if !f.required {
          out := out + [1];
        }
        var b := EncodeValue(f, v);
        if b.Err? {
          return Err(b.error);
        }
        out := out + b.value;
      }
      PrependTwice(before, EncodeColumn(f, v).value, EncodeFrom(fields, row, i + 1));
      assert out == before + EncodeColumn(f, v).value;
    }
    assert out + [] == out;
    return Ok(out);
  }

  lemma PrependTwice(a: seq<byte>, b: seq<byte>, r: Result<seq<byte>>)
    ensures Prepend(a, Prepend(b, r)) == Prepend(a + b, r)
  {
    if r.Ok? {
      assert a + (b + r.value) == a + b + r.value;
    }
  }

  /** A bounds-checked reader over a byte slice, as the descriptor and the record
      decoders share it. */
  class Cursor {
    const buf: seq<byte>
    var pos: nat

    ghost predicate Valid()
      reads this
    {
      pos <= |buf|
    }

    constructor (b: seq<byte>)
      ensures Valid() && buf == b && pos == 0
    {
      buf, pos := b, 0;
    }

    function Remaining(): nat
      requires Valid()
      reads this
    {
      |buf| - pos
    }

    method ByteAt() returns (b: byte, ok: bool)
      requires Valid()
      modifies this
      ensures Valid() && ok == (old(pos) < |buf|)
      ensures if ok then b == buf[old(pos)] && pos == old(pos) + 1 else pos == old(pos)
    {
      if Remaining() < 1 {
        return 0, false;
      }
      b, ok := buf[pos], true;
      pos := pos + 1;
    }

    method Bytes(n: nat) returns (raw: seq<byte>, ok: bool)
      requires Valid()
      modifies this
      ensures Valid() && ok == (n <= |buf| - old(pos))
      ensures if ok then raw == buf[old(pos)..old(pos) + n] && pos == old(pos) + n else raw == [] && pos == old(pos)
    {
      if Remaining() < n {
        return [], false;
      }
      raw, ok := buf[pos..pos + n], true;
      pos := pos + n;
    }

    method Uint32() returns (n: uint32, ok: bool)
      requires Valid()
      modifies this
      ensures Valid() && ok == (4 <= |buf| - old(pos))
      ensures if ok then n == GetUint32(buf[old(pos)..old(pos) + 4]) && pos == old(pos) + 4 else pos == old(pos)
    {
      var b;
      b, ok := Bytes(4);
      n := if ok then GetUint32(b) else 0;
    }
  }

  method ReadValueAt(c: Cursor, f: Field) returns (r: Result<Value>)
    requires c.Valid()
    modifies c
    ensures c.Valid()
    ensures match ReadValue(f, c.buf, old(c.pos))
            case Bad(e) => r == Err(e)
            case Got(v, next) => r == Ok(v) && c.pos == next
  {
    var width := f.kind.FixedWidth();
    if width.Some? {
      var raw, ok := c.Bytes(width.value);
      if !ok {
        return Err(Error(BadFormat, f.id));
      }
      var got := FixedValue(f, raw, c.pos);
      return if got.Got? then Ok(got.what) else Err(got.error);
    }
    var n, ok := c.Uint32();
    if !ok {
      return Err(Error(BadFormat, f.id));
    }
    var raw, whole := c.Bytes(n);
    if !whole {
      return Err(Error(BadFormat, f.id));
    }
    return Ok(if f.kind.String? then Text(raw) else Blob(raw));
  }

  ghost function After(front: seq<Value>, r: Read<seq<Value>>): Read<seq<Value>> {
    match r
    case Bad(e) => Bad(e)
    case Got(vs, next) => Got(front + vs, next)
  }

  /** Reads a payload back, advancing a cursor and filling the row in place. */
  method Decode(fields: seq<Field>, payload: seq<byte>) returns (r: Result<seq<Value>>)
    ensures r == DecodeSpec(fields, payload)
  {
    var c := new Cursor(payload);
    var version, ok := c.ByteAt();
    if !ok || version != ENCODING_VERSION {
      return Err(Error(BadFormat, 0));
    }
    var row := new Value[|fields|](_ => Null);
    AfterNothing(DecodeFrom(fields, 0, payload, 1));
    assert row[..0] == [];
    for i := 0 to |fields|
      invariant c.Valid() && c.buf == payload && fresh(c)
      invariant forall k :: i <= k < |fields| ==> row[k] == Null
      invariant DecodeFrom(fields, 0, payload, 1) == After(row[..i], DecodeFrom(fields, i, payload, c.pos))
    {
      var f := fields[i];
      ghost var before, was := row[..i], c.pos;
      ghost var whole := DecodeFrom(fields, i, payload, was);
      ghost var present := true;
      if !f.required {
        var flag, some := c.ByteAt();
        if !some {
          return Err(Error(BadFormat, 0));
        }
        if flag == 0 {
          present := false;
          Extends(before, Null, DecodeFrom(fields, i + 1, payload, c.pos));
          assert row[..i + 1] == before + [Null];
          continue;
        }
        if flag != 1 {
          return Err(Error(BadFormat, 0));
        }
      }
      var v := ReadValueAt(c, f);
      if v.Err? {
        return Err(v.error);
      }
      row[i] := v.value;
      Extends(before, v.value, DecodeFrom(fields, i + 1, payload, c.pos));
      assert row[..i + 1] == before + [v.value];
    }
    assert row[..|fields|] == row[..] && row[..] + [] == row[..];
    if c.Remaining() != 0 {
      return Err(Error(BadFormat, 0));
    }
    return Ok(row[..]);
  }

  lemma AfterNothing(r: Read<seq<Value>>)
    ensures After([], r) == r
  {
    if r.Got? {
      assert [] + r.what == r.what;
    }
  }

  lemma Extends(front: seq<Value>, v: Value, r: Read<seq<Value>>)
    ensures After(front, Cons(v, r)) == After(front + [v], r)
  {
    if r.Got? {
      assert front + ([v] + r.what) == front + [v] + r.what;
    }
  }

  // ------------------------------------------------------------- the theorems

  // The bytes b are found in buf at pos.
  predicate At(buf: seq<byte>, pos: nat, b: seq<byte>) {
    pos + |b| <= |buf| && buf[pos..pos + |b|] == b
  }

  lemma AtParts(buf: seq<byte>, pos: nat, a: seq<byte>, b: seq<byte>)
    requires At(buf, pos, a + b)
    ensures At(buf, pos, a) && At(buf, pos + |a|, b)
  {
    var whole := buf[pos..pos + |a + b|];
    assert whole[..|a|] == a && whole[|a|..] == b;
  }

  lemma AtJoin(buf: seq<byte>, pos: nat, a: seq<byte>, b: seq<byte>)
    requires At(buf, pos, a) && At(buf, pos + |a|, b)
    ensures At(buf, pos, a + b)
  {
    Join(buf, pos, pos + |a|, pos + |a| + |b|);
  }

  lemma FixedRoundTrip(f: Field, v: Value, next: nat)
    requires EncodeValue(f, v).Ok? && f.kind.FixedWidth().Some?
    ensures f.kind.FixedWidth() == Some(|EncodeValue(f, v).value|)
    ensures FixedValue(f, EncodeValue(f, v).value, next) == Got(v, next)
  {
    match v
    case I32(n) => Uint32ReadsBack(Bits32(n));
    case F32(bits) => Uint32ReadsBack(bits);
    case I64(n) => Uint64ReadsBack(Bits64(n));
    case F64(word) => Uint64ReadsBack(word);
    case _ =>
  }

  lemma ValueRoundTrip(f: Field, v: Value, buf: seq<byte>, pos: nat)
    requires EncodeValue(f, v).Ok? && At(buf, pos, EncodeValue(f, v).value)
    ensures ReadValue(f, buf, pos) == Got(v, pos + |EncodeValue(f, v).value|)
  {
    if f.kind.FixedWidth().Some? {
      FixedRoundTrip(f, v, pos + |EncodeValue(f, v).value|);
    } else {
      var raw := if v.Text? then v.chars else v.bytes;
      AtParts(buf, pos, PutUint32(|raw|), raw);
      Uint32ReadsBack(|raw|);
    }
  }

  lemma ColumnRoundTrip(f: Field, v: Value, buf: seq<byte>, pos: nat)
    requires EncodeColumn(f, v).Ok? && At(buf, pos, EncodeColumn(f, v).value)
    ensures ReadColumn(f, buf, pos) == Got(v, pos + |EncodeColumn(f, v).value|)
  {
    if v.Null? {
      AtParts(buf, pos, [0], []);
    } else if f.required {
      ValueRoundTrip(f, v, buf, pos);
    } else {
      AtParts(buf, pos, [1], EncodeValue(f, v).value);
      assert buf[pos..pos + 1][0] == 1;
      ValueRoundTrip(f, v, buf, pos + 1);
    }
  }

  lemma {:induction false} ColumnsRoundTrip(fields: seq<Field>, row: seq<Value>, i: nat, buf: seq<byte>, pos: nat)
    requires |row| == |fields| && i <= |fields| && EncodeFrom(fields, row, i).Ok?
    requires At(buf, pos, EncodeFrom(fields, row, i).value)
    ensures DecodeFrom(fields, i, buf, pos) == Got(row[i..], pos + |EncodeFrom(fields, row, i).value|)
    decreases |fields| - i
  {
    hide EncodeColumn, ReadColumn;
    if i < |fields| {
      var head := EncodeColumn(fields[i], row[i]).value;
      AtParts(buf, pos, head, EncodeFrom(fields, row, i + 1).value);
      ColumnRoundTrip(fields[i], row[i], buf, pos);
      ColumnsRoundTrip(fields, row, i + 1, buf, pos + |head|);
      assert row[i..] == [row[i]] + row[i + 1..];
    } else {
      assert row[i..] == [];
    }
  }

  /** Decoding an encoded row returns the row: no value is altered by the trip. */
  lemma DecodeUndoesEncode(fields: seq<Field>, row: seq<Value>)
    requires EncodeSpec(fields, row).Ok?
    ensures DecodeSpec(fields, EncodeSpec(fields, row).value) == Ok(row)
  {
    var payload := EncodeSpec(fields, row).value;
    assert At(payload, 1, EncodeFrom(fields, row, 0).value);
    ColumnsRoundTrip(fields, row, 0, payload, 1);
    assert row[0..] == row;
  }

  lemma FixedReprints(f: Field, raw: seq<byte>, next: nat)
    requires f.kind.FixedWidth() == Some(|raw|) && FixedValue(f, raw, next).Got?
    ensures EncodeValue(f, FixedValue(f, raw, next).what) == Ok(raw)
  {
    if f.kind.Boolean? {
      assert raw == [raw[0]];
    }
  }

  lemma ValueReprints(f: Field, buf: seq<byte>, pos: nat)
    requires pos <= |buf| && ReadValue(f, buf, pos).Got?
    ensures var r := ReadValue(f, buf, pos);
            EncodeValue(f, r.what) == Ok(buf[pos..r.next])
  {
    match f.kind.FixedWidth()
    case Some(width) => FixedReprints(f, buf[pos..pos + width], pos + width);
    case None =>
      var n := GetUint32(buf[pos..pos + 4]);
      Join(buf, pos, pos + 4, pos + 4 + n);
  }

  lemma ColumnReprints(f: Field, buf: seq<byte>, pos: nat)
    requires pos <= |buf| && ReadColumn(f, buf, pos).Got?
    ensures var r := ReadColumn(f, buf, pos);
            EncodeColumn(f, r.what) == Ok(buf[pos..r.next])
  {
    var r := ReadColumn(f, buf, pos);
    if f.required {
      ValueReprints(f, buf, pos);
    } else {
      assert buf[pos..pos + 1] == [buf[pos]];
      if buf[pos] == 1 {
        ValueReprints(f, buf, pos + 1);
        Join(buf, pos, pos + 1, r.next);
      }
    }
  }

  lemma {:induction false} ColumnsReprint(fields: seq<Field>, row: seq<Value>, i: nat, buf: seq<byte>, pos: nat)
    requires i <= |fields| == |row| && pos <= |buf|
    requires DecodeFrom(fields, i, buf, pos).Got? && DecodeFrom(fields, i, buf, pos).what == row[i..]
    ensures EncodeFrom(fields, row, i) == Ok(buf[pos..DecodeFrom(fields, i, buf, pos).next])
    decreases |fields| - i
  {
    if i < |fields| {
      var col := ReadColumn(fields[i], buf, pos);
      var rest := DecodeFrom(fields, i + 1, buf, col.next);
      assert row[i..][0] == row[i] == col.what && row[i..][1..] == row[i + 1..] == rest.what;
      ColumnReprints(fields[i], buf, pos);
      ColumnsReprint(fields, row, i + 1, buf, col.next);
      Join(buf, pos, col.next, rest.next);
    } else {
      assert buf[pos..pos] == [];
    }
  }

  /** Re-encoding any payload that decodes returns the same bytes: a row has one spelling. */
  lemma EncodeUndoesDecode(fields: seq<Field>, payload: seq<byte>)
    requires DecodeSpec(fields, payload).Ok?
    ensures EncodeSpec(fields, DecodeSpec(fields, payload).value) == Ok(payload)
  {
    var row := DecodeSpec(fields, payload).value;
    assert row[0..] == row;
    ColumnsReprint(fields, row, 0, payload, 1);
    assert payload == [payload[0]] + payload[1..|payload|];
  }

  /** Decoding is injective: under one shape, one row has one payload. */
  lemma PayloadDeterminedByRow(fields: seq<Field>, p: seq<byte>, q: seq<byte>)
    requires DecodeSpec(fields, p).Ok? && DecodeSpec(fields, p) == DecodeSpec(fields, q)
    ensures p == q
  {
    EncodeUndoesDecode(fields, p);
    EncodeUndoesDecode(fields, q);
  }

  lemma ColumnStable(f: Field, p: seq<byte>, q: seq<byte>, pos: nat)
    requires pos <= |p| && p <= q && ReadColumn(f, p, pos).Got?
    ensures ReadColumn(f, q, pos) == ReadColumn(f, p, pos)
  {
    var next := ReadColumn(f, p, pos).next;
    forall a, b | 0 <= a <= b <= |p|
      ensures p[a..b] == q[a..b]
    {
    }
  }

  lemma {:induction false} ColumnsStable(fields: seq<Field>, i: nat, p: seq<byte>, q: seq<byte>, pos: nat)
    requires i <= |fields| && pos <= |p| && p <= q && DecodeFrom(fields, i, p, pos).Got?
    ensures DecodeFrom(fields, i, q, pos) == DecodeFrom(fields, i, p, pos)
    decreases |fields| - i
  {
    if i < |fields| {
      ColumnStable(fields[i], p, q, pos);
      ColumnsStable(fields, i + 1, p, q, ReadColumn(fields[i], p, pos).next);
    }
  }

  /** Under one shape no valid payload is a proper prefix of another. */
  lemma PrefixFree(fields: seq<Field>, p: seq<byte>, q: seq<byte>)
    requires DecodeSpec(fields, p).Ok? && DecodeSpec(fields, q).Ok? && p <= q
    ensures p == q
  {
    ColumnsStable(fields, 0, p, q, 1);
  }

  // ------------------------------------------------- which rows encode, and which fail

  // A value its column can hold.
  predicate Writable(f: Field, v: Value) {
    if v.Null? then !f.required
    else match f.kind
      case Boolean => v.Bool?
      case Int => v.I32?
      case Float => v.F32?
      case Double => v.F64?
      case String => v.Text? && |v.chars| < TWO_32
      case Binary => v.Blob? && |v.bytes| < TWO_32
      case _ => v.I64?
  }

  lemma ColumnWritable(f: Field, v: Value)
    ensures EncodeColumn(f, v).Ok? <==> Writable(f, v)
    ensures EncodeColumn(f, v).Err? ==> EncodeColumn(f, v) == Err(Error(BadValue, f.id))
  {
  }

  lemma {:induction false} EncodesFrom(fields: seq<Field>, row: seq<Value>, i: nat) returns (k: nat)
    requires |row| == |fields| && i <= |fields| && forall j | 0 <= j < i :: Writable(fields[j], row[j])
    ensures EncodeFrom(fields, row, i).Ok? ==> forall j | 0 <= j < |fields| :: Writable(fields[j], row[j])
    ensures EncodeFrom(fields, row, i).Err? ==>
              k < |fields| && !Writable(fields[k], row[k]) && (forall j | 0 <= j < k :: Writable(fields[j], row[j]))
              && EncodeFrom(fields, row, i) == Err(Error(BadValue, fields[k].id))
    decreases |fields| - i
  {
    hide EncodeColumn, Writable;
    k := i;
    if i < |fields| {
      ColumnWritable(fields[i], row[i]);
      if Writable(fields[i], row[i]) {
        k := EncodesFrom(fields, row, i + 1);
      }
    }
  }

  /** A row encodes if and only if it has a value for each column that the column can
      hold; it is refused for its length first, and then for the first that cannot. */
  lemma RowsEncodeIff(fields: seq<Field>, row: seq<Value>)
    ensures var r := EncodeSpec(fields, row);
            && (|row| != |fields| ==> r == Err(Error(BadValue, 0)))
            && (r.Ok? <==> |row| == |fields| && forall j | 0 <= j < |fields| :: Writable(fields[j], row[j]))
            && (|row| == |fields| && r.Err? ==>
                  exists k :: 0 <= k < |fields| && !Writable(fields[k], row[k])
                              && r == Err(Error(BadValue, fields[k].id))
                              && forall j | 0 <= j < k :: Writable(fields[j], row[j]))
  {
    hide EncodeFrom, Writable;
    if |row| == |fields| {
      var k := EncodesFrom(fields, row, 0);
    }
  }

  lemma {:induction false} DecodesOrMalformed(fields: seq<Field>, i: nat, buf: seq<byte>, pos: nat)
    requires i <= |fields| && pos <= |buf|
    ensures DecodeFrom(fields, i, buf, pos).Bad? ==>
              var e := DecodeFrom(fields, i, buf, pos).error;
              e.kind == BadFormat && (e.fieldId == 0 || exists k :: i <= k < |fields| && e.fieldId == fields[k].id)
    decreases |fields| - i
  {
    if i < |fields| && ReadColumn(fields[i], buf, pos).Got? {
      DecodesOrMalformed(fields, i + 1, buf, ReadColumn(fields[i], buf, pos).next);
    }
  }

  /** A payload that does not decode is malformed, as a whole or at one of its columns;
      an empty one, and one of another version, as a whole. */
  lemma PayloadsAreMalformed(fields: seq<Field>, payload: seq<byte>)
    requires DecodeSpec(fields, payload).Err?
    ensures var e := DecodeSpec(fields, payload).error;
            && e.kind == BadFormat && (e.fieldId == 0 || exists k :: 0 <= k < |fields| && e.fieldId == fields[k].id)
            && (payload == [] || payload[0] != 1 ==> e.fieldId == 0)
  {
    hide DecodeFrom;
    if payload != [] {
      DecodesOrMalformed(fields, 0, payload, 1);
    }
  }
}
