/** The recorded schema shape: internal/canon/descriptor.go. */
module Descriptor {
  // A shape is built from a table's columns, serialised once, stored, and parsed
  // back by binaries that no longer hold the declaration it came from.

  import opened Bytes
  import opened Record

  /** The column types a table can be declared with; `OtherType` stands for every
      type the canonical encoding has no representation for. */
  datatype ColumnType =
    | BooleanType | Int32Type | Int64Type | Float32Type | Float64Type
    | StringType | BinaryType | TimestampTzType
    | DecimalType(precision: int, scale: int)
    | OtherType

  datatype Column = Column(id: int, name: seq<byte>, typ: ColumnType, required: bool)

  datatype Shape = Shape(fields: seq<Field>)

  const DESCRIPTOR_VERSION: byte := 1
  const MAX_ID := TWO_31 - 1
  const MAX_PRECISION := 18

  function Tag(k: Kind): byte {
    match k
    case Boolean => 1
    case Int => 2
    case Long => 3
    case Float => 4
    case Double => 5
    case Decimal => 6
    case TimestampTz => 7
    case String => 8
    case Binary => 9
  }

  function KnownKind(tag: byte): (k: Option<Kind>)
    ensures k.Some? ==> Tag(k.value) == tag
    ensures k.None? <==> tag == 0 || tag > 9
  {
    if tag == 1 then Some(Boolean) else if tag == 2 then Some(Int) else if tag == 3 then Some(Long)
    else if tag == 4 then Some(Float) else if tag == 5 then Some(Double) else if tag == 6 then Some(Decimal)
    else if tag == 7 then Some(TimestampTz) else if tag == 8 then Some(String) else if tag == 9 then Some(Binary)
    else None
  }

  predicate ValidField(f: Field) {
    && 1 <= f.id <= MAX_ID
    && 1 <= |f.name| <= MAX_VALUE_BYTES
    && (if f.kind.Decimal? then 1 <= f.precision <= MAX_PRECISION && 0 <= f.scale <= f.precision
        else f.precision == 0 && f.scale == 0)
  }

  predicate AllValid(fields: seq<Field>) {
    forall f | f in fields :: ValidField(f)
  }

  predicate Ascending(fields: seq<Field>) {
    forall i, j | 0 <= i < j < |fields| :: fields[i].id < fields[j].id
  }

  // What both constructors guarantee of a shape.
  predicate ValidShape(d: Shape) {
    1 <= |d.fields| <= MAX_VALUE_BYTES && AllValid(d.fields) && Ascending(d.fields)
  }

  function Unsupported<T>(id: int): Result<T> { Err(Error(UnsupportedType, id)) }

  function DescribeField(c: Column): Result<Field> {
    var f := (k: Kind, p: int, s: int) => Ok(Field(c.id, c.name, k, p, s, c.required));
    match c.typ
    case BooleanType => f(Boolean, 0, 0)
    case Int32Type => f(Int, 0, 0)
    case Int64Type => f(Long, 0, 0)
    case Float32Type => f(Float, 0, 0)
    case Float64Type => f(Double, 0, 0)
    case StringType => f(String, 0, 0)
    case BinaryType => f(Binary, 0, 0)
    case TimestampTzType => f(TimestampTz, 0, 0)
    case DecimalType(p, s) => f(Decimal, p, s)
    case OtherType => Unsupported(c.id)
  }

  // The first field NewDescriptor's checks refuse, if any.
  function FirstInvalid(fields: seq<Field>): (r: Option<int>)
    ensures r.None? <==> AllValid(fields)
  {
    if fields == [] then None
    else if !ValidField(fields[0]) then Some(fields[0].id)
    else
      assert fields == [fields[0]] + fields[1..];
      FirstInvalid(fields[1..])
  }

  function NewDescriptor(fields: seq<Field>): Result<Shape> {
    if |fields| > MAX_VALUE_BYTES then Unsupported(0)
    else match FirstInvalid(fields)
      case Some(id) => Unsupported(id)
      case None => Ok(Shape(fields))
  }

  // ------------------------------------------------- construction from columns

  function DescribeAll(src: seq<Column>): Result<seq<Field>> {
    if src == [] then Ok([])
    else match DescribeField(src[0])
      case Err(e) => Err(e)
      case Ok(f) =>
        match DescribeAll(src[1..])
        case Err(e) => Err(e)
        case Ok(rest) => Ok([f] + rest)
  }

  function Insert(f: Field, sorted: seq<Field>): (r: seq<Field>)
    ensures multiset(r) == multiset(sorted) + multiset{f}
  {
    if sorted == [] then [f]
    else if f.id <= sorted[0].id then [f] + sorted
    else
      assert sorted == [sorted[0]] + sorted[1..];
      [sorted[0]] + Insert(f, sorted[1..])
  }

  // Stands for the library's sort by id.
  function SortById(fields: seq<Field>): (r: seq<Field>)
    ensures multiset(r) == multiset(fields)
  {
    if fields == [] then []
    else
      assert fields == [fields[0]] + fields[1..];
      Insert(fields[0], SortById(fields[1..]))
  }

  predicate NonDescending(fields: seq<Field>) {
    forall i, j | 0 <= i < j < |fields| :: fields[i].id <= fields[j].id
  }

  lemma {:induction false} InsertKeepsOrder(f: Field, sorted: seq<Field>)
    requires NonDescending(sorted)
    ensures NonDescending(Insert(f, sorted))
  {
    if sorted != [] && sorted[0].id < f.id {
      InsertKeepsOrder(f, sorted[1..]);
      var r := Insert(f, sorted[1..]);
      forall k | 0 <= k < |r|
        ensures sorted[0].id <= r[k].id
      {
        assert r[k] in multiset(r);
        assert r[k] == f || r[k] in sorted[1..];
      }
    }
  }

  lemma {:induction false} SortSorts(fields: seq<Field>)
    ensures NonDescending(SortById(fields)) && multiset(SortById(fields)) == multiset(fields)
  {
    if fields != [] {
      SortSorts(fields[1..]);
      InsertKeepsOrder(fields[0], SortById(fields[1..]));
    }
  }

  // The position of the first column repeating its predecessor's id.
  function FirstRepeat(fields: seq<Field>, i: nat): Option<nat>
    requires 1 <= i
    decreases |fields| - i
  {
    if i >= |fields| then None
    else if fields[i].id == fields[i - 1].id then Some(i)
    else FirstRepeat(fields, i + 1)
  }

  function FromFieldsSpec(src: seq<Column>): Result<Shape> {
    if src == [] then Unsupported(0)
    else match DescribeAll(src)
      case Err(e) => Err(e)
      case Ok(fields) =>
        var sorted := SortById(fields);
        match FirstRepeat(sorted, 1)
        case Some(i) => if i < |sorted| then Unsupported(sorted[i].id) else Unsupported(0)
        case None => NewDescriptor(sorted)
  }

  method FromFields(src: seq<Column>) returns (r: Result<Shape>)
    ensures r == FromFieldsSpec(src)
  {
    if |src| == 0 {
      return Unsupported(0);
    }
    var fields: seq<Field> := [];
    assert src[0..] == src;
    assert DescribeAll(src).Ok? ==> [] + DescribeAll(src).value == DescribeAll(src).value;
    for k := 0 to |src|
      invariant match DescribeAll(src[k..])
                case Err(e) => DescribeAll(src) == Err(e)
                case Ok(rest) => DescribeAll(src) == Ok(fields + rest)
    {
      assert src[k..][0] == src[k] && src[k..][1..] == src[k + 1..];
      var f := DescribeField(src[k]);
      if f.Err? {
        return Err(f.error);
      }
      ghost var rest := DescribeAll(src[k + 1..]);
      if rest.Ok? {
        assert fields + ([f.value] + rest.value) == fields + [f.value] + rest.value;
      }
      fields := fields + [f.value];
    }
    assert fields + [] == fields;
    fields := SortById(fields);
    for i := 1 to |fields|
      invariant FirstRepeat(fields, 1) == FirstRepeat(fields, i)
    {
      if fields[i].id == fields[i - 1].id {
        return Unsupported(fields[i].id);
      }
    }
    return NewDescriptor(fields);
  }

  // -------------------------------------------------------------- serialisation

  function DecimalPart(f: Field): seq<byte>
    requires ValidField(f)
  {
    if f.kind.Decimal? then [f.precision, f.scale] else []
  }

  function FieldFlags(f: Field): byte { if f.required then 1 else 0 }

  function HeadBytes(f: Field): (b: seq<byte>)
    requires ValidField(f)
    ensures |b| >= 6
  {
    PutUint32(f.id) + ([Tag(f.kind), FieldFlags(f)] + DecimalPart(f))
  }

  function NameBytes(f: Field): (b: seq<byte>)
    requires ValidField(f)
    ensures |b| == 4 + |f.name|
  {
    PutUint32(|f.name|) + f.name
  }

  function EncodeField(f: Field): (b: seq<byte>)
    requires ValidField(f)
    ensures |b| >= 11
  {
    HeadBytes(f) + NameBytes(f)
  }

  function EncodeFieldsFrom(fields: seq<Field>, i: nat): (b: seq<byte>)
    requires AllValid(fields) && i <= |fields|
    ensures |b| >= |fields| - i
    decreases |fields| - i
  {
    if i == |fields| then [] else EncodeField(fields[i]) + EncodeFieldsFrom(fields, i + 1)
  }

  function Serialized(d: Shape): seq<byte>
    requires AllValid(d.fields) && |d.fields| <= MAX_VALUE_BYTES
  {
    [DESCRIPTOR_VERSION] + (PutUint32(|d.fields|) + EncodeFieldsFrom(d.fields, 0))
  }

  // The bytes EncodeDescriptor appends for one column, piece by piece.
  lemma FieldPieces(out: seq<byte>, f: Field)
    requires ValidField(f)
    ensures out + EncodeField(f) ==
            out + PutUint32(f.id) + [Tag(f.kind)] + [FieldFlags(f)] + DecimalPart(f) + PutUint32(|f.name|) + f.name
  {
    hide PutUint32;
  }

  method AppendField(out: seq<byte>, f: Field) returns (r: seq<byte>)
    requires ValidField(f)
    ensures r == out + EncodeField(f)
  {
    r := out + PutUint32(f.id);
    r := r + [Tag(f.kind)];
    var flags: byte := 0;
    if f.required {
      flags := 1;
    }
    r := r + [flags];
    ghost var flagged := r;
    if f.kind.Decimal? {
      r := r + [f.precision, f.scale];
    }
    assert r == flagged + DecimalPart(f);
    r := r + PutUint32(|f.name|);
    r := r + f.name;
    FieldPieces(out, f);
  }

  method EncodeDescriptor(fields: seq<Field>) returns (out: seq<byte>)
    requires AllValid(fields) && |fields| <= MAX_VALUE_BYTES
    ensures out == Serialized(Shape(fields))
  {
    hide EncodeField;
    out := [DESCRIPTOR_VERSION];
    out := out + PutUint32(|fields|);
    ghost var head := out;
    for i := 0 to |fields|
      invariant out + EncodeFieldsFrom(fields, i) == head + EncodeFieldsFrom(fields, 0)
    {
      assert fields[i] in fields;
      ghost var before := out;
      out := AppendField(out, fields[i]);
      assert before + (EncodeField(fields[i]) + EncodeFieldsFrom(fields, i + 1)) ==
             out + EncodeFieldsFrom(fields, i + 1);
    }
    assert out + [] == out;
  }

  function ReadName(f: Field, b: seq<byte>, pos: nat): (r: Read<Field>)
    requires pos <= |b|
    ensures r.Got? ==> pos + 4 <= r.next <= |b|
  {
    if |b| - pos < 4 then Bad(Error(BadFormat, 0))
    else
      var n := GetUint32(b[pos..pos + 4]);
      if |b| - (pos + 4) < n then Bad(Error(BadFormat, 0))
      else Got(f.(name := b[pos + 4..pos + 4 + n]), pos + 4 + n)
  }

  // A column up to its name; its id must follow the previous column's.
  function ReadHead(b: seq<byte>, pos: nat, prev: int): (r: Read<Field>)
    requires pos <= |b|
    ensures r.Got? ==> pos < r.next <= |b|
  {
    var bad := Bad(Error(BadFormat, 0));
    if |b| - pos < 4 then bad
    else
      var id := GetUint32(b[pos..pos + 4]);
      if id < 1 || id > MAX_ID || id <= prev || |b| < pos + 5 then bad
      else match KnownKind(b[pos + 4])
        case None => bad
        case Some(kind) =>
          if |b| < pos + 6 || b[pos + 5] > 1 then bad
          else
            var required := b[pos + 5] == 1;
            if !kind.Decimal? then Got(Field(id, [], kind, 0, 0, required), pos + 6)
            else if |b| < pos + 8 then bad
            else Got(Field(id, [], kind, b[pos + 6], b[pos + 7], required), pos + 8)
  }

  function ReadField(b: seq<byte>, pos: nat, prev: int): (r: Read<Field>)
    requires pos <= |b|
    ensures r.Got? ==> pos < r.next <= |b|
  {
    match ReadHead(b, pos, prev)
    case Bad(e) => Bad(e)
    case Got(f, at) => ReadName(f, b, at)
  }

  function ConsField(f: Field, r: Read<seq<Field>>): Read<seq<Field>> {
    match r
    case Bad(e) => Bad(e)
    case Got(fs, next) => Got([f] + fs, next)
  }

  function ReadFields(b: seq<byte>, pos: nat, count: nat, prev: int): (r: Read<seq<Field>>)
    requires pos <= |b|
    ensures r.Got? ==> |r.what| == count && pos <= r.next <= |b|
    decreases count
  {
    if count == 0 then Got([], pos)
    else match ReadField(b, pos, prev)
      case Bad(e) => Bad(e)
      case Got(f, next) => ConsField(f, ReadFields(b, next, count - 1, f.id))
  }

  function DecodeSpec(b: seq<byte>): Result<seq<Field>> {
    if |b| < 1 || b[0] != DESCRIPTOR_VERSION || |b| < 5 then Err(Error(BadFormat, 0))
    else
      var count := GetUint32(b[1..5]);
      if count == 0 || count > |b| - 5 then Err(Error(BadFormat, 0))
      else match ReadFields(b, 5, count, 0)
        case Bad(e) => Err(e)
        case Got(fields, next) => if next == |b| then Ok(fields) else Err(Error(BadFormat, 0))
  }

  ghost function AfterFields(front: seq<Field>, r: Read<seq<Field>>): Read<seq<Field>> {
    match r
    case Bad(e) => Bad(e)
    case Got(fs, next) => Got(front + fs, next)
  }

  lemma FieldsExtend(front: seq<Field>, f: Field, r: Read<seq<Field>>)
    ensures AfterFields(front, ConsField(f, r)) == AfterFields(front + [f], r)
    ensures AfterFields([], r) == r
  {
    if r.Got? {
      assert front + ([f] + r.what) == front + [f] + r.what;
      assert [] + r.what == r.what;
    }
  }

  method ReadFieldAt(c: Cursor, prev: int) returns (r: Result<Field>)
    requires c.Valid()
    modifies c
    ensures c.Valid()
    ensures match ReadField(c.buf, old(c.pos), prev)
            case Bad(e) => r == Err(e)
            case Got(f, next) => r == Ok(f) && c.pos == next
  {
    var bad := Err(Error(BadFormat, 0));
    var id, ok := c.Uint32();
    if !ok || id < 1 || id > MAX_ID || id <= prev {
      return bad;
    }
    var tag;
    tag, ok := c.ByteAt();
    if !ok || KnownKind(tag).None? {
      return bad;
    }
    var kind := KnownKind(tag).value;
    var flags;
    flags, ok := c.ByteAt();
    if !ok || flags > 1 {
      return bad;
    }
    var precision, scale: byte := 0, 0;
    if kind.Decimal? {
      precision, ok := c.ByteAt();
      if !ok {
        return bad;
      }
      scale, ok := c.ByteAt();
      if !ok {
        return bad;
      }
    }
    var n;
    n, ok := c.Uint32();
    if !ok {
      return bad;
    }
    var name;
    name, ok := c.Bytes(n);
    if !ok {
      return bad;
    }
    return Ok(Field(id, name, kind, precision, scale, flags == 1));
  }

  method DecodeDescriptor(b: seq<byte>) returns (r: Result<seq<Field>>)
    ensures r == DecodeSpec(b)
  {
    var c := new Cursor(b);
    var version, ok := c.ByteAt();
    if !ok || version != DESCRIPTOR_VERSION {
      return Err(Error(BadFormat, 0));
    }
    var count;
    count, ok := c.Uint32();
    if !ok || count == 0 || count > c.Remaining() {
      return Err(Error(BadFormat, 0));
    }
    var fields: seq<Field> := [];
    var prev := 0;
    FieldsExtend([], Field(0, [], Boolean, 0, 0, false), ReadFields(b, 5, count, 0));
    for i := 0 to count
      invariant c.Valid() && c.buf == b && fresh(c)
      invariant ReadFields(b, 5, count, 0) == AfterFields(fields, ReadFields(b, c.pos, count - i, prev))
    {
      ghost var was := c.pos;
      var f := ReadFieldAt(c, prev);
      if f.Err? {
        return Err(f.error);
      }
      FieldsExtend(fields, f.value, ReadFields(b, c.pos, count - i - 1, f.value.id));
      prev := f.value.id;
      fields := fields + [f.value];
    }
    assert fields + [] == fields;
    if c.Remaining() != 0 {
      return Err(Error(BadFormat, 0));
    }
    return Ok(fields);
  }

  function ParseSpec(b: seq<byte>): Result<Shape> {
    match DecodeSpec(b)
    case Err(e) => Err(e)
    case Ok(fields) =>
      match NewDescriptor(fields)
      case Err(e) => Err(e)
      case Ok(d) => if Serialized(d) == b then Ok(d) else Err(Error(BadFormat, 0))
  }

  method ParseDescriptor(b: seq<byte>) returns (r: Result<Shape>)
    ensures r == ParseSpec(b)
  {
    var fields := DecodeDescriptor(b);
    if fields.Err? {
      return Err(fields.error);
    }
    var d := NewDescriptor(fields.value);
    if d.Err? {
      return d;
    }
    var encoded := EncodeDescriptor(fields.value);
    return if encoded == b then d else Err(Error(BadFormat, 0));
  }

  // ------------------------------------------------------------- the theorems

  lemma NameRoundTrip(f: Field, b: seq<byte>, pos: nat)
    requires ValidField(f) && At(b, pos, NameBytes(f))
    ensures ReadName(f.(name := []), b, pos) == Got(f, pos + |NameBytes(f)|)
  {
    AtParts(b, pos, PutUint32(|f.name|), f.name);
    Uint32ReadsBack(|f.name|);
  }

  lemma HeadRoundTrip(f: Field, b: seq<byte>, pos: nat, prev: int)
    requires ValidField(f) && prev < f.id && At(b, pos, HeadBytes(f))
    ensures ReadHead(b, pos, prev) == Got(f.(name := []), pos + |HeadBytes(f)|)
  {
    hide PutUint32, GetUint32;
    var flags := [Tag(f.kind), FieldFlags(f)];
    AtParts(b, pos, PutUint32(f.id), flags + DecimalPart(f));
    AtParts(b, pos + 4, flags, DecimalPart(f));
    assert b[pos + 4..pos + 6] == flags;
    assert b[pos + 4] == flags[0] && b[pos + 5] == flags[1];
    if f.kind.Decimal? {
      assert b[pos + 6..pos + 8] == DecimalPart(f);
      assert b[pos + 6] == f.precision && b[pos + 7] == f.scale;
    }
    Uint32ReadsBack(f.id);
  }

  lemma FieldRoundTrip(f: Field, b: seq<byte>, pos: nat, prev: int)
    requires ValidField(f) && prev < f.id && At(b, pos, EncodeField(f))
    ensures ReadField(b, pos, prev) == Got(f, pos + |EncodeField(f)|)
  {
    hide ReadName, ReadHead, HeadBytes, NameBytes;
    AtParts(b, pos, HeadBytes(f), NameBytes(f));
    HeadRoundTrip(f, b, pos, prev);
    NameRoundTrip(f, b, pos + |HeadBytes(f)|);
  }

  lemma {:induction false} FieldsRoundTrip(fields: seq<Field>, i: nat, b: seq<byte>, pos: nat, prev: int)
    requires AllValid(fields) && Ascending(fields) && i <= |fields| && At(b, pos, EncodeFieldsFrom(fields, i))
    requires i < |fields| ==> prev < fields[i].id
    ensures ReadFields(b, pos, |fields| - i, prev) == Got(fields[i..], pos + |EncodeFieldsFrom(fields, i)|)
    decreases |fields| - i
  {
    hide ReadField, EncodeField;
    if i < |fields| {
      var f := fields[i];
      AtParts(b, pos, EncodeField(f), EncodeFieldsFrom(fields, i + 1));
      FieldRoundTrip(f, b, pos, prev);
      FieldsRoundTrip(fields, i + 1, b, pos + |EncodeField(f)|, f.id);
      assert fields[i..] == [f] + fields[i + 1..];
    } else {
      assert fields[i..] == [];
    }
  }

  /** Every shape parses back from its own bytes to itself. */
  lemma ParseUndoesSerialize(d: Shape)
    requires ValidShape(d)
    ensures ParseSpec(Serialized(d)) == Ok(d)
  {
    hide EncodeFieldsFrom, ReadFields, PutUint32, GetUint32;
    var b := Serialized(d);
    var columns := EncodeFieldsFrom(d.fields, 0);
    assert At(b, 1, PutUint32(|d.fields|) + columns);
    AtParts(b, 1, PutUint32(|d.fields|), columns);
    Uint32ReadsBack(|d.fields|);
    assert d.fields[0] in d.fields;
    FieldsRoundTrip(d.fields, 0, b, 5, 0);
    assert d.fields[0..] == d.fields;
  }

  lemma NameReprints(f: Field, b: seq<byte>, pos: nat)
    requires pos <= |b| && ReadName(f, b, pos).Got? && ValidField(ReadName(f, b, pos).what)
    ensures var r := ReadName(f, b, pos);
            && r.what == f.(name := r.what.name)
            && r.next == pos + |NameBytes(r.what)| && At(b, pos, NameBytes(r.what))
  {
    var name := ReadName(f, b, pos).what.name;
    AtJoin(b, pos, PutUint32(|name|), name);
  }

  lemma HeadReprints(b: seq<byte>, pos: nat, prev: int, name: seq<byte>)
    requires pos <= |b| && ReadHead(b, pos, prev).Got? && ValidField(ReadHead(b, pos, prev).what.(name := name))
    ensures var r := ReadHead(b, pos, prev);
            var f := r.what.(name := name);
            r.next == pos + |HeadBytes(f)| && At(b, pos, HeadBytes(f)) && prev < f.id
  {
    hide PutUint32, GetUint32;
    var r := ReadHead(b, pos, prev);
    var f := r.what.(name := name);
    assert b[pos + 4..pos + 6] == [Tag(f.kind), FieldFlags(f)];
    assert b[pos + 6..r.next] == DecimalPart(f);
    AtJoin(b, pos + 4, [Tag(f.kind), FieldFlags(f)], DecimalPart(f));
    AtJoin(b, pos, PutUint32(f.id), [Tag(f.kind), FieldFlags(f)] + DecimalPart(f));
  }

  lemma FieldReprints(b: seq<byte>, pos: nat, prev: int)
    requires pos <= |b| && ReadField(b, pos, prev).Got? && ValidField(ReadField(b, pos, prev).what)
    ensures var r := ReadField(b, pos, prev);
            At(b, pos, EncodeField(r.what)) && r.next == pos + |EncodeField(r.what)| && prev < r.what.id
  {
    hide ReadHead, ReadName, HeadBytes, NameBytes;
    var f := ReadField(b, pos, prev).what;
    var head := ReadHead(b, pos, prev);
    NameReprints(head.what, b, head.next);
    HeadReprints(b, pos, prev, f.name);
    AtJoin(b, pos, HeadBytes(f), NameBytes(f));
  }

  lemma {:induction false} FieldsAscend(b: seq<byte>, pos: nat, count: nat, prev: int)
    requires pos <= |b| && ReadFields(b, pos, count, prev).Got? && AllValid(ReadFields(b, pos, count, prev).what)
    ensures var r := ReadFields(b, pos, count, prev).what;
            Ascending(r) && (forall f | f in r :: prev < f.id)
    decreases count
  {
    hide ReadField, EncodeField, ValidField;
    if count > 0 {
      var one := ReadField(b, pos, prev);
      var all := ReadFields(b, pos, count, prev).what;
      var rest := ReadFields(b, one.next, count - 1, one.what.id).what;
      assert all == [one.what] + rest;
      assert one.what in all && forall f | f in rest :: f in all;
      FieldReprints(b, pos, prev);
      FieldsAscend(b, one.next, count - 1, one.what.id);
      forall j | 0 < j < |all|
        ensures one.what.id < all[j].id
      {
        assert all[j] == rest[j - 1] && rest[j - 1] in rest;
      }
    }
  }

  lemma {:induction false} FieldsReprint(b: seq<byte>, pos: nat, count: nat, prev: int)
    requires pos <= |b| && ReadFields(b, pos, count, prev).Got? && AllValid(ReadFields(b, pos, count, prev).what)
    ensures var r := ReadFields(b, pos, count, prev);
            EncodeFieldsFrom(r.what, 0) == b[pos..r.next]
    decreases count
  {
    hide ReadField, EncodeField, ValidField;
    if count > 0 {
      var one := ReadField(b, pos, prev);
      var all := ReadFields(b, pos, count, prev);
      var rest := ReadFields(b, one.next, count - 1, one.what.id);
      assert all.what == [one.what] + rest.what && all.what[1..] == rest.what;
      assert one.what in all.what && forall f | f in rest.what :: f in all.what;
      FieldReprints(b, pos, prev);
      FieldsReprint(b, one.next, count - 1, one.what.id);
      Shifted(all.what, rest.what, 0);
      Join(b, pos, one.next, all.next);
    } else {
      assert b[pos..pos] == [];
    }
  }

  lemma {:induction false} Shifted(all: seq<Field>, rest: seq<Field>, i: nat)
    requires all != [] && all[1..] == rest && AllValid(all) && AllValid(rest) && i <= |rest|
    ensures EncodeFieldsFrom(all, i + 1) == EncodeFieldsFrom(rest, i)
    decreases |rest| - i
  {
    if i < |rest| {
      Shifted(all, rest, i + 1);
    }
  }

  /** Every byte string that decodes into acceptable columns is already in
      canonical form, so the guard in ParseDescriptor never fires. */
  lemma CanonicalGuardNeverFires(b: seq<byte>)
    requires DecodeSpec(b).Ok? && NewDescriptor(DecodeSpec(b).value).Ok?
    ensures Serialized(Shape(DecodeSpec(b).value)) == b
    ensures ValidShape(Shape(DecodeSpec(b).value))
    ensures ParseSpec(b) == Ok(Shape(DecodeSpec(b).value))
  {
    hide ReadFields, EncodeFieldsFrom, PutUint32, GetUint32, FirstInvalid;
    FieldsReprint(b, 5, GetUint32(b[1..5]), 0);
    FieldsAscend(b, 5, GetUint32(b[1..5]), 0);
    Join(b, 1, 5, |b|);
    Join(b, 0, 1, |b|);
    assert b[0..|b|] == b && b[0..1] == [DESCRIPTOR_VERSION];
  }

  /** Distinct shapes never share bytes. */
  lemma SerializedDeterminesShape(d: Shape, e: Shape)
    requires ValidShape(d) && ValidShape(e) && Serialized(d) == Serialized(e)
    ensures d == e
  {
    ParseUndoesSerialize(d);
    ParseUndoesSerialize(e);
  }

  lemma {:induction false} NoRepeat(fields: seq<Field>, i: nat)
    requires 1 <= i && NonDescending(fields)
    requires forall j, k | 0 <= j < k < i && k < |fields| :: fields[j].id < fields[k].id
    ensures FirstRepeat(fields, i).None? <==> Ascending(fields)
    ensures FirstRepeat(fields, i).Some? ==> FirstRepeat(fields, i).value < |fields|
    decreases |fields| - i
  {
    if i < |fields| {
      if fields[i].id != fields[i - 1].id {
        forall j | 0 <= j < i
          ensures fields[j].id < fields[i].id
        {
          assert fields[j].id <= fields[i - 1].id;
        }
        NoRepeat(fields, i + 1);
      }
    }
  }

  /** Both constructors build valid shapes only. */
  lemma FromFieldsIsValid(src: seq<Column>)
    requires FromFieldsSpec(src).Ok?
    ensures ValidShape(FromFieldsSpec(src).value)
  {
    var fields := DescribeAll(src).value;
    SortSorts(fields);
    NoRepeat(SortById(fields), 1);
    DescribedIsImage(src);
    assert |multiset(SortById(fields))| == |multiset(fields)|;
  }

  /** A shape built from columns survives being stored and parsed back. */
  lemma BuiltShapeParsesBack(src: seq<Column>)
    requires FromFieldsSpec(src).Ok?
    ensures ParseSpec(Serialized(FromFieldsSpec(src).value)) == FromFieldsSpec(src)
  {
    FromFieldsIsValid(src);
    ParseUndoesSerialize(FromFieldsSpec(src).value);
  }

  lemma SameLeast(a: seq<Field>, b: seq<Field>)
    requires Ascending(a) && NonDescending(b) && multiset(a) == multiset(b) && a != [] && b != []
    ensures a[0] == b[0]
  {
    assert a[0] in multiset(b) && b[0] in multiset(a);
    var i :| 0 <= i < |b| && b[i] == a[0];
    var j :| 0 <= j < |a| && a[j] == b[0];
  }

  lemma {:induction false} SortedIsUnique(a: seq<Field>, b: seq<Field>)
    requires Ascending(a) && NonDescending(b) && multiset(a) == multiset(b)
    ensures a == b
  {
    assert |a| == |multiset(a)| == |multiset(b)| == |b|;
    if a != [] {
      SameLeast(a, b);
      SameRest(a, 0, b, 0);
      assert Without(a, 0) == a[1..] && Without(b, 0) == b[1..];
      SortedIsUnique(a[1..], b[1..]);
      assert a == [a[0]] + a[1..] && b == [b[0]] + b[1..];
    }
  }

  function FieldOf(c: Column): Field {
    match DescribeField(c)
    case Ok(f) => f
    case Err(_) => Field(c.id, c.name, Boolean, 0, 0, c.required)
  }

  function Image(src: seq<Column>): (r: seq<Field>)
    ensures |r| == |src|
  {
    if src == [] then [] else [FieldOf(src[0])] + Image(src[1..])
  }

  lemma {:induction false} DescribedIsImage(src: seq<Column>)
    ensures DescribeAll(src).Ok? <==> forall c | c in src :: DescribeField(c).Ok?
    ensures DescribeAll(src).Ok? ==> DescribeAll(src).value == Image(src)
  {
    if src != [] {
      assert src == [src[0]] + src[1..];
      DescribedIsImage(src[1..]);
    }
  }

  lemma {:induction false} ImageOfSlice(src: seq<Column>, i: nat)
    requires i < |src|
    ensures Image(Without(src, i)) == Without(Image(src), i)
  {
    if i == 0 {
      assert Without(src, 0) == src[1..] && Without(Image(src), 0) == Image(src[1..]);
    } else {
      ImageOfSlice(src[1..], i - 1);
      assert Without(src, i)[1..] == Without(src[1..], i - 1);
    }
  }

  lemma {:induction false} ImageAt(src: seq<Column>, i: nat)
    requires i < |src|
    ensures Image(src)[i] == FieldOf(src[i])
  {
    if i > 0 {
      ImageAt(src[1..], i - 1);
    }
  }

  lemma {:induction false} ImageOfPermutation(a: seq<Column>, b: seq<Column>)
    requires multiset(a) == multiset(b)
    ensures multiset(Image(a)) == multiset(Image(b))
    decreases |a|
  {
    hide Image, Without, FieldOf;
    if a != [] {
      assert a[0] in multiset(b);
      var i :| 0 <= i < |b| && b[i] == a[0];
      SameRest(a, 0, b, i);
      ImageOfPermutation(Without(a, 0), Without(b, i));
      ImageOfSlice(a, 0);
      ImageOfSlice(b, i);
      ImageAt(a, 0);
      ImageAt(b, i);
      SameRest(Image(a), 0, Image(b), i);
    } else {
      assert |multiset(b)| == 0;
    }
  }

  /** The order columns are listed in leaves no trace: a permutation of the input
      is accepted exactly when the input is, and yields the same bytes. */
  lemma ColumnOrderIsIrrelevant(a: seq<Column>, b: seq<Column>)
    requires multiset(a) == multiset(b)
    ensures FromFieldsSpec(a).Ok? <==> FromFieldsSpec(b).Ok?
    ensures FromFieldsSpec(a).Ok? ==> FromFieldsSpec(a) == FromFieldsSpec(b)
  {
    if FromFieldsSpec(a).Ok? {
      SameShape(a, b);
    }
    if FromFieldsSpec(b).Ok? {
      SameShape(b, a);
    }
  }

  lemma SameShape(a: seq<Column>, b: seq<Column>)
    requires multiset(a) == multiset(b) && FromFieldsSpec(a).Ok?
    ensures FromFieldsSpec(a) == FromFieldsSpec(b)
  {
    forall c | c in b
      ensures c in a
    {
      assert c in multiset(b);
    }
    DescribedIsImage(a);
    DescribedIsImage(b);
    ImageOfPermutation(a, b);
    var sa, sb := SortById(DescribeAll(a).value), SortById(DescribeAll(b).value);
    SortSorts(DescribeAll(a).value);
    SortSorts(DescribeAll(b).value);
    NoRepeat(sa, 1);
    SortedIsUnique(sa, sb);
  }
}
