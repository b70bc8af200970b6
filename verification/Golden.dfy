/** The byte fixtures of the repository's own tests. */
module Golden {
  // internal/canon/descriptor_test.go, record_test.go and batch_test.go write a
  // descriptor, two records and a batch of them out by hand, with a column of every
  // type. The format of Record.dfy, Descriptor.dfy and BatchKey.dfy is proved here to
  // give those bytes.

  import opened Bytes
  import opened Record
  import opened Descriptor
  import opened BatchKey

  type Place = k: nat | k < 11

  // The eleven columns, by place.
  function Column(k: Place): (f: Field)
    ensures ValidField(f) && f.id == k + 1
  {
    match k
    case 0 => Field(1, [0x66, 0x6c, 0x61, 0x67], Boolean, 0, 0, true)
    case 1 => Field(2, [0x63, 0x6f, 0x75, 0x6e, 0x74], Int, 0, 0, true)
    case 2 => Field(3, [0x73, 0x65, 0x71], Long, 0, 0, true)
    case 3 => Field(4, [0x72, 0x61, 0x74, 0x69, 0x6f], Float, 0, 0, true)
    case 4 => Field(5, [0x77, 0x65, 0x69, 0x67, 0x68, 0x74], Double, 0, 0, true)
    case 5 => Field(6, [0x70, 0x72, 0x69, 0x63, 0x65], Decimal, 18, 9, true)
    case 6 => Field(7, [0x61, 0x74], TimestampTz, 0, 0, true)
    case 7 => Field(8, [0x73, 0x79, 0x6d, 0x62, 0x6f, 0x6c], String, 0, 0, true)
    case 8 => Field(9, [0x70, 0x61, 0x79, 0x6c, 0x6f, 0x61, 0x64], Binary, 0, 0, true)
    case 9 => Field(10, [0x6e, 0x6f, 0x74, 0x65], String, 0, 0, false)
    case _ => Field(11, [0x65, 0x78, 0x74, 0x72, 0x61], Long, 0, 0, false)
  }

  // What the descriptor says of each.
  function Described(k: Place): seq<byte> {
    match k
    case 0 =>
      ([0, 0, 0, 1] + ([1, 1] + [])) + ([0, 0, 0, 4] + [0x66, 0x6c, 0x61, 0x67])
    case 1 =>
      ([0, 0, 0, 2] + ([2, 1] + [])) + ([0, 0, 0, 5] + [0x63, 0x6f, 0x75, 0x6e, 0x74])
    case 2 =>
      ([0, 0, 0, 3] + ([3, 1] + [])) + ([0, 0, 0, 3] + [0x73, 0x65, 0x71])
    case 3 =>
      ([0, 0, 0, 4] + ([4, 1] + [])) + ([0, 0, 0, 5] + [0x72, 0x61, 0x74, 0x69, 0x6f])
    case 4 =>
      ([0, 0, 0, 5] + ([5, 1] + [])) + ([0, 0, 0, 6] + [0x77, 0x65, 0x69, 0x67, 0x68, 0x74])
    case 5 =>
      ([0, 0, 0, 6] + ([6, 1] + [18, 9])) + ([0, 0, 0, 5] + [0x70, 0x72, 0x69, 0x63, 0x65])
    case 6 =>
      ([0, 0, 0, 7] + ([7, 1] + [])) + ([0, 0, 0, 2] + [0x61, 0x74])
    case 7 =>
      ([0, 0, 0, 8] + ([8, 1] + [])) + ([0, 0, 0, 6] + [0x73, 0x79, 0x6d, 0x62, 0x6f, 0x6c])
    case 8 =>
      ([0, 0, 0, 9] + ([9, 1] + [])) + ([0, 0, 0, 7] + [0x70, 0x61, 0x79, 0x6c, 0x6f, 0x61, 0x64])
    case 9 =>
      ([0, 0, 0, 10] + ([8, 0] + [])) + ([0, 0, 0, 4] + [0x6e, 0x6f, 0x74, 0x65])
    case _ =>
      ([0, 0, 0, 11] + ([3, 0] + [])) + ([0, 0, 0, 5] + [0x65, 0x78, 0x74, 0x72, 0x61])
  }

  // The first record, and its bytes.
  function FirstValue(k: Place): Value {
    match k
    case 0 => Bool(true)
    case 1 => I32(-2)
    case 2 => I64(1000000)
    case 3 => F32(0x3fc0_0000)
    case 4 => F64(0xc004_0000_0000_0000)
    case 5 => I64(1234567890)
    case 6 => I64(1700000000000)
    case 7 => Text([0x62, 0x74, 0x63, 0x5f, 0x75, 0x73, 0x64])
    case 8 => Blob([0x82, 0xa1, 0x61])
    case 9 => Null
    case _ => I64(42)
  }

  function FirstBytes(k: Place): seq<byte> {
    match k
    case 0 => [1]
    case 1 => [0xff, 0xff, 0xff, 0xfe]
    case 2 => [0, 0, 0, 0] + [0x00, 0x0f, 0x42, 0x40]
    case 3 => [0x3f, 0xc0, 0x00, 0x00]
    case 4 => [0xc0, 0x04, 0x00, 0x00] + [0, 0, 0, 0]
    case 5 => [0, 0, 0, 0] + [0x49, 0x96, 0x02, 0xd2]
    case 6 => [0x00, 0x00, 0x01, 0x8b] + [0xcf, 0xe5, 0x68, 0x00]
    case 7 => [0, 0, 0, 7] + [0x62, 0x74, 0x63, 0x5f, 0x75, 0x73, 0x64]
    case 8 => [0, 0, 0, 3] + [0x82, 0xa1, 0x61]
    case 9 => [0]
    case _ => [0x01] + ([0, 0, 0, 0] + [0x00, 0x00, 0x00, 0x2a])
  }

  // The second record, and its bytes.
  function SecondValue(k: Place): Value {
    match k
    case 0 => Bool(false)
    case 1 => I32(0)
    case 2 => I64(-1)
    case 3 => F32(0)
    case 4 => F64(0)
    case 5 => I64(-1234567890)
    case 6 => I64(0)
    case 7 => Text([])
    case 8 => Blob([])
    case 9 => Text([0x68, 0x69])
    case _ => Null
  }

  function SecondBytes(k: Place): seq<byte> {
    match k
    case 0 => [0]
    case 1 => [0, 0, 0, 0]
    case 2 => [0xff, 0xff, 0xff, 0xff] + [0xff, 0xff, 0xff, 0xff]
    case 3 => [0, 0, 0, 0]
    case 4 => [0, 0, 0, 0] + [0, 0, 0, 0]
    case 5 => [0xff, 0xff, 0xff, 0xff] + [0xb6, 0x69, 0xfd, 0x2e]
    case 6 => [0, 0, 0, 0] + [0, 0, 0, 0]
    case 7 => [0, 0, 0, 0] + []
    case 8 => [0, 0, 0, 0] + []
    case 9 => [0x01] + ([0, 0, 0, 2] + [0x68, 0x69])
    case _ => [0]
  }

  // The pieces from the k-th on, end to end.
  function Joined(piece: Place -> seq<byte>, k: nat): seq<byte>
    requires k <= 11
    decreases 11 - k
  {
    if k == 11 then [] else piece(k) + Joined(piece, k + 1)
  }

  const COLUMNS: seq<Field> := seq(11, k requires 0 <= k < 11 => Column(k))
  const FIRST_ROW: seq<Value> := seq(11, k requires 0 <= k < 11 => FirstValue(k))
  const SECOND_ROW: seq<Value> := seq(11, k requires 0 <= k < 11 => SecondValue(k))

  // ------------------------------------------------------------------ one column

  lemma Word32(n: uint32)
    ensures PutUint32(n) == [n / 0x1_00_00_00, n / 0x1_00_00 % 0x100, n / 0x1_00 % 0x100, n % 0x100]
  {
    InFourBytes(n);
  }

  lemma Word64(n: uint64, high: uint32, low: uint32)
    requires n == high * TWO_32 + low
    ensures PutUint64(n) == PutUint32(high) + PutUint32(low)
  {
    hide FourBytes;
    assert n / TWO_32 == high && n % TWO_32 == low;
    InEightBytes(n);
    InFourBytes(high);
    InFourBytes(low);
  }

  lemma Digits(n: uint32, a: byte, b: byte, c: byte, d: byte)
    requires n == a * 0x1_00_00_00 + b * 0x1_00_00 + c * 0x1_00 + d
    ensures PutUint32(n) == [a, b, c, d]
  {
    var word := [a, b, c, d];
    assert word[..3] == [a, b, c] && word[..3][..2] == [a, b] && word[..3][..2][..1] == [a];
    assert FromBigEndian([a]) == a;
    assert FromBigEndian([a, b]) == a * 0x100 + b;
    assert FromBigEndian([a, b, c]) == a * 0x1_00_00 + b * 0x1_00 + c;
    WritesBack(word);
  }

  lemma ColumnDescribed(k: Place)
    ensures EncodeField(Column(k)) == Described(k)
  {
    hide PutUint32;
    Word32(Column(k).id);
    Word32(|Column(k).name|);
  }

  lemma FirstColumn(k: Place)
    ensures EncodeColumn(Column(k), FirstValue(k)) == Ok(FirstBytes(k))
  {
    hide PutUint32, PutUint64, FourBytes;
    FirstWords();
  }

  lemma FirstWords()
    ensures PutUint32(0xfffffffe) == [0xff, 0xff, 0xff, 0xfe]
    ensures PutUint64(0xf4240) == [0, 0, 0, 0] + [0x00, 0x0f, 0x42, 0x40]
    ensures PutUint32(0x3fc00000) == [0x3f, 0xc0, 0x00, 0x00]
    ensures PutUint64(0xc004000000000000) == [0xc0, 0x04, 0x00, 0x00] + [0, 0, 0, 0]
    ensures PutUint64(0x499602d2) == [0, 0, 0, 0] + [0x49, 0x96, 0x02, 0xd2]
    ensures PutUint64(0x18bcfe56800) == [0x00, 0x00, 0x01, 0x8b] + [0xcf, 0xe5, 0x68, 0x00]
    ensures PutUint32(7) == [0, 0, 0, 7]
    ensures PutUint32(3) == [0, 0, 0, 3]
    ensures PutUint64(0x2a) == [0, 0, 0, 0] + [0x00, 0x00, 0x00, 0x2a]
  {
    hide PutUint32, PutUint64;
    Digits(0xfffffffe, 0xff, 0xff, 0xff, 0xfe);
    Word64(0xf4240, 0x0, 0xf4240);
    Digits(0x0, 0, 0, 0, 0);
    Digits(0xf4240, 0, 15, 0x42, 0x40);
    Digits(0x3fc00000, 0x3f, 0xc0, 0, 0);
    Word64(0xc004000000000000, 0xc0040000, 0x0);
    Digits(0xc0040000, 0xc0, 4, 0, 0);
    Word64(0x499602d2, 0x0, 0x499602d2);
    Digits(0x499602d2, 0x49, 0x96, 2, 0xd2);
    Word64(0x18bcfe56800, 0x18b, 0xcfe56800);
    Digits(0x18b, 0, 0, 1, 0x8b);
    Digits(0xcfe56800, 0xcf, 0xe5, 0x68, 0);
    Digits(0x7, 0, 0, 0, 7);
    Digits(0x3, 0, 0, 0, 3);
    Word64(0x2a, 0x0, 0x2a);
    Digits(0x2a, 0, 0, 0, 0x2a);
  }

  lemma SecondColumn(k: Place)
    ensures EncodeColumn(Column(k), SecondValue(k)) == Ok(SecondBytes(k))
  {
    hide PutUint32, PutUint64;
    SecondWords();
  }

  lemma SecondWords()
    ensures PutUint32(0x0) == [0, 0, 0, 0]
    ensures PutUint64(0xffffffffffffffff) == [0xff, 0xff, 0xff, 0xff] + [0xff, 0xff, 0xff, 0xff]
    ensures PutUint64(0x0) == [0, 0, 0, 0] + [0, 0, 0, 0]
    ensures PutUint64(0xffffffffb669fd2e) == [0xff, 0xff, 0xff, 0xff] + [0xb6, 0x69, 0xfd, 0x2e]
    ensures PutUint32(0) == [0, 0, 0, 0]
    ensures PutUint32(2) == [0, 0, 0, 2]
  {
    hide PutUint32, PutUint64;
    Digits(0x0, 0, 0, 0, 0);
    Word64(0xffffffffffffffff, 0xffffffff, 0xffffffff);
    Digits(0xffffffff, 0xff, 0xff, 0xff, 0xff);
    Word64(0x0, 0x0, 0x0);
    Word64(0xffffffffb669fd2e, 0xffffffff, 0xb669fd2e);
    Digits(0xb669fd2e, 0xb6, 0x69, 0xfd, 0x2e);
    Digits(0x2, 0, 0, 0, 2);
  }

  // ----------------------------------------------------------------- end to end

  lemma {:induction false} DescribedFrom(k: nat)
    requires k <= 11 && AllValid(COLUMNS)
    ensures EncodeFieldsFrom(COLUMNS, k) == Joined(Described, k)
    decreases 11 - k
  {
    hide EncodeField, Described, Column;
    if k < 11 {
      ColumnDescribed(k);
      DescribedFrom(k + 1);
    }
  }

  lemma FixtureIsValid()
    ensures ValidShape(Shape(COLUMNS))
  {
    hide Column;
  }

  /** The shape of the tests is serialised as they write it. */
  lemma DescriptorBytes()
    ensures ValidShape(Shape(COLUMNS))
    ensures Serialized(Shape(COLUMNS)) == [0x01, 0x00, 0x00, 0x00, 0x0b] + Joined(Described, 0)
  {
    hide Column, EncodeField, Described, EncodeFieldsFrom, Joined, PutUint32;
    FixtureIsValid();
    Word32(11);
    DescribedFrom(0);
  }

  lemma {:induction false} FirstFrom(k: nat)
    requires k <= 11
    ensures EncodeFrom(COLUMNS, FIRST_ROW, k) == Ok(Joined(FirstBytes, k))
    decreases 11 - k
  {
    hide Column, FirstValue, FirstBytes, EncodeColumn;
    if k < 11 {
      FirstColumn(k);
      FirstFrom(k + 1);
    }
  }

  lemma {:induction false} SecondFrom(k: nat)
    requires k <= 11
    ensures EncodeFrom(COLUMNS, SECOND_ROW, k) == Ok(Joined(SecondBytes, k))
    decreases 11 - k
  {
    hide Column, SecondValue, SecondBytes, EncodeColumn;
    if k < 11 {
      SecondColumn(k);
      SecondFrom(k + 1);
    }
  }

  const FIRST_PAYLOAD: seq<byte> := [0x01] + Joined(FirstBytes, 0)
  const SECOND_PAYLOAD: seq<byte> := [0x01] + Joined(SecondBytes, 0)

  /** The two records of the tests are encoded as they write them, and read back. */
  lemma RecordBytes()
    ensures EncodeSpec(COLUMNS, FIRST_ROW) == Ok(FIRST_PAYLOAD) 
    ensures Record.DecodeSpec(COLUMNS, FIRST_PAYLOAD) == Ok(FIRST_ROW)
    ensures EncodeSpec(COLUMNS, SECOND_ROW) == Ok(SECOND_PAYLOAD)
    ensures Record.DecodeSpec(COLUMNS, SECOND_PAYLOAD) == Ok(SECOND_ROW)
  {
    hide Column, EncodeFrom, Record.DecodeSpec, Joined, FirstBytes, SecondBytes, FirstValue, SecondValue;
    FirstFrom(0);
    SecondFrom(0);
    DecodeUndoesEncode(COLUMNS, FIRST_ROW);
    DecodeUndoesEncode(COLUMNS, SECOND_ROW);
  }

  // ------------------------------------------------------------------- one batch

  predicate Short(b: seq<byte>) { |b| < TWO_32 }

  function Measured(b: seq<byte>): seq<byte>
    requires Short(b)
  {
    FourBytes(|b|) + b
  }

  // "icelake/batch/v1", and a newline.
  const TAG: seq<byte> := [0x69, 0x63, 0x65, 0x6c, 0x61, 0x6b, 0x65, 0x2f, 0x62, 0x61, 0x74, 0x63, 0x68, 0x2f, 0x76,
                           0x31, 0x0a]

  /** What is hashed for a batch of two records: the tag, the namespace, the table, the
      shape's descriptor, the count, and the records in order, each but the tag and the
      count after its length in four bytes. */
  lemma KeyOfTwo(namespace: seq<byte>, table: seq<byte>, d: Shape, p: seq<byte>, q: seq<byte>)
    requires ValidShape(d) && Short(namespace) && Short(table) && Short(Serialized(d)) && Short(p) && Short(q)
    ensures BatchHashSpec(namespace, table, d, [p, q]) ==
            Ok(Sha256(TAG + (Measured(namespace) + (Measured(table) + (Measured(Serialized(d))
                      + ([0, 0, 0, 0, 0, 0, 0, 2] + (Measured(p) + (Measured(q) + []))))))))
  {
    hide Serialized, PutUint32, PutUint64;
    Word64(2, 0, 2);
    Digits(0, 0, 0, 0, 0);
    Digits(2, 0, 0, 0, 2);
    Word32(|namespace|);
    Word32(|table|);
    Word32(|Serialized(d)|);
    Word32(|p|);
    Word32(|q|);
    assert PutUint64(2) == [0, 0, 0, 0, 0, 0, 0, 2];
    assert Chunks([p, q], 2) == [] && Chunks([p, q], 1) == Measured(q) + [];
    assert Hashable(namespace, table, d, [p, q]);
  }
}
