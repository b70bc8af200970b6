/** Reading columns back from a shape. */
module Columns {
  // `IcebergFields` of internal/canon/descriptor.go, which undoes `FromFields`, and what
  // the two say together: which declarations have a shape, and which one it is.

  import opened Bytes
  import opened Record
  import opened Descriptor

  function TypeOf(f: Field): ColumnType {
    match f.kind
    case Boolean => BooleanType
    case Int => Int32Type
    case Long => Int64Type
    case Float => Float32Type
    case Double => Float64Type
    case Decimal => DecimalType(f.precision, f.scale)
    case TimestampTz => TimestampTzType
    case String => StringType
    case Binary => BinaryType
  }

  function ColumnOf(f: Field): Column { Column(f.id, f.name, TypeOf(f), f.required) }

  method IcebergFields(d: Shape) returns (out: seq<Column>)
    ensures |out| == |d.fields| && forall k | 0 <= k < |out| :: out[k] == ColumnOf(d.fields[k])
  {
    out := [];
    for k := 0 to |d.fields|
      invariant |out| == k && forall j | 0 <= j < k :: out[j] == ColumnOf(d.fields[j])
    {
      var f := d.fields[k];
      var typ;
      match f.kind {
        case Boolean => typ := BooleanType;
        case Int => typ := Int32Type;
        case Long => typ := Int64Type;
        case Float => typ := Float32Type;
        case Double => typ := Float64Type;
        case Decimal => typ := DecimalType(f.precision, f.scale);
        case TimestampTz => typ := TimestampTzType;
        case String => typ := StringType;
        case Binary => typ := BinaryType;
      }
      out := out + [Column(f.id, f.name, typ, f.required)];
    }
  }

  function ColumnsOf(fields: seq<Field>): (r: seq<Column>)
    ensures |r| == |fields| && forall k | 0 <= k < |r| :: r[k] == ColumnOf(fields[k])
  {
    seq(|fields|, k requires 0 <= k < |fields| => ColumnOf(fields[k]))
  }

  // --------------------------------------------------------- columns, there and back

  // A column whose type has a kind, and whose id, name and decimal fit a shape.
  predicate Declarable(c: Column) {
    && 1 <= c.id < TWO_31 && 1 <= |c.name| < TWO_32 && !c.typ.OtherType?
    && (c.typ.DecimalType? ==> 1 <= c.typ.precision <= 18 && 0 <= c.typ.scale <= c.typ.precision)
  }

  lemma DescribedReadsBack(c: Column)
    ensures DescribeField(c).Ok? <==> !c.typ.OtherType?
    ensures DescribeField(c).Ok? ==> ColumnOf(DescribeField(c).value) == c
    ensures DescribeField(c).Ok? ==> (ValidField(DescribeField(c).value) <==> Declarable(c))
  {
  }

  /** What a declared column holds: values of its own type and no other, in its own
      number of bytes. */
  lemma DescribedHolds(c: Column, v: Value)
    requires DescribeField(c).Ok?
    ensures var f := DescribeField(c).value;
            && f.kind.FixedWidth() == (match c.typ
                                       case BooleanType => Some(1)
                                       case Int32Type => Some(4)
                                       case Float32Type => Some(4)
                                       case StringType => None
                                       case BinaryType => None
                                       case _ => Some(8))
            && (EncodeValue(f, v).Ok? <==>
                match c.typ
                case BooleanType => v.Bool?
                case Int32Type => v.I32?
                case Float32Type => v.F32?
                case Float64Type => v.F64?
                case StringType => v.Text? && |v.chars| < TWO_32
                case BinaryType => v.Blob? && |v.bytes| < TWO_32
                case _ => v.I64?)
  {
  }

  lemma {:induction false} AllReadBack(src: seq<Column>)
    requires DescribeAll(src).Ok?
    ensures ColumnsOf(DescribeAll(src).value) == src
  {
    if src != [] {
      DescribedReadsBack(src[0]);
      AllReadBack(src[1..]);
      var fields := DescribeAll(src).value;
      assert fields[1..] == DescribeAll(src[1..]).value;
      assert ColumnsOf(fields) == [ColumnOf(fields[0])] + ColumnsOf(fields[1..]);
    }
  }

  lemma {:induction false} SameColumns(a: seq<Field>, b: seq<Field>)
    requires multiset(a) == multiset(b)
    ensures multiset(ColumnsOf(a)) == multiset(ColumnsOf(b))
    decreases |a|
  {
    assert |a| == |multiset(a)| == |multiset(b)| == |b|;
    if a != [] {
      assert a[0] in multiset(b);
      var i :| 0 <= i < |b| && b[i] == a[0];
      SameRest(a, 0, b, i);
      SameColumns(Without(a, 0), Without(b, i));
      assert ColumnsOf(Without(a, 0)) == Without(ColumnsOf(a), 0);
      assert ColumnsOf(Without(b, i)) == Without(ColumnsOf(b), i);
      SameRest(ColumnsOf(a), 0, ColumnsOf(b), i);
    }
  }

  /** The columns read back from a built shape are those declared, each of them as it
      was: id, name, type, and whether it is required. */
  lemma ColumnsReadBack(src: seq<Column>)
    requires FromFieldsSpec(src).Ok?
    ensures multiset(ColumnsOf(FromFieldsSpec(src).value.fields)) == multiset(src)
  {
    hide ColumnsOf, SortById;
    var fields := DescribeAll(src).value;
    SortSorts(fields);
    SameColumns(SortById(fields), fields);
    AllReadBack(src);
  }

  /** And a shape declared again from what it reads back as is that shape. */
  lemma {:induction false} ShapeRedeclared(d: Shape)
    requires ValidShape(d)
    ensures FromFieldsSpec(ColumnsOf(d.fields)) == Ok(d)
  {
    hide SortById;
    AllDescribed(d.fields);
    SortSorts(d.fields);
    SortedIsUnique(d.fields, SortById(d.fields));
    NoRepeat(d.fields, 1);
    assert ColumnsOf(d.fields) != [];
  }

  lemma {:induction false} AllDescribed(fields: seq<Field>)
    requires AllValid(fields)
    ensures DescribeAll(ColumnsOf(fields)) == Ok(fields)
  {
    if fields != [] {
      assert ColumnsOf(fields)[1..] == ColumnsOf(fields[1..]);
      assert fields == [fields[0]] + fields[1..] && fields[0] in fields;
      assert AllValid(fields[1..]);
      AllDescribed(fields[1..]);
    }
  }

  // ------------------------------------------------------ which declarations have one

  predicate ShareId(src: seq<Column>) { exists i, j :: 0 <= i < j < |src| && src[i].id == src[j].id }

  lemma {:induction false} TwoPlaces(b: seq<Column>, x: Column)
    requires multiset(b)[x] >= 2
    ensures exists i, j :: 0 <= i < j < |b| && b[i] == x && b[j] == x
  {
    assert b == [b[0]] + b[1..];
    if b[0] == x {
      assert x in multiset(b[1..]);
      var j :| 0 <= j < |b[1..]| && b[1..][j] == x;
      assert b[j + 1] == x;
    } else {
      TwoPlaces(b[1..], x);
      var i, j :| 0 <= i < j < |b[1..]| && b[1..][i] == x && b[1..][j] == x;
      assert b[i + 1] == x && b[j + 1] == x;
    }
  }

  lemma CountsTwice(a: seq<Column>, i: nat, j: nat)
    requires i < j < |a| && a[i] == a[j]
    ensures multiset(a)[a[i]] >= 2
  {
    assert a == a[..j] + a[j..] && a[i] in a[..j] && a[j] in a[j..];
    assert a[i] in multiset(a[..j]) && a[i] in multiset(a[j..]);
  }

  lemma IdShared(a: seq<Column>, b: seq<Column>, id: int)
    requires multiset(a) == multiset(b) && exists i, j :: 0 <= i < j < |a| && a[i].id == a[j].id == id
    ensures exists i, j :: 0 <= i < j < |b| && b[i].id == b[j].id == id
  {
    var i, j :| 0 <= i < j < |a| && a[i].id == a[j].id == id;
    if a[i] == a[j] {
      CountsTwice(a, i, j);
      TwoPlaces(b, a[i]);
    } else {
      assert a[i] in multiset(b) && a[j] in multiset(b);
      var k :| 0 <= k < |b| && b[k] == a[i];
      var l :| 0 <= l < |b| && b[l] == a[j];
      assert k < l || l < k;
    }
  }

  lemma SharedIsRepeated(fields: seq<Field>)
    requires NonDescending(fields)
    ensures Ascending(fields) <==> !ShareId(ColumnsOf(fields))
  {
    var cs := ColumnsOf(fields);
    if !Ascending(fields) {
      var i, j :| 0 <= i < j < |fields| && fields[i].id >= fields[j].id;
      assert cs[i].id == cs[j].id;
    }
  }

  lemma ValidIffDeclarable(src: seq<Column>, sorted: seq<Field>)
    requires DescribeAll(src).Ok? && multiset(sorted) == multiset(DescribeAll(src).value)
    ensures AllValid(sorted) <==> forall c | c in src :: Declarable(c)
  {
    hide Image, Declarable, ValidField, DescribeField;
    DescribedIsImage(src);
    var fields := Image(src);
    forall i | 0 <= i < |src|
      ensures ValidField(fields[i]) <==> Declarable(src[i])
      ensures fields[i] in sorted
    {
      assert src[i] in src;
      ImageAt(src, i);
      DescribedReadsBack(src[i]);
      assert fields[i] in multiset(sorted);
    }
    forall f | f in sorted
      ensures exists i :: 0 <= i < |src| && f == fields[i]
    {
      assert f in multiset(fields);
    }
  }

  /** A declaration has a shape if and only if it has a column, none of its columns is
      one a shape cannot hold, and no two of them share an id. */
  lemma DeclarationAccepted(src: seq<Column>)
    requires |src| < TWO_32
    ensures FromFieldsSpec(src).Ok? <==> src != [] && (forall c | c in src :: Declarable(c)) && !ShareId(src)
  {
    hide ColumnsOf, SortById, ShareId, Declarable, DescribeField, AllValid, Ascending, NonDescending, FirstRepeat;
    DescribedIsImage(src);
    if src != [] && DescribeAll(src).Ok? {
      var fields := DescribeAll(src).value;
      var sorted := SortById(fields);
      SortSorts(fields);
      assert |sorted| == |multiset(sorted)| == |multiset(fields)| == |src|;
      ValidIffDeclarable(src, sorted);
      SameColumns(sorted, fields);
      AllReadBack(src);
      SharedIsRepeated(sorted);
      SharedAlike(ColumnsOf(sorted), src);
      NoRepeat(sorted, 1);
    } else {
      forall c | c in src
        ensures Declarable(c) ==> DescribeField(c).Ok?
      {
        DescribedReadsBack(c);
        assert Declarable(c) ==> !c.typ.OtherType? by { TypeHasKind(c); }
      }
    }
  }

  lemma TypeHasKind(c: Column)
    ensures Declarable(c) ==> !c.typ.OtherType?
  {
  }

  lemma SharedAlike(a: seq<Column>, b: seq<Column>)
    requires multiset(a) == multiset(b)
    ensures ShareId(a) <==> ShareId(b)
  {
    if i, j :| 0 <= i < j < |a| && a[i].id == a[j].id {
      IdShared(a, b, a[i].id);
    }
    if i, j :| 0 <= i < j < |b| && b[i].id == b[j].id {
      IdShared(b, a, b[i].id);
    }
  }

  // ------------------------------------------------------ and what the others are told

  predicate FirstOther(src: seq<Column>, k: int) {
    0 <= k < |src| && src[k].typ.OtherType? && forall j | 0 <= j < k :: !src[j].typ.OtherType?
  }

  predicate LeastShared(src: seq<Column>, id: int) {
    && (exists i, j :: 0 <= i < j < |src| && src[i].id == src[j].id == id)
    && forall i, j | 0 <= i < j < |src| && src[i].id == src[j].id :: id <= src[i].id
  }

  predicate LeastUnfit(src: seq<Column>, id: int) {
    && (exists c :: c in src && !Declarable(c) && c.id == id)
    && forall c | c in src && !Declarable(c) :: id <= c.id
  }

  lemma {:induction false} OtherIsNamed(src: seq<Column>) returns (k: int)
    requires DescribeAll(src).Err?
    ensures FirstOther(src, k) && DescribeAll(src) == Unsupported(src[k].id)
  {
    if src[0].typ.OtherType? {
      k := 0;
    } else {
      k := OtherIsNamed(src[1..]);
      k := k + 1;
    }
  }

  lemma {:induction false} RepeatIsLeast(fields: seq<Field>, i: nat)
    requires 1 <= i && NonDescending(fields) && FirstRepeat(fields, i).Some?
    requires forall k | 1 <= k < i && k < |fields| :: fields[k].id != fields[k - 1].id
    ensures i <= FirstRepeat(fields, i).value < |fields|
    ensures LeastShared(ColumnsOf(fields), fields[FirstRepeat(fields, i).value].id)
    decreases |fields| - i
  {
    if fields[i].id != fields[i - 1].id {
      RepeatIsLeast(fields, i + 1);
    } else {
      var cs := ColumnsOf(fields);
      assert cs[i - 1].id == cs[i].id;
      forall a, b | 0 <= a < b < |cs| && cs[a].id == cs[b].id
        ensures fields[i].id <= cs[a].id
      {
        assert fields[a].id <= fields[a + 1].id <= fields[b].id;
      }
    }
  }

  lemma LeastSharedMoves(a: seq<Column>, b: seq<Column>, id: int)
    requires multiset(a) == multiset(b) && LeastShared(a, id)
    ensures LeastShared(b, id)
  {
    IdShared(a, b, id);
    forall i, j | 0 <= i < j < |b| && b[i].id == b[j].id
      ensures id <= b[i].id
    {
      IdShared(b, a, b[i].id);
    }
  }

  lemma {:induction false} InvalidIsLeast(fields: seq<Field>)
    requires NonDescending(fields) && FirstInvalid(fields).Some?
    ensures exists f :: f in fields && !ValidField(f) && f.id == FirstInvalid(fields).value
    ensures forall f | f in fields && !ValidField(f) :: FirstInvalid(fields).value <= f.id
  {
    assert fields == [fields[0]] + fields[1..];
    if ValidField(fields[0]) {
      InvalidIsLeast(fields[1..]);
    }
  }

  lemma UnfitIsLeast(src: seq<Column>, sorted: seq<Field>)
    requires DescribeAll(src).Ok? && multiset(sorted) == multiset(DescribeAll(src).value) && NonDescending(sorted)
    requires FirstInvalid(sorted).Some?
    ensures LeastUnfit(src, FirstInvalid(sorted).value)
  {
    hide Image, Declarable, ValidField, DescribeField;
    DescribedIsImage(src);
    InvalidIsLeast(sorted);
    var fields := Image(src);
    forall i | 0 <= i < |src|
      ensures ValidField(fields[i]) <==> Declarable(src[i])
      ensures fields[i] in sorted && fields[i].id == src[i].id
    {
      assert src[i] in src;
      ImageAt(src, i);
      DescribedReadsBack(src[i]);
      assert ColumnOf(fields[i]).id == fields[i].id;
      assert fields[i] in multiset(sorted);
    }
    var f :| f in sorted && !ValidField(f) && f.id == FirstInvalid(sorted).value;
    assert f in multiset(fields);
    var i :| 0 <= i < |fields| && fields[i] == f;
    assert src[i] in src && src[i].id == f.id && !Declarable(src[i]);
  }

  /** A declaration refused is refused for the first of its columns with no kind, else
      for the least id shared, else for the least id of a column no shape can hold. */
  lemma RefusalsInOrder(src: seq<Column>)
    requires |src| < TWO_32 && FromFieldsSpec(src).Err?
    ensures var e := FromFieldsSpec(src).error;
            && e.kind == UnsupportedType
            && if src == [] then e.fieldId == 0
               else if exists c | c in src :: c.typ.OtherType? then
                 exists k :: FirstOther(src, k) && e.fieldId == src[k].id
               else if ShareId(src) then LeastShared(src, e.fieldId)
               else LeastUnfit(src, e.fieldId)
  {
    hide SortById, Ascending, Declarable, LeastShared, LeastUnfit, FirstRepeat, ShareId, ColumnsOf;
    if src != [] {
      DescribedIsImage(src);
      forall c | c in src
        ensures DescribeField(c).Ok? <==> !c.typ.OtherType?
      {
        DescribedReadsBack(c);
      }
      if DescribeAll(src).Err? {
        var k := OtherIsNamed(src);
      } else {
        var fields := DescribeAll(src).value;
        var sorted := SortById(fields);
        SortSorts(fields);
        assert |sorted| == |multiset(sorted)| == |multiset(fields)| == |src|;
        SameColumns(sorted, fields);
        AllReadBack(src);
        SharedIsRepeated(sorted);
        SharedAlike(ColumnsOf(sorted), src);
        NoRepeat(sorted, 1);
        if FirstRepeat(sorted, 1).Some? {
          RepeatIsLeast(sorted, 1);
          LeastSharedMoves(ColumnsOf(sorted), src, sorted[FirstRepeat(sorted, 1).value].id);
        } else {
          UnfitIsLeast(src, sorted);
        }
      }
    }
  }
}
