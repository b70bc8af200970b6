/** Moving rows between shapes by field id. */
module Remap {
  // internal/canon/remap.go.

  import opened Bytes
  import opened Record
  import opened Descriptor

  function IndexFrom(fields: seq<Field>, id: int, i: nat): (r: Option<nat>)
    requires i <= |fields|
    ensures r.Some? ==> i <= r.value < |fields| && fields[r.value].id == id
    ensures r.None? ==> forall k | i <= k < |fields| :: fields[k].id != id
    decreases |fields| - i
  {
    if i == |fields| then None
    else if fields[i].id == id then Some(i)
    else IndexFrom(fields, id, i + 1)
  }

  function IndexOfFieldID(fields: seq<Field>, id: int): (r: Option<nat>)
    ensures r.Some? ==> r.value < |fields| && fields[r.value].id == id
    ensures r.None? ==> forall k | 0 <= k < |fields| :: fields[k].id != id
  {
    IndexFrom(fields, id, 0)
  }

  predicate SameType(have: Field, want: Field) {
    have.kind == want.kind && have.precision == want.precision && have.scale == want.scale
  }

  // What a target column says of the source shape, and None when it can be served.
  function ColumnRefusal(from: seq<Field>, want: Field): Option<Error> {
    match IndexOfFieldID(from, want.id)
    case None => if want.required then Some(Error(FieldRequired, want.id)) else None
    case Some(j) => if SameType(from[j], want) then None else Some(Error(FieldRetyped, want.id))
  }

  function FirstRemoved(from: seq<Field>, to: seq<Field>, i: nat): Option<Error>
    requires i <= |from|
    decreases |from| - i
  {
    if i == |from| then None
    else if IndexOfFieldID(to, from[i].id).None? then Some(Error(FieldRemoved, from[i].id))
    else FirstRemoved(from, to, i + 1)
  }

  function FirstRefusal(from: seq<Field>, to: seq<Field>, i: nat): Option<Error>
    requires i <= |to|
    decreases |to| - i
  {
    if i == |to| then None
    else if ColumnRefusal(from, to[i]).Some? then ColumnRefusal(from, to[i])
    else FirstRefusal(from, to, i + 1)
  }

  // A dropped column is reported before anything else the target does.
  function CompatibleSpec(from: seq<Field>, to: seq<Field>): Option<Error> {
    if FirstRemoved(from, to, 0).Some? then FirstRemoved(from, to, 0) else FirstRefusal(from, to, 0)
  }

  method CompatibleShapes(from: seq<Field>, to: seq<Field>) returns (refusal: Option<Error>)
    ensures refusal == CompatibleSpec(from, to)
  {
    for i := 0 to |from|
      invariant FirstRemoved(from, to, 0) == FirstRemoved(from, to, i)
    {
      if IndexOfFieldID(to, from[i].id).None? {
        return Some(Error(FieldRemoved, from[i].id));
      }
    }
    for i := 0 to |to|
      invariant FirstRefusal(from, to, 0) == FirstRefusal(from, to, i)
    {
      var want := to[i];
      var j := IndexOfFieldID(from, want.id);
      if j.None? {
        if want.required {
          return Some(Error(FieldRequired, want.id));
        }
        continue;
      }
      if !SameType(from[j.value], want) {
        return Some(Error(FieldRetyped, want.id));
      }
    }
    return None;
  }

  // The value a target column receives.
  function Carried(from: seq<Field>, row: seq<Value>, want: Field): Value
    requires |row| == |from|
  {
    match IndexOfFieldID(from, want.id)
    case None => Null
    case Some(j) => row[j]
  }

  // A null the target cannot hold: a property of the value, not of the shapes.
  predicate MissingValue(from: seq<Field>, row: seq<Value>, want: Field)
    requires |row| == |from|
  {
    IndexOfFieldID(from, want.id).Some? && want.required && Carried(from, row, want).Null?
  }

  function RemapFrom(from: seq<Field>, to: seq<Field>, row: seq<Value>, i: nat): Result<seq<Value>>
    requires |row| == |from| && i <= |to|
    decreases |to| - i
  {
    if i == |to| then Ok([])
    else if MissingValue(from, row, to[i]) then Err(Error(FieldRequired, to[i].id))
    else match RemapFrom(from, to, row, i + 1)
      case Err(e) => Err(e)
      case Ok(rest) => Ok([Carried(from, row, to[i])] + rest)
  }

  function RemapSpec(from: seq<Field>, to: seq<Field>, row: seq<Value>): Result<seq<Value>> {
    if |row| != |from| then Err(Error(BadValue, 0))
    else match CompatibleSpec(from, to)
      case Some(e) => Err(e)
      case None => RemapFrom(from, to, row, 0)
  }

  method Remap(from: seq<Field>, to: seq<Field>, row: seq<Value>) returns (r: Result<seq<Value>>)
    ensures r == RemapSpec(from, to, row)
  {
    if |row| != |from| {
      return Err(Error(BadValue, 0));
    }
    var refusal := CompatibleShapes(from, to);
    if refusal.Some? {
      return Err(refusal.value);
    }
    var out := new Value[|to|](_ => Null);
    assert out[..0] == [];
    assert RemapFrom(from, to, row, 0).Ok? ==>
             [] + RemapFrom(from, to, row, 0).value == RemapFrom(from, to, row, 0).value;
    for i := 0 to |to|
      invariant forall k :: i <= k < |to| ==> out[k] == Null
      invariant match RemapFrom(from, to, row, i)
                case Err(e) => RemapFrom(from, to, row, 0) == Err(e)
                case Ok(rest) => RemapFrom(from, to, row, 0) == Ok(out[..i] + rest)
    {
      var want := to[i];
      ghost var done := out[..i];
      ghost var rest := RemapFrom(from, to, row, i + 1);
      if rest.Ok? {
        assert done + ([Carried(from, row, want)] + rest.value) == done + [Carried(from, row, want)] + rest.value;
      }
      var j := IndexOfFieldID(from, want.id);
      if j.None? {
        assert out[..i + 1] == done + [Null];
        continue;
      }
      var v := row[j.value];
      if v.Null? && want.required {
        return Err(Error(FieldRequired, want.id));
      }
      out[i] := v;
      assert out[..i + 1] == done + [v];
    }
    assert out[..|to|] == out[..] && out[..] + [] == out[..];
    return Ok(out[..]);
  }

  function TranscodeSpec(from: seq<Field>, to: seq<Field>, payload: seq<byte>): Result<seq<byte>> {
    match Record.DecodeSpec(from, payload)
    case Err(e) => Err(e)
    case Ok(row) =>
      match RemapSpec(from, to, row)
      case Err(e) => Err(e)
      case Ok(moved) => EncodeSpec(to, moved)
  }

  method Transcode(from: seq<Field>, to: seq<Field>, payload: seq<byte>) returns (r: Result<seq<byte>>)
    ensures r == TranscodeSpec(from, to, payload)
  {
    var row := Record.Decode(from, payload);
    if row.Err? {
      return Err(row.error);
    }
    var moved := Remap(from, to, row.value);
    if moved.Err? {
      return Err(moved.error);
    }
    r := Encode(to, moved.value);
  }

  // ------------------------------------------------------------- the theorems

  predicate Holds(fields: seq<Field>, id: int) {
    exists k | 0 <= k < |fields| :: fields[k].id == id
  }

  // The value a target column must hold: a shared column of the same type
  // carries its value across, a new column is optional and null.
  ghost predicate ServesColumn(from: seq<Field>, row: seq<Value>, want: Field, v: Value)
    requires |row| == |from|
  {
    if Holds(from, want.id) then
      forall j | 0 <= j < |from| && from[j].id == want.id ::
        SameType(from[j], want) && v == row[j] && (want.required ==> !v.Null?)
    else !want.required && v.Null?
  }

  /** What a remapping is, said without its loops: every source column survives
      and every target column is served. */
  ghost predicate Remapped(from: seq<Field>, to: seq<Field>, row: seq<Value>, out: seq<Value>) {
    && |row| == |from| && |out| == |to|
    && (forall j | 0 <= j < |from| :: Holds(to, from[j].id))
    && (forall k | 0 <= k < |to| :: ServesColumn(from, row, to[k], out[k]))
  }

  lemma {:induction false} NothingRemoved(from: seq<Field>, to: seq<Field>, i: nat)
    requires i <= |from|
    ensures FirstRemoved(from, to, i).None? <==> forall j | i <= j < |from| :: Holds(to, from[j].id)
    decreases |from| - i
  {
    if i < |from| {
      NothingRemoved(from, to, i + 1);
    }
  }

  lemma {:induction false} NothingRefused(from: seq<Field>, to: seq<Field>, i: nat)
    requires i <= |to|
    ensures FirstRefusal(from, to, i).None? <==> forall k | i <= k < |to| :: ColumnRefusal(from, to[k]).None?
    decreases |to| - i
  {
    if i < |to| {
      NothingRefused(from, to, i + 1);
    }
  }

  lemma {:induction false} NothingMissing(from: seq<Field>, to: seq<Field>, row: seq<Value>, i: nat)
    requires |row| == |from| && i <= |to|
    ensures var r := RemapFrom(from, to, row, i);
            && (r.Ok? <==> forall k | i <= k < |to| :: !MissingValue(from, row, to[k]))
            && (r.Ok? ==> |r.value| == |to| - i && forall k | i <= k < |to| ::
                r.value[k - i] == Carried(from, row, to[k]))
    decreases |to| - i
  {
    if i < |to| {
      NothingMissing(from, to, row, i + 1);
    }
  }

  lemma ColumnIsServed(from: seq<Field>, row: seq<Value>, want: Field, v: Value)
    requires Ascending(from) && |row| == |from|
    ensures ServesColumn(from, row, want, v) <==>
            ColumnRefusal(from, want).None? && !MissingValue(from, row, want) && v == Carried(from, row, want)
  {
    if Holds(from, want.id) {
      var j :| 0 <= j < |from| && from[j].id == want.id;
      assert IndexOfFieldID(from, want.id) == Some(j);
    }
  }

  lemma RemapSucceeds(from: seq<Field>, to: seq<Field>, row: seq<Value>, out: seq<Value>)
    requires Ascending(from) && Remapped(from, to, row, out)
    ensures RemapSpec(from, to, row) == Ok(out)
  {
    hide ServesColumn, ColumnRefusal, MissingValue, Carried, RemapFrom, Ascending;
    NothingRemoved(from, to, 0);
    NothingRefused(from, to, 0);
    NothingMissing(from, to, row, 0);
    forall k | 0 <= k < |to|
      ensures ColumnRefusal(from, to[k]).None? && !MissingValue(from, row, to[k]) && Carried(from, row, to[k]) == out[k]
    {
      ColumnIsServed(from, row, to[k], out[k]);
    }
    assert RemapFrom(from, to, row, 0).value == out;
  }

  lemma RemapMeans(from: seq<Field>, to: seq<Field>, row: seq<Value>, out: seq<Value>)
    requires Ascending(from) && RemapSpec(from, to, row) == Ok(out)
    ensures Remapped(from, to, row, out)
  {
    hide ServesColumn, ColumnRefusal, MissingValue, Carried, RemapFrom, Ascending;
    NothingRemoved(from, to, 0);
    NothingRefused(from, to, 0);
    NothingMissing(from, to, row, 0);
    forall k | 0 <= k < |to|
      ensures ServesColumn(from, row, to[k], out[k])
    {
      assert out[k - 0] == Carried(from, row, to[k]);
      ColumnIsServed(from, row, to[k], out[k]);
    }
  }

  /** Remap succeeds with a row exactly when that row is the remapping. */
  lemma RemapIsRemapping(from: seq<Field>, to: seq<Field>, row: seq<Value>, out: seq<Value>)
    requires Ascending(from)
    ensures RemapSpec(from, to, row) == Ok(out) <==> Remapped(from, to, row, out)
  {
    hide RemapSpec, Remapped, Ascending;
    if Remapped(from, to, row, out) {
      RemapSucceeds(from, to, row, out);
    }
    if RemapSpec(from, to, row) == Ok(out) {
      RemapMeans(from, to, row, out);
    }
  }

  lemma ServedTwice(a: seq<Field>, b: seq<Field>, x: seq<Value>, y: seq<Value>, want: Field, v: Value)
    requires Remapped(a, b, x, y) && ServesColumn(b, y, want, v)
    ensures ServesColumn(a, x, want, v)
  {
    if Holds(b, want.id) {
      var m :| 0 <= m < |b| && b[m].id == want.id;
      assert ServesColumn(a, x, b[m], y[m]);
    }
  }

  lemma RemappedTwice(a: seq<Field>, b: seq<Field>, c: seq<Field>, x: seq<Value>, y: seq<Value>, z: seq<Value>)
    requires Remapped(a, b, x, y) && Remapped(b, c, y, z)
    ensures Remapped(a, c, x, z)
  {
    hide ServesColumn;
    forall j | 0 <= j < |a|
      ensures Holds(c, a[j].id)
    {
      assert Holds(b, a[j].id);
      var k :| 0 <= k < |b| && b[k].id == a[j].id;
      assert Holds(c, b[k].id);
    }
    forall k | 0 <= k < |c|
      ensures ServesColumn(a, x, c[k], z[k])
    {
      ServedTwice(a, b, x, y, c[k], z[k]);
    }
  }

  /** Replaying through an intermediate shape leaves no trace: two transcodings
      that both succeed give the bytes one direct transcoding gives. */
  lemma PathIndependence(a: Shape, b: Shape, c: Shape, payload: seq<byte>)
    requires ValidShape(a) && ValidShape(b) && ValidShape(c)
    requires TranscodeSpec(a.fields, b.fields, payload).Ok?
    requires TranscodeSpec(b.fields, c.fields, TranscodeSpec(a.fields, b.fields, payload).value).Ok?
    ensures TranscodeSpec(a.fields, c.fields, payload) ==
            TranscodeSpec(b.fields, c.fields, TranscodeSpec(a.fields, b.fields, payload).value)
  {
    hide Record.DecodeSpec, EncodeSpec, RemapSpec, Remapped, ValidField;
    var x := Record.DecodeSpec(a.fields, payload).value;
    var y := RemapSpec(a.fields, b.fields, x).value;
    DecodeUndoesEncode(b.fields, y);
    var z := RemapSpec(b.fields, c.fields, y).value;
    RemapIsRemapping(a.fields, b.fields, x, y);
    RemapIsRemapping(b.fields, c.fields, y, z);
    RemappedTwice(a.fields, b.fields, c.fields, x, y, z);
    RemapIsRemapping(a.fields, c.fields, x, z);
  }

  lemma {:induction false} EncodableColumns(fields: seq<Field>, row: seq<Value>, i: nat)
    requires |row| == |fields| && i <= |fields|
    ensures EncodeFrom(fields, row, i).Ok? <==> forall k | i <= k < |fields| :: EncodeColumn(fields[k], row[k]).Ok?
    decreases |fields| - i
  {
    hide EncodeColumn;
    if i < |fields| {
      EncodableColumns(fields, row, i + 1);
    }
  }

  lemma ColumnTravels(have: Field, want: Field, v: Value)
    requires EncodeColumn(have, v).Ok? && SameType(have, want) && (want.required ==> !v.Null?)
    ensures EncodeColumn(want, v).Ok?
  {
  }

  /** A decoded row that can be remapped can always be encoded under the target. */
  lemma RemappedRowsEncode(from: Shape, to: Shape, payload: seq<byte>, out: seq<Value>)
    requires ValidShape(from) && ValidShape(to) && Record.DecodeSpec(from.fields, payload).Ok?
    requires RemapSpec(from.fields, to.fields, Record.DecodeSpec(from.fields, payload).value) == Ok(out)
    ensures EncodeSpec(to.fields, out).Ok?
  {
    hide Record.DecodeSpec, EncodeColumn, RemapSpec, EncodeFrom;
    var row := Record.DecodeSpec(from.fields, payload).value;
    EncodeUndoesDecode(from.fields, payload);
    RemapIsRemapping(from.fields, to.fields, row, out);
    EncodableColumns(from.fields, row, 0);
    EncodableColumns(to.fields, out, 0);
    forall k | 0 <= k < |to.fields|
      ensures EncodeColumn(to.fields[k], out[k]).Ok?
    {
      assert ServesColumn(from.fields, row, to.fields[k], out[k]);
      if Holds(from.fields, to.fields[k].id) {
        var j :| 0 <= j < |from.fields| && from.fields[j].id == to.fields[k].id;
        ColumnTravels(from.fields[j], to.fields[k], row[j]);
      } else {
        NullEncodes(to.fields[k], out[k]);
      }
    }
  }

  lemma NullEncodes(f: Field, v: Value)
    requires v.Null? && !f.required
    ensures EncodeColumn(f, v).Ok?
  {
  }

  // The two ways `prepare` turns a staged payload into a row of the current
  // shape: a sealed batch is decoded and remapped, an unsealed one is transcoded,
  // stored and decoded again.
  function SealedArm(from: seq<Field>, to: seq<Field>, payload: seq<byte>): Result<seq<Value>> {
    match Record.DecodeSpec(from, payload)
    case Err(e) => Err(e)
    case Ok(row) => if from == to then Ok(row) else RemapSpec(from, to, row)
  }

  function UnsealedArm(from: seq<Field>, to: seq<Field>, payload: seq<byte>): Result<seq<Value>> {
    if from == to then Record.DecodeSpec(to, payload)
    else match TranscodeSpec(from, to, payload)
      case Err(e) => Err(e)
      case Ok(recoded) => Record.DecodeSpec(to, recoded)
  }

  /** Both arms give the same row, or refuse with the same error. */
  lemma ArmsAgree(from: Shape, to: Shape, payload: seq<byte>)
    requires ValidShape(from) && ValidShape(to)
    ensures SealedArm(from.fields, to.fields, payload) == UnsealedArm(from.fields, to.fields, payload)
  {
    hide Record.DecodeSpec, EncodeSpec, RemapSpec, ValidShape;
    if from != to && Record.DecodeSpec(from.fields, payload).Ok? {
      var moved := RemapSpec(from.fields, to.fields, Record.DecodeSpec(from.fields, payload).value);
      if moved.Ok? {
        RemappedRowsEncode(from, to, payload, moved.value);
        DecodeUndoesEncode(to.fields, moved.value);
      }
    }
  }

  /** A batch sealed under one shape and replayed under a later one carries the
      rows it would have carried had it been sealed under the later one. */
  lemma ReplayAgreesWithFreshSeal(a: Shape, b: Shape, c: Shape, payload: seq<byte>)
    requires ValidShape(a) && ValidShape(b) && ValidShape(c) && a != c && b != c
    requires TranscodeSpec(a.fields, b.fields, payload).Ok?
    requires SealedArm(b.fields, c.fields, TranscodeSpec(a.fields, b.fields, payload).value).Ok?
    ensures SealedArm(b.fields, c.fields, TranscodeSpec(a.fields, b.fields, payload).value) ==
            UnsealedArm(a.fields, c.fields, payload)
  {
    hide Record.DecodeSpec, EncodeSpec, RemapSpec, ValidShape;
    var sealed := TranscodeSpec(a.fields, b.fields, payload).value;
    ArmsAgree(b, c, sealed);
    PathIndependence(a, b, c, payload);
  }

  // ------------------------------------------------------------ a column added

  lemma {:induction false} NullAppends(from: seq<Field>, row: seq<Value>, extra: Field, i: nat)
    requires |row| == |from| && i <= |from| && !extra.required
    ensures EncodeFrom(from + [extra], row + [Null], i) ==
            match EncodeFrom(from, row, i)
            case Err(e) => Err(e)
            case Ok(b) => Ok(b + [0])
    decreases |from| - i
  {
    var to, wider := from + [extra], row + [Null];
    if i == |from| {
      assert to[i] == extra && wider[i] == Null && EncodeFrom(to, wider, i + 1) == Ok([]);
      assert [0] + [] == [] + [0 as byte];
    } else {
      assert to[i] == from[i] && wider[i] == row[i];
      NullAppends(from, row, extra, i + 1);
      var column := EncodeColumn(from[i], row[i]);
      if column.Ok? && EncodeFrom(from, row, i + 1).Ok? {
        assert column.value + (EncodeFrom(from, row, i + 1).value + [0]) ==
               column.value + EncodeFrom(from, row, i + 1).value + [0];
      }
    }
  }

  lemma NewColumnIsNull(from: seq<Field>, row: seq<Value>, extra: Field)
    requires |row| == |from| && !extra.required && !Holds(from, extra.id)
    requires forall j, k | 0 <= j < k < |from| :: from[j].id < from[k].id
    requires forall k | 0 <= k < |from| && from[k].required :: !row[k].Null?
    ensures Remapped(from, from + [extra], row, row + [Null])
  {
    var to, wider := from + [extra], row + [Null];
    forall j | 0 <= j < |from|
      ensures Holds(to, from[j].id)
    {
      assert to[j].id == from[j].id;
    }
    forall k | 0 <= k < |to|
      ensures ServesColumn(from, row, to[k], wider[k])
    {
      if k < |from| {
        assert from[k].id == to[k].id;
      }
    }
  }

  /** A shape with an optional column added makes every payload exactly one byte
      longer: the one that says the new column is null. */
  lemma AddedColumnLengthens(from: Shape, extra: Field, payload: seq<byte>)
    requires ValidShape(from) && !extra.required && !Holds(from.fields, extra.id)
    requires Record.DecodeSpec(from.fields, payload).Ok?
    ensures TranscodeSpec(from.fields, from.fields + [extra], payload) == Ok(payload + [0])
  {
    hide Record.DecodeSpec, RemapSpec, Remapped, EncodeFrom;
    var row := Record.DecodeSpec(from.fields, payload).value;
    EncodeUndoesDecode(from.fields, payload);
    EncodableColumns(from.fields, row, 0);
    forall k | 0 <= k < |from.fields| && from.fields[k].required
      ensures !row[k].Null?
    {
      assert EncodeColumn(from.fields[k], row[k]).Ok?;
    }
    NewColumnIsNull(from.fields, row, extra);
    RemapIsRemapping(from.fields, from.fields + [extra], row, row + [Null]);
    NullAppends(from.fields, row, extra, 0);
    assert [ENCODING_VERSION] + (EncodeFrom(from.fields, row, 0).value + [0]) ==
           [ENCODING_VERSION] + EncodeFrom(from.fields, row, 0).value + [0];
  }

  // --------------------------------------------------------- which refusal, and whose

  predicate Dropped(to: seq<Field>, f: Field) { forall k | 0 <= k < |to| :: to[k].id != f.id }

  predicate NewAndRequired(from: seq<Field>, want: Field) {
    want.required && forall j | 0 <= j < |from| :: from[j].id != want.id
  }

  predicate Retyped(from: seq<Field>, want: Field) {
    exists j :: 0 <= j < |from| && from[j].id == want.id
                && !(from[j].kind == want.kind && from[j].precision == want.precision && from[j].scale == want.scale)
  }

  predicate NullWhereRequired(from: seq<Field>, row: seq<Value>, want: Field)
    requires |row| == |from|
  {
    want.required && exists j :: 0 <= j < |from| && from[j].id == want.id && row[j].Null?
  }

  // The first of these columns that is so.
  predicate First(fields: seq<Field>, k: int, bad: Field -> bool) {
    0 <= k < |fields| && bad(fields[k]) && forall j | 0 <= j < k :: !bad(fields[j])
  }

  lemma {:induction false} FirstRemovedIs(from: seq<Field>, to: seq<Field>, i: nat) returns (k: nat)
    requires i <= |from| && forall j | 0 <= j < i :: !Dropped(to, from[j])
    ensures FirstRemoved(from, to, i).None? ==> forall j | 0 <= j < |from| :: !Dropped(to, from[j])
    ensures FirstRemoved(from, to, i).Some? ==>
              First(from, k, f => Dropped(to, f)) && FirstRemoved(from, to, i) == Some(Error(FieldRemoved, from[k].id))
    decreases |from| - i
  {
    k := i;
    if i < |from| && IndexOfFieldID(to, from[i].id).Some? {
      k := FirstRemovedIs(from, to, i + 1);
    }
  }

  lemma ColumnRefusalIs(from: seq<Field>, want: Field)
    requires Ascending(from)
    ensures ColumnRefusal(from, want) ==
            if NewAndRequired(from, want) then Some(Error(FieldRequired, want.id))
            else if Retyped(from, want) then Some(Error(FieldRetyped, want.id)) else None
  {
    var at := IndexOfFieldID(from, want.id);
    if j :| 0 <= j < |from| && from[j].id == want.id {
      assert at == Some(j);
    }
  }

  lemma {:induction false} FirstRefusalIs(from: seq<Field>, to: seq<Field>, i: nat) returns (k: nat)
    requires Ascending(from) && i <= |to|
    requires forall j | 0 <= j < i :: !NewAndRequired(from, to[j]) && !Retyped(from, to[j])
    ensures FirstRefusal(from, to, i).None? ==>
              forall j | 0 <= j < |to| :: !NewAndRequired(from, to[j]) && !Retyped(from, to[j])
    ensures FirstRefusal(from, to, i).Some? ==>
              First(to, k, f => NewAndRequired(from, f) || Retyped(from, f))
              && FirstRefusal(from, to, i) ==
                 Some(Error(if NewAndRequired(from, to[k]) then FieldRequired else FieldRetyped, to[k].id))
    decreases |to| - i
  {
    hide ColumnRefusal, NewAndRequired, Retyped, Ascending;
    k := i;
    if i < |to| {
      ColumnRefusalIs(from, to[i]);
      if ColumnRefusal(from, to[i]).None? {
        k := FirstRefusalIs(from, to, i + 1);
      }
    }
  }

  /** Two shapes are refused for the first column dropped, wherever it stands; with none
      dropped, for the first target column that is new and required, or of another type;
      and for nothing else. */
  lemma ShapesAreRefusedFor(from: seq<Field>, to: seq<Field>)
    requires Ascending(from)
    ensures var r := CompatibleSpec(from, to);
            if exists f | f in from :: Dropped(to, f) then
              exists k :: First(from, k, f => Dropped(to, f)) && r == Some(Error(FieldRemoved, from[k].id))
            else if exists f | f in to :: NewAndRequired(from, f) || Retyped(from, f) then
              exists k :: First(to, k, f => NewAndRequired(from, f) || Retyped(from, f)) && r ==
                          Some(Error(if NewAndRequired(from, to[k]) then FieldRequired else FieldRetyped, to[k].id))
            else r == None
  {
    hide Dropped, NewAndRequired, Retyped, FirstRemoved, FirstRefusal, Ascending;
    var k := FirstRemovedIs(from, to, 0);
    var l := FirstRefusalIs(from, to, 0);
    assert FirstRemoved(from, to, 0).Some? ==> from[k] in from;
    assert FirstRefusal(from, to, 0).Some? ==> to[l] in to;
  }

  lemma {:induction false} FirstMissingIs(from: seq<Field>, to: seq<Field>, row: seq<Value>, i: nat) returns (k: nat)
    requires Ascending(from) && |row| == |from| && i <= |to|
    requires forall j | 0 <= j < i :: !NullWhereRequired(from, row, to[j])
    ensures RemapFrom(from, to, row, i).Ok? ==> forall j | 0 <= j < |to| :: !NullWhereRequired(from, row, to[j])
    ensures RemapFrom(from, to, row, i).Err? ==>
              0 <= k < |to| && NullWhereRequired(from, row, to[k])
              && (forall j | 0 <= j < k :: !NullWhereRequired(from, row, to[j]))
              && RemapFrom(from, to, row, i) == Err(Error(FieldRequired, to[k].id))
    decreases |to| - i
  {
    hide MissingValue, NullWhereRequired, Ascending;
    k := i;
    if i < |to| {
      MissingIs(from, row, to[i]);
      if !MissingValue(from, row, to[i]) {
        k := FirstMissingIs(from, to, row, i + 1);
      }
    }
  }

  lemma MissingIs(from: seq<Field>, row: seq<Value>, want: Field)
    requires Ascending(from) && |row| == |from|
    ensures MissingValue(from, row, want) <==> NullWhereRequired(from, row, want)
  {
    if j :| 0 <= j < |from| && from[j].id == want.id {
      assert IndexOfFieldID(from, want.id) == Some(j);
    }
  }

  /** A row is refused first for its length, then for what the shapes are refused for,
      then for the first target column that is required and has a null to hold. */
  lemma RowsAreRefusedFor(from: seq<Field>, to: seq<Field>, row: seq<Value>)
    requires Ascending(from)
    ensures var r := RemapSpec(from, to, row);
            if |row| != |from| then r == Err(Error(BadValue, 0))
            else if CompatibleSpec(from, to).Some? then r == Err(CompatibleSpec(from, to).value)
            else if exists f | f in to :: NullWhereRequired(from, row, f) then
              exists k :: First(to, k, f => NullWhereRequired(from, row, f)) && r == Err(Error(FieldRequired, to[k].id))
            else r.Ok?
  {
    hide NullWhereRequired, CompatibleSpec, Ascending, RemapFrom;
    if |row| == |from| {
      var k := FirstMissingIs(from, to, row, 0);
      if RemapFrom(from, to, row, 0).Err? {
        assert to[k] in to;
        assert First(to, k, f => NullWhereRequired(from, row, f));
      }
    }
  }
}
