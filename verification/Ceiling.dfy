/** The staging ceiling: the store's two counters (store.go). */
module Ceiling {
  // What charges and releases them (writer.go), and how they stand to what staging
  // really holds.

  import opened Record

  // ---------------------------------------------------------------- the counters

  function AtLeastZero(n: int): int { if n < 0 then 0 else n }

  class Counters {
    const maxRecords: int
    const maxBytes: int
    var records: int
    var bytes: int

    constructor (maxRecords: int, maxBytes: int, records: int, bytes: int)
      ensures this.maxRecords == maxRecords && this.maxBytes == maxBytes && this.records == records
              && this.bytes == bytes
    {
      this.maxRecords, this.maxBytes, this.records, this.bytes := maxRecords, maxBytes, records, bytes;
    }

    /** Charges a whole batch or none of it; what it accepts stays within the ceiling. */
    method AcceptBatch(n: nat, total: nat) returns (ok: bool)
      modifies this
      ensures ok == Room(old(records), old(bytes), maxRecords, maxBytes, n, total)
      ensures ok <==> n == 0 || (old(records) + n <= maxRecords && old(bytes) + total <= maxBytes)
      ensures records == old(records) + if ok then n else 0
      ensures bytes == old(bytes) + if ok && n > 0 then total else 0
      ensures ok && n > 0 ==> records <= maxRecords && bytes <= maxBytes
    {
      if n == 0 {
        return true;
      }
      if records + n > maxRecords || bytes + total > maxBytes {
        return false;
      }
      records := records + n;
      bytes := bytes + total;
      return true;
    }

    method Release(n: nat, total: nat)
      modifies this
      ensures records == AtLeastZero(old(records) - n) && bytes == AtLeastZero(old(bytes) - total)
      ensures records == (if old(records) >= n then old(records) - n else 0)
              && bytes == if old(bytes) >= total then old(bytes) - total else 0
    {
      records := records - n;
      bytes := bytes - total;
      if records < 0 {
        records := 0;
      }
      if bytes < 0 {
        bytes := 0;
      }
    }
  }

  predicate Room(records: int, bytes: int, maxRecords: int, maxBytes: int, n: nat, total: nat) {
    n == 0 || (records + n <= maxRecords && bytes + total <= maxBytes)
  }

  // ------------------------------------------------------------------ the records

  // A format byte and at least one column.
  const MIN_PAYLOAD: nat := 2

  /** What the open writer will release for a row, and the shape it declares. */
  datatype Holder = Holder(len: nat, shape: nat)

  /** One record's way through the store. `disk` is the length staging has for it, in
      the encoding of `shape`; `held` is its table's writer, when one is open. */
  datatype Row =
    | InFlight(len: nat, shape: nat, table: nat)
    | Staged(disk: nat, shape: nat, table: nat, sealed: bool, held: Option<Holder>)
    | Owed(len: nat)
    | Gone

  datatype State = State(rows: seq<Row>, records: int, bytes: int, maxRecords: int, maxBytes: int)

  datatype Event =
    | Charge(lens: seq<nat>, shape: nat, table: nat)
    | Append(ids: set<nat>)
    | AppendFails(ids: set<nat>)
    | Seal(lengths: map<nat, nat>)
    | Delete(ids: set<nat>)
    | Release(ids: set<nat>)
    | CloseWriter(ids: set<nat>)
    | OpenWriter(ids: set<nat>, shape: nat)
    | Restart

  // What a row ought to weigh in the counters.
  function Weight(r: Row): nat {
    match r
    case InFlight(len, _, _) => len
    case Staged(disk, _, _, _, _) => disk
    case Owed(len) => len
    case Gone => 0
  }

  function Unit(r: Row): nat { if r.Gone? then 0 else 1 }

  function Bytes(rows: seq<Row>): nat { if rows == [] then 0 else Weight(rows[0]) + Bytes(rows[1..]) }

  function Records(rows: seq<Row>): nat { if rows == [] then 0 else Unit(rows[0]) + Records(rows[1..]) }

  // The same, of the rows chosen, from the i-th on.
  function BytesOf(rows: seq<Row>, ids: set<nat>, i: nat): nat
    requires i <= |rows|
    decreases |rows| - i
  {
    if i == |rows| then 0 else (if i in ids then Weight(rows[i]) else 0) + BytesOf(rows, ids, i + 1)
  }

  function RecordsOf(rows: seq<Row>, ids: set<nat>, i: nat): nat
    requires i <= |rows|
    decreases |rows| - i
  {
    if i == |rows| then 0 else (if i in ids then Unit(rows[i]) else 0) + RecordsOf(rows, ids, i + 1)
  }

  function Sum(lens: seq<nat>): nat { if lens == [] then 0 else lens[0] + Sum(lens[1..]) }

  // Each chosen row changed by the same rule.
  function Changed(rows: seq<Row>, ids: set<nat>, f: (nat, Row) -> Row): (more: seq<Row>)
    ensures |more| == |rows| && forall i | 0 <= i < |rows| :: more[i] == if i in ids then f(i, rows[i]) else rows[i]
  {
    seq(|rows|, i requires 0 <= i < |rows| => if i in ids then f(i, rows[i]) else rows[i])
  }

  predicate All(rows: seq<Row>, ids: set<nat>, p: Row -> bool) { forall i | i in ids :: i < |rows| && p(rows[i]) }

  predicate Ready(r: Row) { r.Staged? && r.held.Some? && !r.sealed }

  // A seal re-encodes the rows written under another shape than the writer's, and no others.
  predicate Recodes(r: Row, len: nat) {
    Ready(r) && len >= MIN_PAYLOAD && (len != r.disk ==> r.shape != r.held.value.shape)
  }

  // Rows of one table.
  predicate OneTable(rows: seq<Row>, ids: set<nat>) {
    forall i, j | i in ids && j in ids && i < |rows| && j < |rows| && rows[i].Staged? && rows[j].Staged? ::
      rows[i].table == rows[j].table
  }

  // A batch is whole: no older row of the table is left waiting behind it.
  predicate Whole(rows: seq<Row>, ids: set<nat>) {
    forall i, j | i in ids && 0 <= j < i < |rows| && Ready(rows[i]) && Ready(rows[j])
        && rows[j].table == rows[i].table :: j in ids
  }

  predicate Can(s: State, e: Event) {
    match e
    case Charge(lens, _, _) =>
      && lens != [] && (forall n | n in lens :: n >= MIN_PAYLOAD)
      && Room(s.records, s.bytes, s.maxRecords, s.maxBytes, |lens|, Sum(lens))
    case Append(ids) => All(s.rows, ids, (r: Row) => r.InFlight?)
    case AppendFails(ids) => All(s.rows, ids, (r: Row) => r.InFlight?)
    case Seal(lens) =>
      && (forall i | i in lens :: i < |s.rows| && Recodes(s.rows[i], lens[i]))
      && OneTable(s.rows, lens.Keys) && Whole(s.rows, lens.Keys)
    case Delete(ids) => All(s.rows, ids, (r: Row) => r.Staged? && r.held.Some? && r.sealed) && OneTable(s.rows, ids)
    case Release(ids) => All(s.rows, ids, (r: Row) => r.Owed?)
    case CloseWriter(ids) => All(s.rows, ids, (r: Row) => r.Staged?) && OneTable(s.rows, ids)
    case OpenWriter(ids, _) => All(s.rows, ids, (r: Row) => r.Staged? && r.held.None?) && OneTable(s.rows, ids)
    case Restart => true
  }

  function Charged(lens: seq<nat>, shape: nat, table: nat): (rows: seq<Row>)
    ensures |rows| == |lens| && forall i | 0 <= i < |lens| :: rows[i] == InFlight(lens[i], shape, table)
  {
    seq(|lens|, i requires 0 <= i < |lens| => InFlight(lens[i], shape, table))
  }

  function Staging(r: Row): Row {
    if r.InFlight? then Staged(r.len, r.shape, r.table, false, Some(Holder(r.len, r.shape))) else r
  }

  function Recoded(r: Row, len: nat): Row {
    if r.Staged? && r.held.Some? then r.(disk := len, shape := r.held.value.shape, sealed := true) else r
  }

  function Dropped(rows: seq<Row>, ids: set<nat>): (more: seq<Row>)
    ensures |more| == |rows| && forall i | 0 <= i < |rows| :: more[i] == if i in ids then Gone else rows[i]
  {
    seq(|rows|, i requires 0 <= i < |rows| => if i in ids then Gone else rows[i])
  }

  function Released(s: State, ids: set<nat>): State {
    s.(rows := Dropped(s.rows, ids),
       records := AtLeastZero(s.records - RecordsOf(s.rows, ids, 0)),
       bytes := AtLeastZero(s.bytes - BytesOf(s.rows, ids, 0)))
  }

  // A new process: memory is gone, and the counters are read off staging.
  function Restarted(s: State): State {
    var rows := seq(|s.rows|, i requires 0 <= i < |s.rows| =>
                      if s.rows[i].Staged? then s.rows[i].(held := None) else Gone);
    s.(rows := rows, records := Records(rows), bytes := Bytes(rows))
  }

  function After(s: State, e: Event): State {
    match e
    case Charge(lens, shape, table) =>
      s.(rows := s.rows + Charged(lens, shape, table), records := s.records + |lens|, bytes := s.bytes + Sum(lens))
    case Append(ids) => s.(rows := Changed(s.rows, ids, (_, r: Row) => Staging(r)))
    case AppendFails(ids) => Released(s, ids)
    case Seal(lens) =>
      s.(rows := Changed(s.rows, lens.Keys, (i, r: Row) => if i in lens then Recoded(r, lens[i]) else r))
    case Delete(ids) =>
      s.(rows := Changed(s.rows, ids, (_, r: Row) => if r.Staged? && r.held.Some? then Owed(r.held.value.len) else r))
    case Release(ids) => Released(s, ids)
    case CloseWriter(ids) => s.(rows := Changed(s.rows, ids, (_, r: Row) => if r.Staged? then r.(held := None) else r))
    case OpenWriter(ids, shape) =>
      s.(rows := Changed(s.rows, ids, (_, r: Row) => if r.Staged? then r.(held := Some(Holder(r.disk, shape))) else r))
    case Restart => Restarted(s)
  }

  // ------------------------------------------------------------------ conservation

  /** The record counter is the records staged, charged and not yet released. */
  predicate RecordsExact(s: State) { s.records == Records(s.rows) }

  predicate BytesExact(s: State) { s.bytes == Bytes(s.rows) }

  // Every open writer will release what staging has.
  predicate Matched(s: State) {
    forall i | 0 <= i < |s.rows| && s.rows[i].Staged? && s.rows[i].held.Some? ::
        s.rows[i].held.value.len == s.rows[i].disk
  }

  lemma {:induction false} SumsAgree(a: seq<Row>, b: seq<Row>)
    requires |a| == |b| && forall i | 0 <= i < |a| :: Unit(a[i]) == Unit(b[i])
    ensures Records(a) == Records(b)
    ensures (forall i | 0 <= i < |a| :: Weight(a[i]) == Weight(b[i])) ==> Bytes(a) == Bytes(b)
    decreases |a|
  {
    if a != [] {
      SumsAgree(a[1..], b[1..]);
    }
  }

  lemma {:induction false} SumsAppend(a: seq<Row>, lens: seq<nat>, shape: nat, table: nat)
    ensures Records(a + Charged(lens, shape, table)) == Records(a) + |lens|
    ensures Bytes(a + Charged(lens, shape, table)) == Bytes(a) + Sum(lens)
    decreases |a|, |lens|
  {
    var more := Charged(lens, shape, table);
    if a != [] {
      assert (a + more)[1..] == a[1..] + more;
      SumsAppend(a[1..], lens, shape, table);
    } else if lens != [] {
      assert a + more == more && more[1..] == [] + Charged(lens[1..], shape, table);
      SumsAppend([], lens[1..], shape, table);
    } else {
      assert a + more == [];
    }
  }

  // The rows that go are exactly what the sums lose.
  lemma {:induction false} SumsLose(a: seq<Row>, b: seq<Row>, ids: set<nat>, i: nat)
    requires |a| == |b| && i <= |a| && forall k | i <= k < |a| :: b[k] == if k in ids then Gone else a[k]
    ensures Records(a[i..]) == Records(b[i..]) + RecordsOf(a, ids, i)
            && Bytes(a[i..]) == Bytes(b[i..]) + BytesOf(a, ids, i)
    decreases |a| - i
  {
    if i < |a| {
      assert a[i..][1..] == a[i + 1..] && b[i..][1..] == b[i + 1..];
      SumsLose(a, b, ids, i + 1);
    }
  }

  lemma ReleasedExactly(s: State, ids: set<nat>)
    ensures RecordsExact(s) ==> RecordsExact(Released(s, ids)) && RecordsOf(s.rows, ids, 0) <= s.records
    ensures BytesExact(s) ==> BytesExact(Released(s, ids)) && BytesOf(s.rows, ids, 0) <= s.bytes
  {
    hide Records, Bytes, RecordsOf, BytesOf;
    var rows := Dropped(s.rows, ids);
    assert s.rows[0..] == s.rows && rows[0..] == rows;
    SumsLose(s.rows, rows, ids, 0);
  }

  /** The record counter is exact in every run, whatever fails: it never under-counts
      staging, and the clamp to zero in `release` never acts on it. */
  lemma RecordsConserved(s: State, e: Event)
    requires RecordsExact(s) && Can(s, e)
    ensures RecordsExact(After(s, e))
    ensures e.Release? || e.AppendFails? ==> RecordsOf(s.rows, e.ids, 0) <= s.records
  {
    var t := After(s, e);
    match e
    case Charge(lens, shape, table) => SumsAppend(s.rows, lens, shape, table);
    case AppendFails(ids) => ReleasedExactly(s, ids);
    case Release(ids) => ReleasedExactly(s, ids);
    case Restart =>
    case _ => SumsAgree(s.rows, t.rows);
  }

  // A seal that rewrites no row to another length.
  predicate KeepsLengths(s: State, e: Event) {
    e.Seal? ==> forall i | i in e.lengths && i < |s.rows| && s.rows[i].Staged? :: e.lengths[i] == s.rows[i].disk
  }

  /** The byte counter, and what every open writer will release, stay exact across a
      step if and only if it is not a seal that changes some row's length; while they
      are exact the clamp never acts on the bytes either. */
  lemma BytesConservedIffLengthsKept(s: State, e: Event)
    requires BytesExact(s) && Matched(s) && Can(s, e)
    ensures BytesExact(After(s, e)) && Matched(After(s, e)) <==> KeepsLengths(s, e)
    ensures e.Release? || e.AppendFails? ==> BytesOf(s.rows, e.ids, 0) <= s.bytes
  {
    var t := After(s, e);
    match e
    case Charge(lens, shape, table) => SumsAppend(s.rows, lens, shape, table);
    case AppendFails(ids) => ReleasedExactly(s, ids);
    case Release(ids) => ReleasedExactly(s, ids);
    case Restart =>
    case Seal(lens) => SealConserves(s, lens);
    case _ => SumsAgree(s.rows, t.rows);
  }

  lemma SealConserves(s: State, lens: map<nat, nat>)
    requires BytesExact(s) && Matched(s) && Can(s, Seal(lens))
    ensures var t := After(s, Seal(lens));
            BytesExact(t) && Matched(t) <==> KeepsLengths(s, Seal(lens))
  {
    var e := Seal(lens);
    var t := After(s, e);
    if KeepsLengths(s, e) {
      SumsAgree(s.rows, t.rows);
    } else {
      var i :| i in lens && i < |s.rows| && s.rows[i].Staged? && lens[i] != s.rows[i].disk;
      assert t.rows[i].held.value.len == s.rows[i].disk;
    }
  }

  // ------------------------------------------------------------------------- runs

  predicate Legal(s: State, run: seq<Event>)
    decreases |run|
  {
    run == [] || (Can(s, run[0]) && Legal(After(s, run[0]), run[1..]))
  }

  function End(s: State, run: seq<Event>): State
    requires Legal(s, run)
    decreases |run|
  {
    if run == [] then s else End(After(s, run[0]), run[1..])
  }

  predicate Steady(s: State, run: seq<Event>)
    requires Legal(s, run)
    decreases |run|
  {
    run == [] || (KeepsLengths(s, run[0]) && Steady(After(s, run[0]), run[1..]))
  }

  function Empty(maxRecords: int, maxBytes: int): State { State([], 0, 0, maxRecords, maxBytes) }

  lemma {:induction false} RunsConserve(s: State, run: seq<Event>)
    requires RecordsExact(s) && Legal(s, run)
    ensures RecordsExact(End(s, run))
    ensures BytesExact(s) && Matched(s) && Steady(s, run) ==> BytesExact(End(s, run)) && Matched(End(s, run))
    decreases |run|
  {
    hide RecordsExact, BytesExact, Matched, KeepsLengths, Can, After;
    if run != [] {
      RecordsConserved(s, run[0]);
      if BytesExact(s) && Matched(s) && Steady(s, run) {
        BytesConservedIffLengthsKept(s, run[0]);
      }
      RunsConserve(After(s, run[0]), run[1..]);
    }
  }

  // At every point of a run the bytes are exact, and writers will release what staging has.
  predicate ExactThroughout(s: State, run: seq<Event>)
    requires Legal(s, run)
    decreases |run|
  {
    BytesExact(s) && Matched(s) && (run != [] ==> ExactThroughout(After(s, run[0]), run[1..]))
  }

  lemma {:induction false} ExactIffSteadyFrom(s: State, run: seq<Event>)
    requires BytesExact(s) && Matched(s) && Legal(s, run)
    ensures ExactThroughout(s, run) <==> Steady(s, run)
    decreases |run|
  {
    hide BytesExact, Matched, KeepsLengths, Can, After;
    if run != [] {
      BytesConservedIffLengthsKept(s, run[0]);
      ExactNow(After(s, run[0]), run[1..]);
      if KeepsLengths(s, run[0]) {
        ExactIffSteadyFrom(After(s, run[0]), run[1..]);
      }
    }
  }

  lemma ExactNow(s: State, run: seq<Event>)
    requires Legal(s, run)
    ensures ExactThroughout(s, run) ==> BytesExact(s) && Matched(s)
  {
    hide BytesExact, Matched;
  }

  /** Over whole runs: the byte counter, and what writers will release, are exact at
      every point if and only if no seal changes a length. */
  lemma ExactIffSteady(maxRecords: int, maxBytes: int, run: seq<Event>)
    requires Legal(Empty(maxRecords, maxBytes), run)
    ensures ExactThroughout(Empty(maxRecords, maxBytes), run) <==> Steady(Empty(maxRecords, maxBytes), run)
  {
    hide Legal, Steady, ExactThroughout;
    ExactIffSteadyFrom(Empty(maxRecords, maxBytes), run);
  }

  /** In every run the record counter is exactly what staging holds, plus charges in
      flight, plus what is deleted and not yet released; and in every run whose seals
      keep lengths, so is the byte counter. */
  lemma CountersConserved(maxRecords: int, maxBytes: int, run: seq<Event>)
    requires Legal(Empty(maxRecords, maxBytes), run)
    ensures RecordsExact(End(Empty(maxRecords, maxBytes), run))
    ensures Steady(Empty(maxRecords, maxBytes), run) ==> BytesExact(End(Empty(maxRecords, maxBytes), run))
  {
    RunsConserve(Empty(maxRecords, maxBytes), run);
  }

  // A new process keeps what is staged, and no more.
  lemma {:induction false} RestartLessens(a: seq<Row>, b: seq<Row>)
    requires |a| == |b| && forall i | 0 <= i < |a| :: Unit(b[i]) <= Unit(a[i]) && Weight(b[i]) <= Weight(a[i])
    ensures Records(b) <= Records(a) && Bytes(b) <= Bytes(a)
    decreases |a|
  {
    if a != [] {
      RestartLessens(a[1..], b[1..]);
    }
  }

  predicate Within(s: State) { s.records <= s.maxRecords }

  predicate BytesWithin(s: State) { s.bytes <= s.maxBytes }

  lemma StaysWithin(s: State, e: Event)
    requires s.maxRecords >= 0 && s.maxBytes >= 0 && RecordsExact(s) && Within(s) && Can(s, e)
    ensures Within(After(s, e)) && (BytesExact(s) && BytesWithin(s) ==> BytesWithin(After(s, e)))
  {
    hide Sum;
    if e.Restart? {
      RestartLessens(s.rows, After(s, e).rows);
    }
  }

  lemma {:induction false} RunStaysWithin(s: State, run: seq<Event>)
    requires s.maxRecords >= 0 && s.maxBytes >= 0 && RecordsExact(s) && Within(s) && Legal(s, run)
    ensures RecordsExact(End(s, run)) && Within(End(s, run)) && End(s, run).maxRecords == s.maxRecords
    ensures BytesExact(s) && Matched(s) && BytesWithin(s) && Steady(s, run) ==>
              BytesExact(End(s, run)) && BytesWithin(End(s, run)) && End(s, run).maxBytes == s.maxBytes
    decreases |run|
  {
    hide RecordsExact, BytesExact, Matched, KeepsLengths, Can, Within, BytesWithin;
    if run != [] {
      StaysWithin(s, run[0]);
      RecordsConserved(s, run[0]);
      if BytesExact(s) && Matched(s) && BytesWithin(s) && Steady(s, run) {
        BytesConservedIffLengthsKept(s, run[0]);
      }
      SameCeiling(s, run[0]);
      RunStaysWithin(After(s, run[0]), run[1..]);
    }
  }

  lemma SameCeiling(s: State, e: Event)
    requires Can(s, e)
    ensures After(s, e).maxRecords == s.maxRecords && After(s, e).maxBytes == s.maxBytes
  {
  }

  /** What the ceiling is for: in no run does staging, with what is charged and not yet
      released, hold more records than the ceiling, nor more bytes in a run whose seals
      keep lengths. */
  lemma CeilingHolds(maxRecords: nat, maxBytes: nat, run: seq<Event>)
    requires Legal(Empty(maxRecords, maxBytes), run)
    ensures Records(End(Empty(maxRecords, maxBytes), run).rows) <= maxRecords
    ensures Steady(Empty(maxRecords, maxBytes), run) ==> Bytes(End(Empty(maxRecords, maxBytes), run).rows) <= maxBytes
  {
    hide Legal, End, Steady;
    RunStaysWithin(Empty(maxRecords, maxBytes), run);
  }

  // Every writer declares one shape.
  predicate OneShape(run: seq<Event>, shape: nat) {
    forall e | e in run :: (e.Charge? ==> e.shape == shape) && (e.OpenWriter? ==> e.shape == shape)
  }

  predicate Shaped(s: State, shape: nat) {
    forall r | r in s.rows ::
      && (r.InFlight? ==> r.shape == shape)
      && (r.Staged? ==> r.shape == shape && (r.held.Some? ==> r.held.value.shape == shape))
  }

  lemma ShapeKept(s: State, e: Event, shape: nat)
    requires Shaped(s, shape) && Can(s, e) && (e.Charge? ==> e.shape == shape) && (e.OpenWriter? ==> e.shape == shape)
    ensures Shaped(After(s, e), shape) && KeepsLengths(s, e)
  {
    hide Records, Bytes, RecordsOf, BytesOf, Sum;
    var t := After(s, e);
    forall r | r in t.rows
      ensures (r.InFlight? ==> r.shape == shape)
      ensures r.Staged? ==> r.shape == shape && (r.held.Some? ==> r.held.value.shape == shape)
    {
      var i :| 0 <= i < |t.rows| && t.rows[i] == r;
      assert i < |s.rows| ==> s.rows[i] in s.rows;
    }
    if e.Seal? {
      forall i | i in e.lengths && i < |s.rows| && s.rows[i].Staged?
        ensures e.lengths[i] == s.rows[i].disk
      {
        assert s.rows[i] in s.rows;
      }
    }
  }

  lemma {:induction false} OneShapeSteady(s: State, run: seq<Event>, shape: nat)
    requires Shaped(s, shape) && Legal(s, run) && OneShape(run, shape)
    ensures Steady(s, run)
    decreases |run|
  {
    hide Shaped, Can, After, KeepsLengths;
    if run != [] {
      assert run[0] in run && forall e | e in run[1..] :: e in run;
      ShapeKept(s, run[0], shape);
      OneShapeSteady(After(s, run[0]), run[1..], shape);
    }
  }

  /** A store whose writers never change the shape they declare keeps both counters
      exact through every run: only a seal under another shape can spoil them. */
  lemma OneShapeIsExact(maxRecords: int, maxBytes: int, run: seq<Event>, shape: nat)
    requires Legal(Empty(maxRecords, maxBytes), run) && OneShape(run, shape)
    ensures RecordsExact(End(Empty(maxRecords, maxBytes), run)) && BytesExact(End(Empty(maxRecords, maxBytes), run))
  {
    hide Legal, End, Steady, OneShape;
    OneShapeSteady(Empty(maxRecords, maxBytes), run, shape);
    CountersConserved(maxRecords, maxBytes, run);
  }

  // ---------------------------------------------------------- a run that spoils them

  lemma OneMore(s: State, e: Event, run: seq<Event>)
    requires Can(s, e) && Legal(After(s, e), run)
    ensures Legal(s, [e] + run) && End(s, [e] + run) == End(After(s, e), run)
  {
    hide Can, After;
    assert ([e] + run)[1..] == run;
  }

  const FIRST: set<nat> := {0}
  const SECOND: set<nat> := {1}

  function Store(rows: seq<Row>, records: int, bytes: int): State { State(rows, records, bytes, 9, 4) }

  // A null in the one optional column its table's writer declares.
  function Short(table: nat, held: Option<Holder>): Row { Staged(2, 0, table, false, held) }

  // The same sealed, with a second column added: see Remap.AddedColumnLengthens.
  function Long(held: Option<Holder>): Row { Staged(3, 1, 0, true, held) }

  // The other table's record stays as it is throughout.
  function Other(): Row { Short(1, Some(Holder(2, 0))) }

  /** Two tables take a record of two bytes each, against a ceiling of four. The first
      table's writer is reopened with a column added; its batch is sealed, which makes
      its record three bytes; it is reopened again, commits and deletes. */
  const OVERFLOW: seq<Event> :=
    [Charge([2], 0, 0), Append(FIRST), Charge([2], 0, 1), Append(SECOND),
     CloseWriter(FIRST), OpenWriter(FIRST, 1), Seal(map[0 := 3]),
     CloseWriter(FIRST), OpenWriter(FIRST, 1), Delete(FIRST)]

  lemma FirstStaged()
    ensures var s0, s1 := Empty(9, 4), Store([InFlight(2, 0, 0)], 1, 2);
            && Can(s0, Charge([2], 0, 0)) && After(s0, Charge([2], 0, 0)) == s1
            && Can(s1, Append(FIRST)) && After(s1, Append(FIRST)) == Store([Short(0, Some(Holder(2, 0)))], 1, 2)
  {
    var s1 := Store([InFlight(2, 0, 0)], 1, 2);
    assert [2][1..] == [] && Charged([2], 0, 0) == [InFlight(2, 0, 0)];
    assert After(s1, Append(FIRST)).rows == [Short(0, Some(Holder(2, 0)))];
  }

  lemma SecondStaged()
    ensures var s2 := Store([Short(0, Some(Holder(2, 0)))], 1, 2);
            var s3 := Store([Short(0, Some(Holder(2, 0))), InFlight(2, 0, 1)], 2, 4);
            && Can(s2, Charge([2], 0, 1)) && After(s2, Charge([2], 0, 1)) == s3
            && Can(s3, Append(SECOND)) && After(s3, Append(SECOND)) ==
                Store([Short(0, Some(Holder(2, 0))), Other()], 2, 4)
  {
    var s3 := Store([Short(0, Some(Holder(2, 0))), InFlight(2, 0, 1)], 2, 4);
    assert [2][1..] == [] && Charged([2], 0, 1) == [InFlight(2, 0, 1)];
    assert After(s3, Append(SECOND)).rows == [Short(0, Some(Holder(2, 0))), Other()];
  }

  lemma Reshaped()
    ensures var s4, s5 := Store([Short(0, Some(Holder(2, 0))), Other()], 2, 4), Store([Short(0, None), Other()], 2, 4);
            && Can(s4, CloseWriter(FIRST)) && After(s4, CloseWriter(FIRST)) == s5
            && Can(s5, OpenWriter(FIRST, 1))
            && After(s5, OpenWriter(FIRST, 1)) == Store([Short(0, Some(Holder(2, 1))), Other()], 2, 4)
  {
    var s4, s5 := Store([Short(0, Some(Holder(2, 0))), Other()], 2, 4), Store([Short(0, None), Other()], 2, 4);
    assert After(s4, CloseWriter(FIRST)).rows == s5.rows;
    assert After(s5, OpenWriter(FIRST, 1)).rows == [Short(0, Some(Holder(2, 1))), Other()];
  }

  lemma FirstRecoded()
    ensures var s6, s7 := Store([Short(0, Some(Holder(2, 1))), Other()], 2, 4),
            Store([Long(Some(Holder(2, 1))), Other()], 2, 4);
            Can(s6, Seal(map[0 := 3])) && After(s6, Seal(map[0 := 3])) == s7
  {
    var s6 := Store([Short(0, Some(Holder(2, 1))), Other()], 2, 4);
    assert After(s6, Seal(map[0 := 3])).rows == [Long(Some(Holder(2, 1))), Other()];
  }

  lemma ReopenedAndDeleted()
    ensures var s7, s8 := Store([Long(Some(Holder(2, 1))), Other()], 2, 4), Store([Long(None), Other()], 2, 4);
            var s9 := Store([Long(Some(Holder(3, 1))), Other()], 2, 4);
            && Can(s7, CloseWriter(FIRST)) && After(s7, CloseWriter(FIRST)) == s8
            && Can(s8, OpenWriter(FIRST, 1)) && After(s8, OpenWriter(FIRST, 1)) == s9
            && Can(s9, Delete(FIRST)) && After(s9, Delete(FIRST)) == Store([Owed(3), Other()], 2, 4)
  {
    var s7, s8 := Store([Long(Some(Holder(2, 1))), Other()], 2, 4), Store([Long(None), Other()], 2, 4);
    var s9 := Store([Long(Some(Holder(3, 1))), Other()], 2, 4);
    assert After(s7, CloseWriter(FIRST)).rows == s8.rows;
    assert After(s8, OpenWriter(FIRST, 1)).rows == s9.rows;
    assert After(s9, Delete(FIRST)).rows == [Owed(3), Other()];
  }

  // The release takes three bytes off for a record charged two.
  lemma FirstReleased()
    ensures var s := Store([Owed(3), Other()], 2, 4);
            Can(s, Release(FIRST)) && After(s, Release(FIRST)) == Store([Gone, Other()], 1, 1)
  {
    var s := Store([Owed(3), Other()], 2, 4);
    assert BytesOf(s.rows, FIRST, 2) == 0 && RecordsOf(s.rows, FIRST, 2) == 0;
    assert BytesOf(s.rows, FIRST, 1) == 0 && RecordsOf(s.rows, FIRST, 1) == 0;
    assert Dropped(s.rows, FIRST) == [Gone, Other()];
  }

  // Two nulls under the longer shape are let in.
  lemma ThreeMore()
    ensures var t := Store([Gone, Other()], 1, 1);
            && Can(t, Charge([3], 1, 0)) && Bytes(t.rows) == 2
            && After(t, Charge([3], 1, 0)).bytes == 4 && Bytes(After(t, Charge([3], 1, 0)).rows) == 5
  {
    var t := Store([Gone, Other()], 1, 1);
    assert [3][1..] == [];
    assert t.rows[1..] == [Other()] && t.rows[1..][1..] == [];
    SumsAppend(t.rows, [3], 1, 0);
  }

  // From the reopening under the longer shape on.
  lemma SecondHalf() returns (run: seq<Event>)
    ensures run == [OpenWriter(FIRST, 1), Seal(map[0 := 3]), CloseWriter(FIRST), OpenWriter(FIRST, 1), Delete(FIRST)]
    ensures Legal(Store([Short(0, None), Other()], 2, 4), run)
    ensures End(Store([Short(0, None), Other()], 2, 4), run) == Store([Owed(3), Other()], 2, 4)
  {
    hide Legal, End, Can, After;
    Reshaped();
    FirstRecoded();
    ReopenedAndDeleted();
    NoSteps(Store([Owed(3), Other()], 2, 4));
    run := Before(Store([Long(Some(Holder(3, 1))), Other()], 2, 4), Delete(FIRST), []);
    run := Before(Store([Long(None), Other()], 2, 4), OpenWriter(FIRST, 1), run);
    run := Before(Store([Long(Some(Holder(2, 1))), Other()], 2, 4), CloseWriter(FIRST), run);
    run := Before(Store([Short(0, Some(Holder(2, 1))), Other()], 2, 4), Seal(map[0 := 3]), run);
    run := Before(Store([Short(0, None), Other()], 2, 4), OpenWriter(FIRST, 1), run);
  }

  lemma WholeRun()
    ensures Legal(Empty(9, 4), OVERFLOW) && End(Empty(9, 4), OVERFLOW) == Store([Owed(3), Other()], 2, 4)
  {
    hide Legal, End, Can, After;
    FirstStaged();
    SecondStaged();
    Reshaped();
    var run := SecondHalf();
    run := Before(Store([Short(0, Some(Holder(2, 0))), Other()], 2, 4), CloseWriter(FIRST), run);
    run := Before(Store([Short(0, Some(Holder(2, 0))), InFlight(2, 0, 1)], 2, 4), Append(SECOND), run);
    run := Before(Store([Short(0, Some(Holder(2, 0)))], 1, 2), Charge([2], 0, 1), run);
    run := Before(Store([InFlight(2, 0, 0)], 1, 2), Append(FIRST), run);
    run := Before(Empty(9, 4), Charge([2], 0, 0), run);
    assert run == OVERFLOW;
  }

  /** At the end of that run four bytes are charged; the release that follows takes back
      three for a record charged two, and a record of three bytes is then let in, with
      staging already holding two of the ceiling's four. */
  lemma RecodedSealLetsStagingOverflow()
    ensures Legal(Empty(9, 4), OVERFLOW)
    ensures var s := End(Empty(9, 4), OVERFLOW);
            && s.bytes == 4 && Can(s, Release(FIRST))
            && var t := After(s, Release(FIRST));
               && t.bytes == 1 && Bytes(t.rows) == 2 && Can(t, Charge([3], 1, 0))
               && Bytes(After(t, Charge([3], 1, 0)).rows) == 5 && t.maxBytes == 4
  {
    hide Legal, End, Can, After, Bytes;
    WholeRun();
    FirstReleased();
    ThreeMore();
  }

  lemma Before(s: State, e: Event, run: seq<Event>) returns (longer: seq<Event>)
    requires Can(s, e) && Legal(After(s, e), run)
    ensures longer == [e] + run && Legal(s, longer) && End(s, longer) == End(After(s, e), run)
  {
    OneMore(s, e, run);
    longer := [e] + run;
  }

  lemma NoSteps(s: State)
    ensures Legal(s, []) && End(s, []) == s
  {
  }

  // ------------------------------------------------------- one writer's own books

  /** A row the writer holds: its id and the length it will be released by. */
  datatype Held = Held(id: nat, len: nat)

  function Lens(rows: seq<Held>): nat { if rows == [] then 0 else Lens(rows[..|rows| - 1]) + rows[|rows| - 1].len }

  function Count(queued: seq<seq<Held>>): nat { if queued == [] then 0 else |queued[0]| + Count(queued[1..]) }

  function Load(queued: seq<seq<Held>>): nat { if queued == [] then 0 else Lens(queued[0]) + Load(queued[1..]) }

  lemma {:induction false} QueueGrows(queued: seq<seq<Held>>, batch: seq<Held>)
    ensures Count(queued + [batch]) == Count(queued) + |batch| && Load(queued + [batch]) == Load(queued) + Lens(batch)
    decreases |queued|
  {
    if queued == [] {
      assert queued + [batch] == [batch] && [batch][1..] == [];
    } else {
      assert (queued + [batch])[1..] == queued[1..] + [batch];
      QueueGrows(queued[1..], batch);
    }
  }

  lemma {:induction false} LensJoin(a: seq<Held>, b: seq<Held>)
    ensures Lens(a + b) == Lens(a) + Lens(b)
    decreases |b|
  {
    if b == [] {
      assert a + b == a;
    } else {
      assert (a + b)[..|a + b| - 1] == a + b[..|b| - 1];
      LensJoin(a, b[..|b| - 1]);
    }
  }

  /** A writer's bookkeeping: the batch being accumulated, and what it has handed to
      its worker. `queued` is the worker's queue as this writer accounts for it. */
  class Books {
    const maxRecords: nat
    const maxBytes: nat
    const floor: int
    var batch: seq<Held>
    var batchBytes: int
    var queuedRecords: int
    var queuedBytes: int
    var lastSealAt: int
    var floorEngaged: nat
    var closed: bool
    ghost var queued: seq<seq<Held>>

    ghost predicate Valid()
      reads this
    {
      && batchBytes == Lens(batch) && queuedRecords == Count(queued) && queuedBytes == Load(queued)
      && forall k | 0 <= k < |queued| :: queued[k] != []
    }

    constructor (maxRecords: nat, maxBytes: nat, floor: int, now: int)
      ensures Valid() && batch == [] && queued == [] && !closed && lastSealAt == now
    {
      this.maxRecords, this.maxBytes, this.floor := maxRecords, maxBytes, floor;
      batch, batchBytes, queuedRecords, queuedBytes, queued := [], 0, 0, 0, [];
      lastSealAt, floorEngaged, closed := now, 0, false;
    }

    /** Hands the batch over and starts an empty one. */
    method SealLocked(now: int)
      requires Valid()
      modifies this
      ensures Valid() && closed == old(closed) && floorEngaged == old(floorEngaged) && batch == []
      ensures queued == if old(batch) == [] then old(queued) else old(queued) + [old(batch)]
      ensures lastSealAt == if old(batch) == [] then old(lastSealAt) else now
    {
      if |batch| == 0 {
        return;
      }
      QueueGrows(queued, batch);
      queued := queued + [batch];
      queuedRecords := queuedRecords + |batch|;
      queuedBytes := queuedBytes + batchBytes;
      batch, batchBytes := [], 0;
      lastSealAt := now;
    }

    /** Seals unless the floor has not passed since the last seal; a trigger held back
        leaves the batch as it is and is counted. */
    method TriggerLocked(now: int)
      requires Valid()
      modifies this
      ensures Valid() && closed == old(closed)
      ensures lastSealAt == if batch == [] && old(batch) != [] then now else old(lastSealAt)
      ensures var held := old(batch) != [] && now - old(lastSealAt) < floor;
              && floorEngaged == old(floorEngaged) + (if held then 1 else 0)
              && (held ==> batch == old(batch) && queued == old(queued) && lastSealAt == old(lastSealAt))
              && (!held ==>
                    batch == [] && queued == if old(batch) == [] then old(queued) else old(queued) + [old(batch)])
    {
      if |batch| == 0 {
        return;
      }
      if now - lastSealAt < floor {
        floorEngaged := floorEngaged + 1;
        return;
      }
      SealLocked(now);
    }

    /** Rows just staged join the batch, and one trigger is considered for them all: the
        batch is sealed exactly when it has reached a threshold and the floor has passed. */
    method Stage(rows: seq<Held>, now: int)
      requires Valid() && rows != []
      modifies this
      ensures Valid() && closed == old(closed)
      ensures var all := old(batch) + rows;
              var full, late := |all| >= maxRecords || Lens(all) >= maxBytes, now - old(lastSealAt) >= floor;
              && batch == (if full && late then [] else all)
              && queued == (if full && late then old(queued) + [all] else old(queued))
              && lastSealAt == (if full && late then now else old(lastSealAt))
              && floorEngaged == old(floorEngaged) + if full && !late then 1 else 0
    {
      hide Lens, Count, Load;
      LensJoin(batch, rows);
      batch := batch + rows;
      batchBytes := batchBytes + Lens(rows);
      if |batch| >= maxRecords || batchBytes >= maxBytes {
        TriggerLocked(now);
      }
    }

    /** The head batch has left the queue, committed or quarantined. */
    method Settled(records: int, bytes: int)
      requires Valid() && queued != [] && records == |queued[0]| && bytes == Lens(queued[0])
      modifies this`queuedRecords, this`queuedBytes, this`queued
      ensures Valid() && queued == old(queued)[1..]
    {
      queuedRecords := queuedRecords - records;
      queuedBytes := queuedBytes - bytes;
      queued := queued[1..];
    }

    /** Accepted and not yet settled, in records and bytes. */
    method Pending() returns (records: int, bytes: int)
      requires Valid()
      ensures records == Count(queued + [batch]) && bytes == Load(queued + [batch])
    {
      QueueGrows(queued, batch);
      return |batch| + queuedRecords, batchBytes + queuedBytes;
    }
  }
}
