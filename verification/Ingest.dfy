/** Writing a stream into staging. */
module Ingest {
  // `IngestStream`, `writeChunk` and `writeGroup` of ingest.go, over the batch door of
  // writer.go.
  //
  // A record arrives already framed (Scanner.dfy) and read: either this layer
  // refuses it, or it is a row of some table. A row is what the door sees of it: a
  // length, and whether the table can hold it, which is decided by the row alone.

  import opened Record

  /** Why a record is refused. */
  datatype Kind = Grammar | Envelope | UnknownTable | RowRefused

  datatype Item = Item(number: nat, refused: bool, bytes: nat)

  datatype Reading = Bad(kind: Kind) | Good(table: nat, item: Item)

  datatype Rec = Rec(number: nat, size: nat, reading: Reading)

  /** A record in staging. */
  datatype Placed = Placed(table: nat, number: nat)

  function PlaceAll(table: nat, items: seq<Item>): (log: seq<Placed>)
    ensures |log| == |items| && forall k | 0 <= k < |items| :: log[k] == Placed(table, items[k].number)
  {
    seq(|items|, k requires 0 <= k < |items| => Placed(table, items[k].number))
  }

  // ------------------------------------------------------------------ the batch door

  /** What one call of the door finds: the room under the ceiling, and what goes
      wrong. Other writers and the flush worker move the counters between calls. */
  datatype Turn = Turn(records: int, bytes: int, closed: bool, closing: bool, fault: bool, cancelled: bool)

  datatype Answer = Accepted | Refused(index: nat) | Full | Closed | Fault | Cancelled

  function FirstRefused(items: seq<Item>, i: nat): (r: Option<nat>)
    requires i <= |items|
    ensures r.Some? ==>
              i <= r.value < |items| && items[r.value].refused && forall k | i <= k < r.value :: !items[k].refused
    ensures r.None? ==> forall k | i <= k < |items| :: !items[k].refused
    decreases |items| - i
  {
    if i == |items| then None else if items[i].refused then Some(i) else FirstRefused(items, i + 1)
  }

  function Total(items: seq<Item>): nat {
    if items == [] then 0 else Total(items[..|items| - 1]) + items[|items| - 1].bytes
  }

  // The whole batch is charged at once: it fits or none of it does.
  predicate Fits(items: seq<Item>, turn: Turn) { |items| <= turn.records && Total(items) <= turn.bytes }

  // Every row is judged before the ceiling is charged.
  function Judge(items: seq<Item>, turn: Turn): Answer {
    if turn.closed then Closed
    else if items == [] then Accepted
    else if FirstRefused(items, 0).Some? then Answer.Refused(FirstRefused(items, 0).value)
    else if turn.closing then Closed
    else if !Fits(items, turn) then Full
    else if turn.cancelled then Cancelled
    else if turn.fault then Fault
    else Accepted
  }

  /** The answers of the door, one by one: a closed writer before anything else, then the
      first row no table can hold, then a writer that is closing, then a slice that is
      over either count of the room left (filling it exactly is not), then a context
      that has ended, then a fault of the store. */
  lemma {:induction false} JudgeSays(items: seq<Item>, turn: Turn, k: nat)
    requires items != [] && k <= |items| && forall j | 0 <= j < k :: !items[j].refused
    ensures turn.closed ==> Judge(items, turn).Closed?
    ensures !turn.closed && k < |items| && items[k].refused ==> Judge(items, turn) == Answer.Refused(k)
    ensures !turn.closed && k == |items| ==>
              Judge(items, turn) ==
              if turn.closing then Closed
              else if |items| > turn.records || Total(items) > turn.bytes then Full
              else if turn.cancelled then Cancelled
              else if turn.fault then Fault else Accepted
  {
    var first := FirstRefused(items, 0);
    assert first.Some? ==> items[first.value].refused;
  }

  // What an answer says of the rows.
  lemma JudgeMeans(items: seq<Item>, turn: Turn)
    requires items != []
    ensures var a := Judge(items, turn);
            && (a.Accepted? || a.Full? ==> forall k | 0 <= k < |items| :: !items[k].refused)
            && (a.Full? ==> !Fits(items, turn))
            && (a.Refused? ==> FirstRefused(items, 0) == Some(a.index))
  {
    hide Fits;
  }

  /** A slice is as long as its parts, and a row as long as itself. */
  lemma {:induction false} TotalAdds(a: seq<Item>, b: seq<Item>)
    ensures Total(a + b) == Total(a) + Total(b)
    ensures forall x: Item :: Total([x]) == x.bytes
    decreases |b|
  {
    if b == [] {
      assert a + b == a;
    } else {
      TotalAdds(a, b[..|b| - 1]);
      assert (a + b)[..|a + b| - 1] == a + b[..|b| - 1];
    }
    forall x: Item
      ensures Total([x]) == x.bytes
    {
      assert [x][..0] == [] && Total([]) == 0;
    }
  }

  // --------------------------------------------------------------------- grouping

  /** One table's records out of one chunk, in input order. */
  datatype Group = Group(table: nat, items: seq<Item>)

  function IndexOf(groups: seq<Group>, table: nat, i: nat): (r: Option<nat>)
    requires i <= |groups|
    ensures r.Some? ==> i <= r.value < |groups| && groups[r.value].table == table
    ensures r.None? ==> forall k | i <= k < |groups| :: groups[k].table != table
    decreases |groups| - i
  {
    if i == |groups| then None else if groups[i].table == table then Some(i) else IndexOf(groups, table, i + 1)
  }

  function AddTo(groups: seq<Group>, table: nat, item: Item): seq<Group> {
    match IndexOf(groups, table, 0)
    case Some(j) => groups[j := Group(table, groups[j].items + [item])]
    case None => groups + [Group(table, [item])]
  }

  // The groups of the first n records, none of which this layer refuses.
  function Grouped(chunk: seq<Rec>, n: nat): seq<Group>
    requires n <= |chunk| && forall k | 0 <= k < n :: chunk[k].reading.Good?
    decreases n
  {
    if n == 0 then [] else AddTo(Grouped(chunk, n - 1), chunk[n - 1].reading.table, chunk[n - 1].reading.item)
  }

  // How many records come before the first this layer refuses.
  function Readable(chunk: seq<Rec>, i: nat): (n: nat)
    requires i <= |chunk|
    ensures i <= n <= |chunk| && forall k | i <= k < n :: chunk[k].reading.Good?
    ensures n < |chunk| ==> chunk[n].reading.Bad?
    decreases |chunk| - i
  {
    if i == |chunk| || chunk[i].reading.Bad? then i else Readable(chunk, i + 1)
  }

  // The record this layer refuses first, if it refuses one.
  function FirstBad(chunk: seq<Rec>): Option<Rec> {
    var n := Readable(chunk, 0);
    if n < |chunk| then Some(chunk[n]) else None
  }

  method GroupChunk(chunk: seq<Rec>) returns (groups: seq<Group>, bad: Option<Rec>)
    ensures groups == Grouped(chunk, Readable(chunk, 0))
    ensures bad == FirstBad(chunk)
  {
    groups := [];
    var byTable: map<nat, nat> := map[];
    for i := 0 to |chunk|
      invariant Readable(chunk, 0) == Readable(chunk, i)
      invariant forall k | 0 <= k < i :: chunk[k].reading.Good?
      invariant groups == Grouped(chunk, i)
      invariant forall t :: t in byTable <==> IndexOf(groups, t, 0).Some?
      invariant forall t | t in byTable :: IndexOf(groups, t, 0) == Some(byTable[t])
    {
      match chunk[i].reading {
        case Bad(_) =>
          return groups, Some(chunk[i]);
        case Good(table, item) =>
          AddToKeepsPlaces(groups, table, item);
          if table in byTable {
            var j := byTable[table];
            groups := groups[j := Group(table, groups[j].items + [item])];
          } else {
            byTable := byTable[table := |groups|];
            groups := groups + [Group(table, [item])];
          }
      }
    }
    return groups, None;
  }

  // Adding a record moves no table's group.
  lemma AddToKeepsPlaces(groups: seq<Group>, table: nat, item: Item)
    ensures var more := AddTo(groups, table, item);
            && (forall t | t != table :: IndexOf(more, t, 0) == IndexOf(groups, t, 0))
            && IndexOf(more, table, 0) == Some(if IndexOf(groups, table, 0).Some? then IndexOf(groups, table, 0).value
                else |groups|)
  {
    var more := AddTo(groups, table, item);
    forall t | t != table
      ensures IndexOf(more, t, 0) == IndexOf(groups, t, 0)
    {
      SameIndex(groups, more, t);
    }
    FirstIndex(groups, table, 0);
    if IndexOf(groups, table, 0).Some? {
      SameIndex(groups, more, table);
    } else {
      FirstIndex(more, table, 0);
      assert more[|groups|].table == table;
    }
  }

  // More groups, the new ones of other tables: the old ones are found where they were.
  lemma SameIndex(groups: seq<Group>, more: seq<Group>, table: nat)
    requires |groups| <= |more| && forall k | 0 <= k < |groups| :: more[k].table == groups[k].table
    requires forall k | |groups| <= k < |more| :: more[k].table != table
    ensures IndexOf(more, table, 0) == IndexOf(groups, table, 0)
  {
    FirstIndex(groups, table, 0);
    FirstIndex(more, table, 0);
    var a, b := IndexOf(groups, table, 0), IndexOf(more, table, 0);
    assert a.Some? ==> more[a.value].table == table;
    assert b.Some? ==> groups[b.value].table == table;
  }

  lemma {:induction false} FirstIndex(groups: seq<Group>, table: nat, i: nat)
    requires i <= |groups|
    ensures IndexOf(groups, table, i).Some? ==> forall k | i <= k < IndexOf(groups, table, i).value ::
            groups[k].table != table
    decreases |groups| - i
  {
    if i < |groups| && groups[i].table != table {
      FirstIndex(groups, table, i + 1);
    }
  }

  // Numbers go up through a chunk.
  predicate Numbered(recs: seq<Rec>) {
    && (forall j, k | 0 <= j < k < |recs| :: recs[j].number < recs[k].number)
    && forall k | 0 <= k < |recs| && recs[k].reading.Good? :: recs[k].reading.item.number == recs[k].number
  }

  predicate Climbs(items: seq<Item>) { forall j, k | 0 <= j < k < |items| :: items[j].number < items[k].number }

  /** The groups partition what was read: one per table, in the order the tables first
      appear, each in input order. */
  predicate Partition(groups: seq<Group>, below: nat) {
    && (forall j, k | 0 <= j < k < |groups| :: groups[j].table != groups[k].table)
    && (forall j | 0 <= j < |groups| :: groups[j].items != [] && Climbs(groups[j].items))
    && (forall j, k | 0 <= j < k < |groups| :: groups[j].items[0].number < groups[k].items[0].number)
    && (forall j, m | 0 <= j < |groups| && 0 <= m < |groups[j].items| :: groups[j].items[m].number < below)
  }

  predicate Holds(groups: seq<Group>, j: nat, m: nat, table: nat, item: Item) {
    j < |groups| && m < |groups[j].items| && groups[j].table == table && groups[j].items[m] == item
  }

  ghost predicate Found(groups: seq<Group>, table: nat, item: Item) { exists j, m :: Holds(groups, j, m, table, item) }

  ghost predicate WasRead(chunk: seq<Rec>, n: nat, table: nat, item: Item)
    requires n <= |chunk|
  {
    exists k :: 0 <= k < n && chunk[k].reading == Good(table, item)
  }

  lemma AddToPartition(groups: seq<Group>, table: nat, item: Item, below: nat)
    requires Partition(groups, below) && below <= item.number
    ensures Partition(AddTo(groups, table, item), item.number + 1)
  {
    var more := AddTo(groups, table, item);
    var at := IndexOf(groups, table, 0);
    if at.Some? {
      assert more[at.value].items[0] == groups[at.value].items[0];
    }
  }

  lemma AddToFinds(groups: seq<Group>, table: nat, item: Item, t: nat, x: Item)
    ensures Found(AddTo(groups, table, item), t, x) <==> Found(groups, t, x) || (t == table && x == item)
  {
    var more := AddTo(groups, table, item);
    var at := IndexOf(groups, table, 0);
    var j := if at.Some? then at.value else |groups|;
    assert Holds(more, j, |more[j].items| - 1, table, item);
    if Found(groups, t, x) {
      var a, m :| Holds(groups, a, m, t, x);
      assert Holds(more, a, m, t, x);
    }
    if Found(more, t, x) {
      var a, m :| Holds(more, a, m, t, x);
      assert Holds(groups, a, m, t, x) || (t == table && x == item);
    }
  }

  /** Every record read is in its table's group, and nothing else is in any. */
  lemma {:induction false} GroupsArePartition(chunk: seq<Rec>, n: nat)
    requires n <= |chunk| && Numbered(chunk) && forall k | 0 <= k < n :: chunk[k].reading.Good?
    ensures Partition(Grouped(chunk, n), if n == 0 then 0 else chunk[n - 1].number + 1)
    ensures forall t, x :: Found(Grouped(chunk, n), t, x) <==> WasRead(chunk, n, t, x)
    decreases n
  {
    hide Partition, Found;
    if n == 0 {
      EmptyPartition();
    } else {
      GroupsArePartition(chunk, n - 1);
      var groups, table, item := Grouped(chunk, n - 1), chunk[n - 1].reading.table, chunk[n - 1].reading.item;
      AddToPartition(groups, table, item, if n == 1 then 0 else chunk[n - 2].number + 1);
      forall t, x
        ensures Found(Grouped(chunk, n), t, x) <==> WasRead(chunk, n, t, x)
      {
        AddToFinds(groups, table, item, t, x);
        assert WasRead(chunk, n, t, x) <==> WasRead(chunk, n - 1, t, x) || (t == table && x == item);
      }
    }
  }

  lemma EmptyPartition()
    ensures Partition([], 0) && forall t, x :: !Found([], t, x)
  {
  }

  // ------------------------------------------------------------- what is promised

  /** How writing a chunk, or a stream, ended: `Halted` is a context that ended. */
  datatype Verdict = Fine | Failed(cause: Cause, record: nat) | Halted

  // A record at fault, or a failure that is no record's.
  datatype Cause = Refusal(kind: Kind) | WriteFailed

  // A table's records are staged in input order, none of them twice.
  predicate Tidy(log: seq<Placed>) {
    forall a, b | 0 <= a < b < |log| && log[a].table == log[b].table :: log[a].number < log[b].number
  }

  predicate Accepts(rec: Rec) { rec.reading.Good? && !rec.reading.item.refused }

  predicate Staged(rec: Rec, log: seq<Placed>) { rec.reading.Good? && Placed(rec.reading.table, rec.number) in log }

  ghost predicate Among(recs: seq<Rec>, p: Placed) {
    exists k :: 0 <= k < |recs| && recs[k].reading.Good? && p == Placed(recs[k].reading.table, recs[k].number)
  }

  // The record named is one of these, and if it is called refused it is.
  ghost predicate Blames(recs: seq<Rec>, verdict: Verdict) {
    verdict.Failed? && exists k :: 0 <= k < |recs| && AtFault(recs[k], verdict)
  }

  predicate AtFault(rec: Rec, verdict: Verdict)
    requires verdict.Failed?
  {
    && rec.number == verdict.record
    && match verdict.cause
       case WriteFailed => true
       case Refusal(kind) =>
         rec.reading == Reading.Bad(kind) || (kind.RowRefused? && rec.reading.Good? && rec.reading.item.refused)
  }

  predicate PrefixStaged(recs: seq<Rec>, r: nat, log: seq<Placed>) {
    forall k | 0 <= k < |recs| && recs[k].number < r :: Staged(recs[k], log)
  }

  // ------------------------------------------------------------- cutting a group

  predicate Below(number: nat, limit: Option<nat>) { limit.None? || number < limit.value }

  // The length of the group's prefix numbered below the limit.
  function UpTo(items: seq<Item>, limit: Option<nat>, i: nat): (n: nat)
    requires i <= |items|
    ensures i <= n <= |items| && forall k | i <= k < n :: Below(items[k].number, limit)
    ensures n < |items| ==> !Below(items[n].number, limit)
    decreases |items| - i
  {
    if i == |items| || !Below(items[i].number, limit) then i else UpTo(items, limit, i + 1)
  }

  ghost predicate FromGroups(groups: seq<Group>, i: nat, p: Placed) {
    exists j, m :: 0 <= j < i && j < |groups| && 0 <= m < |groups[j].items|
        && p == Placed(groups[j].table, groups[j].items[m].number)
  }

  // The first i groups are written up to the limit, and nothing else is.
  ghost predicate Progress(groups: seq<Group>, i: nat, limit: Option<nat>, start: seq<Placed>, log: seq<Placed>)
    requires i <= |groups|
  {
    && (forall j, m | 0 <= j < i && 0 <= m < |groups[j].items| && Below(groups[j].items[m].number, limit) ::
          Placed(groups[j].table, groups[j].items[m].number) in log)
    && (forall p | p in log :: p in start || FromGroups(groups, i, p))
  }

  predicate NoneRefused(groups: seq<Group>, i: nat)
    requires i <= |groups|
  {
    forall j, m | 0 <= j < i && 0 <= m < |groups[j].items| :: !groups[j].items[m].refused
  }

  lemma BlockIsTidy(log: seq<Placed>, table: nat, items: seq<Item>)
    requires Tidy(log) && Climbs(items)
    requires items != [] ==> forall p | p in log && p.table == table :: p.number < items[0].number
    ensures Tidy(log + PlaceAll(table, items))
  {
    var more := log + PlaceAll(table, items);
    forall a, b | 0 <= a < b < |more| && more[a].table == more[b].table
      ensures more[a].number < more[b].number
    {
      if a < |log| <= b {
        assert more[a] in log && items[0].number <= items[b - |log|].number;
      }
    }
  }

  // Nothing of the next group's table is staged but from earlier chunks.
  lemma NextTableIsNew(groups: seq<Group>, i: nat, below: nat, limit: Option<nat>, start: seq<Placed>, log: seq<Placed>)
    requires Partition(groups, below) && i < |groups| && Progress(groups, i, limit, start, log)
    requires forall p, j, m | p in start && 0 <= j < |groups|
             && 0 <= m < |groups[j].items| :: p.number < groups[j].items[m].number
    ensures forall p | p in log && p.table == groups[i].table :: p.number < groups[i].items[0].number
  {
  }

  // One more group written as far as `done`.
  lemma ProgressOn(groups: seq<Group>, i: nat, limit: Option<nat>, next: Option<nat>, start: seq<Placed>,
      log: seq<Placed>, done: nat)
    requires i < |groups| && Progress(groups, i, limit, start, log) && done <= |groups[i].items|
    requires next == limit || (next.Some? && Below(next.value, limit))
    requires forall m | done <= m < |groups[i].items| :: !Below(groups[i].items[m].number, next)
    ensures Progress(groups, i + 1, next, start, log + PlaceAll(groups[i].table, groups[i].items[..done]))
  {
    var g, more := groups[i], log + PlaceAll(groups[i].table, groups[i].items[..done]);
    forall j, m | 0 <= j < i + 1 && 0 <= m < |groups[j].items| && Below(groups[j].items[m].number, next)
      ensures Placed(groups[j].table, groups[j].items[m].number) in more
    {
      if j == i {
        assert more[|log| + m] == Placed(g.table, g.items[m].number);
      }
    }
    forall p | p in more
      ensures p in start || FromGroups(groups, i + 1, p)
    {
      var a :| 0 <= a < |more| && more[a] == p;
      if a < |log| {
        assert p in log;
      } else {
        assert p == Placed(g.table, g.items[a - |log|].number);
      }
    }
  }

  // ---------------------------------------------------------------------- halving

  /** One accepted slice of a group: where it starts, its length, and the call. */
  datatype Slice = Slice(from: nat, take: nat, call: nat)

  // Consecutive slices from the front.
  predicate Consecutive(slices: seq<Slice>, done: nat) {
    && (forall k | 0 <= k < |slices| ::
          slices[k].take > 0 && slices[k].from == if k == 0 then 0 else slices[k - 1].from + slices[k - 1].take)
    && done == if slices == [] then 0 else slices[|slices| - 1].from + slices[|slices| - 1].take
  }

  predicate FitsFrom(items: seq<Item>, from: nat, m: nat, turn: Turn) {
    from + m <= |items| && Fits(items[from..from + m], turn)
  }

  // If the counters are those of the call before, nothing more than twice as long
  // would have fitted in the slice's place.
  ghost predicate HalfOfBest(items: seq<Item>, sl: Slice, turns: nat -> Turn) {
    sl.call > 0 && turns(sl.call - 1) == turns(sl.call) ==>
      forall m: nat | FitsFrom(items, sl.from, m, turns(sl.call)) :: m <= 2 * sl.take
  }

  lemma NoSlices()
    ensures Consecutive([], 0)
  {
  }

  lemma ConsecutiveGrows(slices: seq<Slice>, done: nat, take: nat, call: nat)
    requires Consecutive(slices, done) && take > 0
    ensures Consecutive(slices + [Slice(done, take, call)], done + take)
  {
    var more := slices + [Slice(done, take, call)];
    assert forall k | 0 <= k < |slices| :: more[k] == slices[k];
  }

  lemma {:induction false} TotalGrows(items: seq<Item>, m: nat, n: nat)
    requires m <= n <= |items|
    ensures Total(items[..m]) <= Total(items[..n])
    decreases n - m
  {
    if m < n {
      TotalGrows(items, m, n - 1);
      assert items[..n][..n - 1] == items[..n - 1];
    }
  }

  // What does not fit does not fit with more.
  lemma FitsLess(items: seq<Item>, m: nat, n: nat, turn: Turn)
    requires m <= n <= |items| && Fits(items[..n], turn)
    ensures Fits(items[..m], turn)
  {
    TotalGrows(items, m, n);
  }

  // The slice taken is the whole rest, or half of one just refused.
  lemma TakenIsHalf(items: seq<Item>, from: nat, take: nat, refused: nat, call: nat, turns: nat -> Turn)
    requires from + take <= |items| && take > 0
    requires from + take == |items| ||
             (call > 0 && from + refused <= |items| && refused <= 2 * take + 1
                 && !Fits(items[from..][..refused], turns(call - 1)))
    ensures HalfOfBest(items, Slice(from, take, call), turns)
  {
    hide Fits;
    if call > 0 && turns(call - 1) == turns(call) {
      var rows := items[from..];
      forall m: nat | FitsFrom(items, from, m, turns(call))
        ensures m <= 2 * take
      {
        assert items[from..from + m] == rows[..m];
        if from + take < |items| && refused <= m {
          FitsLess(rows, refused, m, turns(call));
        }
      }
    }
  }

  // -------------------------------------------------------------- writing one group

  /** How writing a group ended. `RefusedAt` is an index into the group as given. */
  datatype Written = Whole | RefusedAt(index: nat) | Broken | Stopped

  /** The slice a call of the door was made with, and its table. */
  datatype Offer = Offer(table: nat, items: seq<Item>)

  // What each ending answers to: `a` is the door's last answer, to a slice of `take`
  // rows, and `spent` says that the caller will wait no more.
  predicate EndsOn(end: Written, a: Answer, take: nat, spent: bool) {
    match end
    case Whole => a.Accepted?
    case RefusedAt(index) => a == Answer.Refused(index)
    case Broken => a.Closed? || a.Fault?
    case Stopped => a.Cancelled? || (a.Full? && take == 1 && spent)
  }

  // The first record of the offer is the first of its table not staged.
  ghost predicate NextUp(recs: seq<Rec>, offer: Offer, log: seq<Placed>) {
    offer.items != [] &&
    exists k :: 0 <= k < |recs| && recs[k].reading == Good(offer.table, offer.items[0]) && !Staged(recs[k], log)
                && forall j | 0 <= j < k && recs[j].reading.Good? && recs[j].reading.table == offer.table ::
                     Staged(recs[j], log)
  }

  // The first record of this table there is.
  ghost predicate Leads(recs: seq<Rec>, table: nat, number: nat) {
    exists k :: 0 <= k < |recs| && recs[k].reading.Good? && recs[k].reading.table == table && recs[k].number == number
                && forall j | 0 <= j < k && recs[j].reading.Good? :: recs[j].reading.table != table
  }

  /** The writers, the staging store behind them, and the caller's patience: how many
      times a full store is waited on before the context ends. */
  class Door {
    const turns: nat -> Turn
    const patience: nat

    // Whether the record at this place has arrived when a chunk has room for it, and
    // whether the context is found ended where it would be the first of a chunk.
    const arrived: nat -> bool
    const left: nat -> bool
    var calls: nat
    var sleeps: nat
    var log: seq<Placed>

    constructor (turns: nat -> Turn, patience: nat, arrived: nat -> bool, left: nat -> bool)
      ensures calls == 0 && sleeps == 0 && log == [] && this.turns == turns && this.patience == patience
      ensures this.arrived == arrived && this.left == left
    {
      this.turns, this.patience, this.arrived, this.left := turns, patience, arrived, left;
      calls, sleeps, log := 0, 0, [];
    }

    /** Accepts a whole slice or none of it. */
    method InsertBatch(table: nat, items: seq<Item>) returns (a: Answer)
      modifies this`calls, this`log
      ensures calls == old(calls) + 1 && a == Judge(items, turns(old(calls)))
      ensures log == if a.Accepted? then old(log) + PlaceAll(table, items) else old(log)
    {
      var turn := turns(calls);
      calls := calls + 1;
      if turn.closed {
        return Closed;
      }
      if |items| == 0 {
        assert log + PlaceAll(table, items) == log;
        return Accepted;
      }
      var total := 0;
      for i := 0 to |items|
        invariant FirstRefused(items, 0) == FirstRefused(items, i) && total == Total(items[..i])
      {
        if items[i].refused {
          return Answer.Refused(i);
        }
        assert items[..i + 1][..i] == items[..i];
        total := total + items[i].bytes;
      }
      assert items[..|items|] == items;
      if turn.closing {
        return Closed;
      }
      if |items| > turn.records || total > turn.bytes {
        return Full;
      }
      if turn.cancelled {
        return Cancelled;
      }
      if turn.fault {
        return Fault;
      }
      log := log + PlaceAll(table, items);
      return Accepted;
    }

    // Waits, unless the context ends first.
    method Sleep() returns (woken: bool)
      requires sleeps <= patience
      modifies this`sleeps
      ensures woken == (old(sleeps) < patience) && sleeps == old(sleeps) + if woken then 1 else 0
    {
      if sleeps == patience {
        return false;
      }
      sleeps := sleeps + 1;
      return true;
    }

    /** Writes a group, holding while the store is full and halving before it holds.
        It stages consecutive slices from the front, each row once; against counters
        that have not moved, each slice is at least half of the longest that fits. A
        row is refused only by the first call, made with the whole group, so the index
        is the group's own, and then nothing of the group is staged. It stops exactly on
        a context that has ended, found so by the door or by the wait for a row that does
        not fit, and breaks exactly on a writer closed or a store at fault; `last` is what
        the last call was made with. Between two sleeps either the rows left or the slice
        gets smaller: that is why it ends. */
    method WriteGroup(table: nat, items: seq<Item>)
      returns (end: Written, ghost done: nat, ghost slices: seq<Slice>, ghost last: seq<Item>)
      requires sleeps <= patience
      modifies this
      ensures sleeps <= patience && done <= |items|
      ensures log == old(log) + PlaceAll(table, items[..done])
      ensures Consecutive(slices, done) && forall sl | sl in slices :: HalfOfBest(items, sl, turns)
      ensures calls >= old(calls)
      ensures end.Whole? ==> done == |items| && forall k | 0 <= k < |items| :: !items[k].refused
      ensures end.RefusedAt? ==> done == 0 && FirstRefused(items, 0) == Some(end.index)
      ensures end.RefusedAt? ==> calls == old(calls) + 1
      ensures (end.Broken? || end.Stopped?) && FirstRefused(items, 0).Some? ==> done == 0
      ensures items != [] ==> calls > old(calls)
                              && EndsOn(end, Judge(last, turns(calls - 1)), |last|, sleeps == patience)
      ensures !end.Whole? ==> last != [] && done + |last| <= |items| && last == items[done..done + |last|]
    {
      hide Fits, HalfOfBest, Consecutive, Judge, PlaceAll;
      assert Consecutive([], 0) by { NoSlices(); }
      var rows, take := items, |items|;
      done, slices, last := 0, [], [];
      ghost var refused := 0;
      assert log == old(log) + PlaceAll(table, items[..0]);
      while |rows| > 0
        invariant sleeps <= patience && done <= |items| && rows == items[done..] && take <= |rows|
        invariant |rows| > 0 ==> take > 0
        invariant log == old(log) + PlaceAll(table, items[..done])
        invariant Consecutive(slices, done) && forall sl | sl in slices :: HalfOfBest(items, sl, turns)
        invariant take < |rows| ==>
                    calls > 0 && refused <= |rows| && refused <= 2 * take + 1
                    && !Fits(rows[..refused], turns(calls - 1))
        invariant calls > old(calls) ==> forall k | 0 <= k < |items| :: !items[k].refused
        invariant calls == old(calls) ==> done == 0 && take == |items|
        invariant calls >= old(calls)
        invariant |rows| == 0 && items != [] ==> calls > old(calls) && Judge(last, turns(calls - 1)).Accepted?
        decreases patience - sleeps, |rows|, take
      {
        if take > |rows| {
          take := |rows|;
        }
        ghost var slice := rows[..take];
        last := slice;
        TakenIsHalf(items, done, take, refused, calls, turns);
        var a := InsertBatch(table, rows[..take]);
        JudgeMeans(slice, turns(calls - 1));
        assert calls == old(calls) + 1 ==> slice == items;
        match a {
          case Accepted =>
            JoinSlices(table, items, done, take, old(log));
            ConsecutiveGrows(slices, done, take, calls - 1);
            slices := slices + [Slice(done, take, calls - 1)];
            rows := rows[take..];
            done := done + take;
            take := |rows|;
            continue;
          case Full =>
            refused := take;
            if take > 1 {
              take := take / 2;
              continue;
            }
          case Refused(index) =>
            return RefusedAt(index), done, slices, last;
          case Cancelled =>
            return Stopped, done, slices, last;
          case _ =>
            return Broken, done, slices, last;
        }
        var woken := Sleep();
        if !woken {
          return Stopped, done, slices, last;
        }
      }
      return Whole, done, slices, last;
    }

    // The context had ended: the door said so of this offer, or it was one row that did
    // not fit and there was no waiting left.
    ghost predicate Halting(last: Offer)
      reads this`calls, this`sleeps
    {
      calls > 0 && var a := Judge(last.items, turns(calls - 1));
      a.Cancelled? || (a.Full? && |last.items| == 1 && sleeps == patience)
    }

    // The writer was closed, or the store failed.
    ghost predicate Failing(last: Offer)
      reads this`calls
    {
      calls > 0 && var a := Judge(last.items, turns(calls - 1));
      a.Closed? || a.Fault?
    }

    // One table's group, cut at the limit, and written again if a row is refused.
    method WriteCut(g: Group, limit: Option<nat>) returns (step: Step, ghost done: nat, ghost last: Offer)
      requires sleeps <= patience && Climbs(g.items)
      modifies this
      ensures sleeps <= patience && done <= |g.items| && log == old(log) + PlaceAll(g.table, g.items[..done])
      ensures step.On? ==> done == UpTo(g.items, limit, 0) && forall m | 0 <= m < done :: !g.items[m].refused
      ensures step.Cut? ==> done < UpTo(g.items, limit, 0) && g.items[done].refused && step.at == g.items[done].number
      ensures step.Fails? ==> 0 < UpTo(g.items, limit, 0)
      ensures calls >= old(calls)
      ensures step.Halts? ==> calls > old(calls) && Halting(last)
      ensures step.Fails? ==> calls > old(calls) && Failing(last)
      ensures step.Halts? || step.Fails? ==>
                last.table == g.table && last.items != [] && done + |last.items| <= UpTo(g.items, limit, 0)
                && last.items == g.items[done..done + |last.items|]
    {
      hide Judge, UpTo, PlaceAll, FirstRefused;
      last := Offer(g.table, []);
      var upTo := UpTo(g.items, limit, 0);
      if upTo == 0 {
        assert log == log + PlaceAll(g.table, g.items[..0]);
        return On, 0, last;
      }
      var rows := g.items[..upTo];
      assert rows != [];
      var end;
      ghost var slices, offered;
      end, done, slices, offered := WriteGroup(g.table, rows);
      last := Offer(g.table, offered);
      assert rows[..done] == g.items[..done];
      match end {
        case Whole => return On, done, last;
        case Stopped => return Halts, done, last;
        case Broken => return Fails, done, last;
        case RefusedAt(index) =>
          var at := g.items[index].number;
          assert g.items[..index] == rows[..index];
          if index > 0 {
            ghost var before := log;
            assert log == old(log) by { assert PlaceAll(g.table, g.items[..0]) == []; }
            assert FirstRefused(g.items[..index], 0).None?;
            end, done, slices, offered := WriteGroup(g.table, g.items[..index]);
            last := Offer(g.table, offered);
            assert g.items[..index][..done] == g.items[..done];
            if end.Stopped? {
              return Halts, done, last;
            }
            if !end.Whole? {
              return Fails, done, last;
            }
          }
          return Cut(at), index, last;
      }
    }

    /** Writes one chunk's records, each table's in one batch. Whatever stops it, every
        record before the one it names is staged, in input order per table and once;
        a record it calls refused is one that really is; and it names nothing only if
        every record was readable and every row was taken. It halts only on a context
        that has ended, and calls a write failed only on a writer closed or a store at
        fault, met with the first record of a table not yet staged; it then names the
        chunk's first record of that table. */
    method WriteChunk(chunk: seq<Rec>) returns (verdict: Verdict, ghost last: Offer)
      requires Numbered(chunk) && sleeps <= patience && Tidy(log)
      requires forall p, k | p in log && 0 <= k < |chunk| :: p.number < chunk[k].number
      modifies this
      ensures sleeps <= patience && Tidy(log) && old(log) <= log
      ensures forall p | p in log :: p in old(log) || Among(chunk, p)
      ensures verdict.Fine? ==> forall k | 0 <= k < |chunk| :: Accepts(chunk[k]) && Staged(chunk[k], log)
      ensures verdict.Failed? ==> Blames(chunk, verdict) && PrefixStaged(chunk, verdict.record, log)
      ensures verdict.Failed? && verdict.cause.Refusal? && OneTable(chunk) ==>
                forall p | p in log :: p in old(log) || p.number < verdict.record
      ensures calls >= old(calls)
      ensures verdict.Halted? ==> calls > old(calls) && Halting(last) && NextUp(chunk, last, log)
      ensures verdict.Failed? && verdict.cause.WriteFailed? ==>
                calls > old(calls) && Failing(last) && NextUp(chunk, last, log)
                && Leads(chunk, last.table, verdict.record)
    {
      hide OneTable, CutBelow, NextUp, Leads, Halting, Failing;
      hide Partition, Progress, Tidy, Blames, Numbered, UpTo;
      var groups, bad := GroupChunk(chunk);
      ghost var n := Readable(chunk, 0);
      GroupsArePartition(chunk, n);
      ghost var start := log;
      var limit: Option<nat> := None;
      verdict, last := Fine, Offer(0, []);
      if bad.Some? {
        limit, verdict := Some(bad.value.number), Failed(Refusal(bad.value.reading.kind), bad.value.number);
        BadIsBlamed(chunk, n);
      }
      NothingYet(chunk, n, limit, start);
      for i := 0 to |groups|
        invariant sleeps <= patience && start <= log && Tidy(log)
        invariant Progress(groups, i, limit, start, log)
        invariant limit.None? ==> verdict.Fine? && n == |chunk| && NoneRefused(groups, i)
        invariant limit.Some? ==> verdict.Failed? && verdict.record == limit.value && Blames(chunk, verdict)
        invariant forall k | n <= k < |chunk| :: !Below(chunk[k].number, limit)
        invariant |groups| <= 1 ==> CutBelow(limit, start, log)
        invariant verdict.Failed? ==> verdict.cause.Refusal?
        invariant calls >= old(calls)
      {
        ghost var before := log;
        GroupClimbs(groups, i, if n == 0 then 0 else chunk[n - 1].number + 1);
        var step;
        ghost var done;
        step, done, last := WriteCut(groups[i], limit);
        GroupWritten(chunk, groups, n, i, limit, start, before, done);
        match step {
          case On =>
            CutProgress(groups, i, limit, limit, start, before, done);
            StaysBelow(groups[i], limit, limit, start, before, done);
          case Cut(at) =>
            RefusedIsBlamed(chunk, n, groups, i, done);
            CutProgress(groups, i, limit, Some(at), start, before, done);
            if i == 0 {
              NothingBefore(groups, limit, start, before);
              StaysBelow(groups[i], limit, Some(at), start, before, done);
            }
            limit, verdict := Some(at), Failed(Refusal(RowRefused), at);
          case Fails =>
            FaultNamesFirst(chunk, n, groups, i, limit, start, before, log);
            OfferIsNext(chunk, n, groups, i, limit, start, before, done, last);
            GroupLeads(chunk, n, groups, i);
            return Failed(WriteFailed, groups[i].items[0].number), last;
          case Halts =>
            OfferIsNext(chunk, n, groups, i, limit, start, before, done, last);
            return Halted, last;
        }
      }
      ChunkWritten(chunk, n, groups, limit, start, log);
      OneTableOneGroup(chunk, n, groups);
      BelowTheLimit(limit, start, log);
    }

    // One record, and whatever else has already arrived, up to the chunk bounds.
    method NextChunk(recs: seq<Rec>, from: nat, maxRecords: nat, maxBytes: nat) returns (n: nat)
      requires from < |recs|
      ensures 1 <= n <= |recs| - from && (n <= maxRecords || n == 1)
      ensures n == 1 || Sizes(recs[from..from + n - 1]) < maxBytes
      ensures from + n == |recs| || n >= maxRecords || Sizes(recs[from..from + n]) >= maxBytes || !arrived(from + n)
      ensures forall k | from < k < from + n :: arrived(k)
    {
      n := 1;
      var size := recs[from].size;
      assert recs[from..from + 1] == [recs[from]];
      while n < maxRecords && size < maxBytes && from + n < |recs|
        invariant 1 <= n <= |recs| - from && (n <= maxRecords || n == 1) && size == Sizes(recs[from..from + n])
        invariant n == 1 || Sizes(recs[from..from + n - 1]) < maxBytes
        invariant forall k | from < k < from + n :: arrived(k)
      {
        if !arrived(from + n) {
          return;
        }
        assert recs[from..from + n + 1][..n] == recs[from..from + n];
        size := size + recs[from + n].size;
        n := n + 1;
      }
    }

    /** Writes a whole stream, chunk by chunk, however the records happen to arrive. An
        error names a record; every record before it is staged, once and in input order
        per table. A clean end means every record is staged. It halts only on a context
        that has ended, between two chunks or in a write, and calls a write failed only on
        a writer closed or a store at fault. `framing` is the refusal the framing itself
        ended on, if it did. */
    method IngestStream(recs: seq<Rec>, framing: Option<Kind>, maxRecords: nat, maxBytes: nat)
      returns (verdict: Verdict, ghost last: Option<Offer>)
      requires sleeps <= patience && log == []
      requires Numbered(recs) && forall k | 0 <= k < |recs| :: recs[k].number == k + 1
      modifies this
      ensures Tidy(log) && forall p | p in log :: Among(recs, p)
      ensures verdict.Fine? ==> framing.None? && forall k | 0 <= k < |recs| :: Staged(recs[k], log)
      ensures verdict.Failed? ==> PrefixStaged(recs, verdict.record, log)
      ensures verdict.Failed? ==>
                Blames(recs, verdict)
                || ((framing.Some? && verdict.cause == Refusal(framing.value)) && verdict.record == |recs| + 1)
      ensures verdict.Failed? && verdict.record == |recs| + 1 ==> forall k | 0 <= k < |recs| :: Staged(recs[k], log)
      ensures verdict.Halted? && last.None? ==>
                exists n :: 0 <= n <= |recs| && left(n) && (forall k | 0 <= k < n :: Staged(recs[k], log))
                            && forall p | p in log :: p.number <= n
      ensures verdict.Halted? && last.Some? ==>
                calls > old(calls) && Halting(last.value) && NextUp(recs, last.value, log)
      ensures verdict.Failed? && verdict.cause.WriteFailed? ==>
                calls > old(calls) && last.Some? && Failing(last.value) && NextUp(recs, last.value, log)
    {
      hide Tidy, Among, Blames, Numbered, Halting, Failing, NextUp, Leads;
      EmptyIsTidy();
      var from := 0;
      last := None;
      while from < |recs|
        invariant from <= |recs| && sleeps <= patience && Tidy(log)
        invariant forall p | p in log :: Among(recs, p) && p.number <= from
        invariant forall k | 0 <= k < from :: Staged(recs[k], log)
        invariant calls >= old(calls) && last.None?
        decreases |recs| - from
      {
        if left(from) {
          return Halted, None;
        }
        var n := NextChunk(recs, from, maxRecords, maxBytes);
        var chunk := recs[from..from + n];
        SliceNumbered(recs, from, n);
        ghost var before := log;
        ghost var offer;
        verdict, offer := WriteChunk(chunk);
        forall p | p in log
          ensures Among(recs, p) && p.number <= from + n
        {
          if p !in before {
            AmongSlice(recs, from, n, p);
          }
        }
        match verdict {
          case Fine =>
            StagedSlice(recs, from, chunk, log);
          case Failed(_, r) =>
            FailedSlice(recs, from, n, log, verdict);
            if verdict.cause.WriteFailed? {
              last := Some(offer);
              NextUpInStream(recs, from, n, offer, log);
            }
            return;
          case Halted =>
            last := Some(offer);
            NextUpInStream(recs, from, n, offer, log);
            return;
        }
        from := from + n;
      }
      if left(|recs|) {
        return Halted, None;
      }
      verdict := if framing.Some? then Failed(Refusal(framing.value), |recs| + 1) else Fine;
    }
  }

  function Sizes(recs: seq<Rec>): nat {
    if recs == [] then 0 else Sizes(recs[..|recs| - 1]) + recs[|recs| - 1].size
  }

  lemma EmptyIsTidy()
    ensures Tidy([])
  {
  }

  lemma SliceNumbered(recs: seq<Rec>, from: nat, n: nat)
    requires Numbered(recs) && from + n <= |recs|
    ensures Numbered(recs[from..from + n])
  {
  }

  lemma AmongSlice(recs: seq<Rec>, from: nat, n: nat, p: Placed)
    requires from + n <= |recs| && Among(recs[from..from + n], p)
             && forall k | 0 <= k < |recs| :: recs[k].number == k + 1
    ensures Among(recs, p) && p.number <= from + n
  {
    var chunk := recs[from..from + n];
    var k :| 0 <= k < |chunk| && chunk[k].reading.Good? && p == Placed(chunk[k].reading.table, chunk[k].number);
    assert recs[from + k] == chunk[k];
  }

  lemma StagedSlice(recs: seq<Rec>, from: nat, chunk: seq<Rec>, log: seq<Placed>)
    requires from + |chunk| <= |recs| && chunk == recs[from..from + |chunk|]
    requires forall k | 0 <= k < |chunk| :: Staged(chunk[k], log)
    ensures forall k | from <= k < from + |chunk| :: Staged(recs[k], log)
  {
    forall k | from <= k < from + |chunk|
      ensures Staged(recs[k], log)
    {
      assert recs[k] == chunk[k - from];
    }
  }

  lemma FailedSlice(recs: seq<Rec>, from: nat, n: nat, log: seq<Placed>, verdict: Verdict)
    requires from + n <= |recs| && forall k | 0 <= k < |recs| :: recs[k].number == k + 1
    requires forall k | 0 <= k < from :: Staged(recs[k], log)
    requires Blames(recs[from..from + n], verdict) && PrefixStaged(recs[from..from + n], verdict.record, log)
    ensures Blames(recs, verdict) && PrefixStaged(recs, verdict.record, log)
  {
    var chunk := recs[from..from + n];
    var k :| 0 <= k < |chunk| && AtFault(chunk[k], verdict);
    assert AtFault(recs[from + k], verdict);
    forall j | 0 <= j < |recs| && recs[j].number < verdict.record
      ensures Staged(recs[j], log)
    {
      if from <= j {
        assert recs[j] == chunk[j - from];
      }
    }
  }

  datatype Step = On | Cut(at: nat) | Fails | Halts

  // ------------------------------------------------------------ why that is enough

  lemma BadIsBlamed(chunk: seq<Rec>, n: nat)
    requires n < |chunk| && chunk[n].reading.Bad? && Numbered(chunk)
    ensures Blames(chunk, Failed(Refusal(chunk[n].reading.kind), chunk[n].number))
    ensures forall k | n <= k < |chunk| :: !Below(chunk[k].number, Some(chunk[n].number))
  {
    assert AtFault(chunk[n], Failed(Refusal(chunk[n].reading.kind), chunk[n].number));
  }

  lemma NothingYet(chunk: seq<Rec>, n: nat, limit: Option<nat>, start: seq<Placed>)
    requires n <= |chunk| && forall k | 0 <= k < n :: chunk[k].reading.Good?
    ensures Progress(Grouped(chunk, n), 0, limit, start, start) && NoneRefused(Grouped(chunk, n), 0)
    ensures CutBelow(limit, start, start)
  {
  }

  lemma GroupClimbs(groups: seq<Group>, i: nat, below: nat)
    requires Partition(groups, below) && i < |groups|
    ensures groups[i].items != [] && Climbs(groups[i].items)
  {
  }

  predicate OneTable(recs: seq<Rec>) {
    forall j, k | 0 <= j < |recs| && 0 <= k < |recs| && recs[j].reading.Good? && recs[k].reading.Good? ::
      recs[j].reading.table == recs[k].reading.table
  }

  // Nothing numbered at or past the limit has been written since the start.
  predicate CutBelow(limit: Option<nat>, start: seq<Placed>, log: seq<Placed>) {
    forall p | p in log :: p in start || Below(p.number, limit)
  }

  lemma BelowTheLimit(limit: Option<nat>, start: seq<Placed>, log: seq<Placed>)
    ensures CutBelow(limit, start, log) && limit.Some? ==> forall p | p in log :: p in start || p.number < limit.value
  {
  }

  lemma NothingBefore(groups: seq<Group>, limit: Option<nat>, start: seq<Placed>, log: seq<Placed>)
    requires Progress(groups, 0, limit, start, log)
    ensures forall p | p in log :: p in start
  {
  }

  lemma StaysBelow(g: Group, limit: Option<nat>, next: Option<nat>, start: seq<Placed>, before: seq<Placed>, done: nat)
    requires done <= |g.items| && Climbs(g.items)
    requires next == limit || forall p | p in before :: p in start
    requires if next == limit then done == UpTo(g.items, limit, 0)
             else done < |g.items| && next == Some(g.items[done].number)
    ensures CutBelow(limit, start, before) ==> CutBelow(next, start, before + PlaceAll(g.table, g.items[..done]))
  {
    var block := PlaceAll(g.table, g.items[..done]);
    assert forall m | 0 <= m < done :: Below(g.items[m].number, next);
    assert forall p | p in block :: Below(p.number, next);
  }

  lemma OneTableOneGroup(chunk: seq<Rec>, n: nat, groups: seq<Group>)
    requires n <= |chunk| && Numbered(chunk) && Partition(groups, if n == 0 then 0 else chunk[n - 1].number + 1)
    requires forall t, x :: Found(groups, t, x) <==> WasRead(chunk, n, t, x)
    ensures OneTable(chunk) ==> |groups| <= 1
  {
    hide Found, WasRead;
    if |groups| > 1 {
      SameTable(chunk, n, groups, 0, 1);
    }
  }

  lemma SameTable(chunk: seq<Rec>, n: nat, groups: seq<Group>, j: nat, k: nat)
    requires n <= |chunk| && Numbered(chunk) && j < |groups| && k < |groups| && groups[j].items != []
             && groups[k].items != []
    requires forall t, x :: Found(groups, t, x) <==> WasRead(chunk, n, t, x)
    ensures OneTable(chunk) ==> groups[j].table == groups[k].table
  {
    hide Found, WasRead;
    RowIsRecord(chunk, n, groups, j, 0);
    RowIsRecord(chunk, n, groups, k, 0);
  }

  // What a group's rows are records of.
  lemma RowIsRecord(chunk: seq<Rec>, n: nat, groups: seq<Group>, j: nat, m: nat)
    requires n <= |chunk| && Numbered(chunk) && j < |groups| && m < |groups[j].items|
    requires forall t, x :: Found(groups, t, x) <==> WasRead(chunk, n, t, x)
    ensures exists k ::
              0 <= k < n && chunk[k].reading == Good(groups[j].table, groups[j].items[m])
              && chunk[k].number == groups[j].items[m].number
  {
    assert Holds(groups, j, m, groups[j].table, groups[j].items[m]);
    assert Found(groups, groups[j].table, groups[j].items[m]);
  }

  // A group's block keeps the log tidy, and its records are the chunk's.
  lemma GroupWritten(chunk: seq<Rec>, groups: seq<Group>, n: nat, i: nat, limit: Option<nat>,
                     start: seq<Placed>, before: seq<Placed>, done: nat)
    requires n <= |chunk| && Numbered(chunk) && i < |groups| && done <= |groups[i].items|
    requires Partition(groups, if n == 0 then 0 else chunk[n - 1].number + 1)
    requires forall t, x :: Found(groups, t, x) <==> WasRead(chunk, n, t, x)
    requires forall p, k | p in start && 0 <= k < |chunk| :: p.number < chunk[k].number
    requires Progress(groups, i, limit, start, before) && Tidy(before)
    ensures Tidy(before + PlaceAll(groups[i].table, groups[i].items[..done]))
    ensures forall p | p in before + PlaceAll(groups[i].table, groups[i].items[..done]) :: p in start || Among(chunk, p)
  {
    hide Found, WasRead;
    forall p, j, m | p in start && 0 <= j < |groups| && 0 <= m < |groups[j].items|
      ensures p.number < groups[j].items[m].number
    {
      RowIsRecord(chunk, n, groups, j, m);
    }
    NextTableIsNew(groups, i, if n == 0 then 0 else chunk[n - 1].number + 1, limit, start, before);
    BlockIsTidy(before, groups[i].table, groups[i].items[..done]);
    FromChunk(chunk, n, groups, i, limit, start, before, done);
  }

  lemma FromChunk(chunk: seq<Rec>, n: nat, groups: seq<Group>, i: nat, limit: Option<nat>,
                  start: seq<Placed>, before: seq<Placed>, done: nat)
    requires n <= |chunk| && Numbered(chunk) && i < |groups| && done <= |groups[i].items|
    requires forall t, x :: Found(groups, t, x) <==> WasRead(chunk, n, t, x)
    requires Progress(groups, i, limit, start, before)
    ensures forall p | p in before + PlaceAll(groups[i].table, groups[i].items[..done]) :: p in start || Among(chunk, p)
  {
    hide Found, WasRead, Numbered;
    var block := PlaceAll(groups[i].table, groups[i].items[..done]);
    forall p | p in before + block
      ensures p in start || Among(chunk, p)
    {
      if p in before {
        if p !in start {
          var j, m :| 0 <= j < i && j < |groups| && 0 <= m < |groups[j].items|
              && p == Placed(groups[j].table, groups[j].items[m].number);
          RowIsRecord(chunk, n, groups, j, m);
        }
      } else {
        var m :| 0 <= m < |block| && block[m] == p;
        RowIsRecord(chunk, n, groups, i, m);
      }
    }
  }

  lemma CutProgress(groups: seq<Group>, i: nat, limit: Option<nat>, next: Option<nat>,
                    start: seq<Placed>, before: seq<Placed>, done: nat)
    requires i < |groups| && done <= |groups[i].items| && Climbs(groups[i].items)
    requires Progress(groups, i, limit, start, before)
    requires if next == limit then done == UpTo(groups[i].items, limit, 0)
             else done < UpTo(groups[i].items, limit, 0) && next == Some(groups[i].items[done].number)
    ensures Progress(groups, i + 1, next, start, before + PlaceAll(groups[i].table, groups[i].items[..done]))
  {
    hide Progress;
    ProgressOn(groups, i, limit, next, start, before, done);
  }

  lemma RefusedIsBlamed(chunk: seq<Rec>, n: nat, groups: seq<Group>, i: nat, m: nat)
    requires n <= |chunk| && Numbered(chunk) && i < |groups| && m < |groups[i].items| && groups[i].items[m].refused
    requires forall t, x :: Found(groups, t, x) <==> WasRead(chunk, n, t, x)
    ensures Blames(chunk, Failed(Refusal(RowRefused), groups[i].items[m].number))
  {
    RowIsRecord(chunk, n, groups, i, m);
    var k :| 0 <= k < n && chunk[k].reading == Good(groups[i].table, groups[i].items[m])
        && chunk[k].number == groups[i].items[m].number;
    assert AtFault(chunk[k], Failed(Refusal(RowRefused), groups[i].items[m].number));
  }

  // A record read is at some place in some group.
  lemma RecordIsRow(chunk: seq<Rec>, n: nat, groups: seq<Group>, k: nat)
    requires k < n <= |chunk| && chunk[k].reading.Good?
    requires forall t, x :: Found(groups, t, x) <==> WasRead(chunk, n, t, x)
    ensures exists j, m :: Holds(groups, j, m, chunk[k].reading.table, chunk[k].reading.item)
  {
    assert WasRead(chunk, n, chunk[k].reading.table, chunk[k].reading.item);
    assert Found(groups, chunk[k].reading.table, chunk[k].reading.item);
  }

  // A failure that is no row's fault names the first record of the group it met.
  // What a write was stopped at is the first of its table not staged.
  lemma OfferIsNext(chunk: seq<Rec>, n: nat, groups: seq<Group>, i: nat, limit: Option<nat>,
                    start: seq<Placed>, before: seq<Placed>, done: nat, last: Offer)
    requires n <= |chunk| && Numbered(chunk) && i < |groups| && done < |groups[i].items|
    requires Partition(groups, if n == 0 then 0 else chunk[n - 1].number + 1)
    requires forall t, x :: Found(groups, t, x) <==> WasRead(chunk, n, t, x)
    requires forall p, k | p in start && 0 <= k < |chunk| :: p.number < chunk[k].number
    requires Progress(groups, i, limit, start, before)
    requires last.table == groups[i].table && last.items != [] && last.items[0] == groups[i].items[done]
    ensures NextUp(chunk, last, before + PlaceAll(groups[i].table, groups[i].items[..done]))
  {
    hide Found, WasRead, Progress;
    var g := groups[i];
    var block := PlaceAll(g.table, g.items[..done]);
    forall p, j, m | p in start && 0 <= j < |groups| && 0 <= m < |groups[j].items|
      ensures p.number < groups[j].items[m].number
    {
      RowIsRecord(chunk, n, groups, j, m);
    }
    NextTableIsNew(groups, i, if n == 0 then 0 else chunk[n - 1].number + 1, limit, start, before);
    RowIsRecord(chunk, n, groups, i, done);
    var k :| 0 <= k < n && chunk[k].reading == Good(g.table, g.items[done]) && chunk[k].number == g.items[done].number;
    forall j | 0 <= j < k && chunk[j].reading.Good? && chunk[j].reading.table == g.table
      ensures Staged(chunk[j], before + block)
    {
      var m := InGroup(chunk, n, groups, i, j);
      assert m < done;
      assert block[m] == Placed(g.table, chunk[j].number);
    }
    assert !Staged(chunk[k], before + block);
  }

  // A record read is a row of its table's group.
  lemma InGroup(chunk: seq<Rec>, n: nat, groups: seq<Group>, i: nat, j: nat) returns (m: nat)
    requires n <= |chunk| && Numbered(chunk) && i < |groups| && j < n
    requires Partition(groups, chunk[n - 1].number + 1)
    requires forall t, x :: Found(groups, t, x) <==> WasRead(chunk, n, t, x)
    requires chunk[j].reading.Good? && chunk[j].reading.table == groups[i].table
    ensures m < |groups[i].items| && groups[i].items[m] == chunk[j].reading.item
  {
    assert WasRead(chunk, n, groups[i].table, chunk[j].reading.item);
    var l: nat, k: nat :| Holds(groups, l, k, groups[i].table, chunk[j].reading.item);
    assert l == i;
    m := k;
  }

  // A group's first row is the chunk's first record of its table.
  lemma GroupLeads(chunk: seq<Rec>, n: nat, groups: seq<Group>, i: nat)
    requires n <= |chunk| && Numbered(chunk) && i < |groups|
    requires Partition(groups, if n == 0 then 0 else chunk[n - 1].number + 1)
    requires forall t, x :: Found(groups, t, x) <==> WasRead(chunk, n, t, x)
    ensures Leads(chunk, groups[i].table, groups[i].items[0].number)
  {
    hide Found, WasRead;
    RowIsRecord(chunk, n, groups, i, 0);
    var k :| 0 <= k < n && chunk[k].reading == Good(groups[i].table, groups[i].items[0])
             && chunk[k].number == groups[i].items[0].number;
    forall j | 0 <= j < k && chunk[j].reading.Good?
      ensures chunk[j].reading.table != groups[i].table
    {
      if chunk[j].reading.table == groups[i].table {
        var m := InGroup(chunk, n, groups, i, j);
        assert false;
      }
    }
  }

  lemma NextUpInStream(recs: seq<Rec>, from: nat, n: nat, offer: Offer, log: seq<Placed>)
    requires from + n <= |recs| && NextUp(recs[from..from + n], offer, log)
    requires forall k | 0 <= k < from :: Staged(recs[k], log)
    ensures NextUp(recs, offer, log)
  {
    var chunk := recs[from..from + n];
    var k :| 0 <= k < |chunk| && chunk[k].reading == Good(offer.table, offer.items[0]) && !Staged(chunk[k], log)
             && forall j | 0 <= j < k && chunk[j].reading.Good? && chunk[j].reading.table == offer.table ::
                  Staged(chunk[j], log);
    forall j | 0 <= j < from + k && recs[j].reading.Good? && recs[j].reading.table == offer.table
      ensures Staged(recs[j], log)
    {
      if from <= j {
        assert recs[j] == chunk[j - from];
      }
    }
    assert recs[from + k] == chunk[k];
  }

  lemma FaultNamesFirst(chunk: seq<Rec>, n: nat, groups: seq<Group>, i: nat, limit: Option<nat>,
                        start: seq<Placed>, before: seq<Placed>, log: seq<Placed>)
    requires n <= |chunk| && Numbered(chunk) && i < |groups| && 0 < UpTo(groups[i].items, limit, 0) && before <= log
    requires forall k | 0 <= k < n :: chunk[k].reading.Good?
    requires Partition(groups, if n == 0 then 0 else chunk[n - 1].number + 1)
    requires forall t, x :: Found(groups, t, x) <==> WasRead(chunk, n, t, x)
    requires Progress(groups, i, limit, start, before)
    requires forall k | n <= k < |chunk| :: !Below(chunk[k].number, limit)
    ensures var r := groups[i].items[0].number;
            Blames(chunk, Failed(WriteFailed, r)) && PrefixStaged(chunk, r, log)
  {
    hide Found, WasRead;
    var r := groups[i].items[0].number;
    RowIsRecord(chunk, n, groups, i, 0);
    var k0 :| 0 <= k0 < n && chunk[k0].number == r;
    assert AtFault(chunk[k0], Failed(WriteFailed, r));
    forall k | 0 <= k < |chunk| && chunk[k].number < r
      ensures Staged(chunk[k], log)
    {
      RecordIsRow(chunk, n, groups, k);
      var j: nat, m: nat :| Holds(groups, j, m, chunk[k].reading.table, chunk[k].reading.item);
      assert groups[j].items[0].number <= groups[j].items[m].number;
      assert j < i;
      assert Placed(groups[j].table, groups[j].items[m].number) in before;
    }
  }

  lemma ChunkWritten(chunk: seq<Rec>, n: nat, groups: seq<Group>, limit: Option<nat>, start: seq<Placed>,
      log: seq<Placed>)
    requires n <= |chunk| && Numbered(chunk) && forall k | 0 <= k < n :: chunk[k].reading.Good?
    requires forall t, x :: Found(groups, t, x) <==> WasRead(chunk, n, t, x)
    requires Progress(groups, |groups|, limit, start, log)
    requires forall k | n <= k < |chunk| :: !Below(chunk[k].number, limit)
    ensures forall k | 0 <= k < |chunk| && Below(chunk[k].number, limit) :: Staged(chunk[k], log)
    ensures n == |chunk| && NoneRefused(groups, |groups|) ==> forall k | 0 <= k < |chunk| :: Accepts(chunk[k])
    ensures forall p | p in log :: p in start || Among(chunk, p)
  {
    hide Found, WasRead;
    forall k | 0 <= k < n
      ensures Below(chunk[k].number, limit) ==> Staged(chunk[k], log)
      ensures NoneRefused(groups, |groups|) ==> Accepts(chunk[k])
    {
      RecordIsRow(chunk, n, groups, k);
      var j: nat, m: nat :| Holds(groups, j, m, chunk[k].reading.table, chunk[k].reading.item);
    }
    forall p | p in log && p !in start
      ensures Among(chunk, p)
    {
      var j, m :| 0 <= j < |groups| && 0 <= m < |groups[j].items|
          && p == Placed(groups[j].table, groups[j].items[m].number);
      RowIsRecord(chunk, n, groups, j, m);
    }
  }

  lemma {:induction false} JoinSlices(table: nat, items: seq<Item>, done: nat, take: nat, log: seq<Placed>)
    requires done + take <= |items|
    ensures log + PlaceAll(table, items[..done]) + PlaceAll(table, items[done..][..take]) ==
            log + PlaceAll(table, items[..done + take])
  {
    var whole, first, second := PlaceAll(table, items[..done + take]), PlaceAll(table, items[..done]),
        PlaceAll(table, items[done..][..take]);
    assert first + second == whole by {
      assert |first| == done && |second| == take;
      forall k | 0 <= k < done + take
        ensures (first + second)[k] == whole[k]
      {
        if k >= done {
          assert items[done..][..take][k - done] == items[k];
        }
      }
    }
    assert log + (first + second) == log + first + second;
  }
}
