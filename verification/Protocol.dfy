/** The life of a batch of one table as a system of atomic steps. */
module Protocol {
  // Modelled on internal/flush/flush.go and worker.go, with writer.go, drain.go,
  // internal/staging and internal/spool. Every step is one durable effect or one
  // change of the process's memory, and a crash may fall between any two of them.
  //
  // Staging operations are all-or-nothing transactions. A catalog commit is a
  // compare-and-swap on the metadata in hand, and it and an upload may take effect
  // and still be reported as failed.

  import opened Bytes
  import opened Record
  import opened Descriptor
  import opened BatchKey
  import opened Remap

  /** A table. `rank` is where a key's text stands among the others', by which the
      database breaks a tie between clock readings: a key says nothing here of its text. */
  datatype TableId = TableId(namespace: seq<byte>, name: seq<byte>, rank: Digest -> int)

  type Declared = d: Shape | ValidShape(d) witness Shape([Field(1, [97], Boolean, 0, 0, false)])

  /** A record as it was accepted: its shape and its canonical encoding. */
  datatype Accepted = Accepted(shape: Declared, payload: seq<byte>)

  /** A row of the staging table. */
  datatype Row = Row(shape: Declared, payload: seq<byte>, key: Option<Digest>, quarantined: bool)

  /** A sealed batch, as the seal leaves it; how many files the table had then, and
      whether the backlog listed a file under its key. */
  datatype Batch =
    Batch(key: Digest, ids: seq<nat>, shape: Declared, payloads: Payloads, seen: nat, listed: bool)

  /** A data file: the rows in it and the shape they are written under. */
  datatype File = File(shape: Declared, rows: seq<seq<Value>>)

  /** What the spool's database knows of a file. */
  datatype Entry = Entry(stamp: int, committed: bool)

  datatype Job = Job(ids: seq<nat>, key: Option<Digest>, replayed: bool, attempted: bool)

  /** How far the attempt on the head of the queue has got. */
  datatype Phase =
    | Resting
    | Ready(file: File)
    | Written(file: File)
    | Uploaded
    | Confirmed
    | Settled
    | Deleted

  datatype Worker = Worker(localOnly: bool, spooling: bool, shape: Declared, handle: seq<Digest>,
                           queue: seq<Job>, batch: seq<nat>, phase: Phase)

  datatype DrainPhase = Loading | Loaded(base: seq<Digest>) | Sent(base: seq<Digest>) | Joined

  /** Who holds the table's slot: see Claims.dfy for why there is only one. */
  datatype Owner = NoOne | Drain(todo: seq<Digest>, at: DrainPhase) | Writer(w: Worker)

  /** `accepted` and `seals` are history: nothing in the program holds them. */
  datatype State = State(
    name: TableId,
    accepted: map<nat, Accepted>,
    seals: seq<Batch>,
    nextId: nat,
    staged: map<nat, Row>,
    bucket: map<Digest, File>,
    table: seq<Digest>,
    files: map<Digest, File>,
    records: map<Digest, Entry>,
    owner: Owner)

  function Initial(name: TableId): State {
    State(name, map[], [], 0, map[], map[], [], map[], map[], NoOne)
  }

  // ---------------------------------------------------------- encoding a batch

  // A staged payload under another shape, as the seal stores it.
  function Recode(r: Row, to: Declared): Result<seq<byte>> {
    if r.shape == to then Ok(r.payload) else TranscodeSpec(r.shape.fields, to.fields, r.payload)
  }

  // A staged row as the data file will hold it.
  function Render(r: Row, to: Declared): Result<seq<Value>> {
    SealedArm(r.shape.fields, to.fields, r.payload)
  }

  function Recoded(staged: map<nat, Row>, i: nat, to: Declared): seq<byte> {
    if i in staged && Recode(staged[i], to).Ok? then Recode(staged[i], to).value else []
  }

  function Rendered(staged: map<nat, Row>, i: nat, to: Declared): seq<Value> {
    if i in staged && Render(staged[i], to).Ok? then Render(staged[i], to).value else []
  }

  function RecodedAll(staged: map<nat, Row>, ids: seq<nat>, to: Declared): (ps: seq<seq<byte>>)
    ensures |ps| == |ids| && forall k | 0 <= k < |ids| :: ps[k] == Recoded(staged, ids[k], to)
  {
    seq(|ids|, k requires 0 <= k < |ids| => Recoded(staged, ids[k], to))
  }

  function FileOf(staged: map<nat, Row>, ids: seq<nat>, to: Declared): (f: File)
    ensures f.shape == to && |f.rows| == |ids| && forall k | 0 <= k < |ids| :: f.rows[k] == Rendered(staged, ids[k], to)
  {
    File(to, seq(|ids|, k requires 0 <= k < |ids| => Rendered(staged, ids[k], to)))
  }

  function KeyFor(name: TableId, d: Declared, ps: seq<seq<byte>>): Result<Digest> {
    if |ps| < TWO_63 then BatchHashSpec(name.namespace, name.name, d, ps) else Err(Error(BadValue, 0))
  }

  // ------------------------------------------------------------------ the state

  predicate Live(s: State, i: nat) { i in s.staged && !s.staged[i].quarantined }

  predicate Unsealed(s: State, i: nat) { Live(s, i) && s.staged[i].key.None? }

  predicate SealedAs(s: State, i: nat, key: Digest) { Live(s, i) && s.staged[i].key == Some(key) }

  predicate Ascends(ids: seq<nat>) { forall i, j | 0 <= i < j < |ids| :: ids[i] < ids[j] }

  function Flat(queue: seq<Job>): seq<nat> {
    if queue == [] then [] else queue[0].ids + Flat(queue[1..])
  }

  // The backlog: files no commit has been recorded for.
  predicate Unmarked(s: State, key: Digest) { key in s.records && !s.records[key].committed }

  ghost predicate LiveKey(s: State, key: Digest) { exists i :: SealedAs(s, i, key) }

  // One pass over staging: the live rows under one key, in id order.
  ghost predicate Scanned(s: State, ids: seq<nat>, key: Digest) {
    ids != [] && Ascends(ids) && forall i :: i in ids <==> SealedAs(s, i, key)
  }

  // One key on a live row and on a quarantined one.
  ghost predicate Split(s: State) {
    exists i, j :: i in s.staged && j in s.staged && s.staged[i].key.Some? && s.staged[j].key == s.staged[i].key
                   && !s.staged[i].quarantined && s.staged[j].quarantined
  }

  // A writer's pending work: the sealed batches in the order they were first
  // staged, and the rows never sealed. What looks like a partly quarantined batch
  // refuses it all.
  ghost predicate Scan(s: State, jobs: seq<Job>, tail: seq<nat>) {
    && (forall k | 0 <= k < |jobs| ::
          jobs[k].key.Some? && jobs[k].replayed && !jobs[k].attempted && Scanned(s, jobs[k].ids, jobs[k].key.value))
    && (forall j, k | 0 <= j < k < |jobs| :: jobs[j].ids[0] < jobs[k].ids[0])
    && (forall i, key | SealedAs(s, i, key) :: exists k :: 0 <= k < |jobs| && jobs[k].key == Some(key))
    && Ascends(tail) && (forall i :: i in tail <==> Unsealed(s, i)) && !Split(s)
  }

  /** How a call on the world outside goes: it takes effect and says so, it takes effect
      and is reported as failed, or it does not happen. A local database's transaction
      is never lost: either it is done or it is not. */
  datatype Reply = Done | Lost | Refused

  // -------------------------------------------------------------------- steps

  /** One effect of the attempt on the head of the queue. */
  datatype Step =
    | Seal(key: Digest)
    | Reread
    | WriteSpool(stamp: int, recorded: bool)
    | SkipSpool
    | Upload(reported: bool)
    | Commit(reported: bool, refreshed: bool)
    | Conflict(refreshed: bool)
    | Mark
    | KeepLocal
    | Delete
    | Leave
    | Fail
    | Quarantine

  /** One effect of a drain, on the first file of what it has left. */
  datatype DrainStep = Load | Send | Found | Join(reported: bool) | Note | End

  datatype Event =
    | Elsewhere(n: nat)
    | Accept(payloads: seq<seq<byte>>)
    | Enqueue
    | Attempt(step: Step)
    | Crash
    | Open(localOnly: bool, spooling: bool, shape: Declared, jobs: seq<Job>, tail: seq<nat>)
    | StartDrain(todo: seq<Digest>)
    | Walk(walk: DrainStep)
    | EvictFile(key: Digest)
    | EvictRecord(key: Digest)

  predicate Working(s: State) { s.owner.Writer? && s.owner.w.queue != [] }

  function Head(s: State): Job
    requires Working(s)
  {
    s.owner.w.queue[0]
  }

  function Stage(s: State): Phase
    requires s.owner.Writer?
  {
    s.owner.w.phase
  }

  predicate Keyed(s: State) { Working(s) && Head(s).key.Some? }

  function Key(s: State): Digest
    requires Keyed(s)
  {
    Head(s).key.value
  }

  // A second attempt, in this process or after a restart, asks the table first.
  predicate Asks(s: State)
    requires Working(s)
  {
    !s.owner.w.localOnly && (Head(s).attempted || Head(s).replayed)
  }

  ghost predicate CanOpen(s: State, localOnly: bool, spooling: bool, shape: Declared, jobs: seq<Job>, tail: seq<nat>) {
    && s.owner.NoOne? && (localOnly ==> spooling) && Scan(s, jobs, tail)
    && (spooling && !localOnly ==> forall key | Unmarked(s, key) :: LiveKey(s, key))
    && (forall i | Live(s, i) && s.staged[i].shape != shape ::
          CompatibleSpec(s.staged[i].shape.fields, shape.fields).None?)
  }

  // Listed no later: by clock reading, and by key where readings tie.
  predicate NoLater(k: Digest, l: Digest, records: map<Digest, Entry>, rank: Digest -> int)
    requires k in records && l in records
  {
    records[k].stamp < records[l].stamp || (records[k].stamp == records[l].stamp && rank(k) <= rank(l))
  }

  // No file twice, and the older ones first.
  predicate OldestFirst(todo: seq<Digest>, records: map<Digest, Entry>, rank: Digest -> int) {
    forall j, k | 0 <= j < k < |todo| ::
      todo[j] != todo[k] && (todo[j] in records && todo[k] in records ==> NoLater(todo[j], todo[k], records, rank))
  }

  // A drain walks the backlog oldest first, leaving out what staging still owns: it
  // scans staging for that, so it starts only where a scan does.
  ghost predicate Backlog(s: State, todo: seq<Digest>) {
    (forall key :: key in todo <==> Unmarked(s, key) && !LiveKey(s, key)) && OldestFirst(todo, s.records, s.name.rank)
  }

  // What preparing the head refuses it for, at every attempt under this shape: a row
  // that does not decode or cannot be moved, or a batch that cannot be hashed. A
  // batch prepared can still be refused by the encoder of the data file.
  ghost predicate Unpreparable(s: State)
    requires Working(s)
  {
    var ids, to := Head(s).ids, s.owner.w.shape;
    if Head(s).key.Some? then exists i | i in ids :: i in s.staged && Render(s.staged[i], to).Err?
    else (exists i | i in ids :: i in s.staged && Recode(s.staged[i], to).Err?) ||
         KeyFor(s.name, to, RecodedAll(s.staged, ids, to)).Err?
  }

  /** What an attempt's next step needs. */
  ghost predicate CanStep(s: State, step: Step)
    requires Working(s)
  {
    match step
    case Seal(key) =>
      && Stage(s).Resting? && Head(s).key.None?
      && (forall i | i in Head(s).ids :: Unsealed(s, i) && Recode(s.staged[i], s.owner.w.shape).Ok?)
      && KeyFor(s.name, s.owner.w.shape, RecodedAll(s.staged, Head(s).ids, s.owner.w.shape)) == Ok(key)
    case Reread =>
      && Keyed(s) && Stage(s).Resting?
      && forall i | i in Head(s).ids :: i in s.staged && Render(s.staged[i], s.owner.w.shape).Ok?
    case WriteSpool(_, _) => Keyed(s) && Stage(s).Ready? && s.owner.w.spooling
    case SkipSpool => Keyed(s) && Stage(s).Ready? && !s.owner.w.spooling
    case Upload(_) => Keyed(s) && Stage(s).Written? && !s.owner.w.localOnly
    case Commit(_, _) => Keyed(s) && Stage(s).Uploaded? && s.owner.w.handle == s.table
    case Conflict(_) => Keyed(s) && Stage(s).Uploaded?
    case Mark => Keyed(s) && Stage(s).Confirmed?
    case KeepLocal => Keyed(s) && Stage(s).Written? && s.owner.w.localOnly
    case Delete => Keyed(s) && Stage(s).Settled?
    case Leave => Keyed(s) && Stage(s).Deleted?
    case Fail => true
    case Quarantine =>
      && ((Stage(s).Resting? && Unpreparable(s)) || Stage(s).Ready?)
      && forall i | i in Head(s).ids ::
           && i in s.staged
           && (s.staged[i].key.Some? ==> forall j | j in s.staged
               && s.staged[j].key == s.staged[i].key :: j in Head(s).ids)
  }

  predicate CanWalk(s: State, step: DrainStep)
    requires s.owner.Drain?
  {
    match step
    case Load => s.owner.todo != [] && s.owner.at.Loading?
    case Send => s.owner.todo != [] && s.owner.at.Loaded? && s.owner.todo[0] in s.files
    case Found => s.owner.todo != [] && s.owner.at.Sent? && s.owner.todo[0] in s.owner.at.base
    case Join(_) => s.owner.todo != [] && s.owner.at.Sent? && s.owner.todo[0] !in s.owner.at.base
        && s.owner.at.base == s.table
    case Note => s.owner.todo != [] && s.owner.at.Joined?
    case End => true
  }

  ghost predicate Can(s: State, e: Event) {
    match e
    case Elsewhere(_) => true
    case Accept(payloads) =>
      s.owner.Writer? && payloads != [] && forall p | p in payloads :: Record.DecodeSpec(s.owner.w.shape.fields, p).Ok?
    case Enqueue => s.owner.Writer? && s.owner.w.batch != []
    case Attempt(step) => Working(s) && CanStep(s, step)
    case Crash => true
    case Open(localOnly, spooling, shape, jobs, tail) => CanOpen(s, localOnly, spooling, shape, jobs, tail)
    case StartDrain(todo) => s.owner.NoOne? && Backlog(s, todo) && !Split(s)
    case Walk(step) => s.owner.Drain? && CanWalk(s, step)
    case EvictFile(key) => key in s.records && s.records[key].committed
    case EvictRecord(key) => key in s.records && s.records[key].committed
  }

  // The worker's memory, and the head of its queue, after a step.
  function To(s: State, phase: Phase): State
    requires s.owner.Writer?
  {
    s.(owner := Writer(s.owner.w.(phase := phase)))
  }

  function WithHead(s: State, j: Job): State
    requires Working(s)
  {
    s.(owner := Writer(s.owner.w.(queue := [j] + s.owner.w.queue[1..])))
  }

  function Popped(s: State): State
    requires Working(s)
  {
    s.(owner := Writer(s.owner.w.(queue := s.owner.w.queue[1..], phase := Resting)))
  }

  function Failed(s: State): State
    requires Working(s)
  {
    To(WithHead(s, Head(s).(attempted := true)), Resting)
  }

  function Refreshed(s: State, refreshed: bool): State
    requires s.owner.Writer?
  {
    if refreshed then s.(owner := Writer(s.owner.w.(handle := s.table))) else s
  }

  function Marked(s: State, key: Digest): (t: State)
    ensures t == s.(records := t.records)
  {
    if key in s.records then s.(records := s.records[key := s.records[key].(committed := true)]) else s
  }

  // A rewrite keeps the first stamp, and never takes a mark away.
  function Recorded(s: State, key: Digest, stamp: int): map<Digest, Entry> {
    if key in s.records then s.records else s.records[key := Entry(stamp, false)]
  }

  // One record takes the next id and joins the batch being accumulated.
  function Added(s: State, payload: seq<byte>): State
    requires s.owner.Writer?
  {
    var w := s.owner.w;
    s.(accepted := s.accepted[s.nextId := Accepted(w.shape, payload)],
       staged := s.staged[s.nextId := Row(w.shape, payload, None, false)],
       nextId := s.nextId + 1,
       owner := Writer(w.(batch := w.batch + [s.nextId])))
  }

  // A slice of records is one transaction: all of it is staged, in order.
  function AfterAccept(s: State, payloads: seq<seq<byte>>): State
    requires s.owner.Writer?
    decreases |payloads|
  {
    if payloads == [] then s else AfterAccept(Added(s, payloads[0]), payloads[1..])
  }

  function Stamped(staged: map<nat, Row>, ids: seq<nat>, key: Digest, shape: Declared): map<nat, Row> {
    map i | i in staged :: if i in ids then Row(shape, Recoded(staged, i, shape), Some(key), false) else staged[i]
  }

  // The seal's transaction, and the key it leaves on the job.
  function Sealed(s: State, key: Digest): State
    requires Working(s)
  {
    var ids, shape := Head(s).ids, s.owner.w.shape;
    var ps := RecodedAll(s.staged, ids, shape);
    WithHead(s.(staged := Stamped(s.staged, ids, key, shape),
                seals := s.seals + [Batch(key, ids, shape, if |ps| < TWO_63 then ps else [], |s.table|,
                                         Unmarked(s, key))]),
             Head(s).(key := Some(key)))
  }

  // A batch first attempted goes straight on; any other asks the table first.
  function Prepared(s: State): State
    requires Keyed(s)
  {
    if Asks(s) && Key(s) in s.owner.w.handle then To(s, Confirmed)
    else To(s, Ready(FileOf(s.staged, Head(s).ids, s.owner.w.shape)))
  }

  function AfterEnqueue(s: State): State
    requires s.owner.Writer?
  {
    var w := s.owner.w;
    s.(owner := Writer(w.(queue := w.queue + [Job(w.batch, None, false, false)], batch := [])))
  }

  function Pruned(staged: map<nat, Row>, ids: seq<nat>): (rest: map<nat, Row>)
    ensures forall i | i in ids :: i !in rest
  {
    map i | i in staged && i !in ids :: staged[i]
  }

  function Quarantined(staged: map<nat, Row>, ids: seq<nat>): map<nat, Row> {
    map i | i in staged :: if i in ids then staged[i].(quarantined := true) else staged[i]
  }

  function AfterOpen(s: State, localOnly: bool, spooling: bool, shape: Declared, jobs: seq<Job>,
      tail: seq<nat>): State {
    s.(owner := Writer(Worker(localOnly, spooling, shape, if localOnly then [] else s.table, jobs, tail, Resting)))
  }

  /** What an attempt's step does. */
  ghost function NextStep(s: State, step: Step): State
    requires Working(s) && CanStep(s, step)
  {
    match step
    case Seal(key) => Prepared(Sealed(s, key))
    case Reread => Prepared(s)
    case WriteSpool(stamp, recorded) =>
      var file := Stage(s).file;
      var t := s.(files := s.files[Key(s) := file]);
      if recorded then To(t.(records := Recorded(s, Key(s), stamp)), Written(file)) else Failed(t)
    case SkipSpool => To(s, Written(Stage(s).file))
    case Upload(reported) =>
      var t := s.(bucket := s.bucket[Key(s) := Stage(s).file]);
      if reported then To(t, Uploaded) else Failed(t)
    case Commit(reported, refreshed) =>
      var t := s.(table := s.table + [Key(s)]);
      if reported then To(Refreshed(t, true), Confirmed) else Failed(Refreshed(t, refreshed))
    case Conflict(refreshed) => Failed(Refreshed(s, refreshed))
    case Mark => To(if s.owner.w.spooling then Marked(s, Key(s)) else s, Settled)
    case KeepLocal => To(s, Settled)
    case Delete => To(s.(staged := Pruned(s.staged, Head(s).ids)), Deleted)
    case Leave => Popped(s)
    case Fail => Failed(s)
    case Quarantine => Popped(s.(staged := Quarantined(s.staged, Head(s).ids)))
  }

  ghost function NextWalk(s: State, step: DrainStep): State
    requires s.owner.Drain? && CanWalk(s, step)
  {
    var todo := s.owner.todo;
    match step
    case Load => s.(owner := Drain(todo, Loaded(s.table)))
    case Send => s.(bucket := s.bucket[todo[0] := s.files[todo[0]]], owner := Drain(todo, Sent(s.owner.at.base)))
    case Found => s.(owner := Drain(todo, Joined))
    case Join(reported) => s.(table := s.table + [todo[0]], owner := if reported then Drain(todo, Joined) else NoOne)
    case Note => Marked(s, todo[0]).(owner := Drain(todo[1..], Loading))
    case End => s.(owner := NoOne)
  }

  ghost function Next(s: State, e: Event): State
    requires Can(s, e)
  {
    match e
    case Elsewhere(n) => s.(nextId := s.nextId + n)
    case Accept(payloads) => AfterAccept(s, payloads)
    case Enqueue => AfterEnqueue(s)
    case Attempt(step) => NextStep(s, step)
    case Crash => s.(owner := NoOne)
    case Open(localOnly, spooling, shape, jobs, tail) => AfterOpen(s, localOnly, spooling, shape, jobs, tail)
    case StartDrain(todo) => s.(owner := Drain(todo, Loading))
    case Walk(step) => NextWalk(s, step)
    case EvictFile(key) => s.(files := s.files - {key})
    case EvictRecord(key) => s.(records := s.records - {key})
  }

  // ---------------------------------------------------------------------- runs

  ghost predicate Legal(s: State, run: seq<Event>)
    decreases |run|
  {
    run == [] || (Can(s, run[0]) && Legal(Next(s, run[0]), run[1..]))
  }

  ghost function Outcome(s: State, run: seq<Event>): State
    requires Legal(s, run)
    decreases |run|
  {
    if run == [] then s else Outcome(Next(s, run[0]), run[1..])
  }

  /** A run continued is a run. */
  lemma {:induction false} Continued(s: State, run: seq<Event>, more: seq<Event>)
    requires Legal(s, run) && Legal(Outcome(s, run), more)
    ensures Legal(s, run + more) && Outcome(s, run + more) == Outcome(Outcome(s, run), more)
    decreases |run|
  {
    hide Can, Next;
    if run == [] {
      assert run + more == more;
    } else {
      assert (run + more)[0] == run[0] && (run + more)[1..] == run[1..] + more;
      Continued(Next(s, run[0]), run[1..], more);
    }
  }

  // One step more.
  lemma Then(s: State, run: seq<Event>, e: Event)
    requires Legal(s, run) && Can(Outcome(s, run), e)
    ensures Legal(s, run + [e]) && Outcome(s, run + [e]) == Next(Outcome(s, run), e)
  {
    hide Can, Next, Legal, Outcome;
    OneEvent(Outcome(s, run), e);
    Continued(s, run, [e]);
  }

  lemma OneEvent(s: State, e: Event)
    requires Can(s, e)
    ensures Legal(s, [e]) && Outcome(s, [e]) == Next(s, e)
  {
    hide Can, Next;
    var run := [e];
    assert run[0] == e && run[1..] == [];
  }
}
