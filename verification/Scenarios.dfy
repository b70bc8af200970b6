/** Runs that show what the theorems' hypotheses are for: each is a legal run of
    the protocol for any shape and any encodable record. A run is put together from
    short pieces (accept, seal, spool, commit, retire), each described by the state
    it leaves. */
module Scenarios {
  import opened Bytes
  import opened Record
  import opened Descriptor
  import opened BatchKey
  import opened Remap
  import opened Protocol
  import opened Structure
  import opened Safety
  import opened Contents
  import opened ExactlyOnce
  import opened Restart
  import opened Order

  /** A record and the key of the batch it makes alone. */
  ghost predicate Alone(name: TableId, shape: Declared, p: seq<byte>, key: Digest) {
    Record.DecodeSpec(shape.fields, p).Ok? && KeyFor(name, shape, [p]) == Ok(key)
  }

  lemma EncodedRecordsQualify(name: TableId, shape: Declared, row: seq<Value>)
    requires EncodeSpec(shape.fields, row).Ok? && Addressable(EncodeSpec(shape.fields, row).value)
    requires Addressable(name.namespace) && Addressable(name.name) && Addressable(Serialized(shape))
    ensures exists key :: Alone(name, shape, EncodeSpec(shape.fields, row).value, key)
  {
    hide Record.DecodeSpec, EncodeSpec, Serialized, Preimage;
    var p := EncodeSpec(shape.fields, row).value;
    DecodeUndoesEncode(shape.fields, row);
    assert Alone(name, shape, p, KeyFor(name, shape, [p]).value);
  }

  // A bucket-mode writer with no cache, nothing staged and a current handle.
  predicate Quiet(s: State, shape: Declared) {
    && s.owner == Writer(Worker(false, false, shape, s.table, [], [], Resting))
    && s.staged == map[]
  }

  lemma AcceptOne(s: State, p: seq<byte>)
    requires s.owner.Writer?
    ensures AfterAccept(s, [p]) == Added(s, p)
  {
    assert [p][1..] == [];
  }

  // One record accepted and handed to the worker.
  function Queued(s: State, shape: Declared, p: seq<byte>): State
    requires s.owner.Writer?
  {
    s.(accepted := s.accepted[s.nextId := Accepted(shape, p)],
       staged := s.staged[s.nextId := Row(shape, p, None, false)],
       nextId := s.nextId + 1,
       owner := Writer(s.owner.w.(queue := [Job([s.nextId], None, false, false)], batch := [])))
  }

  lemma QueueOne(s0: State, run: seq<Event>, s: State, shape: Declared, p: seq<byte>) returns (more: seq<Event>)
    requires Legal(s0, run) && s == Outcome(s0, run)
    requires s.owner.Writer? && s.owner.w.shape == shape && s.owner.w.queue == [] && s.owner.w.batch == []
    requires Record.DecodeSpec(shape.fields, p).Ok?
    ensures Legal(s0, more) && Outcome(s0, more) == Queued(s, shape, p)
  {
    hide Legal, Outcome;
    AcceptOne(s, p);
    Then(s0, run, Accept([p]));
    Then(s0, run + [Accept([p])], Enqueue);
    more := run + [Accept([p])] + [Enqueue];
    assert s.owner.w.batch + [s.nextId] == [s.nextId];
    assert s.owner.w.queue + [Job([s.nextId], None, false, false)] == [Job([s.nextId], None, false, false)];
  }

  // The head sealed and ready to write, its file in hand.
  function SealedAlone(s: State, shape: Declared, p: seq<byte>, key: Digest, n: nat): State
    requires s.owner.Writer?
  {
    s.(staged := s.staged[n := Row(shape, p, Some(key), false)],
       seals := s.seals + [Batch(key, [n], shape, [p], |s.table|, Unmarked(s, key))],
       owner := Writer(s.owner.w.(queue := [Job([n], Some(key), false, false)],
                                  phase := Ready(FileOf(s.staged[n := Row(shape, p, Some(key), false)], [n], shape)))))
  }

  lemma SealOne(s0: State, run: seq<Event>, s: State, shape: Declared, p: seq<byte>, key: Digest, n: nat)
    returns (more: seq<Event>)
    requires Legal(s0, run) && s == Outcome(s0, run) && Alone(s.name, shape, p, key)
    requires s.owner.Writer? && s.owner.w.shape == shape && s.owner.w.phase.Resting?
    requires s.owner.w.queue == [Job([n], None, false, false)] && n in s.staged
             && s.staged[n] == Row(shape, p, None, false)
    ensures Legal(s0, more) && Outcome(s0, more) == SealedAlone(s, shape, p, key, n)
  {
    hide Legal, Outcome, KeyFor, FileOf;
    assert RecodedAll(s.staged, [n], shape) == [p];
    Then(s0, run, Attempt(Seal(key)));
    more := run + [Attempt(Seal(key))];
    assert Stamped(s.staged, [n], key, shape) == s.staged[n := Row(shape, p, Some(key), false)];
    assert [Job([n], Some(key), false, false)] + s.owner.w.queue[1..] == [Job([n], Some(key), false, false)];
  }

  // A commit that goes through, from a file already in the spool or with no cache.
  lemma PublishOne(s0: State, run: seq<Event>, s: State, key: Digest, n: nat) returns (more: seq<Event>)
    requires Legal(s0, run) && s == Outcome(s0, run)
    requires Keyed(s) && !s.owner.w.localOnly && s.owner.w.phase.Written? && Key(s) == key
             && s.owner.w.handle == s.table
    ensures Legal(s0, more)
    ensures Outcome(s0, more) ==
            s.(bucket := s.bucket[key := s.owner.w.phase.file], table := s.table + [key],
               owner := Writer(s.owner.w.(handle := s.table + [key], phase := Confirmed)))
  {
    hide Legal, Outcome;
    Then(s0, run, Attempt(Upload(true)));
    Then(s0, run + [Attempt(Upload(true))], Attempt(Commit(true, true)));
    more := run + [Attempt(Upload(true))] + [Attempt(Commit(true, true))];
  }

  // A settled batch of one record leaves staging and the queue.
  lemma PruneOne(s0: State, run: seq<Event>, s: State, n: nat) returns (more: seq<Event>)
    requires Legal(s0, run) && s == Outcome(s0, run)
    requires Keyed(s) && s.owner.w.phase.Settled? && |s.owner.w.queue| == 1 && Head(s).ids == [n]
    ensures Legal(s0, more)
    ensures Outcome(s0, more) ==
            s.(staged := Pruned(s.staged, [n]), owner := Writer(s.owner.w.(queue := [], phase := Resting)))
  {
    hide Legal, Outcome, Pruned;
    Then(s0, run, Attempt(Delete));
    Then(s0, run + [Attempt(Delete)], Attempt(Leave));
    more := run + [Attempt(Delete)] + [Attempt(Leave)];
    assert s.owner.w.queue[1..] == [];
  }

  lemma RetireOne(s0: State, run: seq<Event>, s: State, n: nat) returns (more: seq<Event>)
    requires Legal(s0, run) && s == Outcome(s0, run)
    requires Keyed(s) && s.owner.w.phase.Confirmed? && |s.owner.w.queue| == 1 && Head(s).ids == [n]
    ensures Legal(s0, more)
    ensures Outcome(s0, more) ==
            s.(staged := Pruned(s.staged, [n]),
               records := if s.owner.w.spooling then Marked(s, Key(s)).records else s.records,
               owner := Writer(s.owner.w.(queue := [], phase := Resting)))
  {
    hide Legal, Outcome, Pruned;
    Then(s0, run, Attempt(Mark));
    more := run + [Attempt(Mark)];
    more := PruneOne(s0, more, To(if s.owner.w.spooling then Marked(s, Key(s)) else s, Settled), n);
  }

  lemma CommitOne(s0: State, run: seq<Event>, s: State, key: Digest, n: nat) returns (more: seq<Event>)
    requires Legal(s0, run) && s == Outcome(s0, run)
    requires s.owner.Writer? && !s.owner.w.localOnly && !s.owner.w.spooling && s.owner.w.phase.Ready?
    requires s.owner.w.handle == s.table && |s.owner.w.queue| == 1 && Head(s).ids == [n] && Head(s).key == Some(key)
    ensures Legal(s0, more)
    ensures Outcome(s0, more) ==
            s.(bucket := s.bucket[key := s.owner.w.phase.file], table := s.table + [key],
                staged := Pruned(s.staged, [n]),
               owner := Writer(s.owner.w.(handle := s.table + [key], queue := [], phase := Resting)))
  {
    hide Legal, Outcome, Pruned;
    Then(s0, run, Attempt(SkipSpool));
    more := run + [Attempt(SkipSpool)];
    var t := To(s, Written(s.owner.w.phase.file));
    more := PublishOne(s0, more, t, key, n);
    more := RetireOne(s0, more, Outcome(s0, more), n);
  }

  // One record all the way from Insert to the table.
  lemma FlushOne(s0: State, run: seq<Event>, s: State, shape: Declared, p: seq<byte>, key: Digest)
    returns (more: seq<Event>, t: State)
    requires Legal(s0, run) && s == Outcome(s0, run) && Quiet(s, shape) && Alone(s.name, shape, p, key)
    ensures Legal(s0, more) && Outcome(s0, more) == t && Quiet(t, shape) && t.name == s.name
    ensures t.table == s.table + [key] && t.nextId == s.nextId + 1
    ensures t.seals == s.seals + [Batch(key, [s.nextId], shape, [p], |s.table|, Unmarked(s, key))]
    ensures t.accepted == s.accepted[s.nextId := Accepted(shape, p)] && t.records == s.records && t.files == s.files
  {
    hide Legal, Outcome, FileOf, KeyFor;
    var n := s.nextId;
    more := QueueOne(s0, run, s, shape, p);
    more := SealOne(s0, more, Queued(s, shape, p), shape, p, key, n);
    var u := SealedAlone(Queued(s, shape, p), shape, p, key, n);
    assert u.staged == map[n := Row(shape, p, Some(key), false)];
    more := CommitOne(s0, more, u, key, n);
    t := Outcome(s0, more);
    assert Pruned(u.staged, [n]) == map[];
  }

  function OpenBucket(shape: Declared): Event { Open(false, false, shape, [], []) }

  lemma OpenEmpty(name: TableId, shape: Declared)
    ensures Legal(Initial(name), [OpenBucket(shape)]) && Quiet(Outcome(Initial(name), [OpenBucket(shape)]), shape)
    ensures var t := Outcome(Initial(name), [OpenBucket(shape)]);
            t.seals == [] && t.table == [] && t.nextId == 0 && t.name == name && t.accepted == map[]
                && t.records == map[]
  {
    hide CanOpen;
    var s := Initial(name);
    assert CanOpen(s, false, false, shape, [], []) by { EmptyScan(s, shape); }
    assert Legal(s, []) && Outcome(s, []) == s;
    Then(s, [], OpenBucket(shape));
    assert [] + [OpenBucket(shape)] == [OpenBucket(shape)];
  }

  lemma EmptyScan(s: State, shape: Declared)
    requires s.staged == map[] && s.owner.NoOne?
    ensures CanOpen(s, false, false, shape, [], [])
  {
  }

  /** Two batches with equal payloads, each flushed for the first time, put the same
      file in the table twice: the first attempt on a batch asks no one. */
  lemma EqualBatchesCommitTwice(name: TableId, shape: Declared, p: seq<byte>, key: Digest)
    requires Alone(name, shape, p, key)
    ensures exists run :: Legal(Initial(name), run) && Outcome(Initial(name), run).table == [key, key]
  {
    hide Legal, Outcome, KeyFor, Quiet;
    OpenEmpty(name, shape);
    var r := [OpenBucket(shape)];
    var s := Outcome(Initial(name), r);
    var t: State;
    r, t := FlushOne(Initial(name), r, s, shape, p, key);
    r, t := FlushOne(Initial(name), r, t, shape, p, key);
    assert Outcome(Initial(name), r).table == [] + [key] + [key];
  }

  // After a crash with one sealed batch staged, the writer reopens on it, under
  // any shape its rows could have been written for.
  lemma ReopenOne(s0: State, run: seq<Event>, s: State, shape: Declared, p: seq<byte>,
      key: Digest, n: nat, spooling: bool, to: Declared)
    returns (more: seq<Event>)
    requires Legal(s0, run) && s == Outcome(s0, run) && s.staged == map[n := Row(shape, p, Some(key), false)]
    requires shape != to ==> CompatibleSpec(shape.fields, to.fields).None?
    requires spooling ==> forall k | Unmarked(s, k) :: k == key
    ensures Legal(s0, more)
    ensures Outcome(s0, more) ==
            s.(owner := Writer(Worker(false, spooling, to, s.table, [Job([n], Some(key), true, false)], [], Resting)))
  {
    hide Legal, Outcome, CompatibleSpec;
    var jobs := [Job([n], Some(key), true, false)];
    Then(s0, run, Crash);
    more := run + [Crash];
    var t := s.(owner := NoOne);
    assert SealedAs(t, n, key);
    assert Scanned(t, [n], key) by {
      assert forall i :: i in [n] <==> SealedAs(t, i, key);
    }
    assert forall i, k | SealedAs(t, i, k) :: jobs[0].key == Some(k);
    assert forall k | Unmarked(t, k) :: Unmarked(s, k);
    Then(s0, more, Open(false, spooling, to, jobs, []));
    more := more + [Open(false, spooling, to, jobs, [])];
  }

  // A recovered batch whose file the table already has is pruned unread.
  lemma DropOne(s0: State, run: seq<Event>, s: State, shape: Declared, p: seq<byte>, key: Digest)
    returns (more: seq<Event>)
    requires Legal(s0, run) && s == Outcome(s0, run) && Alone(s.name, shape, p, key)
    requires s.staged == map[1 := Row(shape, p, Some(key), false)] && s.table == [key]
    ensures Legal(s0, more)
    ensures var t := Outcome(s0, more);
            t.staged == map[] && t.table == s.table && t.seals == s.seals && t.accepted == s.accepted
  {
    hide Legal, Outcome, KeyFor, FileOf;
    more := ReopenOne(s0, run, s, shape, p, key, 1, false, shape);
    var t := Outcome(s0, more);
    assert Render(t.staged[1], shape).Ok?;
    Then(s0, more, Attempt(Reread));
    more := more + [Attempt(Reread)];
    more := RetireOne(s0, more, Outcome(s0, more), 1);
    assert Pruned(s.staged, [1]) == map[];
  }

  /** The second of two equal batches, recovered after a crash, is taken for the
      first: its records leave staging and the table holds one copy of two. */
  lemma EqualBatchReplayedIsDropped(name: TableId, shape: Declared, p: seq<byte>, key: Digest)
    requires Alone(name, shape, p, key)
    ensures exists run :: Legal(Initial(name), run) &&
                          var s := Outcome(Initial(name), run);
                          s.table == [key] && SealCount(s.seals, key) == 2 && s.staged == map[]
                              && s.accepted.Keys == {0, 1}
  {
    hide Legal, Outcome, KeyFor, FileOf;
    OpenEmpty(name, shape);
    var s0 := Initial(name);
    var r := [OpenBucket(shape)];
    var s: State;
    r, s := FlushOne(s0, r, Outcome(s0, r), shape, p, key);
    var first := s;
    r := QueueOne(s0, r, s, shape, p);
    r := SealOne(s0, r, Queued(s, shape, p), shape, p, key, 1);
    r := DropOne(s0, r, SealedAlone(Queued(s, shape, p), shape, p, key, 1), shape, p, key);
    s := Outcome(s0, r);
    TwoSeals(s.seals, first.seals, Batch(key, [0], shape, [p], 0, false), Batch(key, [1], shape, [p], 1, false), key);
  }

  lemma TwoSeals(seals: seq<Batch>, first: seq<Batch>, a: Batch, b: Batch, key: Digest)
    requires first == [] + [a] && seals == first + [b] && a.key == b.key == key
    ensures SealCount(seals, key) == 2
  {
    SealCountGrows([], a, key);
    SealCountGrows(first, b, key);
  }

  // --------------------------------------------------- quarantine and the drain

  // A sealed head whose file reaches the spool.
  lemma SpoolOne(s0: State, run: seq<Event>, s: State, key: Digest, stamp: int) returns (more: seq<Event>)
    requires Legal(s0, run) && s == Outcome(s0, run)
    requires Keyed(s) && s.owner.w.spooling && s.owner.w.phase.Ready? && Key(s) == key && key !in s.records
    ensures Legal(s0, more)
    ensures Outcome(s0, more) ==
            s.(files := s.files[key := s.owner.w.phase.file], records := s.records[key := Entry(stamp, false)],
               owner := Writer(s.owner.w.(phase := Written(s.owner.w.phase.file))))
  {
    hide Legal, Outcome;
    Then(s0, run, Attempt(WriteSpool(stamp, true)));
    more := run + [Attempt(WriteSpool(stamp, true))];
  }

  // The first record of an empty store, as far as its file in the spool.
  lemma SpoolFirst(name: TableId, localOnly: bool, shape: Declared, p: seq<byte>, k: Digest)
    returns (run: seq<Event>, t: State)
    requires Alone(name, shape, p, k)
    ensures Legal(Initial(name), run) && t == Outcome(Initial(name), run) && t.name == name && t.nextId == 1
    ensures t.staged == map[0 := Row(shape, p, Some(k), false)] && t.table == []
            && t.seals == [Batch(k, [0], shape, [p], 0, false)]
    ensures k in t.files && t.records == map[k := Entry(1, false)] && t.accepted.Keys == {0}
    ensures t.owner.Writer? && t.owner.w.phase.Written? &&
            t.owner == Writer(Worker(localOnly, true, shape, [], [Job([0], Some(k), false, false)], [],
                t.owner.w.phase))
  {
    hide Legal, Outcome, KeyFor, FileOf, CanOpen;
    var s0 := Initial(name);
    NoRun(s0);
    SpoolEmpty(s0, localOnly, shape);
    Then(s0, [], Open(localOnly, true, shape, [], []));
    run := [] + [Open(localOnly, true, shape, [], [])];
    run := QueueOne(s0, run, Outcome(s0, run), shape, p);
    run := SealOne(s0, run, Outcome(s0, run), shape, p, k, 0);
    run := SpoolOne(s0, run, Outcome(s0, run), k, 1);
    t := Outcome(s0, run);
  }

  lemma SpoolEmpty(s: State, localOnly: bool, shape: Declared)
    requires s.staged == map[] && s.records == map[] && s.owner.NoOne?
    ensures CanOpen(s, localOnly, true, shape, [], [])
  {
  }

  // The head's row cannot be moved to the shape now declared.
  ghost predicate Spoiled(s: State, shape: Declared, p: seq<byte>, key: Digest, stricter: Declared) {
    && s.staged == map[0 := Row(shape, p, Some(key), false)] && s.owner.Writer? && s.owner.w.shape == stricter
    && s.owner.w.queue == [Job([0], Some(key), true, false)] && s.owner.w.phase.Resting?
    && Render(s.staged[0], stricter).Err?
  }

  // The batch that cannot be encoded is taken out of the queue.
  lemma SpoilOne(s: State, shape: Declared, p: seq<byte>, key: Digest, stricter: Declared)
    requires Spoiled(s, shape, p, key, stricter)
    ensures Can(s, Attempt(Quarantine))
    ensures Next(s, Attempt(Quarantine)) ==
            s.(staged := map[0 := Row(shape, p, Some(key), true)],
                owner := Writer(s.owner.w.(queue := [], phase := Resting)))
  {
    hide Render;
    assert 0 in Head(s).ids;
    assert Quarantined(s.staged, [0]) == map[0 := Row(shape, p, Some(key), true)];
    assert s.owner.w.queue[1..] == [];
  }

  // A drain of a one-file backlog commits it.
  lemma DrainOne(s0: State, run: seq<Event>, s: State, key: Digest) returns (more: seq<Event>)
    requires Legal(s0, run) && s == Outcome(s0, run)
    requires key in s.files && key !in s.table
    requires forall k :: Unmarked(s, k) <==> k == key
    requires forall i, k :: !SealedAs(s, i, k)
    ensures Legal(s0, more) && Outcome(s0, more).table == s.table + [key]
    ensures Outcome(s0, more).seals == s.seals && Outcome(s0, more).staged == s.staged
    ensures Outcome(s0, more).accepted == s.accepted
  {
    hide Legal, Outcome;
    Then(s0, run, Crash);
    var r := run + [Crash];
    var t := s.(owner := NoOne);
    assert forall i, k :: SealedAs(t, i, k) == SealedAs(s, i, k);
    assert forall k :: Unmarked(t, k) == Unmarked(s, k);
    NoKeyNoSplit(t) by { assert forall k :: !LiveKey(t, k); }
    Then(s0, r, StartDrain([key]));
    r := r + [StartDrain([key])];
    Then(s0, r, Walk(Load));
    r := r + [Walk(Load)];
    Then(s0, r, Walk(Send));
    r := r + [Walk(Send)];
    Then(s0, r, Walk(Join(true)));
    more := r + [Walk(Join(true))];
  }

  /** A batch is spooled and its upload fails; the writer reopens under a shape one of
      its rows cannot be moved to, so the batch is quarantined. The next drain commits
      it all the same, after a batch accepted later, with its rows still marked. */
  lemma QuarantinedBatchIsDrained(name: TableId, shape: Declared, p: seq<byte>,
      k: Digest, stricter: Declared, q: seq<byte>, l: Digest)
    requires Alone(name, shape, p, k) && Alone(name, stricter, q, l) && k != l
    requires shape != stricter && CompatibleSpec(shape.fields, stricter.fields).None?
             && Render(Row(shape, p, Some(k), false), stricter).Err?
    ensures exists run, more ::
              && Legal(Initial(name), run) && Spoiled(Outcome(Initial(name), run), shape, p, k, stricter)
              && Legal(Initial(name), run + [Attempt(Quarantine)] + more)
              && var s := Outcome(Initial(name), run + [Attempt(Quarantine)] + more);
                 && s.table == [l, k]
                 && s.seals == [Batch(k, [0], shape, [p], 0, false), Batch(l, [1], stricter, [q], 0, false)]
                 && s.staged == map[0 := Row(shape, p, Some(k), true)]
  {
    hide Legal, Outcome, KeyFor, FileOf, Render, CompatibleSpec, Record.DecodeSpec;
    var s0 := Initial(name);
    var run, s := SpoolFirst(name, false, shape, p, k);
    run := ReopenOne(s0, run, s, shape, p, k, 0, true, stricter);
    s := Outcome(s0, run);
    SpoilOne(s, shape, p, k, stricter);
    Then(s0, run, Attempt(Quarantine));
    var t := Next(s, Attempt(Quarantine));
    NoRun(t);
    var more, u := SecondFlushes(t, [], t, stricter, q, l, k);
    more := DrainOne(t, more, u, k);
    Continued(s0, run + [Attempt(Quarantine)], more);
  }

  // The first record's batch sealed, then quarantined under a shape it cannot be moved to.
  lemma SpoilFirst(name: TableId, shape: Declared, p: seq<byte>, k: Digest, stricter: Declared)
    returns (run: seq<Event>, t: State)
    requires Alone(name, shape, p, k) && shape != stricter && CompatibleSpec(shape.fields, stricter.fields).None?
             && Render(Row(shape, p, Some(k), false), stricter).Err?
    ensures Legal(Initial(name), run) && t == Outcome(Initial(name), run) && t.name == name
    ensures t.staged == map[0 := Row(shape, p, Some(k), true)] && t.table == [] && t.nextId == 1
            && t.accepted.Keys == {0} && t.owner.Writer?
  {
    hide Legal, Outcome, KeyFor, FileOf, Render, CompatibleSpec, Record.DecodeSpec, Quiet;
    OpenEmpty(name, shape);
    var s0 := Initial(name);
    run := [OpenBucket(shape)];
    var s := Outcome(s0, run);
    assert s.owner == Writer(Worker(false, false, shape, s.table, [], [], Resting)) && s.staged == map[] by {
      QuietOwner(s, shape);
    }
    run := QueueOne(s0, run, s, shape, p);
    run := SealOne(s0, run, Outcome(s0, run), shape, p, k, 0);
    run := ReopenOne(s0, run, Outcome(s0, run), shape, p, k, 0, false, stricter);
    SpoilOne(Outcome(s0, run), shape, p, k, stricter);
    Then(s0, run, Attempt(Quarantine));
    run := run + [Attempt(Quarantine)];
    t := Outcome(s0, run);
  }

  lemma QuietOwner(s: State, shape: Declared)
    requires Quiet(s, shape)
    ensures s.owner == Writer(Worker(false, false, shape, s.table, [], [], Resting)) && s.staged == map[]
  {
  }

  // After a crash with nothing but marked rows staged, the writer reopens on nothing.
  lemma ReopenEmpty(s0: State, run: seq<Event>, s: State, shape: Declared) returns (more: seq<Event>)
    requires Legal(s0, run) && s == Outcome(s0, run) && forall i | i in s.staged :: s.staged[i].quarantined
    ensures Legal(s0, more)
    ensures Outcome(s0, more) == s.(owner := Writer(Worker(false, false, shape, s.table, [], [], Resting)))
  {
    hide Legal, Outcome;
    Then(s0, run, Crash);
    more := run + [Crash];
    var t := s.(owner := NoOne);
    assert Scan(t, [], []);
    Then(s0, more, OpenBucket(shape));
    more := more + [OpenBucket(shape)];
  }

  /** A batch is quarantined under a stricter shape; the old shape is declared again, an
      equal batch is sealed, and the process dies: staging is split, and neither record
      is in the table or ever will be. */
  lemma LockoutHappens(name: TableId, shape: Declared, p: seq<byte>, k: Digest, stricter: Declared)
    requires Alone(name, shape, p, k) && shape != stricter && CompatibleSpec(shape.fields, stricter.fields).None?
             && Render(Row(shape, p, Some(k), false), stricter).Err?
    ensures exists run :: Legal(Initial(name), run) &&
                          var s := Outcome(Initial(name), run);
                          s.owner.NoOne? && Split(s) && s.table == [] && s.accepted.Keys == {0, 1}
  {
    hide Legal, Outcome, KeyFor, FileOf, Render, CompatibleSpec, Record.DecodeSpec;
    var s0 := Initial(name);
    var run, t := SpoilFirst(name, shape, p, k, stricter);
    run := ReopenEmpty(s0, run, t, shape);
    run := QueueOne(s0, run, Outcome(s0, run), shape, p);
    run := SealOne(s0, run, Outcome(s0, run), shape, p, k, 1);
    Then(s0, run, Crash);
    run := run + [Crash];
    var s := Outcome(s0, run);
    assert s.staged[1] == Row(shape, p, Some(k), false) && s.staged[0] == Row(shape, p, Some(k), true);
    assert Split(s);
  }

  /** Such shapes are one step apart: make an optional column required, and every
      record with a null there is spoiled, though the table still opens. */
  lemma TighteningSpoils(shape: Declared, j: nat, row: seq<Value>, stricter: Declared)
    requires j < |shape.fields| && !shape.fields[j].required
    requires stricter.fields == shape.fields[j := shape.fields[j].(required := true)]
    requires EncodeSpec(shape.fields, row).Ok? && j < |row| && row[j] == Null
    ensures CompatibleSpec(shape.fields, stricter.fields).None?
    ensures forall key :: Render(Row(shape, EncodeSpec(shape.fields, row).value, key, false), stricter).Err?
  {
    hide EncodeSpec, Record.DecodeSpec;
    DecodeUndoesEncode(shape.fields, row);
    SameColumnsCompatible(shape.fields, stricter.fields);
    MissingFails(shape.fields, stricter.fields, row, 0, j);
  }

  lemma {:induction false} SameColumnsCompatible(from: seq<Field>, to: seq<Field>)
    requires |from| == |to| && forall k | 0 <= k < |from| :: from[k].id == to[k].id && SameType(from[k], to[k])
    requires forall i, k | 0 <= i < k < |from| :: from[i].id < from[k].id
    ensures CompatibleSpec(from, to).None?
  {
    NoneRemoved(from, to, 0);
    NoneRetyped(from, to, 0);
  }

  lemma {:induction false} NoneRemoved(from: seq<Field>, to: seq<Field>, i: nat)
    requires |from| == |to| && forall k | 0 <= k < |from| :: from[k].id == to[k].id
    requires i <= |from|
    ensures FirstRemoved(from, to, i).None?
    decreases |from| - i
  {
    if i < |from| {
      assert to[i].id == from[i].id;
      NoneRemoved(from, to, i + 1);
    }
  }

  lemma {:induction false} NoneRetyped(from: seq<Field>, to: seq<Field>, i: nat)
    requires |from| == |to| && forall k | 0 <= k < |from| :: from[k].id == to[k].id && SameType(from[k], to[k])
    requires forall i, k | 0 <= i < k < |from| :: from[i].id < from[k].id
    requires i <= |to|
    ensures FirstRefusal(from, to, i).None?
    decreases |to| - i
  {
    if i < |to| {
      assert from[i].id == to[i].id;
      assert IndexOfFieldID(from, to[i].id) == Some(i);
      NoneRetyped(from, to, i + 1);
    }
  }

  lemma {:induction false} MissingFails(from: seq<Field>, to: seq<Field>, row: seq<Value>, i: nat, j: nat)
    requires |row| == |from| == |to| && i <= j < |to|
    requires forall i, k | 0 <= i < k < |from| :: from[i].id < from[k].id
    requires from[j].id == to[j].id && to[j].required && row[j] == Null
    ensures RemapFrom(from, to, row, i).Err?
    decreases j - i
  {
    if i == j {
      assert from[j].id == to[j].id;
      assert IndexOfFieldID(from, to[j].id) == Some(j);
    } else {
      MissingFails(from, to, row, i + 1, j);
    }
  }

  // A second batch, spooled and committed, while the first is in the backlog.
  lemma SecondFlushes(s0: State, run: seq<Event>, s: State, shape: Declared, q: seq<byte>, l: Digest, k: Digest)
    returns (more: seq<Event>, t: State)
    requires Legal(s0, run) && s == Outcome(s0, run) && Alone(s.name, shape, q, l) && k != l && s.nextId == 1
    requires s.owner == Writer(Worker(false, true, shape, [], [], [], Resting)) && s.table == [] && 1 !in s.staged
    requires s.records == map[k := Entry(1, false)] && k in s.files
    ensures Legal(s0, more) && t == Outcome(s0, more) && t.table == [l] && k in t.files
    ensures t.seals == s.seals + [Batch(l, [1], shape, [q], 0, false)] && t.staged == s.staged
    ensures forall x :: Unmarked(t, x) <==> x == k
  {
    hide Legal, Outcome, KeyFor, FileOf;
    more := QueueOne(s0, run, s, shape, q);
    more := SealOne(s0, more, Queued(s, shape, q), shape, q, l, 1);
    var u := SealedAlone(Queued(s, shape, q), shape, q, l, 1);
    more, t := SealedFlushes(s0, more, u, l, k);
    assert t.staged == s.staged;
  }

  lemma SealedFlushes(s0: State, run: seq<Event>, s: State, l: Digest, k: Digest) returns (more: seq<Event>, t: State)
    requires Legal(s0, run) && s == Outcome(s0, run) && k != l && s.table == []
    requires s.owner.Writer? && !s.owner.w.localOnly && s.owner.w.spooling && s.owner.w.phase.Ready?
             && s.owner.w.handle == []
    requires s.owner.w.queue == [Job([1], Some(l), false, false)]
    requires s.records == map[k := Entry(1, false)] && k in s.files
    ensures Legal(s0, more) && t == Outcome(s0, more) && t.table == [l] && k in t.files
    ensures t.seals == s.seals && t.staged == Pruned(s.staged, [1])
    ensures forall x :: Unmarked(t, x) <==> x == k
  {
    hide Legal, Outcome, Pruned;
    more := SpoolOne(s0, run, s, l, 2);
    var u := Outcome(s0, more);
    more := PublishOne(s0, more, u, l, 1);
    u := Outcome(s0, more);
    more := RetireOne(s0, more, u, 1);
    t := Outcome(s0, more);
    assert u.records == map[k := Entry(1, false), l := Entry(2, false)];
    assert t.records == map[k := Entry(1, false), l := Entry(2, true)];
  }

  // --------------------------------------------------------- a backlog left behind

  // A spooled head, kept locally: its row goes, its file stays in the backlog.
  lemma KeepOne(s0: State, run: seq<Event>, s: State, n: nat) returns (more: seq<Event>)
    requires Legal(s0, run) && s == Outcome(s0, run)
    requires Keyed(s) && s.owner.w.localOnly && s.owner.w.phase.Written? && |s.owner.w.queue| == 1 && Head(s).ids == [n]
    ensures Legal(s0, more)
    ensures Outcome(s0, more) ==
            s.(staged := Pruned(s.staged, [n]), owner := Writer(s.owner.w.(queue := [], phase := Resting)))
  {
    hide Legal, Outcome, Pruned;
    Then(s0, run, Attempt(KeepLocal));
    more := run + [Attempt(KeepLocal)];
    more := PruneOne(s0, more, To(s, Settled), n);
  }

  // One record flushed in local-only mode: its file in the spool, its row gone.
  lemma FlushLocally(name: TableId, shape: Declared, p: seq<byte>, k: Digest) returns (run: seq<Event>, t: State)
    requires Alone(name, shape, p, k)
    ensures Legal(Initial(name), run) && t == Outcome(Initial(name), run) && t.name == name
    ensures t.owner == Writer(Worker(true, true, shape, [], [], [], Resting))
    ensures t.staged == map[] && t.table == [] && t.nextId == 1 && t.seals == [Batch(k, [0], shape, [p], 0, false)]
    ensures k in t.files && t.records == map[k := Entry(1, false)] && t.accepted.Keys == {0}
  {
    hide Legal, Outcome, KeyFor, Pruned;
    run, t := SpoolFirst(name, true, shape, p, k);
    var u := t;
    run := KeepOne(Initial(name), run, u, 0);
    t := Outcome(Initial(name), run);
    assert Pruned(u.staged, [0]) == map[] by { PruneOnly(u.staged, 0); }
  }

  /** A batch spooled in local-only mode, then a bucket-mode run with no cache: that run
      cannot see the backlog, so what it accepts is committed first. */
  lemma BacklogLeftBehindCommitsLate(name: TableId, shape: Declared, p: seq<byte>, k: Digest, q: seq<byte>, l: Digest)
    requires Alone(name, shape, p, k) && Alone(name, shape, q, l) && k != l
    ensures exists run :: Legal(Initial(name), run) &&
                          var s := Outcome(Initial(name), run);
                          s.table == [l, k]
                          && s.seals == [Batch(k, [0], shape, [p], 0, false), Batch(l, [1], shape, [q], 0, false)]
  {
    hide Legal, Outcome, KeyFor, FileOf;
    var s0 := Initial(name);
    var r, s := FlushLocally(name, shape, p, k);
    Then(s0, r, Crash);
    r := r + [Crash];
    s := Outcome(s0, r);
    assert Can(s, OpenBucket(shape)) by { EmptyScan(s, shape); }
    Then(s0, r, OpenBucket(shape));
    r := r + [OpenBucket(shape)];
    var u := Outcome(s0, r);
    assert Quiet(u, shape);
    var t: State;
    r, t := FlushOne(s0, r, u, shape, q, l);
    r := DrainOne(s0, r, t, k);
  }

  /** Two batches spooled in local-only mode, the second under an earlier clock reading,
      or the same and a key that ranks no later: a drain can commit the second first. */
  lemma TiedStampsLoseOrder(name: TableId, shape: Declared, p: seq<byte>, k: Digest, q: seq<byte>,
      l: Digest, stamp: int)
    requires Alone(name, shape, p, k) && Alone(name, shape, q, l) && k != l
    requires stamp < 1 || (stamp == 1 && name.rank(l) <= name.rank(k))
    ensures exists run :: Legal(Initial(name), run) &&
                          var s := Outcome(Initial(name), run);
                          && s.seals == [Batch(k, [0], shape, [p], 0, false), Batch(l, [1], shape, [q], 0, false)]
                          && !InOrder(s)
  {
    hide Legal, Outcome, KeyFor, FileOf, Reachable, Spooled;
    var s0 := Initial(name);
    var r, s := FlushLocally(name, shape, p, k);
    r := QueueOne(s0, r, s, shape, q);
    r := SealOne(s0, r, Queued(s, shape, q), shape, q, l, 1);
    r := SpoolOne(s0, r, SealedAlone(Queued(s, shape, q), shape, q, l, 1), l, stamp);
    var u := Outcome(s0, r);
    r := KeepOne(s0, r, u, 1);
    s := Outcome(s0, r);
    assert s.staged == map[] by { PruneOnly(u.staged, 1); }
    assert Reachable(s) by { Reaches(name, r, s); }
    ReachableSpooled(s);
    assert Stranded(s, k) && Stranded(s, l);
    assert SealOf(s, 0, k) && SealOf(s, 1, l);
    var more := DrainedAcross(s, k, l);
    Continued(s0, r, more);
  }

  lemma PruneOnly(staged: map<nat, Row>, n: nat)
    requires staged.Keys == {n}
    ensures Pruned(staged, [n]) == map[]
  {
  }

  lemma Reaches(name: TableId, run: seq<Event>, s: State)
    requires Legal(Initial(name), run) && Outcome(Initial(name), run) == s && s.name == name
    ensures Reachable(s)
  {
  }

  // The head spooled again, under a record already there.
  lemma RespoolOne(s0: State, run: seq<Event>, s: State, key: Digest) returns (more: seq<Event>)
    requires Legal(s0, run) && s == Outcome(s0, run)
    requires Keyed(s) && s.owner.w.spooling && s.owner.w.phase.Ready? && Key(s) == key && key in s.records
    ensures Legal(s0, more)
    ensures Outcome(s0, more) ==
            s.(files := s.files[key := s.owner.w.phase.file],
               owner := Writer(s.owner.w.(phase := Written(s.owner.w.phase.file))))
  {
    hide Legal, Outcome;
    Then(s0, run, Attempt(WriteSpool(2, true)));
    more := run + [Attempt(WriteSpool(2, true))];
  }

  /** Two equal batches flushed in local-only mode share one spool file and one record:
      both are out of staging, and the drain that follows adds one copy. */
  lemma EqualBatchesKeptOnce(name: TableId, shape: Declared, p: seq<byte>, k: Digest)
    requires Alone(name, shape, p, k)
    ensures exists run :: Legal(Initial(name), run) &&
                          var s := Outcome(Initial(name), run);
                          s.table == [k] && SealCount(s.seals, k) == 2 && s.staged == map[] && s.accepted.Keys == {0, 1}
  {
    hide Legal, Outcome, KeyFor, FileOf;
    var s0 := Initial(name);
    var r, s := FlushLocally(name, shape, p, k);
    r := QueueOne(s0, r, s, shape, p);
    r := SealOne(s0, r, Queued(s, shape, p), shape, p, k, 1);
    r := RespoolOne(s0, r, SealedAlone(Queued(s, shape, p), shape, p, k, 1), k);
    var u := Outcome(s0, r);
    r := KeepOne(s0, r, u, 1);
    var t := Outcome(s0, r);
    assert t.staged == map[] by { PruneOnly(u.staged, 1); }
    TwoSeals(t.seals, s.seals, Batch(k, [0], shape, [p], 0, false), Batch(k, [1], shape, [p], 0, true), k);
    assert t.accepted.Keys == {0, 1};
    r := DrainOne(s0, r, t, k);
  }

  // ---------------------------------------------------------- a half-done prune

  // A confirmed batch pruned by half: its rows are deleted, and the second call fails.
  lemma HalfPrune(s0: State, run: seq<Event>, s: State) returns (more: seq<Event>)
    requires Legal(s0, run) && s == Outcome(s0, run) && Keyed(s) && s.owner.w.phase.Confirmed?
    ensures Legal(s0, more)
    ensures var t := Outcome(s0, more); t.table == s.table && Keyed(t) && HeadGone(t) && Stage(t).Resting?
  {
    hide Legal, Outcome, Pruned;
    Then(s0, run, Attempt(Mark));
    more := run + [Attempt(Mark)];
    Then(s0, more, Attempt(Delete));
    more := more + [Attempt(Delete)];
    Then(s0, more, Attempt(Fail));
    more := more + [Attempt(Fail)];
  }

  /** It happens: a batch committed whose rows are deleted and whose descriptors are not
      dropped. */
  lemma HalfPruneHappens(name: TableId, shape: Declared, p: seq<byte>, key: Digest)
    requires Alone(name, shape, p, key)
    ensures exists run :: Legal(Initial(name), run) &&
                          var s := Outcome(Initial(name), run);
                          s.table == [key] && Keyed(s) && HeadGone(s) && Stage(s).Resting?
  {
    hide Legal, Outcome, KeyFor, FileOf, HeadGone;
    OpenEmpty(name, shape);
    var s0, r := Initial(name), [OpenBucket(shape)];
    var s := Outcome(s0, r);
    r := QueueOne(s0, r, s, shape, p);
    r := SealOne(s0, r, Queued(s, shape, p), shape, p, key, 0);
    Then(s0, r, Attempt(SkipSpool));
    r := r + [Attempt(SkipSpool)];
    r := PublishOne(s0, r, Outcome(s0, r), key, 0);
    r := HalfPrune(s0, r, Outcome(s0, r));
  }

  /** Once a batch's rows are deleted and the second half of the prune fails, no
      later attempt in this process gets anywhere: the head can only fail. */
  lemma HalfPruneWedges(s: State, step: Step)
    requires Sound(s) && Keyed(s) && HeadGone(s) && Stage(s).Resting? && CanStep(s, step)
    ensures step.Fail?
    ensures var t := NextStep(s, step); Keyed(t) && HeadGone(t) && Stage(t).Resting?
  {
    hide Ids, Seals, Counted, Held, Faithful, Flat;
    assert Head(s).ids != [];
    assert Head(s).ids[0] in Head(s).ids;
  }

  /** A restart ends it: nothing sealed is left to replay. */
  lemma WedgeEndsAtRestart(s: State, jobs: seq<Job>, tail: seq<nat>)
    requires Sound(s) && Keyed(s) && HeadGone(s) && Scan(s.(owner := NoOne), jobs, tail)
    ensures jobs == []
  {
    hide Ids, Counted, Held, Faithful, Flat, Ascends, Scan;
    var t := s.(owner := NoOne);
    NoneSealedLive(s, t);
    JobsAreSealed(t, jobs, tail);
  }

  lemma NoneSealedLive(s: State, t: State)
    requires Queue(s) && Keyed(s) && HeadGone(s) && t == s.(owner := NoOne)
    ensures forall i, key :: !SealedAs(t, i, key)
  {
    hide Flat, Ascends;
    WaitingSplits(s.owner.w);
    assert forall i | Live(s, i) :: i in Rest(s.owner.w);
    assert forall i, key :: SealedAs(t, i, key) == SealedAs(s, i, key);
  }

  lemma JobsAreSealed(s: State, jobs: seq<Job>, tail: seq<nat>)
    requires Scan(s, jobs, tail)
    ensures jobs != [] ==> jobs[0].key.Some? && exists i :: SealedAs(s, i, jobs[0].key.value)
  {
    if jobs != [] {
      FirstIsIn(jobs[0].ids);
    }
  }
}
