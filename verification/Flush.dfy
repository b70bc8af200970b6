/** One flush worker at work, over the stores it changes: internal/flush/flush.go and
    the attempt cycle of internal/flush/worker.go. `Valid` says that the worker and its
    stores are where a legal run of Protocol.dfy has brought them, so everything proved
    of reachable states holds of them. */
module Flush {
  import opened Bytes
  import opened Record
  import opened BatchKey
  import opened Remap
  import opened Protocol
  import opened Structure
  import opened Safety
  import opened Contents
  import opened ExactlyOnce

  /** Which failures a retry could help: flush.go's failureKind. */
  datatype FailureKind = NoFailure | Encode | Transient

  /** What a whole cycle did: worker.go's result. */
  datatype Ended = Committed | Isolated | Failed(report: bool)

  /** How the calls of one attempt go, and of what follows it; and whether a shutdown is
      seen after the attempt, or in the pause before the next. */
  datatype World = World(
    read: Reply,
    seal: Reply,
    ask: Reply,
    rename: Reply,
    record: Reply,
    upload: Reply,
    commit: Reply,
    reload: Reply,
    mark: Reply,
    delete: Reply,
    drop: Reply,
    isolate: Reply,
    stopping: bool,
    interrupted: bool)

  function Budget(maxAttempts: int): nat { if maxAttempts < 1 then 1 else maxAttempts }

  method RenderRow(r: Row, to: Declared) returns (x: Result<seq<Value>>)
    ensures x == Render(r, to)
  {
    x := Record.Decode(r.shape.fields, r.payload);
    if x.Ok? && r.shape != to {
      x := Remap.Remap(r.shape.fields, to.fields, x.value);
    }
  }

  method RecodeRow(r: Row, to: Declared) returns (x: Result<seq<byte>>)
    ensures x == Recode(r, to)
  {
    if r.shape == to {
      return Ok(r.payload);
    }
    x := Transcode(r.shape.fields, to.fields, r.payload);
  }

  // A sealed batch's rows under the current shape, or the first row's refusal.
  method RenderRows(rows: seq<Row>, to: Declared) returns (x: Result<seq<seq<Value>>>)
    ensures x.Ok? <==> forall k | 0 <= k < |rows| :: Render(rows[k], to).Ok?
    ensures x.Ok? ==> |x.value| == |rows| && forall k | 0 <= k < |rows| :: x.value[k] == Render(rows[k], to).value
  {
    hide Render;
    var out := [];
    for i := 0 to |rows|
      invariant |out| == i && forall k | 0 <= k < i :: Render(rows[k], to) == Ok(out[k])
    {
      var row := RenderRow(rows[i], to);
      if row.Err? {
        return Err(row.error);
      }
      out := out + [row.value];
    }
    return Ok(out);
  }

  // An unsealed batch's payloads under the current shape.
  method RecodeRows(rows: seq<Row>, to: Declared) returns (x: Result<seq<seq<byte>>>)
    ensures x.Ok? <==> forall k | 0 <= k < |rows| :: Recode(rows[k], to).Ok?
    ensures x.Ok? ==> |x.value| == |rows| && forall k | 0 <= k < |rows| :: x.value[k] == Recode(rows[k], to).value
  {
    hide Recode;
    var out := [];
    for i := 0 to |rows|
      invariant |out| == i && forall k | 0 <= k < i :: Recode(rows[k], to) == Ok(out[k])
    {
      var payload := RecodeRow(rows[i], to);
      if payload.Err? {
        return Err(payload.error);
      }
      out := out + [payload.value];
    }
    return Ok(out);
  }

  // The queue after a failed attempt on its head.
  function Tried(queue: seq<Job>): seq<Job>
    requires queue != []
  {
    [queue[0].(attempted := true)] + queue[1..]
  }

  // The state a step leaves, spelled out: what each method below must bring about.
  function Left(s: State, w: Worker): State { s.(owner := Writer(w)) }

  lemma FailStep(s: State)
    requires Working(s)
    ensures Can(s, Attempt(Fail))
    ensures Next(s, Attempt(Fail)) == Left(s, s.owner.w.(queue := Tried(s.owner.w.queue), phase := Resting))
  {
  }

  lemma UploadStep(s: State, file: File, ok: bool)
    requires Keyed(s) && Stage(s) == Written(file) && !s.owner.w.localOnly
    ensures Can(s, Attempt(Upload(ok)))
    ensures Next(s, Attempt(Upload(ok))) ==
            Left(s.(bucket := s.bucket[Key(s) := file]),
                 if ok then s.owner.w.(phase := Uploaded)
                     else s.owner.w.(queue := Tried(s.owner.w.queue), phase := Resting))
  {
  }

  lemma SpoolStep(s: State, file: File, now: int, ok: bool)
    requires Keyed(s) && Stage(s) == Ready(file) && s.owner.w.spooling
    ensures Can(s, Attempt(WriteSpool(now, ok)))
    ensures Next(s, Attempt(WriteSpool(now, ok))) ==
            Left(s.(files := s.files[Key(s) := file], records := if ok then Recorded(s, Key(s), now) else s.records),
                 if ok then s.owner.w.(phase := Written(file))
                     else s.owner.w.(queue := Tried(s.owner.w.queue), phase := Resting))
  {
  }

  lemma CommitStep(s: State, ok: bool, refreshed: bool)
    requires Keyed(s) && Stage(s).Uploaded? && s.owner.w.handle == s.table
    ensures Can(s, Attempt(Commit(ok, refreshed)))
    ensures var t, w := s.table + [Key(s)], s.owner.w;
            Next(s, Attempt(Commit(ok, refreshed))) ==
            Left(s.(table := t),
                 if ok then w.(handle := t, phase := Confirmed)
                 else w.(handle := if refreshed then t else w.handle, queue := Tried(w.queue), phase := Resting))
  {
  }

  lemma ConflictStep(s: State, refreshed: bool)
    requires Keyed(s) && Stage(s).Uploaded?
    ensures Can(s, Attempt(Conflict(refreshed)))
    ensures var w := s.owner.w;
            Next(s, Attempt(Conflict(refreshed))) ==
            Left(s, w.(handle := if refreshed then s.table else w.handle, queue := Tried(w.queue), phase := Resting))
  {
  }

  // A commit reported as failed: it may have landed all the same.
  function FailedCommit(landed: bool, refreshed: bool): Step {
    if landed then Commit(false, refreshed) else Conflict(refreshed)
  }

  lemma FailedCommitStep(s: State, landed: bool, refreshed: bool)
    requires Keyed(s) && Stage(s).Uploaded? && (landed ==> s.owner.w.handle == s.table)
    ensures Can(s, Attempt(FailedCommit(landed, refreshed)))
    ensures var t, w := if landed then s.table + [Key(s)] else s.table, s.owner.w;
            Next(s, Attempt(FailedCommit(landed, refreshed))) ==
            Left(s.(table := t),
                 w.(handle := if refreshed then t else w.handle, queue := Tried(w.queue), phase := Resting))
  {
    hide Can, Next, Left, Tried;
    if landed {
      CommitStep(s, false, refreshed);
    } else {
      ConflictStep(s, refreshed);
      assert s.(table := s.table) == s;
    }
  }

  lemma MarkStep(s: State)
    requires Keyed(s) && Stage(s).Confirmed?
    ensures Can(s, Attempt(Mark))
    ensures Next(s, Attempt(Mark)) ==
            Left(s.(records := if s.owner.w.spooling then Marked(s, Key(s)).records else s.records),
                s.owner.w.(phase := Settled))
  {
  }

  lemma PruneSteps(s: State)
    requires Keyed(s) && Stage(s).Settled?
    ensures Can(s, Attempt(Delete))
    ensures var t := Left(s.(staged := Pruned(s.staged, Head(s).ids)), s.owner.w.(phase := Deleted));
            && Next(s, Attempt(Delete)) == t && Can(t, Attempt(Leave))
            && Next(t, Attempt(Leave)) == Left(t, s.owner.w.(queue := s.owner.w.queue[1..], phase := Resting))
  {
  }

  lemma SkipStep(s: State, file: File)
    requires Keyed(s) && Stage(s) == Ready(file) && !s.owner.w.spooling
    ensures Can(s, Attempt(SkipSpool))
    ensures Next(s, Attempt(SkipSpool)) == Left(s, s.owner.w.(phase := Written(file)))
  {
  }

  lemma KeepStep(s: State)
    requires Keyed(s) && Stage(s).Written? && s.owner.w.localOnly
    ensures Can(s, Attempt(KeepLocal))
    ensures Next(s, Attempt(KeepLocal)) == Left(s, s.owner.w.(phase := Settled))
  {
  }

  // Where preparing a batch leads: on, or straight to a commit already made.
  function Onward(s: State, key: Digest, file: File): Phase
    requires Working(s)
  {
    if Asks(s) && key in s.owner.w.handle then Confirmed else Ready(file)
  }

  lemma RereadStep(s: State)
    requires Keyed(s) && Stage(s).Resting?
    requires forall i | i in Head(s).ids :: i in s.staged && Render(s.staged[i], s.owner.w.shape).Ok?
    ensures Can(s, Attempt(Reread))
    ensures Next(s, Attempt(Reread)) ==
            Left(s, s.owner.w.(phase := Onward(s, Key(s), FileOf(s.staged, Head(s).ids, s.owner.w.shape))))
  {
    hide Render, FileOf;
  }

  lemma SealStep(s: State, key: Digest)
    requires Working(s) && Stage(s).Resting? && Head(s).key.None?
    requires forall i | i in Head(s).ids :: Unsealed(s, i) && Recode(s.staged[i], s.owner.w.shape).Ok?
    requires KeyFor(s.name, s.owner.w.shape, RecodedAll(s.staged, Head(s).ids, s.owner.w.shape)) == Ok(key)
    ensures Can(s, Attempt(Seal(key)))
    ensures var t, w := Next(s, Attempt(Seal(key))), s.owner.w;
            var staged := Stamped(s.staged, Head(s).ids, key, w.shape);
            t == Left(s.(staged := staged, seals := t.seals),
                      w.(queue := [Head(s).(key := Some(key))] + w.queue[1..],
                          phase := Onward(s, key, FileOf(staged, Head(s).ids, w.shape))))
  {
    hide Recode, KeyFor, FileOf, Stamped, RecodedAll;
  }

  lemma QuarantineStep(s: State)
    requires Working(s) && ((Stage(s).Resting? && Unpreparable(s)) || Stage(s).Ready?)
    requires forall i | i in Head(s).ids :: i in s.staged
    requires forall i, j | i in Head(s).ids && i in s.staged && s.staged[i].key.Some? && j in s.staged
             && s.staged[j].key == s.staged[i].key ::
               j in Head(s).ids
    ensures Can(s, Attempt(Step.Quarantine))
    ensures Next(s, Attempt(Step.Quarantine)) ==
            Left(s.(staged := Quarantined(s.staged, Head(s).ids)),
                s.owner.w.(queue := s.owner.w.queue[1..], phase := Resting))
  {
    hide Quarantined, Unpreparable;
  }

  // ------------------------------------------------------- how an attempt must end

  ghost predicate HeadStaged(s: State)
    requires Working(s)
  {
    forall i | i in Head(s).ids :: i in s.staged
  }

  // The head's rows are read, and every one of them has a form under the shape in hand.
  ghost predicate Prepares(s: State, w: World)
    requires Working(s)
  {
    && w.read.Done? && HeadStaged(s) && !Unpreparable(s)
    && (Head(s).key.None? ==> w.seal.Done?) && (Asks(s) ==> w.ask.Done?)
  }

  // The key the head is under once prepared, and the file built of it.
  ghost function KeyOf(s: State): Digest
    requires Working(s) && !Unpreparable(s)
  {
    if Keyed(s) then Key(s)
    else KeyFor(s.name, s.owner.w.shape, RecodedAll(s.staged, Head(s).ids, s.owner.w.shape)).value
  }

  ghost function Built(s: State): File
    requires Working(s) && !Unpreparable(s)
  {
    var ids, to := Head(s).ids, s.owner.w.shape;
    FileOf(if Keyed(s) then s.staged else Stamped(s.staged, ids, KeyOf(s), to), ids, to)
  }

  // A batch tried before, whose file the table in hand has.
  ghost predicate Recognised(s: State)
    requires Working(s) && !Unpreparable(s)
  {
    Asks(s) && KeyOf(s) in s.owner.w.handle
  }

  /** The batch's own content is at fault: a retry would only repeat it. */
  ghost predicate Spoiled(s: State, w: World, encodes: File -> bool)
    requires Working(s)
  {
    && w.read.Done? && HeadStaged(s)
    && (Unpreparable(s) || (Prepares(s, w) && !Recognised(s) && !encodes(Built(s))))
  }

  ghost predicate Publishes(s: State, w: World)
    requires Working(s)
  {
    && (s.owner.w.spooling ==> w.rename.Done? && w.record.Done?)
    && (!s.owner.w.localOnly ==> w.upload.Done? && w.commit.Done? && s.owner.w.handle == s.table)
  }

  // Nothing the attempt asks for goes wrong, and the table in hand is not out of date.
  ghost predicate Succeeds(s: State, w: World, encodes: File -> bool)
    requires Working(s)
  {
    && Prepares(s, w) && (Recognised(s) || (encodes(Built(s)) && Publishes(s, w)))
    && (s.owner.w.spooling && !s.owner.w.localOnly ==> w.mark.Done?) && w.delete.Done? && w.drop.Done?
  }

  class FlushWorker {
    const name: TableId
    const localOnly: bool
    const spooling: bool
    const shape: Declared

    // Which data files the encoder takes: a matter of the file alone.
    const encodes: File -> bool

    // The stores.
    var nextId: nat
    var staged: map<nat, Row>
    var bucket: map<Digest, File>
    var table: seq<Digest>
    var files: map<Digest, File>
    var records: map<Digest, Entry>

    // The process's memory.
    var handle: seq<Digest>
    var queue: seq<Job>
    var batch: seq<nat>

    // The state the run so far has reached, history included.
    ghost var model: State
    ghost var past: seq<Event>

    ghost predicate Ran()
      reads this`model, this`past
    {
      Legal(Initial(name), past) && Outcome(Initial(name), past) == model && model.owner.Writer?
    }

    ghost predicate Valid()
      reads this
    {
      && Ran() && model.owner.Writer?
      && model.name == name && model.nextId == nextId && model.staged == staged && model.bucket == bucket
      && model.table == table && model.files == files && model.records == records
      && var w := model.owner.w;
         && w.localOnly == localOnly && w.spooling == spooling && w.shape == shape
         && w.handle == handle && w.queue == queue && w.batch == batch
    }

    /** The writer opens on what a run so far has left in the stores. */
    constructor (ghost past: seq<Event>, s: State, localOnly: bool, spooling: bool, shape: Declared, jobs: seq<Job>,
        tail: seq<nat>, encodes: File -> bool)
      requires Legal(Initial(s.name), past) && Outcome(Initial(s.name), past) == s
      requires CanOpen(s, localOnly, spooling, shape, jobs, tail)
      ensures Valid() && model == AfterOpen(s, localOnly, spooling, shape, jobs, tail) && this.encodes == encodes
    {
      this.encodes := encodes;
      name, this.localOnly, this.spooling, this.shape := s.name, localOnly, spooling, shape;
      nextId, staged, bucket, table, files, records := s.nextId, s.staged, s.bucket, s.table, s.files, s.records;
      handle, queue, batch := if localOnly then [] else s.table, jobs, tail;
      model := AfterOpen(s, localOnly, spooling, shape, jobs, tail);
      this.past := past + [Open(localOnly, spooling, shape, jobs, tail)];
      new;
      hide CanOpen, Legal, Outcome;
      Then(Initial(s.name), past, Open(localOnly, spooling, shape, jobs, tail));
    }

    ghost function Now(): Phase
      reads this`model
      requires model.owner.Writer?
    {
      model.owner.w.phase
    }

    // The run so far, one step longer.
    ghost method Note(step: Step)
      requires Ran() && Can(model, Attempt(step)) && Next(model, Attempt(step)).owner.Writer?
      modifies this`model, this`past
      ensures Ran() && model == Next(old(model), Attempt(step)) && old(past) <= past
    {
      hide Can, Next, Legal, Outcome, Initial;
      Then(Initial(name), past, Attempt(step));
      model := Next(model, Attempt(step));
      past := past + [Attempt(step)];
    }

    // The attempt failed: the job keeps its place and remembers the attempt.
    method GiveUp()
      requires Valid() && queue != []
      modifies this`queue, this`model, this`past
      ensures Valid() && old(past) <= past && model.accepted == old(model.accepted)
      ensures Now() == Resting && queue == Tried(old(queue))
    {
      hide Ran, Can, Next;
      queue := Tried(queue);
      FailStep(model);
      Note(Fail);
    }

    /** Reads rows back by id; a row that is gone fails the whole read. */
    method Rows(ids: seq<nat>, read: Reply) returns (rows: Option<seq<Row>>)
      ensures rows.Some? <==> read.Done? && forall i | i in ids :: i in staged
      ensures rows.Some? ==> |rows.value| == |ids|
      ensures rows.Some? ==> forall k | 0 <= k < |ids| :: ids[k] in staged && rows.value[k] == staged[ids[k]]
    {
      if !read.Done? {
        return None;
      }
      var out := [];
      for i := 0 to |ids|
        invariant |out| == i && forall k | 0 <= k < i :: ids[k] in staged && out[k] == staged[ids[k]]
      {
        if ids[i] !in staged {
          return None;
        }
        out := out + [staged[ids[i]]];
      }
      return Some(out);
    }

    /** Stages a data file on the table in hand and commits: a compare-and-swap that
        may take effect and still report failure. */
    method AddFile(key: Digest, commit: Reply) returns (ok: bool)
      modifies this`table
      ensures ok <==> handle == old(table) && commit.Done?
      ensures table == if handle == old(table) && !commit.Refused? then old(table) + [key] else old(table)
    {
      if handle != table || commit.Refused? {
        return false;
      }
      table := table + [key];
      return commit.Done?;
    }

    // Reloads the handle, ignoring a failure to.
    method Refresh(reload: Reply)
      modifies this`handle
      ensures handle == if reload.Done? then table else old(handle)
    {
      if reload.Done? {
        handle := table;
      }
    }

    /** Commits the uploaded file. Any failure refreshes the handle, best effort. */
    method Commit(commit: Reply, reload: Reply) returns (ok: bool)
      requires Valid() && queue != [] && queue[0].key.Some? && Now().Uploaded?
      modifies this`table, this`handle, this`queue, this`model, this`past
      ensures Valid() && old(past) <= past && model.accepted == old(model.accepted)
      ensures ok <==> old(handle) == old(table) && commit.Done?
      ensures ok ==> Now() == Confirmed && queue == old(queue)
      ensures ok ==> table == old(table) + [queue[0].key.value] && handle == table
      ensures !ok ==> Now() == Resting && queue == Tried(old(queue))
      ensures !ok ==> table == if old(handle) == old(table) && commit.Lost?
                                then old(table) + [queue[0].key.value] else old(table)
      ensures !ok ==> handle == if reload.Done? then table else old(handle)
    {
      hide Ran, Can, Next, FailedCommit;
      ok := AddFile(queue[0].key.value, commit);
      if ok {
        handle := table;
        CommitStep(model, true, true);
        Note(Step.Commit(true, true));
        return;
      }
      ghost var landed := table != old(table);
      Refresh(reload);
      queue := Tried(queue);
      FailedCommitStep(model, landed, reload.Done?);
      Note(FailedCommit(landed, reload.Done?));
    }

    // Puts the object under its key, over whatever an earlier attempt left there.
    method Upload(file: File, upload: Reply) returns (ok: bool)
      requires Valid() && queue != [] && queue[0].key.Some? && Now() == Written(file) && !localOnly
      modifies this`bucket, this`queue, this`model, this`past
      ensures Valid() && old(past) <= past && model.accepted == old(model.accepted)
      ensures ok == upload.Done?
      ensures bucket == if upload.Refused? then old(bucket) else old(bucket)[old(queue)[0].key.value := file]
      ensures ok ==> Now() == Uploaded && queue == old(queue)
      ensures !ok ==> Now() == Resting && queue == Tried(old(queue))
    {
      hide Ran, Can, Next;
      if upload.Refused? {
        GiveUp();
        return false;
      }
      bucket := bucket[queue[0].key.value := file];
      ok := upload.Done?;
      if !ok {
        queue := Tried(queue);
      }
      UploadStep(model, file, ok);
      Note(Step.Upload(ok));
    }

    // File first, record second; a rewrite keeps the first stamp and any mark.
    method WriteSpool(file: File, now: int, rename: Reply, record: Reply) returns (ok: bool)
      requires Valid() && queue != [] && queue[0].key.Some? && Now() == Ready(file) && spooling
      modifies this`files, this`records, this`queue, this`model, this`past
      ensures Valid() && old(past) <= past && model.accepted == old(model.accepted)
      ensures ok == (rename.Done? && record.Done?)
      ensures files == if rename.Refused? then old(files) else old(files)[old(queue)[0].key.value := file]
      ensures ok ==> Now() == Written(file) && queue == old(queue)
      ensures ok ==> var key := queue[0].key.value;
                     records == if key in old(records) then old(records) else old(records)[key := Entry(now, false)]
      ensures !ok ==> Now() == Resting && queue == Tried(old(queue)) && records == old(records)
    {
      hide Ran, Can, Next;
      if rename.Refused? {
        GiveUp();
        return false;
      }
      var key := queue[0].key.value;
      files := files[key := file];
      ok := rename.Done? && record.Done?;
      if ok {
        if key !in records {
          records := records[key := Entry(now, false)];
        }
      } else {
        queue := Tried(queue);
      }
      SpoolStep(model, file, now, ok);
      Note(Step.WriteSpool(now, ok));
    }

    // Records that the batch's file is committed, where there is a spool.
    method MarkSpooled(mark: Reply) returns (ok: bool)
      requires Valid() && queue != [] && queue[0].key.Some? && Now().Confirmed?
      modifies this`records, this`queue, this`model, this`past
      ensures Valid() && old(past) <= past && model.accepted == old(model.accepted)
      ensures ok == (spooling ==> mark.Done?)
      ensures ok ==> Now() == Settled && queue == old(queue)
      ensures ok ==> var key := queue[0].key.value;
                     records == if spooling && key in old(records)
                                then old(records)[key := old(records)[key].(committed := true)] else old(records)
      ensures !ok ==> Now() == Resting && queue == Tried(old(queue)) && records == old(records)
    {
      hide Ran, Can, Next;
      if spooling {
        if !mark.Done? {
          GiveUp();
          return false;
        }
        var key := queue[0].key.value;
        if key in records {
          records := records[key := records[key].(committed := true)];
        }
      }
      MarkStep(model);
      Note(Mark);
      return true;
    }

    /** Deletes the batch's rows, then drops the descriptors nothing names any more.
        When the second call fails the rows are gone and the job is not. */
    method Prune(delete: Reply, drop: Reply) returns (ok: bool)
      requires Valid() && queue != [] && queue[0].key.Some? && Now().Settled?
      modifies this`staged, this`queue, this`model, this`past
      ensures Valid() && old(past) <= past && model.accepted == old(model.accepted)
      ensures ok == (delete.Done? && drop.Done?)
      ensures staged == if delete.Done? then Pruned(old(staged), old(queue)[0].ids) else old(staged)
      ensures ok ==> Now() == Resting && queue == old(queue)[1..]
      ensures !ok ==> Now() == Resting && queue == Tried(old(queue))
    {
      hide Ran, Can, Next, Pruned;
      if !delete.Done? {
        GiveUp();
        return false;
      }
      PruneSteps(model);
      staged := Pruned(staged, queue[0].ids);
      Note(Delete);
      if !drop.Done? {
        GiveUp();
        return false;
      }
      queue := queue[1..];
      Note(Leave);
      return true;
    }

    /** Stamps the key on exactly these rows, in one transaction: a row already
        sealed or quarantined refuses it all. */
    method SealRows(ids: seq<nat>, key: Digest, payloads: seq<seq<byte>>, seal: Reply) returns (ok: bool)
      requires |payloads| == |ids| && forall k | 0 <= k < |ids| :: payloads[k] == Recoded(staged, ids[k], shape)
      modifies this`staged
      ensures ok <==> seal.Done? && Sealable(old(staged), ids)
      ensures staged == if ok then Stamped(old(staged), ids, key, shape) else old(staged)
    {
      hide Recoded, Sealable;
      if !seal.Done? {
        return false;
      }
      var t := staged;
      assert Sealable(staged, ids[..0]) by { NoneSealable(staged); }
      for k := 0 to |ids|
        invariant staged == old(staged) && Sealable(staged, ids[..k])
        invariant t.Keys == staged.Keys
        invariant forall i | i in ids[..k] :: i in t && t[i] == Row(shape, Recoded(staged, i, shape), Some(key), false)
        invariant forall i | i in staged && i !in ids[..k] :: t[i] == staged[i]
      {
        var i := ids[k];
        if i !in t || t[i].key.Some? || t[i].quarantined {
          Unsealable(staged, t, ids, k);
          return false;
        }
        SealableGrows(staged, t, ids, k);
        assert ids[..k + 1] == ids[..k] + [i];
        t := t[i := Row(shape, payloads[k], Some(key), false)];
      }
      assert ids[..|ids|] == ids;
      assert t == Stamped(staged, ids, key, shape);
      staged := t;
      return true;
    }

    /** Marks a whole batch, or none of it: a row that is gone refuses it all, and so
        does a row under the same key that is not of the batch. */
    method QuarantineRows(ids: seq<nat>, isolate: Reply) returns (ok: bool)
      modifies this`staged
      ensures ok <==> isolate.Done? && Markable(old(staged), ids)
      ensures staged == if ok then Quarantined(old(staged), ids) else old(staged)
      ensures ok ==> Markable(staged, ids) && forall i | i in ids :: i in staged && staged[i].quarantined
    {
      if !isolate.Done? {
        return false;
      }
      for k := 0 to |ids|
        invariant forall j | 0 <= j < k :: ids[j] in staged
        invariant forall l, j | 0 <= l < k && j in staged && staged[ids[l]].key.Some?
                  && staged[j].key == staged[ids[l]].key :: j in ids
      {
        var i := ids[k];
        if i !in staged {
          return false;
        }
        if staged[i].key.Some? && exists j | j in staged :: staged[j].key == staged[i].key && j !in ids {
          assert i in ids;
          return false;
        }
      }
      staged := Quarantined(staged, ids);
      return true;
    }

    /** Takes a batch that cannot be encoded out of the queue, marked. If it cannot be
        marked it keeps its place. */
    method Quarantine(isolate: Reply) returns (ok: bool)
      requires Valid() && queue != [] && ((Now().Resting? && Unpreparable(model)) || Now().Ready?)
      modifies this`staged, this`queue, this`model, this`past
      ensures Valid() && old(past) <= past && Now() == Resting
      ensures ok <==> isolate.Done? && !old(Split(model))
      ensures ok ==> queue == old(queue)[1..] && staged == Quarantined(old(staged), old(queue)[0].ids)
      ensures ok ==> var ids := old(queue)[0].ids;
                     Markable(staged, ids) && forall i | i in ids :: i in staged && staged[i].quarantined
      ensures !ok ==> queue == Tried(old(queue)) && staged == old(staged)
      ensures !ok && isolate.Done? ==> Split(model)
    {
      hide Ran, Can, Next, Quarantined, Unpreparable, Sound;
      IsSound();
      MarkableIff(model);
      ok := QuarantineRows(queue[0].ids, isolate);
      if !ok {
        GiveUp();
        return;
      }
      queue := queue[1..];
      QuarantineStep(model);
      Note(Step.Quarantine);
    }

    // The same job at the head, and the same jobs behind it.
    twostate predicate SameHead()
      reads this`queue
    {
      && old(queue) != [] && queue != []
      && queue[0].ids == old(queue[0].ids) && queue[1..] == old(queue[1..])
    }

    // A sealed batch keeps its key; its rows are decoded under their own shapes.
    method Reprepare(read: Reply) returns (kind: FailureKind, file: File)
      requires Valid() && queue != [] && Now().Resting? && queue[0].key.Some?
      modifies this`queue, this`model, this`past
      ensures Valid() && old(past) <= past && model.accepted == old(model.accepted) && SameHead()
      ensures kind.Transient? <==> !read.Done? || !old(HeadStaged(model))
      ensures kind.Encode? <==> read.Done? && old(HeadStaged(model) && Unpreparable(model))
      ensures kind.NoFailure? ==> queue == old(queue) && Now() == Onward(old(model), queue[0].key.value, file)
      ensures kind.NoFailure? ==> old(!Unpreparable(model)) && file == old(Built(model))
      ensures kind.NoFailure? ==> forall i | i in queue[0].ids :: i in staged
      ensures kind.Transient? ==> Now() == Resting && queue == Tried(old(queue))
      ensures kind.Encode? ==> Now() == Resting && queue == old(queue) && Unpreparable(model)
    {
      hide Ran, Can, Next, Render;
      file := File(shape, []);
      var ids := queue[0].ids;
      var rows := Rows(ids, read);
      if rows.None? {
        GiveUp();
        return Transient, file;
      }
      var out := RenderRows(rows.value, shape);
      if out.Err? {
        return Encode, file;
      }
      file := File(shape, out.value);
      forall k | 0 <= k < |ids|
        ensures ids[k] in staged && Render(staged[ids[k]], shape) == Ok(out.value[k])
      {
        assert rows.value[k] == staged[ids[k]];
      }
      FileIs(staged, ids, shape, file);
      RereadStep(model);
      Note(Reread);
      return NoFailure, file;
    }

    // An unsealed batch is brought to one shape, hashed, sealed, and decoded again.
    method SealHead(read: Reply, seal: Reply) returns (kind: FailureKind, file: File)
      requires Valid() && queue != [] && Now().Resting? && queue[0].key.None? && Sound(model)
      modifies this`staged, this`queue, this`model, this`past
      ensures Valid() && old(past) <= past && model.accepted == old(model.accepted) && SameHead()
      ensures old(HeadStaged(model))
      ensures kind.Encode? <==> read.Done? && old(Unpreparable(model))
      ensures kind.NoFailure? <==> read.Done? && old(!Unpreparable(model)) && seal.Done?
      ensures kind.NoFailure? ==> queue[0] == old(queue)[0].(key := queue[0].key) && queue[0].key.Some?
      ensures kind.NoFailure? ==> queue[0].key.value == old(KeyOf(model)) && file == old(Built(model))
      ensures kind.NoFailure? ==> Now() == Onward(old(model), queue[0].key.value, file)
      ensures kind.NoFailure? ==> forall i | i in queue[0].ids :: i in staged
      ensures kind.Transient? ==> Now() == Resting && queue == Tried(old(queue))
      ensures kind.Encode? ==> Now() == Resting && queue == old(queue) && Unpreparable(model)
    {
      hide Ran, Can, Next, Recode, Render, Sound, BatchHashSpec, Stamped;
      file := File(shape, []);
      var ids := queue[0].ids;
      HeadIsHere(model);
      var rows := Rows(ids, read);
      if rows.None? {
        GiveUp();
        return Transient, file;
      }
      var payloads := RecodeRows(rows.value, shape);
      if payloads.Err? {
        return Encode, file;
      }
      assert forall k | 0 <= k < |ids| :: rows.value[k] == staged[ids[k]];
      RecodedIs(staged, ids, shape, payloads.value);
      if |payloads.value| >= TWO_63 {
        return Encode, file;
      }
      var key := BatchHash(name.namespace, name.name, shape, payloads.value);
      if key.Err? {
        return Encode, file;
      }
      kind, file := SealAs(key.value, payloads.value, seal);
    }

    // The seal's transaction, and the rows it leaves, decoded.
    method SealAs(key: Digest, payloads: seq<seq<byte>>, seal: Reply) returns (kind: FailureKind, file: File)
      requires Valid() && queue != [] && Now().Resting? && queue[0].key.None? && Sound(model)
      requires payloads == RecodedAll(staged, queue[0].ids, shape) && KeyFor(name, shape, payloads) == Ok(key)
      requires forall i | i in queue[0].ids :: i in staged && Recode(staged[i], shape).Ok?
      modifies this`staged, this`queue, this`model, this`past
      ensures Valid() && old(past) <= past && model.accepted == old(model.accepted) && SameHead()
      ensures kind.NoFailure? <==> seal.Done?
      ensures kind.NoFailure? ==> var ids := queue[0].ids;
                                  file == FileOf(Stamped(old(staged), ids, key, shape), ids, shape)
      ensures kind.NoFailure? ==> queue[0] == old(queue)[0].(key := Some(key)) && Now() == Onward(old(model), key, file)
      ensures kind.NoFailure? ==> forall i | i in queue[0].ids :: i in staged
      ensures kind.Transient? ==> Now() == Resting && queue == Tried(old(queue))
      ensures !kind.Encode?
    {
      hide Ran, Can, Next, Recode, Recoded, Render, Sound, KeyFor, Stamped;
      var ids := queue[0].ids;
      HeadIsHere(model);
      var ok := SealRows(ids, key, payloads, seal);
      if !ok {
        GiveUp();
        return Transient, File(shape, []);
      }
      SealRenders(model, key, payloads);
      var out := RenderRows(StampedRows(payloads, key), shape);
      file := File(shape, out.value);
      FileIs(staged, ids, shape, file);
      SealStep(model, key);
      queue := [queue[0].(key := Some(key))] + queue[1..];
      Note(Seal(key));
      return NoFailure, file;
    }

    function StampedRows(payloads: seq<seq<byte>>, key: Digest): (rows: seq<Row>)
      ensures |rows| == |payloads| && forall k | 0 <= k < |payloads| ::
              rows[k] == Row(shape, payloads[k], Some(key), false)
    {
      seq(|payloads|, k requires 0 <= k < |payloads| => Row(shape, payloads[k], Some(key), false))
    }

    // The batch's key and rows, and whether its file is in the table already: asked
    // only of a batch this process or an earlier one has tried before.
    method Prepare(w: World) returns (kind: FailureKind, done: bool, file: File)
      requires Valid() && queue != [] && Now().Resting?
      modifies this`staged, this`queue, this`model, this`past
      ensures Valid() && old(past) <= past && model.accepted == old(model.accepted) && SameHead()
      ensures kind.Encode? <==> w.read.Done? && old(HeadStaged(model) && Unpreparable(model))
      ensures kind.NoFailure? <==> old(Prepares(model, w))
      ensures kind.NoFailure? ==> queue[0].key == Some(old(KeyOf(model))) && file == old(Built(model))
      ensures kind.NoFailure? ==> (done <==> old(Recognised(model)))
      ensures kind.NoFailure? ==> queue[0].key.Some? && Now() == if done then Confirmed else Ready(file)
      ensures kind.NoFailure? ==> forall i | i in queue[0].ids :: i in staged
      ensures kind.Transient? ==> Now() == Resting && queue[0].attempted
      ensures kind.Encode? ==> Now() == Resting && Unpreparable(model)
    {
      hide Ran, Can, Next, Sound;
      done := false;
      if queue[0].key.Some? {
        kind, file := Reprepare(w.read);
      } else {
        IsSound();
        kind, file := SealHead(w.read, w.seal);
      }
      if kind.NoFailure? && !localOnly && (queue[0].attempted || queue[0].replayed) {
        if !w.ask.Done? {
          GiveUp();
          return Transient, false, file;
        }
        done := queue[0].key.value in handle;
      }
    }

    // Everything proved of reachable states is true of this one.
    lemma IsSound()
      requires Valid()
      ensures Reachable(model) && Sound(model)
    {
      hide Legal, Outcome, Sound;
      ReachableSound(model);
    }

    // A confirmed batch: its file may be evicted, then its rows leave.
    method Retire(w: World) returns (kind: FailureKind)
      requires Valid() && queue != [] && queue[0].key.Some? && Now().Confirmed?
      modifies this`staged, this`records, this`queue, this`model, this`past
      ensures Valid() && old(past) <= past && model.accepted == old(model.accepted) && Now() == Resting
      ensures kind.NoFailure? <==> (spooling ==> w.mark.Done?) && w.delete.Done? && w.drop.Done?
      ensures kind.NoFailure? ==> queue == old(queue)[1..] && staged == Pruned(old(staged), old(queue)[0].ids)
      ensures !kind.NoFailure? ==> kind.Transient? && SameHead() && queue[0].attempted
    {
      hide Ran, Can, Next, Pruned;
      var ok := MarkSpooled(w.mark);
      if ok {
        ok := Prune(w.delete, w.drop);
      }
      kind := if ok then NoFailure else Transient;
    }

    // The spool's copy, where there is a spool.
    method Spool(file: File, now: int, w: World) returns (ok: bool)
      requires Valid() && queue != [] && queue[0].key.Some? && Now() == Ready(file)
      modifies this`files, this`records, this`queue, this`model, this`past
      ensures Valid() && old(past) <= past && model.accepted == old(model.accepted)
      ensures ok <==> (spooling ==> w.rename.Done? && w.record.Done?)
      ensures ok ==> Now() == Written(file) && queue == old(queue) && (localOnly ==> spooling)
      ensures ok && spooling ==> queue[0].key.value in records && queue[0].key.value in files
      ensures !ok ==> Now() == Resting && queue == Tried(old(queue))
    {
      hide Ran, Can, Next, Sound;
      IsSound();
      LocalSpools(model);
      if spooling {
        ok := WriteSpool(file, now, w.rename, w.record);
      } else {
        SkipStep(model, file);
        Note(SkipSpool);
        ok := true;
      }
    }

    // The object, then the commit that makes it visible.
    method Send(file: File, w: World) returns (ok: bool)
      requires Valid() && queue != [] && queue[0].key.Some? && Now() == Written(file) && !localOnly
      modifies this`bucket, this`table, this`handle, this`queue, this`model, this`past
      ensures Valid() && old(past) <= past && model.accepted == old(model.accepted)
      ensures ok <==> w.upload.Done? && w.commit.Done? && old(handle) == old(table)
      ensures ok ==> queue == old(queue) && Now() == Confirmed && queue[0].key.value in table
      ensures !ok ==> SameHead() && queue[0].attempted && Now() == Resting
    {
      hide Valid;
      ok := Upload(file, w.upload);
      if ok {
        ok := Commit(w.commit, w.reload);
      }
    }

    // From a file in hand to a confirmed commit, or in local-only mode to a spool
    // file that is all the durability there is.
    method Publish(file: File, now: int, w: World) returns (kind: FailureKind)
      requires Valid() && queue != [] && queue[0].key.Some? && Now() == Ready(file)
      modifies this
      ensures Valid() && old(past) <= past && model.accepted == old(model.accepted) && staged == old(staged)
      ensures kind.NoFailure? <==> old(Publishes(model, w))
      ensures kind.NoFailure? ==> queue == old(queue) && Now() == if localOnly then Settled else Confirmed
      ensures kind.NoFailure? && !localOnly ==> queue[0].key.value in table
      ensures kind.NoFailure? && spooling ==> queue[0].key.value in records && queue[0].key.value in files
      ensures !kind.NoFailure? ==> kind.Transient? && SameHead() && queue[0].attempted && Now() == Resting
    {
      hide Ran, Can, Next, Sound;
      var ok := Spool(file, now, w);
      if !ok {
        return Transient;
      }
      if localOnly {
        KeepStep(model);
        Note(KeepLocal);
        return NoFailure;
      }
      ok := Send(file, w);
      kind := if ok then NoFailure else Transient;
    }

    /** One attempt at the head of the queue. When it reports no failure, the batch has
        left the queue and staging, and every one of its records is in a file the
        table references or in an uncommitted spool file. It blames the batch's content
        exactly when that is at fault, and reports no failure exactly when the content
        is sound, every call it makes is done and its table is up to date. */
    method Process(now: int, w: World) returns (kind: FailureKind)
      requires Valid() && queue != [] && Now().Resting?
      modifies this
      ensures Valid() && old(past) <= past
      ensures kind.Encode? <==> old(Spoiled(model, w, encodes))
      ensures kind.NoFailure? <==> old(Succeeds(model, w, encodes))
      ensures kind.NoFailure? ==> queue == old(queue)[1..] && Now() == Resting
      ensures kind.NoFailure? ==> forall i | i in old(queue)[0].ids ::
                i !in staged && exists q, k :: Delivered(model, q, k) && model.seals[q].ids[k] == i
      ensures !kind.NoFailure? ==> SameHead()
      ensures kind.Transient? ==> Now() == Resting && queue[0].attempted
      ensures kind.Encode? ==> (Now().Resting? && Unpreparable(model)) || Now().Ready?
    {
      hide Ran, Can, Next, Sound, Delivers, Pruned, Reachable;
      var done, file;
      kind, done, file := Prepare(w);
      if !kind.NoFailure? {
        return;
      }
      ghost var ids := queue[0].ids;
      IsSound();
      Known(model, ids);
      if !done {
        if !encodes(file) {
          return Encode;
        }
        kind := Publish(file, now, w);
        if !kind.NoFailure? {
          return;
        }
        if localOnly {
          var ok := Prune(w.delete, w.drop);
          if !ok {
            return Transient;
          }
          IsSound();
          LeftSafe(model, ids, staged);
          return;
        }
      }
      kind := Retire(w);
      if kind.NoFailure? {
        IsSound();
        LeftSafe(model, ids, staged);
      }
    }

    /** One cycle: attempts up to the budget, the k-th under `world(k)`, stopped early by a
        batch that can never be encoded or by a shutdown, looked for after every attempt
        and in every pause. Whatever happens, a batch that has not left the queue is still
        its head. A batch that cannot be encoded is isolated, unless the marking fails or
        an equal batch was isolated before it. A failure is reported exactly when it
        outlasted the budget, or is of a batch that cannot be encoded; one a shutdown cut
        short is not. `last` is what the last attempt met, `cut` whether a shutdown was
        seen after it. */
    method Cycle(maxAttempts: int, now: int, world: nat -> World)
      returns (ended: Ended, attempts: nat, last: FailureKind, cut: bool)
      requires Valid() && queue != [] && Now().Resting?
      modifies this
      ensures Valid() && old(past) <= past && Now() == Resting && 1 <= attempts
      ensures attempts <= if maxAttempts < 1 then 1 else maxAttempts
      ensures ended.Committed? ==> queue == old(queue)[1..] && forall i | i in old(queue)[0].ids ::
                i !in staged && exists q, k :: Delivered(model, q, k) && model.seals[q].ids[k] == i
      ensures ended.Isolated? ==>
                queue == old(queue)[1..] && forall i | i in old(queue)[0].ids :: i in staged && staged[i].quarantined
      ensures ended.Failed? ==> SameHead() && queue[0].attempted
      ensures ended.Committed? <==> last.NoFailure?
      ensures ended.Isolated? ==> last.Encode?
      ensures ended.Isolated? ==> world(attempts).isolate.Done? && Markable(staged, old(queue)[0].ids)
      ensures ended.Failed? && last.Encode? ==> !world(attempts).isolate.Done? || Split(model)
      ensures old(Spoiled(model, world(1), encodes)) ==> last.Encode? && attempts == 1
      ensures old(Succeeds(model, world(1), encodes)) ==> last.NoFailure? && attempts == 1
      ensures cut <==> last.Transient? && (world(attempts).stopping ||
                                           (attempts < maxAttempts && world(attempts).interrupted))
      ensures forall k | 1 <= k < attempts :: !world(k).stopping && !world(k).interrupted
      ensures ended.Failed? ==> ended.report == (last.Encode? || !cut)
      ensures ended.Failed? && last.Transient? && !cut ==> attempts == if maxAttempts < 1 then 1 else maxAttempts
    {
      hide Ran, Delivers, Reachable, Unpreparable, Spoiled, Succeeds, Markable;
      attempts, cut := 0, false;
      var budget := Budget(maxAttempts);
      while true
        invariant Valid() && old(past) <= past && Now() == Resting && SameHead() && attempts < budget
        invariant forall k | 1 <= k <= attempts :: !world(k).stopping && !world(k).interrupted
        invariant attempts == 0 ==> model == old(model)
        invariant attempts > 0 ==> !old(Spoiled(model, world(1), encodes) || Succeeds(model, world(1), encodes))
        decreases budget - attempts
      {
        attempts := attempts + 1;
        last := Process(now, world(attempts));
        match last {
          case NoFailure =>
            return Committed, attempts, last, false;
          case Encode =>
            var marked := Quarantine(world(attempts).isolate);
            return if marked then Isolated else Failed(true), attempts, last, false;
          case Transient =>
        }
        if world(attempts).stopping {
          return Failed(false), attempts, last, true;
        }
        if attempts >= budget {
          return Failed(true), attempts, last, false;
        }
        if world(attempts).interrupted {
          return Failed(false), attempts, last, true;
        }
      }
    }
  }

  // What sealing rows needs: each is there, in no batch and not set aside, and none is
  // named twice.
  ghost predicate Sealable(staged: map<nat, Row>, ids: seq<nat>) {
    && (forall i | i in ids :: i in staged && staged[i].key.None? && !staged[i].quarantined)
    && forall j, k | 0 <= j < k < |ids| :: ids[j] != ids[k]
  }

  lemma NoneSealable(staged: map<nat, Row>)
    ensures Sealable(staged, [])
  {
  }

  // A row that takes the key is one not named before.
  lemma SealableGrows(staged: map<nat, Row>, t: map<nat, Row>, ids: seq<nat>, k: nat)
    requires k < |ids| && t.Keys == staged.Keys && Sealable(staged, ids[..k])
    requires forall i | i in ids[..k] :: i in t && t[i].key.Some?
    requires forall i | i in staged && i !in ids[..k] :: t[i] == staged[i]
    requires ids[k] in t && t[ids[k]].key.None? && !t[ids[k]].quarantined
    ensures Sealable(staged, ids[..k + 1])
  {
    assert ids[..k + 1] == ids[..k] + [ids[k]];
    assert forall j | 0 <= j < k :: ids[..k][j] in ids[..k];
  }

  // A row that will not take the key, as it was or because it was named before.
  lemma Unsealable(staged: map<nat, Row>, t: map<nat, Row>, ids: seq<nat>, k: nat)
    requires k < |ids| && t.Keys == staged.Keys
    requires forall i | i in staged && i !in ids[..k] :: t[i] == staged[i]
    requires ids[k] !in t || t[ids[k]].key.Some? || t[ids[k]].quarantined
    ensures !Sealable(staged, ids)
  {
    assert ids[k] in ids;
  }

  // What marking a batch needs: its rows are there, and no other row has their key.
  ghost predicate Markable(staged: map<nat, Row>, ids: seq<nat>) {
    && (forall i | i in ids :: i in staged)
    && forall i, j | i in ids && i in staged && staged[i].key.Some? && j in staged && staged[j].key == staged[i].key ::
         j in ids
  }

  // The head's rows are there: all gone, or none of them.
  lemma HeadIsHere(s: State)
    requires Sound(s) && Working(s)
    ensures Head(s).ids != []
    ensures Head(s).key.None? ==> Sealable(s.staged, Head(s).ids)
    ensures Unpreparable(s) ==> forall i | i in Head(s).ids :: i in s.staged
  {
    hide Counted, Held, Faithful, Render, Recode, KeyFor;
    WaitingSplits(s.owner.w);
    assert Ascends(Head(s).ids + Rest(s.owner.w));
    AscendsParts(Head(s).ids, Rest(s.owner.w));
  }

  // A batch that cannot be encoded can be marked unless an equal one was before it.
  lemma MarkableIff(s: State)
    requires Sound(s) && Working(s) && ((Stage(s).Resting? && Unpreparable(s)) || Stage(s).Ready?)
    ensures Markable(s.staged, Head(s).ids) <==> !Split(s)
  {
    hide Counted, Held, Faithful, Render, Recode, KeyFor;
    HeadIsHere(s);
    var ids := Head(s).ids;
    assert HeadHere(s) by { assert ids[0] in ids; }
    if Head(s).key.None? {
      NoneSealed(s);
    }
    forall i | i in s.staged && s.staged[i].key.Some? && !s.staged[i].quarantined
      ensures i in ids && Keyed(s)
    {
      assert SealedAs(s, i, s.staged[i].key.value);
    }
  }

  lemma LocalSpools(s: State)
    requires Sound(s) && s.owner.Writer?
    ensures s.owner.w.localOnly ==> s.owner.w.spooling
  {
    hide Structured, Counted, Stored, Faithful;
  }

  lemma FileIs(staged: map<nat, Row>, ids: seq<nat>, to: Declared, file: File)
    requires file.shape == to && |file.rows| == |ids|
    requires forall k | 0 <= k < |ids| :: ids[k] in staged && Render(staged[ids[k]], to) == Ok(file.rows[k])
    ensures file == FileOf(staged, ids, to)
    ensures forall i | i in ids :: i in staged && Render(staged[i], to).Ok?
  {
    hide Render;
    var f := FileOf(staged, ids, to);
    assert forall k | 0 <= k < |ids| :: f.rows[k] == file.rows[k];
    assert f.rows == file.rows;
  }

  lemma RecodedIs(staged: map<nat, Row>, ids: seq<nat>, to: Declared, payloads: seq<seq<byte>>)
    requires |payloads| == |ids|
    requires forall k | 0 <= k < |ids| :: ids[k] in staged && Recode(staged[ids[k]], to) == Ok(payloads[k])
    ensures payloads == RecodedAll(staged, ids, to)
    ensures forall k | 0 <= k < |ids| :: payloads[k] == Recoded(staged, ids[k], to)
    ensures forall i | i in ids :: i in staged && Recode(staged[i], to).Ok?
  {
    hide Recode;
    var ps := RecodedAll(staged, ids, to);
    assert forall k | 0 <= k < |ids| :: ps[k] == payloads[k];
  }

  // A batch just sealed always decodes: the last failure `prepare` allows for
  // cannot happen.
  lemma SealRenders(s: State, key: Digest, payloads: seq<seq<byte>>)
    requires Sound(s) && Working(s) && CanStep(s, Seal(key))
    requires payloads == RecodedAll(s.staged, Head(s).ids, s.owner.w.shape)
    ensures var shape, staged := s.owner.w.shape, Stamped(s.staged, Head(s).ids, key, s.owner.w.shape);
            forall k | 0 <= k < |payloads| ::
              && Head(s).ids[k] in staged && staged[Head(s).ids[k]] == Row(shape, payloads[k], Some(key), false)
              && Render(Row(shape, payloads[k], Some(key), false), shape).Ok?
  {
    hide Structured, Counted, Held, Render, Recode, KeyFor, Recoded;
    SealedDurable(s, key);
    assert forall k | 0 <= k < |payloads| :: Head(s).ids[k] in Head(s).ids;
  }

  lemma Known(s: State, ids: seq<nat>)
    requires Reachable(s) && forall i | i in ids :: i in s.staged
    ensures forall i | i in ids :: i in s.accepted
  {
    hide Reachable, Seals, Queue, Counted, Held, Faithful;
    ReachableSound(s);
  }

  lemma LeftSafe(s: State, ids: seq<nat>, staged: map<nat, Row>)
    requires Reachable(s) && staged == s.staged && (forall i | i in ids :: i in s.accepted && i !in s.staged)
    ensures forall i | i in ids :: exists q, k :: Delivered(s, q, k) && s.seals[q].ids[k] == i
  {
    hide Reachable, Delivers, Safe;
    forall i | i in ids
      ensures exists q, k :: Delivered(s, q, k) && s.seals[q].ids[k] == i
    {
      NothingLost(s, i);
    }
  }
}
