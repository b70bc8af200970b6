/** Exactly once: over every run with crashes, retries, commits that land and
    report failure, failed refreshes, stale handles, drains and changes of mode.

    Two invariants, kept by every event. `Counted` bounds a data file's place in the
    table by its seals, and gives a worker past its check a seal to spend or a handle
    without the file. `Held` says where every accepted record is. */
module Safety {
  import opened Bytes
  import opened BatchKey
  import opened Protocol
  import opened Structure

  function SealCount(seals: seq<Batch>, key: Digest): nat {
    if seals == [] then 0
    else SealCount(seals[..|seals| - 1], key) + if seals[|seals| - 1].key == key then 1 else 0
  }

  function Copies(table: seq<Digest>, key: Digest): nat { multiset(table)[key] }

  predicate InFlight(w: Worker) { !w.localOnly && (w.phase.Ready? || w.phase.Written? || w.phase.Uploaded?) }

  // No data file is in the table more often than its key was sealed.
  ghost predicate Tallied(s: State) {
    && (forall key :: Copies(s.table, key) <= SealCount(s.seals, key))
    && (forall key | key in s.records :: 1 <= SealCount(s.seals, key))
    && (s.owner.Writer? && !s.owner.w.localOnly ==> s.owner.w.handle <= s.table)
    && (s.owner.Drain? ==>
          && (forall key | key in s.owner.todo :: 1 <= SealCount(s.seals, key))
          && (s.owner.at.Loaded? || s.owner.at.Sent? ==> s.owner.at.base == s.table))
  }

  // A worker past its check holds a handle without the file, or a seal not yet spent.
  ghost predicate Spendable(s: State)
    requires Keyed(s)
  {
    Key(s) !in s.owner.w.handle || Copies(s.table, Key(s)) < SealCount(s.seals, Key(s))
  }

  ghost predicate Counted(s: State) {
    && Tallied(s)
    && (Keyed(s) && Stage(s).Resting? ==> Head(s).attempted || Head(s).replayed)
    && (Keyed(s) && InFlight(s.owner.w) ==> Spendable(s))
    && (s.owner.Writer? && s.owner.w.phase.Uploaded? ==> !s.owner.w.localOnly)
  }

  lemma SealCountGrows(seals: seq<Batch>, b: Batch, key: Digest)
    ensures SealCount(seals + [b], key) == SealCount(seals, key) + if b.key == key then 1 else 0
  {
    assert (seals + [b])[..|seals|] == seals;
  }

  lemma HeadIsSealed(s: State)
    requires Structured(s) && Keyed(s)
    ensures 1 <= SealCount(s.seals, Key(s))
  {
    hide Ids, Seals, Flat;
  }

  lemma CopiesAppend(table: seq<Digest>, k: Digest, key: Digest)
    ensures Copies(table + [k], key) == Copies(table, key) + if k == key then 1 else 0
    ensures k !in table ==> Copies(table, k) == 0
  {
  }

  // What the count depends on.
  predicate SameCount(s: State, t: State) {
    t.table == s.table && t.seals == s.seals && t.records.Keys <= s.records.Keys
  }

  lemma {:induction false} CountedAccept(s: State, payloads: seq<seq<byte>>)
    requires Counted(s) && s.owner.Writer?
    ensures Counted(AfterAccept(s, payloads))
    decreases |payloads|
  {
    hide Copies, SealCount;
    if payloads != [] {
      CountedAccept(Added(s, payloads[0]), payloads[1..]);
    }
  }

  lemma TalliedSeal(s: State, t: State, b: Batch)
    requires Tallied(s) && t.table == s.table && t.records == s.records && t.seals == s.seals + [b]
    requires t.owner.Writer? && s.owner.Writer? && t.owner.w.localOnly == s.owner.w.localOnly
             && t.owner.w.handle == s.owner.w.handle
    ensures Tallied(t)
    ensures Copies(s.table, b.key) < SealCount(t.seals, b.key)
  {
    hide Copies, SealCount;
    forall k
      ensures SealCount(t.seals, k) == SealCount(s.seals, k) + if b.key == k then 1 else 0
    {
      SealCountGrows(s.seals, b, k);
    }
  }

  // A sealed batch goes on with a seal not yet spent.
  lemma CountedPrepared(s: State)
    requires Tallied(s) && Keyed(s) && Copies(s.table, Key(s)) < SealCount(s.seals, Key(s))
    ensures Counted(Prepared(s))
  {
    hide Copies, SealCount, FileOf;
  }

  lemma CountedSeal(s: State, key: Digest)
    requires Counted(s) && Working(s) && CanStep(s, Seal(key))
    ensures Counted(Prepared(Sealed(s, key)))
  {
    hide Tallied, Copies, SealCount, Stamped, RecodedAll, Recode, KeyFor, Prepared;
    var t := Sealed(s, key);
    TalliedSeal(s, t, t.seals[|s.seals|]);
    CountedPrepared(t);
  }

  // The job that moves up carries no key.
  lemma CountedPop(s: State, u: State)
    requires Structured(s) && Counted(s) && Working(s) && SameCount(s, u) && u.owner == s.owner
    ensures Counted(Popped(u))
  {
    hide Ids, Seals, Copies, SealCount, Flat, Ascends, Waiting, Rest;
    if Working(Popped(u)) {
      assert Head(Popped(u)) == s.owner.w.queue[1];
    }
  }

  lemma CountedFail(s: State)
    requires Tallied(s) && Working(s)
    ensures Counted(Failed(s))
  {
    hide Copies, SealCount;
  }

  lemma CountedTo(s: State, phase: Phase)
    requires Tallied(s) && Keyed(s) && !phase.Resting? && !(phase.Uploaded? && s.owner.w.localOnly)
    requires !s.owner.w.localOnly && (phase.Ready? || phase.Written? || phase.Uploaded?) ==> Spendable(s)
    ensures Counted(To(s, phase))
  {
    hide Copies, SealCount;
  }

  lemma CountedRefresh(s: State, refreshed: bool)
    requires Tallied(s) && s.owner.Writer?
    ensures Tallied(Refreshed(s, refreshed))
  {
    hide Copies, SealCount;
  }

  lemma CountedCommit(s: State, reported: bool, refreshed: bool)
    requires Structured(s) && Counted(s) && Working(s) && CanStep(s, Commit(reported, refreshed))
    ensures Counted(NextStep(s, Commit(reported, refreshed)))
  {
    hide Structured, Copies, SealCount, To, Failed, Refreshed, Counted;
    var t := s.(table := s.table + [Key(s)]);
    assert Tallied(t) by {
      HeadIsSealed(s);
      assert Spendable(s) by { CommitIsSpendable(s); }
      forall k
        ensures Copies(t.table, k) == Copies(s.table, k) + if Key(s) == k then 1 else 0
      {
        CopiesAppend(s.table, Key(s), k);
      }
      CopiesAppend(s.table, Key(s), Key(s));
      assert Tallied(s) by { CommitIsSpendable(s); }
    }
    CountedRefresh(t, true);
    CountedRefresh(t, refreshed);
    if reported {
      RefreshIsOnlyHandle(t, true);
      CountedTo(Refreshed(t, true), Confirmed);
    } else {
      RefreshIsOnlyHandle(t, refreshed);
      CountedFail(Refreshed(t, refreshed));
    }
  }

  lemma RefreshIsOnlyHandle(s: State, refreshed: bool)
    requires Working(s)
    ensures var t := Refreshed(s, refreshed); Working(t) && Head(t) == Head(s)
  {
  }

  lemma CommitIsSpendable(s: State)
    requires Counted(s) && Keyed(s) && Stage(s).Uploaded?
    ensures Tallied(s) && Spendable(s)
  {
    hide Copies, SealCount, Tallied;
  }

  lemma CountedPublish(s: State, step: Step)
    requires Structured(s) && Counted(s) && Working(s) && CanStep(s, step)
             && (step.WriteSpool? || step.Upload? || step.Conflict?)
    ensures Counted(NextStep(s, step))
  {
    hide Structured, Copies, SealCount, To, Failed;
    match step
    case WriteSpool(stamp, _) =>
      HeadIsSealed(s);
      var t := s.(files := s.files[Key(s) := Stage(s).file]);
      CountedTo(t.(records := Recorded(s, Key(s), stamp)), Written(Stage(s).file));
      CountedFail(t);
    case Upload(_) =>
      var t := s.(bucket := s.bucket[Key(s) := Stage(s).file]);
      CountedTo(t, Uploaded);
      CountedFail(t);
    case Conflict(refreshed) =>
      CountedRefresh(s, refreshed);
      CountedFail(Refreshed(s, refreshed));
  }

  lemma CountedStep(s: State, step: Step)
    requires Structured(s) && Counted(s) && Working(s) && CanStep(s, step)
    ensures Counted(NextStep(s, step))
  {
    hide Structured, Copies, SealCount, FileOf, Recode, Render, KeyFor, Pruned, Quarantined, Sealed, To, Failed, Popped;
    match step
    case Seal(key) => CountedSeal(s, key);
    case Commit(reported, refreshed) => CountedCommit(s, reported, refreshed);
    case WriteSpool(_, _) => CountedPublish(s, step);
    case Upload(_) => CountedPublish(s, step);
    case Conflict(_) => CountedPublish(s, step);
    case Leave => CountedPop(s, s);
    case Quarantine => CountedPop(s, s.(staged := Quarantined(s.staged, Head(s).ids)));
    case Reread =>
      CountedTo(s, Confirmed);
      if !(Asks(s) && Key(s) in s.owner.w.handle) {
        CountedTo(s, Ready(FileOf(s.staged, Head(s).ids, s.owner.w.shape)));
      }
    case SkipSpool => CountedTo(s, Written(Stage(s).file));
    case Mark =>
      CountedTo(if s.owner.w.spooling then Marked(s, Key(s)) else s, Settled);
    case KeepLocal => CountedTo(s, Settled);
    case Delete => CountedTo(s.(staged := Pruned(s.staged, Head(s).ids)), Deleted);
    case Fail => CountedFail(s);
  }

  lemma CountedWalk(s: State, step: DrainStep)
    requires Counted(s) && s.owner.Drain? && CanWalk(s, step)
    ensures Counted(NextWalk(s, step))
  {
    hide Copies, SealCount;
    if step.Join? {
      var k := s.owner.todo[0];
      forall key
        ensures Copies(s.table + [k], key) == Copies(s.table, key) + if k == key then 1 else 0
      {
        CopiesAppend(s.table, k, key);
      }
      CopiesAppend(s.table, k, k);
    }
  }

  lemma CountedKept(s: State, e: Event)
    requires Structured(s) && Counted(s) && Can(s, e)
    ensures Counted(Next(s, e))
  {
    hide Structured, Copies, SealCount, CanStep, NextStep, CanWalk, NextWalk, AfterAccept, LiveKey, Scanned;
    match e
    case Accept(payloads) => CountedAccept(s, payloads);
    case Enqueue => CountedEnqueue(s);
    case Attempt(step) => CountedStep(s, step);
    case Open(localOnly, spooling, shape, jobs, tail) =>
    case Walk(step) => CountedWalk(s, step);
    case _ =>
  }

  lemma CountedEnqueue(s: State)
    requires Counted(s) && s.owner.Writer?
    ensures Counted(AfterEnqueue(s))
  {
    hide Copies, SealCount;
  }

  // ------------------------------------------------------------- nothing lost

  /** A batch that no longer needs its rows: its file is in the table, or in the
      spool with no commit recorded, where retention cannot see it. */
  predicate Safe(s: State, key: Digest) { key in s.table || (Unmarked(s, key) && key in s.files) }

  // Every accepted record is staged, or in a sealed batch that is safe.
  ghost predicate Stored(s: State) {
    && (forall key | key in s.table :: key in s.bucket)
    && (forall key | key in s.records && s.records[key].committed :: key in s.table)
    && (forall i | i in s.accepted :: i in s.staged || exists q :: InSeal(s, q, i))
    && (forall q, i | InSeal(s, q, i) && i !in s.staged :: Safe(s, s.seals[q].key))
  }

  // How far a phase has got says where the batch's file already is.
  predicate Backed(s: State)
    requires Keyed(s)
  {
    match Stage(s)
    case Written(_) => s.owner.w.spooling ==> Safe(s, Key(s))
    case Uploaded => Key(s) in s.bucket
    case Confirmed => Key(s) in s.table
    case Settled => Safe(s, Key(s))
    case Deleted => Safe(s, Key(s))
    case _ => true
  }

  predicate Reached(s: State) {
    && (s.owner.Writer? && s.owner.w.localOnly ==> s.owner.w.spooling)
    && (Keyed(s) ==> Backed(s))
    && (s.owner.Drain? && !s.owner.at.Loading? ==>
          && s.owner.todo != []
          && (s.owner.at.Sent? ==> s.owner.todo[0] in s.bucket)
          && (s.owner.at.Joined? ==> s.owner.todo[0] in s.table))
  }

  ghost predicate Held(s: State) { Stored(s) && Reached(s) }

  predicate SameStores(s: State, t: State) {
    && t.table == s.table && t.bucket == s.bucket && t.files == s.files && t.records == s.records
    && t.accepted == s.accepted && t.staged.Keys == s.staged.Keys && t.seals == s.seals
  }

  lemma StoredSame(s: State, t: State)
    requires Stored(s) && SameStores(s, t)
    ensures Stored(t) && forall k :: Safe(t, k) == Safe(s, k)
  {
    assert forall q, i :: InSeal(t, q, i) == InSeal(s, q, i);
    assert forall k :: Safe(t, k) == Safe(s, k);
  }

  // Stores that only become safer, over the same rows.
  ghost predicate Safer(s: State, t: State) {
    && t.accepted == s.accepted && t.staged == s.staged && t.seals == s.seals
    && (forall k | Safe(s, k) :: Safe(t, k))
    && (forall k | k in s.table :: k in t.table) && (forall k | k in s.bucket :: k in t.bucket)
  }

  lemma StoredSafer(s: State, t: State)
    requires Stored(s) && Safer(s, t)
    requires forall k | k in t.table :: k in t.bucket
    requires forall k | k in t.records && t.records[k].committed :: k in t.table
    ensures Stored(t)
  {
    hide Safe;
    assert forall q, i :: InSeal(t, q, i) == InSeal(s, q, i);
  }

  lemma ReachedSafer(s: State, t: State)
    requires Reached(s) && Safer(s, t) && t.owner == s.owner
    ensures Reached(t)
  {
    hide Safe;
  }

  lemma {:induction false} AcceptHeld(s: State, payloads: seq<seq<byte>>)
    requires Held(s) && s.owner.Writer?
    ensures Held(AfterAccept(s, payloads))
    decreases |payloads|
  {
    hide Safe;
    if payloads != [] {
      var t := Added(s, payloads[0]);
      assert forall q, i :: InSeal(t, q, i) == InSeal(s, q, i);
      assert forall k :: Safe(t, k) == Safe(s, k) by { SafeAdded(s, payloads[0]); }
      AcceptHeld(t, payloads[1..]);
    }
  }

  lemma SafeAdded(s: State, payload: seq<byte>)
    requires s.owner.Writer?
    ensures forall k :: Safe(Added(s, payload), k) == Safe(s, k)
  {
  }

  predicate Spools(s: State) { s.owner.Writer? && s.owner.w.localOnly ==> s.owner.w.spooling }

  lemma HeldFail(s: State)
    requires Stored(s) && Working(s) && Spools(s)
    ensures Held(Failed(s))
  {
    hide Stored;
    StoredSame(s, Failed(s));
  }

  lemma HeldTo(s: State, phase: Phase)
    requires Stored(s) && Keyed(s) && Spools(s) && Backed(To(s, phase))
    ensures Held(To(s, phase))
  {
    hide Stored, Backed;
    StoredSame(s, To(s, phase));
  }

  lemma HeldPop(s: State)
    requires Stored(s) && Structured(s) && Working(s) && Spools(s)
    ensures Held(Popped(s))
  {
    hide Stored, Ids, Seals, Flat, Ascends, Waiting, Rest;
    StoredSame(s, Popped(s));
    if Working(Popped(s)) {
      assert Head(Popped(s)) == s.owner.w.queue[1];
    }
  }

  lemma SpoolingIsSafe(s: State, key: Digest, file: File, stamp: int)
    requires Stored(s)
    ensures var t := s.(files := s.files[key := file]);
            Stored(t) && Stored(t.(records := Recorded(s, key, stamp)))
                && Safe(t.(records := Recorded(s, key, stamp)), key)
  {
    var t := s.(files := s.files[key := file]);
    StoredSafer(s, t);
    StoredSafer(s, t.(records := Recorded(s, key, stamp)));
  }

  lemma UploadingIsSafe(s: State, key: Digest, file: File)
    requires Stored(s)
    ensures Stored(s.(bucket := s.bucket[key := file]))
  {
    StoredSafer(s, s.(bucket := s.bucket[key := file]));
  }

  lemma CommittingIsSafe(s: State, key: Digest)
    requires Stored(s) && key in s.bucket
    ensures Stored(s.(table := s.table + [key])) && Safer(s, s.(table := s.table + [key]))
  {
    StoredSafer(s, s.(table := s.table + [key]));
  }

  lemma MarkingIsSafe(s: State, key: Digest)
    requires Stored(s) && key in s.table
    ensures Stored(Marked(s, key)) && Safer(s, Marked(s, key))
  {
    StoredSafer(s, Marked(s, key));
  }

  lemma EvictingIsSafe(s: State, key: Digest)
    requires Stored(s) && key in s.records && s.records[key].committed
    ensures Stored(s.(files := s.files - {key})) && Safer(s, s.(files := s.files - {key}))
    ensures Stored(s.(records := s.records - {key})) && Safer(s, s.(records := s.records - {key}))
  {
    StoredSafer(s, s.(files := s.files - {key}));
    StoredSafer(s, s.(records := s.records - {key}));
  }

  lemma PruningIsSafe(s: State)
    requires Stored(s) && Structured(s) && Keyed(s) && Safe(s, Key(s))
    ensures Stored(s.(staged := Pruned(s.staged, Head(s).ids)))
  {
    hide Ids, Flat, Ascends, Waiting, Rest;
    var t := s.(staged := Pruned(s.staged, Head(s).ids));
    var last := |s.seals| - 1;
    assert forall q, i :: InSeal(t, q, i) == InSeal(s, q, i);
    assert forall k :: Safe(t, k) == Safe(s, k);
    forall i | i in Head(s).ids
      ensures InSeal(s, last, i)
    {
    }
    forall q, i | InSeal(t, q, i) && i !in t.staged
      ensures Safe(t, t.seals[q].key)
    {
      if i in Head(s).ids {
        OneSeal(s, q, last, i);
      }
    }
  }

  lemma SealingIsSafe(s: State, key: Digest)
    requires Stored(s) && Structured(s) && Working(s) && CanStep(s, Seal(key))
    ensures Stored(Sealed(s, key))
  {
    hide Structured, Recoded, RecodedAll, Recode, KeyFor;
    var t := Sealed(s, key);
    assert t.seals[..|s.seals|] == s.seals;
    assert forall q | 0 <= q < |s.seals| :: t.seals[q] == s.seals[q];
    assert forall q, i | InSeal(s, q, i) :: InSeal(t, q, i);
    assert forall k :: Safe(t, k) == Safe(s, k);
    forall q, i | InSeal(t, q, i) && i !in t.staged
      ensures Safe(t, t.seals[q].key)
    {
      if q < |s.seals| {
        assert InSeal(s, q, i);
      }
    }
  }

  lemma HeldPublish(s: State, step: Step)
    requires Held(s) && Working(s) && CanStep(s, step)
    requires step.WriteSpool? || step.Upload? || step.Commit? || step.Conflict?
    ensures Held(NextStep(s, step))
  {
    hide Stored, To, Failed, Safe;
    match step
    case WriteSpool(stamp, recorded) =>
      SpoolingIsSafe(s, Key(s), Stage(s).file, stamp);
      var t := s.(files := s.files[Key(s) := Stage(s).file]);
      if recorded {
        HeldSpooled(t.(records := Recorded(s, Key(s), stamp)), Stage(s).file);
      } else {
        HeldFail(t);
      }
    case Upload(reported) =>
      UploadingIsSafe(s, Key(s), Stage(s).file);
      var t := s.(bucket := s.bucket[Key(s) := Stage(s).file]);
      if reported {
        HeldUploaded(t);
      } else {
        HeldFail(t);
      }
    case Commit(reported, refreshed) =>
      CommittingIsSafe(s, Key(s));
      var t := s.(table := s.table + [Key(s)]);
      if reported {
        HeldConfirmed(Refreshed(t, true)) by { StoredSame(t, Refreshed(t, true)); }
      } else {
        HeldFail(Refreshed(t, refreshed)) by { StoredSame(t, Refreshed(t, refreshed)); }
      }
    case Conflict(refreshed) =>
      HeldFail(Refreshed(s, refreshed)) by { StoredSame(s, Refreshed(s, refreshed)); }
  }

  lemma HeldSpooled(s: State, file: File)
    requires Stored(s) && Keyed(s) && Spools(s) && Safe(s, Key(s))
    ensures Held(To(s, Written(file)))
  {
    hide Stored;
    HeldTo(s, Written(file));
  }

  lemma HeldUploaded(s: State)
    requires Stored(s) && Keyed(s) && Spools(s) && Key(s) in s.bucket
    ensures Held(To(s, Uploaded))
  {
    hide Stored;
    HeldTo(s, Uploaded);
  }

  lemma HeldConfirmed(s: State)
    requires Stored(s) && Keyed(s) && Spools(s) && Key(s) in s.table
    ensures Held(To(s, Confirmed))
  {
    hide Stored;
    HeldTo(s, Confirmed);
  }

  lemma HeldPrepared(s: State)
    requires Stored(s) && Tallied(s) && Keyed(s) && Spools(s)
    ensures Held(Prepared(s))
  {
    hide Stored, Copies, SealCount, FileOf;
    StoredSame(s, Prepared(s));
  }

  lemma HeldSeal(s: State, key: Digest)
    requires Structured(s) && Counted(s) && Held(s) && Working(s) && CanStep(s, Seal(key))
    ensures Held(Prepared(Sealed(s, key)))
  {
    hide Structured, Stored, Copies, SealCount, Prepared, Stamped, RecodedAll, Recode, KeyFor, Tallied;
    var t := Sealed(s, key);
    SealingIsSafe(s, key);
    TalliedSeal(s, t, t.seals[|s.seals|]);
    HeldPrepared(t);
  }

  lemma CountedTallies(s: State)
    requires Counted(s)
    ensures Tallied(s)
  {
    hide Tallied;
  }

  lemma HeldStep(s: State, step: Step)
    requires Structured(s) && Counted(s) && Held(s) && Working(s) && CanStep(s, step)
    ensures Held(NextStep(s, step))
  {
    hide Structured, Counted, Stored, FileOf, Recode, Render, KeyFor, Pruned, Quarantined, Sealed, Failed, Popped,
      Safe, Prepared;
    match step
    case Seal(key) => HeldSeal(s, key);
    case WriteSpool(_, _) => HeldPublish(s, step);
    case Upload(_) => HeldPublish(s, step);
    case Commit(_, _) => HeldPublish(s, step);
    case Conflict(_) => HeldPublish(s, step);
    case Reread => assert Tallied(s) by { CountedTallies(s); } HeldPrepared(s);
    case SkipSpool => HeldTo(s, Written(Stage(s).file));
    case Mark =>
      MarkingIsSafe(s, Key(s));
      HeldSettled(s, if s.owner.w.spooling then Marked(s, Key(s)) else s);
    case KeepLocal =>
      StoredSame(s, To(s, Settled));
      HeldTo(s, Settled);
    case Delete =>
      PruningIsSafe(s);
      HeldDeleted(s, s.(staged := Pruned(s.staged, Head(s).ids)));
    case Leave => HeldPop(s);
    case Quarantine => HeldQuarantine(s);
    case Fail => HeldFail(s);
  }

  lemma HeldSettled(s: State, t: State)
    requires Held(s) && Keyed(s) && Stage(s).Confirmed? && Stored(t) && t.owner == s.owner && t.table == s.table
    ensures Held(To(t, Settled))
  {
    hide Stored;
    HeldTo(t, Settled);
  }

  lemma HeldDeleted(s: State, t: State)
    requires Held(s) && Keyed(s) && Stage(s).Settled? && Stored(t) && t.owner == s.owner
    requires t.table == s.table && t.records == s.records && t.files == s.files
    ensures Held(To(t, Deleted))
  {
    hide Stored;
    HeldTo(t, Deleted);
  }

  lemma HeldQuarantine(s: State)
    requires Structured(s) && Held(s) && Working(s)
    ensures Held(Popped(s.(staged := Quarantined(s.staged, Head(s).ids))))
  {
    hide Stored, Safe, Ids, Seals, Flat, Ascends, Waiting, Rest;
    var u := s.(staged := Quarantined(s.staged, Head(s).ids));
    assert u.staged.Keys == s.staged.Keys;
    StoredSame(s, u);
    StoredSame(u, Popped(u));
    if Working(Popped(u)) {
      assert Head(Popped(u)) == s.owner.w.queue[1];
    }
  }

  lemma HeldWalk(s: State, step: DrainStep)
    requires Counted(s) && Held(s) && s.owner.Drain? && CanWalk(s, step)
    ensures Held(NextWalk(s, step))
  {
    hide Stored, Copies, SealCount, Safe;
    var t := NextWalk(s, step);
    match step
    case Send =>
      UploadingIsSafe(s, s.owner.todo[0], s.files[s.owner.todo[0]]);
      StoredSame(s.(bucket := t.bucket), t);
    case Join(_) =>
      CommittingIsSafe(s, s.owner.todo[0]);
      StoredSame(s.(table := t.table), t);
    case Note =>
      MarkingIsSafe(s, s.owner.todo[0]);
      StoredSame(Marked(s, s.owner.todo[0]), t);
    case _ =>
      StoredSame(s, t);
  }

  lemma HeldKept(s: State, e: Event)
    requires Structured(s) && Counted(s) && Held(s) && Can(s, e)
    ensures Held(Next(s, e))
  {
    hide Structured, Counted, Stored, CanStep, NextStep, CanWalk, NextWalk, AfterAccept, Safe, Scan;
    match e
    case Accept(payloads) => AcceptHeld(s, payloads);
    case Attempt(step) => HeldStep(s, step);
    case Walk(step) => HeldWalk(s, step);
    case EvictFile(key) =>
      EvictingIsSafe(s, key);
      ReachedSafer(s, Next(s, e));
    case EvictRecord(key) =>
      EvictingIsSafe(s, key);
      ReachedSafer(s, Next(s, e));
    case Enqueue => HeldEnqueue(s);
    case Open(_, _, _, _, _) => HeldOpen(s, e);
    case _ => StoredSame(s, Next(s, e));
  }

  lemma HeldEnqueue(s: State)
    requires Structured(s) && Held(s) && s.owner.Writer?
    ensures Held(AfterEnqueue(s))
  {
    hide Stored, Safe;
    StoredSame(s, AfterEnqueue(s));
  }

  lemma HeldOpen(s: State, e: Event)
    requires Held(s) && Can(s, e) && e.Open?
    ensures Held(Next(s, e))
  {
    hide Stored, Safe, Scan;
    StoredSame(s, Next(s, e));
  }
}
