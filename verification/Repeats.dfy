/** When a data file can be added to the table a second time: exactly when. */
module Repeats {
  import opened Bytes
  import opened BatchKey
  import opened Protocol
  import opened Structure
  import opened Safety
  import opened Contents
  import opened ExactlyOnce

  // The batch's file was in the table already when the batch was sealed.
  predicate SealedOver(s: State, q: int) {
    0 <= q < |s.seals| && s.seals[q].seen <= |s.table| && s.seals[q].key in s.table[..s.seals[q].seen]
  }

  // A worker past its check: on a later attempt its handle is without the file, on
  // the first nothing has joined the table since the seal.
  ghost predicate Unspent(s: State) {
    Keyed(s) && InFlight(s.owner.w) ==>
      if Head(s).attempted || Head(s).replayed then Key(s) !in s.owner.w.handle
      else s.seals != [] && Last(s).seen == |s.table|
  }

  ghost predicate Checked(s: State) {
    && (forall q | 0 <= q < |s.seals| :: s.seals[q].seen <= |s.table|)
    && Unspent(s)
    && ((exists q :: SealedOver(s, q)) || forall j, k | 0 <= j < k < |s.table| :: s.table[j] != s.table[k])
  }

  // The same table and the same seals.
  lemma CheckedSame(s: State, t: State)
    requires Checked(s) && t.table == s.table && t.seals == s.seals && Unspent(t)
    ensures Checked(t)
  {
    hide Unspent;
    if q :| SealedOver(s, q) {
      assert SealedOver(t, q);
    }
  }

  // One more file in the table, new unless some batch was sealed over it.
  lemma CheckedGrows(s: State, t: State, key: Digest)
    requires Checked(s) && t.table == s.table + [key] && t.seals == s.seals && Unspent(t)
    requires key in s.table ==> exists q :: SealedOver(s, q)
    ensures Checked(t)
  {
    hide Unspent;
    if q :| SealedOver(s, q) {
      assert t.table[..s.seals[q].seen] == s.table[..s.seals[q].seen];
      assert SealedOver(t, q);
    }
  }

  lemma CheckedSealed(s: State, t: State, b: Batch)
    requires Checked(s) && t.table == s.table && t.seals == s.seals + [b] && b.seen <= |s.table| && Unspent(t)
    ensures Checked(t)
  {
    hide Unspent;
    assert forall q | 0 <= q < |s.seals| :: t.seals[q] == s.seals[q];
    if q :| SealedOver(s, q) {
      assert SealedOver(t, q);
    }
  }

  // A batch first attempted was sealed just now; any other has asked the table.
  lemma UnspentPrepared(s: State)
    requires Keyed(s) && s.seals != []
    requires Head(s).attempted || Head(s).replayed || Last(s).seen == |s.table|
    ensures Unspent(Prepared(s))
  {
    hide FileOf;
  }

  lemma CheckedSeal(s: State, key: Digest)
    requires Checked(s) && Working(s) && CanStep(s, Seal(key))
    ensures Checked(Prepared(Sealed(s, key)))
  {
    hide Checked, FileOf, Stamped, RecodedAll, Recode, KeyFor, Unspent;
    var t := Sealed(s, key);
    UnspentPrepared(t);
    CheckedSealed(s, Prepared(t), t.seals[|s.seals|]);
  }

  // On the first attempt the table is as the seal saw it; on a later one the handle
  // the commit swaps on, without the file, is the whole table.
  lemma CommitRepeats(s: State, reported: bool, refreshed: bool)
    requires Structured(s) && Counted(s) && Checked(s) && Working(s) && CanStep(s, Commit(reported, refreshed))
    ensures Key(s) in s.table <==> !Head(s).attempted && !Head(s).replayed && SealedOver(s, |s.seals| - 1)
  {
    hide Ids, Seals, Flat, Tallied;
    assert s.seals != [] && Last(s).key == Key(s);
    if Key(s) in s.table {
      assert s.table[..|s.table|] == s.table;
    }
  }

  lemma CheckedCommit(s: State, reported: bool, refreshed: bool)
    requires Structured(s) && Counted(s) && Checked(s) && Working(s) && CanStep(s, Commit(reported, refreshed))
    ensures Checked(NextStep(s, Commit(reported, refreshed)))
  {
    hide Structured, Counted, Checked;
    CommitRepeats(s, reported, refreshed);
    CheckedGrows(s, NextStep(s, Commit(reported, refreshed)), Key(s));
  }

  // What an attempt in flight goes on with, or one that is over leaves behind.
  predicate GoesOnFrom(s: State, t: State) {
    && t.table == s.table && t.seals == s.seals
    && (Keyed(t) && InFlight(t.owner.w) ==>
          Keyed(s) && InFlight(s.owner.w) && Head(t) == Head(s) && t.owner.w.handle == s.owner.w.handle)
  }

  predicate InFlightStep(step: Step) { step.WriteSpool? || step.SkipSpool? || step.Upload? }

  lemma ToGoesOn(s: State, t: State, phase: Phase)
    requires Keyed(s) && (Stage(s).Ready? || Stage(s).Written?) && t.owner == s.owner && t.table == s.table
             && t.seals == s.seals
    ensures GoesOnFrom(s, To(t, phase))
  {
  }

  lemma FailGoesOn(s: State, t: State)
    requires Working(s) && t.owner == s.owner && t.table == s.table && t.seals == s.seals
    ensures GoesOnFrom(s, Failed(t))
  {
  }

  lemma StepGoesOn(s: State, step: Step)
    requires Working(s) && CanStep(s, step) && InFlightStep(step)
    ensures GoesOnFrom(s, NextStep(s, step))
  {
    hide GoesOnFrom, To, Failed, Recorded;
    match step
    case WriteSpool(stamp, _) =>
      var t := s.(files := s.files[Key(s) := Stage(s).file]);
      ToGoesOn(s, t.(records := Recorded(s, Key(s), stamp)), Written(Stage(s).file));
      FailGoesOn(s, t);
    case SkipSpool => ToGoesOn(s, s, Written(Stage(s).file));
    case Upload(_) =>
      var t := s.(bucket := s.bucket[Key(s) := Stage(s).file]);
      ToGoesOn(s, t, Uploaded);
      FailGoesOn(s, t);
  }

  lemma StepEnds(s: State, step: Step)
    requires Structured(s) && Working(s) && CanStep(s, step)
    requires !step.Seal? && !step.Commit? && !step.Reread? && !InFlightStep(step)
    ensures GoesOnFrom(s, NextStep(s, step))
  {
    hide Structured, FileOf, Recode, Render, KeyFor, Pruned, Quarantined, Unpreparable, RecodedAll;
  }

  lemma CheckedStep(s: State, step: Step)
    requires Structured(s) && Counted(s) && Checked(s) && Working(s) && CanStep(s, step)
    ensures Checked(NextStep(s, step))
  {
    hide Structured, Counted, Checked, CanStep, NextStep;
    match step
    case Seal(key) => CheckedSealStep(s, key);
    case Commit(reported, refreshed) => CheckedCommit(s, reported, refreshed);
    case Reread => CheckedReread(s);
    case _ =>
      if InFlightStep(step) {
        StepGoesOn(s, step);
      } else {
        StepEnds(s, step);
      }
      CheckedOn(s, NextStep(s, step));
  }

  lemma CheckedSealStep(s: State, key: Digest)
    requires Checked(s) && Working(s) && CanStep(s, Seal(key))
    ensures Checked(NextStep(s, Seal(key)))
  {
    hide Checked, Sealed, Prepared;
    CheckedSeal(s, key);
  }

  lemma CheckedReread(s: State)
    requires Structured(s) && Counted(s) && Checked(s) && Working(s) && CanStep(s, Reread)
    ensures Checked(NextStep(s, Reread))
  {
    hide Ids, Seals, Tallied, FileOf, Render, Flat, Ascends, SealedOver;
    UnspentPrepared(s);
    CheckedSame(s, Prepared(s));
  }

  lemma CheckedOn(s: State, t: State)
    requires Checked(s) && GoesOnFrom(s, t)
    ensures Checked(t)
  {
    hide SealedOver;
    assert Unspent(s);
    CheckedSame(s, t);
  }

  lemma {:induction false} CheckedAccept(s: State, payloads: seq<seq<byte>>)
    requires Checked(s) && s.owner.Writer?
    ensures Checked(AfterAccept(s, payloads))
    decreases |payloads|
  {
    if payloads != [] {
      CheckedSame(s, Added(s, payloads[0]));
      CheckedAccept(Added(s, payloads[0]), payloads[1..]);
    }
  }

  lemma CheckedWalk(s: State, step: DrainStep)
    requires Checked(s) && Counted(s) && s.owner.Drain? && CanWalk(s, step)
    ensures Checked(NextWalk(s, step))
  {
    hide Checked, SealedOver;
    if step.Join? {
      CheckedGrows(s, NextWalk(s, step), s.owner.todo[0]);
    } else {
      CheckedSame(s, NextWalk(s, step));
    }
  }

  lemma CheckedKept(s: State, e: Event)
    requires Structured(s) && Counted(s) && Checked(s) && Can(s, e)
    ensures Checked(Next(s, e))
  {
    hide Structured, Counted, Checked, CanStep, NextStep, CanWalk, NextWalk, AfterAccept, Scan, Backlog;
    match e
    case Accept(payloads) => CheckedAccept(s, payloads);
    case Attempt(step) => CheckedStep(s, step);
    case Walk(step) => CheckedWalk(s, step);
    case _ => CheckedAside(s, e);
  }

  lemma CheckedAside(s: State, e: Event)
    requires Checked(s) && Can(s, e) && !e.Accept? && !e.Attempt? && !e.Walk?
    ensures Checked(Next(s, e))
  {
    hide SealedOver, Scan, Backlog, LiveKey;
    CheckedSame(s, Next(s, e));
  }

  lemma {:induction false} RunsChecked(s: State, run: seq<Event>)
    requires Sound(s) && Checked(s) && Legal(s, run)
    ensures Checked(Outcome(s, run))
    decreases |run|
  {
    hide Sound, Checked, Can, Next;
    if run != [] {
      SoundKept(s, run[0]);
      assert Structured(s) && Counted(s) by { SoundParts(s); }
      CheckedKept(s, run[0]);
      RunsChecked(Next(s, run[0]), run[1..]);
    }
  }

  lemma SoundParts(s: State)
    requires Sound(s)
    ensures Structured(s) && Counted(s)
  {
    hide Structured, Counted, Held, Faithful;
  }

  lemma ReachableChecked(s: State)
    requires Reachable(s)
    ensures Structured(s) && Counted(s) && Checked(s)
  {
    hide Sound, Legal, Outcome, Structured, Counted;
    ReachableSound(s);
    SoundParts(s);
    var run :| Legal(Initial(s.name), run) && Outcome(Initial(s.name), run) == s;
    StartsSound(s.name);
    RunsChecked(Initial(s.name), run);
  }

  /** A worker's commit adds a file the table already has exactly when the batch was
      sealed in this process, is on its first attempt, and had its file in the table
      when it was sealed. */
  lemma CommitRepeatsIff(s: State, reported: bool, refreshed: bool)
    requires Reachable(s) && Working(s) && CanStep(s, Commit(reported, refreshed))
    ensures Key(s) in s.table <==> !Head(s).attempted && !Head(s).replayed && SealedOver(s, |s.seals| - 1)
  {
    hide Reachable, Structured, Counted, Checked, SealedOver;
    ReachableChecked(s);
    CommitRepeats(s, reported, refreshed);
  }

  // The rest of an attempt in which everything succeeds.
  function Onwards(w: Worker, stamp: int): seq<Event> {
    [Attempt(if w.spooling then WriteSpool(stamp, true) else SkipSpool), Attempt(Upload(true)),
        Attempt(Commit(true, true))]
  }

  /** The same, seen before the seal: sealing a batch whose file the table has leads
      this attempt to commit it again exactly when the worker has a table, has never
      tried the batch, and holds the table as it is. */
  lemma AttemptRepeatsIff(s: State, key: Digest, stamp: int)
    requires Reachable(s) && Working(s) && CanStep(s, Seal(key)) && key in s.table
    ensures Legal(NextStep(s, Seal(key)), Onwards(s.owner.w, stamp)) <==>
            !s.owner.w.localOnly && !Head(s).attempted && !Head(s).replayed && s.owner.w.handle == s.table
    ensures Legal(NextStep(s, Seal(key)), Onwards(s.owner.w, stamp)) ==>
            Outcome(NextStep(s, Seal(key)), Onwards(s.owner.w, stamp)).table == s.table + [key]
  {
    hide Reachable, Legal, Outcome, FileOf, Stamped, RecodedAll, Recode, KeyFor;
    ReadyGoesOn(NextStep(s, Seal(key)), s.owner.w, stamp);
  }

  // From a batch just prepared to its commit, when nothing fails.
  lemma ReadyGoesOn(s: State, w: Worker, stamp: int)
    requires Keyed(s) && (Stage(s).Ready? || Stage(s).Confirmed?) && s.owner.w.spooling == w.spooling
    ensures Legal(s, Onwards(w, stamp)) <==> Stage(s).Ready? && !s.owner.w.localOnly && s.owner.w.handle == s.table
    ensures Legal(s, Onwards(w, stamp)) ==> Outcome(s, Onwards(w, stamp)).table == s.table + [Key(s)]
  {
    var run := Onwards(w, stamp);
    var first, rest := run[0], run[1..];
    assert rest == [Attempt(Upload(true)), Attempt(Commit(true, true))];
    if Can(s, first) {
      WrittenGoesOn(Next(s, first), rest);
    }
  }

  lemma WrittenGoesOn(s: State, run: seq<Event>)
    requires Keyed(s) && Stage(s).Written? && run == [Attempt(Upload(true)), Attempt(Commit(true, true))]
    ensures Legal(s, run) <==> !s.owner.w.localOnly && s.owner.w.handle == s.table
    ensures Legal(s, run) ==> Outcome(s, run).table == s.table + [Key(s)]
  {
    var last := run[1..];
    assert last == [Attempt(Commit(true, true))] && last[1..] == [];
    if Can(s, run[0]) {
      var t := Next(s, run[0]);
      assert Legal(t, last) == Can(t, last[0]);
      if Can(t, last[0]) {
        var u := Next(t, last[0]);
        assert Outcome(u, []) == u && Outcome(t, last) == Outcome(u, last[1..]) && Outcome(s, run) == Outcome(t, last);
      }
    }
  }

  /** No file is in the table twice unless some batch was sealed while its file was
      already there: weaker than asking that no two batches be equal. */
  lemma NoDuplicatesUnlessSealedOver(s: State)
    requires Reachable(s) && forall q :: !SealedOver(s, q)
    ensures forall j, k | 0 <= j < k < |s.table| :: s.table[j] != s.table[k]
  {
    hide Reachable, SealedOver, Structured, Counted;
    ReachableChecked(s);
  }
}
