/** What becomes, and does not become, of a quarantined batch. */
module Fate {
  import opened Bytes
  import opened BatchKey
  import opened Protocol
  import opened Structure
  import opened Safety
  import opened Contents
  import opened ExactlyOnce
  import opened Restart

  // Sealed once, and nothing is left that could commit it: not staged live, not in
  // the spool's records, not in anyone's hands.
  ghost predicate Forgotten(s: State, key: Digest) {
    && key !in s.table && key !in s.records && !LiveKey(s, key)
    && (Keyed(s) ==> Key(s) != key)
    && (s.owner.Drain? ==> key !in s.owner.todo)
    && (exists p :: 0 <= p < |s.seals| && s.seals[p].key == key)
  }

  lemma {:induction false} AcceptForgets(s: State, payloads: seq<seq<byte>>, key: Digest)
    requires Structured(s) && Forgotten(s, key) && s.owner.Writer?
    ensures Forgotten(AfterAccept(s, payloads), key)
    decreases |payloads|
  {
    hide Structured, LiveKey;
    if payloads != [] {
      var t := Added(s, payloads[0]);
      AddKeeps(s, payloads[0]);
      AddedForgets(s, payloads[0], key);
      AcceptForgets(t, payloads[1..], key);
    }
  }

  lemma AddedForgets(s: State, payload: seq<byte>, key: Digest)
    requires Structured(s) && !LiveKey(s, key) && s.owner.Writer?
    ensures !LiveKey(Added(s, payload), key)
  {
    hide Seals, Queue, Ids;
    AddedRow(s, payload) by { assert Structured(s); }
    assert forall i, k :: SealedAs(Added(s, payload), i, k) == SealedAs(s, i, k);
  }

  // The next head of the queue, after a step: this one, sealed or not, or one with no key.
  lemma NextHead(s: State, step: Step)
    requires Structured(s) && Working(s) && CanStep(s, step)
    ensures Keyed(NextStep(s, step)) && step.Seal? ==> Key(NextStep(s, step)) == step.key
    ensures Keyed(NextStep(s, step)) && !step.Seal? ==> Keyed(s) && Key(NextStep(s, step)) == Key(s)
  {
    hide Ids, Seals, Flat, Ascends, CanStep, NextStep;
    if MovesNoRow(step) && !step.Leave? {
      StepLeavesRows(s, step);
    } else if step.Leave? || step.Quarantine? {
      PoppedHead(s, step);
    } else {
      StayingHead(s, step);
    }
  }

  lemma PoppedHead(s: State, step: Step)
    requires Structured(s) && Working(s) && CanStep(s, step) && (step.Leave? || step.Quarantine?)
    ensures !Keyed(NextStep(s, step))
  {
    hide Ids, Seals, Flat, Ascends, Quarantined, Unpreparable;
    var rest := s.owner.w.queue[1..];
    assert forall k | 0 <= k < |rest| :: rest[k] == s.owner.w.queue[k + 1];
  }

  lemma StayingHead(s: State, step: Step)
    requires Working(s) && CanStep(s, step) && (step.Seal? || step.Delete?)
    ensures Keyed(NextStep(s, step)) && step.Seal? ==> Key(NextStep(s, step)) == step.key
    ensures step.Delete? ==> Keyed(s) && Keyed(NextStep(s, step)) && Key(NextStep(s, step)) == Key(s)
  {
    hide FileOf, Recode, KeyFor, Stamped, RecodedAll, Pruned;
  }

  lemma StepForgets(s: State, step: Step, key: Digest)
    requires Structured(s) && Forgotten(s, key) && Working(s) && CanStep(s, step) && step != Seal(key)
    ensures Forgotten(NextStep(s, step), key)
  {
    hide Structured, LiveKey, CanStep, NextStep, FileOf, Sealed, Pruned, Quarantined;
    var t := NextStep(s, step);
    StepEffect(s, step);
    if Keyed(t) {
      NextHead(s, step);
    }
    StepLives(s, step, key);
    var p :| 0 <= p < |s.seals| && s.seals[p].key == key;
    assert t.seals[p] == s.seals[p] by { SealsAppend(s, step); }
    if step.Seal? {
      SealLeavesStores(s, step.key);
    }
  }

  lemma SealLeavesStores(s: State, key: Digest)
    requires Working(s)
    ensures Sealed(s, key).table == s.table && Sealed(s, key).records == s.records
  {
    hide Stamped, RecodedAll;
  }

  lemma SealsAppend(s: State, step: Step)
    requires HasEffect(s, step)
    ensures s.seals <= Effect(s, step).seals
  {
    hide Stamped, RecodedAll, Pruned, Quarantined;
  }

  // No step brings a key back to life but its own seal.
  lemma StepLives(s: State, step: Step, key: Digest)
    requires Structured(s) && !LiveKey(s, key) && Working(s) && CanStep(s, step) && step != Seal(key)
    ensures !LiveKey(NextStep(s, step), key)
  {
    hide Structured, CanStep, NextStep, FileOf, Sealed;
    var t := NextStep(s, step);
    StepEffect(s, step);
    if step.Seal? {
      SealedRows(s, step.key);
      assert forall i :: SealedAs(t, i, key) == SealedAs(Sealed(s, step.key), i, key);
    } else {
      assert forall i | SealedAs(t, i, key) :: SealedAs(s, i, key);
    }
  }

  lemma EventForgets(s: State, e: Event, key: Digest)
    requires Structured(s) && Forgotten(s, key) && Can(s, e) && e != Attempt(Seal(key))
    ensures Forgotten(Next(s, e), key)
  {
    hide Structured, CanStep, NextStep, AfterAccept, LiveKey, Forgotten, Scan, Backlog, CanWalk, NextWalk;
    match e
    case Accept(payloads) => AcceptForgets(s, payloads, key);
    case Attempt(step) => StepForgets(s, step, key);
    case Open(_, _, _, _, _) => OpenForgets(s, e, key);
    case Walk(step) => WalkForgets(s, step, key);
    case StartDrain(todo) => DrainForgets(s, todo, key);
    case _ => AsideForgets(s, Next(s, e), key);
  }

  lemma OpenForgets(s: State, e: Event, key: Digest)
    requires Forgotten(s, key) && Can(s, e) && e.Open?
    ensures Forgotten(Next(s, e), key)
  {
    hide LiveKey, Scan;
    SameLiveKeys(s, Next(s, e));
    JobsAreLive(s, e.jobs, e.tail);
  }

  lemma WalkForgets(s: State, step: DrainStep, key: Digest)
    requires Forgotten(s, key) && s.owner.Drain? && CanWalk(s, step)
    ensures Forgotten(NextWalk(s, step), key)
  {
    hide LiveKey;
    SameLiveKeys(s, NextWalk(s, step));
  }

  lemma DrainForgets(s: State, todo: seq<Digest>, key: Digest)
    requires Forgotten(s, key) && Can(s, StartDrain(todo))
    ensures Forgotten(Next(s, StartDrain(todo)), key)
  {
    hide LiveKey;
    SameLiveKeys(s, Next(s, StartDrain(todo)));
  }

  // The same table, seals and rows, fewer records, and the same owner or none.
  lemma AsideForgets(s: State, t: State, key: Digest)
    requires Forgotten(s, key) && t.table == s.table && t.seals == s.seals && t.staged == s.staged
    requires !t.owner.Drain? || t.owner == s.owner
    requires t.records.Keys <= s.records.Keys && (Keyed(t) ==> Keyed(s) && Key(t) == Key(s))
    ensures Forgotten(t, key)
  {
    hide LiveKey;
    SameLiveKeys(s, t);
  }

  lemma JobsAreLive(s: State, jobs: seq<Job>, tail: seq<nat>)
    requires Scan(s, jobs, tail)
    ensures forall k | 0 <= k < |jobs| :: jobs[k].key.Some? && LiveKey(s, jobs[k].key.value)
  {
    forall k | 0 <= k < |jobs|
      ensures jobs[k].key.Some? && LiveKey(s, jobs[k].key.value)
    {
      assert Scanned(s, jobs[k].ids, jobs[k].key.value) && jobs[k].ids[0] in jobs[k].ids;
      assert SealedAs(s, jobs[k].ids[0], jobs[k].key.value);
    }
  }

  // ---------------------------------------------------------------- whole runs

  lemma EventSeals(s: State, e: Event)
    requires Can(s, e)
    ensures s.seals <= Next(s, e).seals
  {
    hide CanStep, NextStep, AfterAccept, Scan, Backlog, Sealed, Effect;
    match e
    case Attempt(step) => StepEffect(s, step); SealsAppend(s, step);
    case Accept(payloads) => AcceptSeals(s, payloads);
    case _ =>
  }

  lemma {:induction false} AcceptSeals(s: State, payloads: seq<seq<byte>>)
    requires s.owner.Writer?
    ensures AfterAccept(s, payloads).seals == s.seals
    decreases |payloads|
  {
    if payloads != [] {
      AcceptSeals(Added(s, payloads[0]), payloads[1..]);
    }
  }

  lemma {:induction false} RunSeals(s: State, run: seq<Event>)
    requires Legal(s, run)
    ensures s.seals <= Outcome(s, run).seals
    decreases |run|
  {
    hide Can, Next;
    if run != [] {
      EventSeals(s, run[0]);
      RunSeals(Next(s, run[0]), run[1..]);
    }
  }

  // A batch sealed again is a batch twice.
  lemma SealedTwice(s: State, p: int, q: int)
    requires Sound(s) && 0 <= p < q < |s.seals| && s.seals[p].key == s.seals[q].key
    ensures !DistinctBatches(s)
  {
    hide Structured, Counted, Held, Faithful, DistinctBatches;
    if DistinctBatches(s) {
      DistinctKeys(s, p, q);
    }
  }

  lemma SealAgain(s: State, key: Digest, run: seq<Event>)
    requires Sound(s) && Forgotten(s, key) && Can(s, Attempt(Seal(key))) && Legal(Next(s, Attempt(Seal(key))), run)
    ensures !DistinctBatches(Outcome(Next(s, Attempt(Seal(key))), run))
  {
    hide Sound, Legal, Outcome, LiveKey, DistinctBatches, CanStep, FileOf, RecodedAll, Stamped;
    var t := Next(s, Attempt(Seal(key)));
    var p :| 0 <= p < |s.seals| && s.seals[p].key == key;
    assert t.seals[p] == s.seals[p] && t.seals[|s.seals|].key == key && |t.seals| == |s.seals| + 1;
    SoundKept(s, Attempt(Seal(key)));
    RunsSound(t, run);
    RunSeals(t, run);
    var u := Outcome(t, run);
    assert u.seals[p] == t.seals[p] && u.seals[|s.seals|] == t.seals[|s.seals|];
    SealedTwice(u, p, |s.seals|);
  }

  lemma {:induction false} RunForgets(s: State, key: Digest, run: seq<Event>)
    requires Sound(s) && Forgotten(s, key) && Legal(s, run) && DistinctBatches(Outcome(s, run))
    ensures key !in Outcome(s, run).table
    decreases |run|
  {
    hide Sound, Can, Next, DistinctBatches, LiveKey;
    if run != [] {
      if run[0] == Attempt(Seal(key)) {
        SealAgain(s, key, run[1..]);
      } else {
        SoundKept(s, run[0]);
        assert Structured(s) by { SoundIsStructured(s); }
        EventForgets(s, run[0], key);
        RunForgets(Next(s, run[0]), key, run[1..]);
      }
    }
  }

  lemma SoundIsStructured(s: State)
    requires Sound(s)
    ensures Structured(s)
  {
    hide Structured, Counted, Held, Faithful;
  }

  // ------------------------------------------------------------- the quarantine

  // The batch marked, and out of the queue.
  function SetAside(s: State): State
    requires Working(s)
  {
    Popped(s.(staged := Quarantined(s.staged, Head(s).ids)))
  }

  lemma SetAsideLeaves(s: State)
    requires Sound(s) && Keyed(s) && CanStep(s, Quarantine)
    ensures var t := SetAside(s); (forall key :: !LiveKey(t, key)) && (Keyed(t) ==> Key(t) != Key(s))
    ensures exists p :: 0 <= p < |s.seals| && s.seals[p].key == Key(s)
  {
    hide Ids, Counted, Held, Faithful, Flat, Ascends, Unpreparable;
    var t := SetAside(s);
    assert 0 <= |s.seals| - 1 < |s.seals| && s.seals[|s.seals| - 1].key == Key(s);
    assert Head(s).ids[0] in Head(s).ids;
    assert HeadHere(s);
    assert forall i, key | SealedAs(s, i, key) :: i in Last(s).ids;
    assert forall i | Live(t, i) :: Live(s, i) && i !in Head(s).ids && t.staged[i] == s.staged[i];
    assert forall i, key :: SealedAs(t, i, key) ==> SealedAs(s, i, key);
    if Working(t) {
      assert Head(t) == s.owner.w.queue[1];
    }
  }

  lemma SetAsideIsForgotten(s: State)
    requires Sound(s) && Keyed(s) && CanStep(s, Quarantine) && Key(s) !in s.table && !Unmarked(s, Key(s))
    ensures Forgotten(SetAside(s), Key(s))
  {
    hide Structured, Counted, Faithful, CanStep, LiveKey, Quarantined;
    SetAsideLeaves(s);
  }

  lemma SetAsideIsLeft(s: State)
    requires Sound(s) && Keyed(s) && CanStep(s, Quarantine) && Unmarked(s, Key(s))
    ensures Left(SetAside(s), Key(s))
  {
    hide Sound, CanStep, LiveKey, Quarantined;
    SetAsideLeaves(s);
  }

  // Some continuation, no two batches of which are equal, commits the key.
  ghost predicate CanCommit(s: State, key: Digest) {
    exists run :: Legal(s, run) && DistinctBatches(Outcome(s, run)) && key in Outcome(s, run).table
  }

  /** A sealed batch quarantined is committed later, by some continuation, if and only
      if its file is in the table already or in the backlog. */
  lemma QuarantinedCommitsIff(s: State)
    requires Reachable(s) && DistinctBatches(s) && Keyed(s) && Can(s, Attempt(Quarantine))
    ensures CanCommit(Next(s, Attempt(Quarantine)), Key(s)) <==> Key(s) in s.table || Unmarked(s, Key(s))
  {
    hide Reachable, Sound, Spooled, Legal, Outcome, DistinctBatches, CanStep, Quarantined, LiveKey, Appended;
    var key, t := Key(s), Next(s, Attempt(Quarantine));
    assert t == SetAside(s);
    ReachableSound(s);
    SoundKept(s, Attempt(Quarantine));
    if key in s.table {
      NoRun(t);
      assert DistinctBatches(Outcome(t, [])) by { SameBatches(s, t); }
    } else if Unmarked(s, key) {
      ReachableSpooled(s);
      SpooledKept(s, Attempt(Quarantine));
      SetAsideIsLeft(s);
      NoKeyNoSplit(t) by { SetAsideLeaves(s); }
      var todo, run := Drains(t, key);
      AppendedHas(t.table, todo);
      assert DistinctBatches(Outcome(t, run)) by { SameBatches(s, Outcome(t, run)); }
    } else {
      SetAsideIsForgotten(s);
      forall run | Legal(t, run) && DistinctBatches(Outcome(t, run))
        ensures key !in Outcome(t, run).table
      {
        RunForgets(t, key, run);
      }
    }
  }

  // ------------------------------------------------------------- its rows, for good

  predicate Isolated(s: State, i: nat) { i in s.staged && s.staged[i].quarantined }

  lemma StepIsolates(s: State, step: Step, i: nat)
    requires Structured(s) && Isolated(s, i) && Working(s) && CanStep(s, step)
    ensures Isolated(NextStep(s, step), i) && NextStep(s, step).staged[i] == s.staged[i]
    ensures forall q :: InSeal(NextStep(s, step), q, i) <==> InSeal(s, q, i)
  {
    hide Structured, NextStep, FileOf, RecodedAll, Recoded;
    StepEffect(s, step);
    HeadIsLiveOrGone(s, i);
    var t := Effect(s, step);
    if step.Seal? {
      assert t.seals[..|s.seals|] == s.seals && t.seals[|s.seals|].ids == Head(s).ids;
      assert forall q | 0 <= q < |s.seals| :: t.seals[q] == s.seals[q];
    }
  }

  lemma HeadIsLiveOrGone(s: State, i: nat)
    requires Structured(s) && Working(s) && Isolated(s, i)
    ensures i !in Head(s).ids
  {
    hide Ids, Seals, Flat, Ascends;
  }

  lemma {:induction false} AcceptIsolates(s: State, payloads: seq<seq<byte>>, i: nat)
    requires Structured(s) && Isolated(s, i) && s.owner.Writer?
    ensures Isolated(AfterAccept(s, payloads), i) && AfterAccept(s, payloads).staged[i] == s.staged[i]
    decreases |payloads|
  {
    hide Seals, Queue;
    if payloads != [] {
      AddKeeps(s, payloads[0]);
      AcceptIsolates(Added(s, payloads[0]), payloads[1..], i);
    }
  }

  lemma EventIsolates(s: State, e: Event, i: nat)
    requires Structured(s) && Isolated(s, i) && Can(s, e)
    ensures Isolated(Next(s, e), i) && Next(s, e).staged[i] == s.staged[i]
    ensures forall q :: InSeal(Next(s, e), q, i) <==> InSeal(s, q, i)
  {
    hide Structured, CanStep, NextStep, AfterAccept, Scan, Backlog;
    match e
    case Attempt(step) => StepIsolates(s, step, i);
    case Accept(payloads) =>
      AcceptIsolates(s, payloads, i);
      AcceptSeals(s, payloads);
    case _ =>
  }

  lemma {:induction false} RunIsolates(s: State, i: nat, run: seq<Event>)
    requires Sound(s) && Isolated(s, i) && Legal(s, run)
    ensures Isolated(Outcome(s, run), i) && Outcome(s, run).staged[i] == s.staged[i]
    ensures forall q :: InSeal(Outcome(s, run), q, i) <==> InSeal(s, q, i)
    decreases |run|
  {
    hide Sound, Can, Next;
    if run != [] {
      SoundKept(s, run[0]);
      SoundIsStructured(s);
      EventIsolates(s, run[0], i);
      RunIsolates(Next(s, run[0]), i, run[1..]);
    }
  }

  /** A quarantined row is quarantined for good: it stays staged as it is through every
      run, and no batch but the one it was sealed in, if it was, ever holds it. */
  lemma QuarantineIsForGood(s: State, i: nat, run: seq<Event>)
    requires Reachable(s) && Isolated(s, i) && Legal(s, run)
    ensures Isolated(Outcome(s, run), i) && Outcome(s, run).staged[i] == s.staged[i]
    ensures forall q :: InSeal(Outcome(s, run), q, i) <==> InSeal(s, q, i)
  {
    hide Reachable, Sound, Legal, Outcome;
    ReachableSound(s);
    RunIsolates(s, i, run);
  }
}
