/** What every step of the protocol keeps of row ids and of the queue: which rows
    are pending, in what order, and under which key.

    Row ids are never used again, batches are sealed in id order with at most the
    last one pending, and a worker's queue and the batch it accumulates are together
    the live rows in id order (but for a head whose rows are already deleted). Only
    the head can carry a key, the one its rows were last sealed under. The later
    invariants, and the theorems about runs, are built on these. */
module Structure {
  import opened Bytes
  import opened Record
  import opened BatchKey
  import opened Protocol

  // Ids are never reused, and rows leave from the front.
  ghost predicate Ids(s: State) {
    && (forall i :: i in s.staged ==> i in s.accepted)
    && (forall i :: i in s.accepted ==> i < s.nextId)
    && (forall i, j | Live(s, i) && i < j && j in s.accepted :: Live(s, j))
  }

  predicate InSeal(s: State, q: int, i: nat) { 0 <= q < |s.seals| && i in s.seals[q].ids }

  predicate Before(a: seq<nat>, b: seq<nat>) { forall i, j | i in a && j in b :: i < j }

  function Last(s: State): Batch
    requires s.seals != []
  {
    s.seals[|s.seals| - 1]
  }

  // Batches are sealed in id order, and at most the last one is still pending.
  ghost predicate Seals(s: State) {
    && (forall q | 0 <= q < |s.seals| :: s.seals[q].ids != [] && Ascends(s.seals[q].ids))
    && (forall q, i | InSeal(s, q, i) :: i in s.accepted)
    && (forall q, r | 0 <= q < r < |s.seals| :: Before(s.seals[q].ids, s.seals[r].ids))
    && (forall q, i, j | InSeal(s, q, i) && Unsealed(s, j) :: i < j)
    && (forall i, key | SealedAs(s, i, key) ::
          s.seals != [] && key == Last(s).key && i in Last(s).ids && forall j | j in Last(s).ids :: SealedAs(s, j, key))
  }

  function Waiting(w: Worker): seq<nat> { Flat(w.queue) + w.batch }

  function Rest(w: Worker): seq<nat> {
    if w.queue == [] then w.batch else Flat(w.queue[1..]) + w.batch
  }

  ghost predicate HeadHere(s: State)
    requires Working(s)
  {
    forall i | i in Head(s).ids :: Live(s, i) && s.staged[i].key == Head(s).key
  }

  ghost predicate HeadGone(s: State)
    requires Working(s)
  {
    Head(s).key.Some? && forall i | i in Head(s).ids :: i !in s.staged
  }

  // The worker's queue and batch are the live rows in id order, except that the
  // head's rows may already be deleted. Only the head can carry a key.
  ghost predicate Queue(s: State) {
    s.owner.Writer? ==>
      var w := s.owner.w;
      && Ascends(Waiting(w))
      && (forall k | 0 <= k < |w.queue| :: w.queue[k].ids != [])
      && (forall k | 1 <= k < |w.queue| :: w.queue[k].key.None?)
      && (forall i | i in Rest(w) :: Unsealed(s, i))
      && (forall i | Live(s, i) :: i in Waiting(w))
      && (Working(s) ==> HeadHere(s) || HeadGone(s))
      && (!w.phase.Resting? ==> Keyed(s) && if w.phase.Deleted? then HeadGone(s) else HeadHere(s))
      && (Keyed(s) ==> s.seals != [] && Last(s).ids == Head(s).ids && Last(s).key == Key(s))
  }

  ghost predicate Structured(s: State) { Ids(s) && Seals(s) && Queue(s) }

  // A row is in one batch at most.
  lemma OneSeal(s: State, p: int, q: int, i: nat)
    requires Seals(s) && InSeal(s, p, i) && InSeal(s, q, i)
    ensures p == q
  {
    hide Ascends;
    assert p < q ==> Before(s.seals[p].ids, s.seals[q].ids);
    assert q < p ==> Before(s.seals[q].ids, s.seals[p].ids);
  }

  // ------------------------------------------------------------------- lists

  lemma WaitingSplits(w: Worker)
    requires w.queue != []
    ensures Waiting(w) == w.queue[0].ids + Rest(w)
  {
    assert w.queue[0].ids + Flat(w.queue[1..]) + w.batch == w.queue[0].ids + (Flat(w.queue[1..]) + w.batch);
  }

  lemma {:induction false} FlatAppends(queue: seq<Job>, j: Job)
    ensures Flat(queue + [j]) == Flat(queue) + j.ids
    decreases |queue|
  {
    if queue == [] {
      assert queue + [j] == [j] && [j][1..] == [];
    } else {
      assert (queue + [j])[0] == queue[0] && (queue + [j])[1..] == queue[1..] + [j];
      FlatAppends(queue[1..], j);
    }
  }

  lemma AscendsParts(a: seq<nat>, b: seq<nat>)
    requires Ascends(a + b)
    ensures Ascends(a) && Ascends(b) && Before(a, b)
  {
    assert forall k | 0 <= k < |a| :: (a + b)[k] == a[k];
    assert forall k | 0 <= k < |b| :: (a + b)[|a| + k] == b[k];
    forall i, j | i in a && j in b
      ensures i < j
    {
      var x :| 0 <= x < |a| && a[x] == i;
      var y :| 0 <= y < |b| && b[y] == j;
      assert (a + b)[x] == i && (a + b)[|a| + y] == j;
    }
  }

  lemma AscendsJoin(a: seq<nat>, b: seq<nat>)
    requires Ascends(a) && Ascends(b) && Before(a, b)
    ensures Ascends(a + b)
  {
    forall x, y | 0 <= x < y < |a + b|
      ensures (a + b)[x] < (a + b)[y]
    {
      if x < |a| <= y {
        assert a[x] in a && b[y - |a|] in b;
      }
    }
  }

  // The head's rows, the rows behind it, and that nothing is in both.
  lemma HeadFirst(s: State)
    requires Queue(s) && Working(s)
    ensures Waiting(s.owner.w) == Head(s).ids + Rest(s.owner.w)
    ensures Ascends(Head(s).ids) && Ascends(Rest(s.owner.w)) && Before(Head(s).ids, Rest(s.owner.w))
  {
    WaitingSplits(s.owner.w);
    AscendsParts(Head(s).ids, Rest(s.owner.w));
  }

  // ------------------------------------------------------------ what a step changes

  // Only the worker's memory differs.
  ghost predicate OwnerOnly(s: State, t: State) { t == s.(owner := t.owner) && s.owner.Writer? && t.owner.Writer? }

  lemma MemoryOnly(s: State, phase: Phase)
    requires s.owner.Writer?
    ensures OwnerOnly(s, To(s, phase)) && OwnerOnly(s, Refreshed(s, true)) && OwnerOnly(s, Refreshed(s, false))
    ensures Refreshed(s, true).owner.w.queue == s.owner.w.queue
    ensures Working(s) ==> OwnerOnly(s, Failed(s)) && OwnerOnly(s, Popped(s))
    ensures Keyed(s) ==> OwnerOnly(s, Prepared(s))
  {
    hide FileOf;
  }

  // What the stores hold after a step, memory aside.
  predicate HasEffect(s: State, step: Step) {
    && Working(s) && (step.Seal? || Keyed(s) || step.Fail? || step.Quarantine?)
    && (step.WriteSpool? ==> Stage(s).Ready?) && (step.Upload? ==> Stage(s).Written?)
  }

  function Effect(s: State, step: Step): State
    requires HasEffect(s, step)
  {
    match step
    case Seal(key) => Sealed(s, key)
    case WriteSpool(stamp, recorded) =>
      s.(files := s.files[Key(s) := Stage(s).file],
         records := if recorded then Recorded(s, Key(s), stamp) else s.records)
    case Upload(_) => s.(bucket := s.bucket[Key(s) := Stage(s).file])
    case Commit(_, _) => s.(table := s.table + [Key(s)])
    case Mark => if s.owner.w.spooling then Marked(s, Key(s)) else s
    case Delete => s.(staged := Pruned(s.staged, Head(s).ids))
    case Quarantine => s.(staged := Quarantined(s.staged, Head(s).ids))
    case _ => s
  }

  lemma StepEffect(s: State, step: Step)
    requires Working(s) && CanStep(s, step)
    ensures HasEffect(s, step) && OwnerOnly(Effect(s, step), NextStep(s, step))
  {
    hide To, Failed, Refreshed, Popped, Prepared, FileOf, Recode, Render, KeyFor, Pruned, Quarantined, Stamped,
      RecodedAll, Unpreparable;
    match step
    case Seal(key) => MemoryOnly(Sealed(s, key), Resting);
    case Reread => MemoryOnly(s, Resting);
    case WriteSpool(stamp, _) =>
      var t := s.(files := s.files[Key(s) := Stage(s).file]);
      MemoryOnly(t, Resting);
      MemoryOnly(t.(records := Recorded(s, Key(s), stamp)), Written(Stage(s).file));
    case Upload(_) => MemoryOnly(s.(bucket := s.bucket[Key(s) := Stage(s).file]), Uploaded);
    case Commit(_, refreshed) =>
      var t := s.(table := s.table + [Key(s)]);
      MemoryOnly(t, Resting);
      MemoryOnly(Refreshed(t, true), Confirmed);
      FailedMemory(t, refreshed);
    case Conflict(refreshed) => FailedMemory(s, refreshed);
    case SkipSpool => MemoryOnly(s, Written(Stage(s).file));
    case Mark =>
      MemoryOnly(s, Settled);
      MemoryOnly(Marked(s, Key(s)), Settled);
    case KeepLocal => MemoryOnly(s, Settled);
    case Delete => MemoryOnly(s.(staged := Pruned(s.staged, Head(s).ids)), Deleted);
    case Leave => MemoryOnly(s, Resting);
    case Fail => MemoryOnly(s, Resting);
    case Quarantine => MemoryOnly(s.(staged := Quarantined(s.staged, Head(s).ids)), Resting);
  }

  lemma FailedMemory(s: State, refreshed: bool)
    requires Working(s)
    ensures OwnerOnly(s, Failed(Refreshed(s, refreshed)))
  {
  }

  // ------------------------------------------------------------------- steps

  // What the steps that move no row leave alone.
  predicate MovesNoRow(step: Step) { !step.Seal? && !step.Delete? && !step.Quarantine? }

  predicate SameRows(s: State, t: State) {
    t.accepted == s.accepted && t.seals == s.seals && t.nextId == s.nextId && t.staged == s.staged
  }

  // The pending work is the same, whatever is known of the head's attempts.
  predicate SamePending(s: State, t: State) {
    && s.owner.Writer? && t.owner.Writer? && s.owner.w.batch == t.owner.w.batch
    && Working(s) && Working(t) && s.owner.w.queue[1..] == t.owner.w.queue[1..]
    && Head(s).ids == Head(t).ids && Head(s).key == Head(t).key
  }

  // A step that moves no row changes only how far the attempt is known to be.
  predicate SameWork(s: State, t: State) { SameRows(s, t) && SamePending(s, t) && !t.owner.w.phase.Deleted? }

  // The same rows and the same queue, whatever else an attempt has changed.
  predicate SameQueue(s: State, t: State) {
    && SameRows(s, t) && s.owner.Writer? && t.owner.Writer?
    && t.owner.w.queue == s.owner.w.queue && t.owner.w.batch == s.owner.w.batch
  }

  lemma GoesOn(s: State, t: State, phase: Phase)
    requires Working(s) && SameQueue(s, t) && !phase.Deleted?
    ensures SameWork(s, To(t, phase))
  {
  }

  lemma GivesUp(s: State, t: State)
    requires Working(s) && SameQueue(s, t)
    ensures SameWork(s, Failed(t)) && Stage(Failed(t)).Resting?
  {
  }

  lemma StepLeavesRows(s: State, step: Step)
    requires Working(s) && CanStep(s, step) && MovesNoRow(step) && !step.Leave?
    ensures SameWork(s, NextStep(s, step))
    ensures step.Fail? ==> Stage(NextStep(s, step)).Resting?
  {
    hide FileOf, To, Failed, SameWork, Recode, Render, KeyFor, Unsealed;
    match step
    case WriteSpool(stamp, _) =>
      var t := s.(files := s.files[Key(s) := Stage(s).file]);
      GoesOn(s, t.(records := Recorded(s, Key(s), stamp)), Written(Stage(s).file));
      GivesUp(s, t);
    case Upload(_) =>
      var t := s.(bucket := s.bucket[Key(s) := Stage(s).file]);
      GoesOn(s, t, Uploaded);
      GivesUp(s, t);
    case Commit(_, refreshed) =>
      var t := s.(table := s.table + [Key(s)]);
      GoesOn(s, Refreshed(t, true), Confirmed);
      GivesUp(s, Refreshed(t, refreshed));
    case Conflict(refreshed) => GivesUp(s, Refreshed(s, refreshed));
    case Reread =>
      GoesOn(s, s, Confirmed);
      GoesOn(s, s, Ready(FileOf(s.staged, Head(s).ids, s.owner.w.shape)));
    case SkipSpool => GoesOn(s, s, Written(Stage(s).file));
    case Mark =>
      GoesOn(s, s, Settled);
      GoesOn(s, Marked(s, Key(s)), Settled);
    case KeepLocal => GoesOn(s, s, Settled);
    case Fail => GivesUp(s, s);
  }

  // An attempt goes on only with a head that is keyed and still staged.
  lemma StepHasHead(s: State, step: Step)
    requires Queue(s) && Working(s) && CanStep(s, step) && MovesNoRow(step) && !step.Leave? && !step.Fail?
    ensures Keyed(s) && HeadHere(s)
  {
    if step.Reread? {
      var i := Head(s).ids[0];
      assert i in Head(s).ids && i in s.staged;
    }
  }

  lemma WalkLeavesRows(s: State, step: DrainStep)
    requires s.owner.Drain? && CanWalk(s, step)
    ensures SameRows(s, NextWalk(s, step)) && !NextWalk(s, step).owner.Writer?
  {
  }

  lemma SameRowsSame(s: State, t: State)
    requires SameRows(s, t) && Ids(s) && Seals(s)
    ensures Ids(t) && Seals(t)
    ensures forall i :: Live(t, i) == Live(s, i) && Unsealed(t, i) == Unsealed(s, i)
    ensures forall i, key :: SealedAs(t, i, key) == SealedAs(s, i, key)
  {
    assert forall i :: Live(t, i) == Live(s, i) && Unsealed(t, i) == Unsealed(s, i);
    assert forall i, key :: SealedAs(t, i, key) == SealedAs(s, i, key);
    assert forall q, i :: InSeal(t, q, i) == InSeal(s, q, i);
  }

  lemma WaitingKnown(s: State, i: nat)
    requires Structured(s) && s.owner.Writer? && i in Waiting(s.owner.w)
    ensures i in s.accepted
  {
    hide Ascends, Before;
    if Working(s) {
      WaitingSplits(s.owner.w);
      if i in Head(s).ids && HeadGone(s) {
        assert Keyed(s) && InSeal(s, |s.seals| - 1, i);
      } else if i in Rest(s.owner.w) {
        assert Unsealed(s, i);
      }
    } else {
      assert Waiting(s.owner.w) == s.owner.w.batch == Rest(s.owner.w) && Unsealed(s, i);
    }
  }

  lemma {:induction false} AcceptKeeps(s: State, payloads: seq<seq<byte>>)
    requires Structured(s) && s.owner.Writer?
    ensures Structured(AfterAccept(s, payloads))
    decreases |payloads|
  {
    hide Structured;
    if payloads != [] {
      AddKeeps(s, payloads[0]);
      AcceptKeeps(Added(s, payloads[0]), payloads[1..]);
    }
  }

  lemma AddKeeps(s: State, payload: seq<byte>)
    requires Structured(s) && s.owner.Writer?
    ensures Structured(Added(s, payload))
  {
    hide Ids, Seals, Queue;
    AddKeepsIds(s, payload);
    AddKeepsSeals(s, payload);
    AddKeepsQueue(s, payload);
  }

  lemma AddedRow(s: State, payload: seq<byte>)
    requires Ids(s) && s.owner.Writer?
    ensures var t := Added(s, payload);
            && Unsealed(t, s.nextId)
            && (forall i | i != s.nextId :: Live(t, i) == Live(s, i) && Unsealed(t, i) == Unsealed(s, i))
            && (forall i, key :: SealedAs(t, i, key) == SealedAs(s, i, key))
  {
    assert s.nextId !in s.staged;
  }

  lemma AddKeepsIds(s: State, payload: seq<byte>)
    requires Ids(s) && s.owner.Writer?
    ensures Ids(Added(s, payload))
  {
    AddedRow(s, payload);
  }

  lemma AddKeepsSeals(s: State, payload: seq<byte>)
    requires Ids(s) && Seals(s) && s.owner.Writer?
    ensures Seals(Added(s, payload))
  {
    hide Live, Unsealed, SealedAs, Ascends, Before;
    AddedRow(s, payload);
    var t := Added(s, payload);
    assert forall q, i :: InSeal(t, q, i) == InSeal(s, q, i);
  }

  lemma AddKeepsQueue(s: State, payload: seq<byte>)
    requires Structured(s) && s.owner.Writer?
    ensures Queue(Added(s, payload))
  {
    hide Seals, Unsealed, Flat;
    var t := Added(s, payload);
    var w, v := s.owner.w, t.owner.w;
    AddedRow(s, payload);
    assert Waiting(v) == Waiting(w) + [s.nextId] && Rest(v) == Rest(w) + [s.nextId];
    forall i | i in Waiting(w)
      ensures i < s.nextId
    {
      WaitingKnown(s, i);
    }
    AscendsJoin(Waiting(w), [s.nextId]);
    if Working(s) {
      WaitingSplits(w);
      assert forall i | i in Head(s).ids :: i in Waiting(w);
    }
  }

  lemma SamePendingSame(s: State, t: State)
    requires Structured(s) && SameRows(s, t) && SamePending(s, t)
    requires Stage(t).Resting? || (Keyed(s) && HeadHere(s) && !Stage(t).Deleted?)
    ensures Structured(t)
  {
    hide Ids, Seals, Live, Unsealed, SealedAs, Ascends, Flat;
    SameRowsSame(s, t);
    WaitingSplits(s.owner.w);
    WaitingSplits(t.owner.w);
    forall k | 1 <= k < |t.owner.w.queue|
      ensures t.owner.w.queue[k] == s.owner.w.queue[k]
    {
      assert t.owner.w.queue[k] == t.owner.w.queue[1..][k - 1] == s.owner.w.queue[1..][k - 1] == s.owner.w.queue[k];
    }
    assert |t.owner.w.queue[1..]| == |s.owner.w.queue[1..]|;
  }

  lemma EnqueueKeeps(s: State)
    requires Structured(s) && s.owner.Writer? && s.owner.w.batch != []
    ensures Structured(AfterEnqueue(s))
  {
    hide Ids, Seals, Live, Unsealed, SealedAs, Ascends, Flat, Waiting, Rest, HeadHere, HeadGone;
    var t := AfterEnqueue(s);
    SameRowsSame(s, t);
    var w, v := s.owner.w, t.owner.w;
    EnqueueKeepsLists(w);
    if Working(s) {
      assert Head(t) == Head(s);
      SameHeadSame(s, t);
    } else {
      assert Head(t) == Job(w.batch, None, false, false);
      NewHeadHere(s, t);
    }
  }

  lemma EnqueueKeepsLists(w: Worker)
    ensures var v := w.(queue := w.queue + [Job(w.batch, None, false, false)], batch := []);
            && Waiting(v) == Waiting(w)
            && if w.queue == [] then Rest(v) == [] && Rest(w) == w.batch else Rest(v) == Rest(w)
  {
    var j := Job(w.batch, None, false, false);
    FlatAppends(w.queue, j);
    if w.queue == [] {
      assert w.queue + [j] == [j] && [j][1..] == [];
    } else {
      assert (w.queue + [j])[1..] == w.queue[1..] + [j];
      FlatAppends(w.queue[1..], j);
    }
  }

  lemma SameHeadSame(s: State, t: State)
    requires SameRows(s, t) && Working(s) && Working(t) && Head(t) == Head(s)
    ensures HeadHere(t) == HeadHere(s) && HeadGone(t) == HeadGone(s)
  {
  }

  lemma NewHeadHere(s: State, t: State)
    requires SameRows(s, t) && Queue(s) && s.owner.Writer? && s.owner.w.queue == []
    requires Working(t) && Head(t) == Job(s.owner.w.batch, None, false, false)
    ensures HeadHere(t)
  {
    hide Ids, Seals, Ascends;
    assert Rest(s.owner.w) == Head(t).ids;
    assert forall i | i in Head(t).ids :: Unsealed(s, i);
  }

  lemma PopKeeps(s: State)
    requires Structured(s) && Working(s) && forall i | i in Head(s).ids :: !Live(s, i)
    ensures Structured(Popped(s))
  {
    hide Ids, Seals, SealedAs, Flat;
    var t := Popped(s);
    SameRowsSame(s, t);
    HeadFirst(s);
    var v := t.owner.w;
    assert Waiting(v) == Rest(s.owner.w);
    if Working(t) {
      WaitingSplits(v);
      assert Head(t) == s.owner.w.queue[1];
      forall i | i in Head(t).ids
        ensures Unsealed(s, i)
      {
        assert i in Rest(s.owner.w);
      }
    }
  }

  // The head's rows stop being live, by deletion or by quarantine.
  ghost predicate HeadLeaves(s: State, t: State)
    requires Working(s)
  {
    && t.accepted == s.accepted && t.seals == s.seals && t.nextId == s.nextId
    && (forall i | i in t.staged :: i in s.staged && t.staged[i].key == s.staged[i].key)
    && (forall i :: Live(t, i) <==> Live(s, i) && i !in Head(s).ids)
  }

  lemma HeadLeavesKeeps(s: State, t: State)
    requires Structured(s) && Working(s) && HeadHere(s) && HeadLeaves(s, t)
    ensures Ids(t) && Seals(t)
    ensures forall i :: Unsealed(t, i) == (Unsealed(s, i) && i !in Head(s).ids)
  {
    hide Ascends, Flat;
    HeadFirst(s);
    assert forall i, key :: !SealedAs(t, i, key);
    assert forall q, i :: InSeal(t, q, i) == InSeal(s, q, i);
  }

  lemma DeleteKeeps(s: State)
    requires Structured(s) && Keyed(s) && HeadHere(s)
    ensures Structured(To(s.(staged := Pruned(s.staged, Head(s).ids)), Deleted))
  {
    hide Ids, Seals, Ascends, Flat, SealedAs;
    var t := To(s.(staged := Pruned(s.staged, Head(s).ids)), Deleted);
    HeadFirst(s);
    HeadLeavesKeeps(s, t);
  }

  lemma QuarantineKeeps(s: State)
    requires Structured(s) && Working(s) && HeadHere(s)
    ensures Structured(Popped(s.(staged := Quarantined(s.staged, Head(s).ids))))
  {
    hide Ids, Seals, SealedAs, Flat, Quarantined;
    var u := s.(staged := Quarantined(s.staged, Head(s).ids));
    var t := Popped(u);
    QuarantinedRows(s);
    HeadLeavesKeeps(s, u);
    SameRowsSame(u, t);
    HeadFirst(s);
    assert Waiting(t.owner.w) == Rest(s.owner.w);
    assert forall i | i in Rest(s.owner.w) :: Unsealed(t, i);
    if Working(t) {
      WaitingSplits(t.owner.w);
      assert Head(t) == s.owner.w.queue[1];
      assert forall i | i in Head(t).ids :: i in Rest(s.owner.w);
    }
  }

  lemma QuarantinedRows(s: State)
    requires Working(s) && HeadHere(s)
    ensures HeadLeaves(s, s.(staged := Quarantined(s.staged, Head(s).ids)))
  {
  }

  lemma StampedRows(s: State, ids: seq<nat>, key: Digest, shape: Declared)
    requires forall i | i in ids :: Unsealed(s, i)
    ensures var t := s.(staged := Stamped(s.staged, ids, key, shape));
            && t.staged.Keys == s.staged.Keys
            && (forall i :: Live(t, i) == Live(s, i))
            && (forall i :: Unsealed(t, i) == (Unsealed(s, i) && i !in ids))
            && (forall i, k :: SealedAs(t, i, k) <==> if i in ids then k == key else SealedAs(s, i, k))
  {
    hide Recoded;
    var t := s.(staged := Stamped(s.staged, ids, key, shape));
    assert forall i | i in s.staged :: t.staged[i].quarantined == s.staged[i].quarantined;
  }

  lemma NoneSealed(s: State)
    requires Structured(s) && Working(s) && Head(s).key.None?
    ensures forall i, k :: !SealedAs(s, i, k)
  {
    hide Ids, Seals, Ascends, Flat;
    WaitingSplits(s.owner.w);
    assert forall i | Live(s, i) :: i in Head(s).ids || i in Rest(s.owner.w);
  }

  lemma SealedRows(s: State, key: Digest)
    requires Structured(s) && Working(s) && CanStep(s, Seal(key))
    ensures var t := Sealed(s, key);
            && (forall i :: Live(t, i) == Live(s, i))
            && (forall i :: Unsealed(t, i) == (Unsealed(s, i) && i !in Head(s).ids))
            && (forall i, k :: SealedAs(t, i, k) <==> i in Head(s).ids && k == key)
            && t.staged.Keys == s.staged.Keys
  {
    hide Ids, Seals, Queue, Stamped, RecodedAll, KeyFor, Recode;
    StampedRows(s, Head(s).ids, key, s.owner.w.shape);
    NoneSealed(s);
    var u := s.(staged := Stamped(s.staged, Head(s).ids, key, s.owner.w.shape));
    var t := Sealed(s, key);
    assert forall i, k :: SealedAs(t, i, k) == SealedAs(u, i, k);
    assert forall i :: Live(t, i) == Live(u, i) && Unsealed(t, i) == Unsealed(u, i);
  }

  lemma SealKeepsSealed(s: State, key: Digest)
    requires Structured(s) && Working(s) && CanStep(s, Seal(key))
    ensures Structured(Sealed(s, key)) && Keyed(Sealed(s, key)) && HeadHere(Sealed(s, key))
  {
    hide Ids, Seals, Queue, Stamped, RecodedAll, KeyFor, Recode, FileOf, Live, Unsealed, SealedAs;
    var t := Sealed(s, key);
    SealedRows(s, key);
    assert t.seals[..|s.seals|] == s.seals;
    SealKeepsSeals(s, t, key);
    SealKeepsQueue(s, t, key);
  }

  lemma SealKeeps(s: State, key: Digest)
    requires Structured(s) && Working(s) && CanStep(s, Seal(key))
    ensures Structured(Prepared(Sealed(s, key)))
  {
    hide CanStep, Structured, Sealed, Prepared;
    SealKeepsSealed(s, key);
    PreparedSame(Sealed(s, key));
  }

  lemma PreparedSame(s: State)
    requires Structured(s) && Keyed(s) && HeadHere(s)
    ensures Structured(Prepared(s))
  {
    hide Structured, FileOf, HeadHere;
    SamePendingSame(s, Prepared(s));
  }

  lemma SealKeepsSeals(s: State, t: State, key: Digest)
    requires Structured(s) && Working(s) && forall i | i in Head(s).ids :: Unsealed(s, i)
    requires forall i :: Live(t, i) == Live(s, i)
    requires forall i :: Unsealed(t, i) == (Unsealed(s, i) && i !in Head(s).ids)
    requires forall i, k :: SealedAs(t, i, k) <==> i in Head(s).ids && k == key
    requires t.accepted == s.accepted && t.nextId == s.nextId && t.staged.Keys == s.staged.Keys
    requires |t.seals| == |s.seals| + 1 && t.seals[..|s.seals|] == s.seals
    requires Last(t).key == key && Last(t).ids == Head(s).ids
    ensures Ids(t) && Seals(t)
  {
    hide Flat, Ascends;
    HeadFirst(s);
    assert forall q | 0 <= q < |s.seals| :: t.seals[q] == t.seals[..|s.seals|][q] == s.seals[q];
    forall q, r | 0 <= q < r < |t.seals|
      ensures Before(t.seals[q].ids, t.seals[r].ids)
    {
      if r == |s.seals| {
        forall i, j | i in t.seals[q].ids && j in t.seals[r].ids
          ensures i < j
        {
          assert InSeal(s, q, i) && Unsealed(s, j);
        }
      }
    }
    forall q, i | InSeal(t, q, i)
      ensures i in t.accepted && forall j | Unsealed(t, j) :: i < j
    {
      if q < |s.seals| {
        assert InSeal(s, q, i);
      } else {
        forall j | Unsealed(t, j)
          ensures i < j
        {
          assert j in Waiting(s.owner.w);
        }
      }
    }
  }

  lemma SealKeepsQueue(s: State, t: State, key: Digest)
    requires Structured(s) && Working(s) && Stage(s).Resting? && forall i | i in Head(s).ids :: Unsealed(s, i)
    requires t.owner == Writer(s.owner.w.(queue := [Head(s).(key := Some(key))] + s.owner.w.queue[1..]))
    requires forall i :: Live(t, i) == Live(s, i)
    requires forall i :: Unsealed(t, i) == (Unsealed(s, i) && i !in Head(s).ids)
    requires forall i, k :: SealedAs(t, i, k) <==> i in Head(s).ids && k == key
    requires t.seals != [] && Last(t).key == key && Last(t).ids == Head(s).ids
    ensures Queue(t) && Keyed(t) && HeadHere(t)
  {
    hide Ids, Seals, Ascends;
    HeadFirst(s);
    WaitingSplits(t.owner.w);
    assert t.owner.w.queue[1..] == s.owner.w.queue[1..] && Head(t).ids == Head(s).ids;
    assert Rest(t.owner.w) == Rest(s.owner.w);
    forall k | 1 <= k < |t.owner.w.queue|
      ensures t.owner.w.queue[k] == s.owner.w.queue[k]
    {
      assert t.owner.w.queue[k] == t.owner.w.queue[1..][k - 1];
    }
    forall i | i in Head(t).ids
      ensures Live(t, i) && t.staged[i].key == Head(t).key
    {
      assert SealedAs(t, i, key);
    }
  }

  lemma FirstIsIn(a: seq<nat>)
    requires a != []
    ensures a[0] in a
  {
  }

  // An ascending list is determined by what is in it.
  lemma {:induction false} AscendingIsUnique(a: seq<nat>, b: seq<nat>)
    requires Ascends(a) && Ascends(b) && forall i :: i in a <==> i in b
    ensures a == b
    decreases |a|
  {
    if a == [] {
      if b != [] {
        FirstIsIn(b);
        assert false;
      }
    } else {
      assert a[0] in a && a[0] in b && b[0] in b && b[0] in a;
      assert a == [a[0]] + a[1..] && b == [b[0]] + b[1..];
      forall i
        ensures i in a[1..] <==> i in b[1..]
      {
        if i in a[1..] {
          var k :| 1 <= k < |a| && a[k] == i;
          assert a[0] < a[k] && i in a;
        }
        if i in b[1..] {
          var k :| 1 <= k < |b| && b[k] == i;
          assert b[0] < b[k] && i in b;
        }
      }
      AscendingIsUnique(a[1..], b[1..]);
    }
  }

  lemma OneJob(jobs: seq<Job>, ids: seq<nat>)
    requires jobs != [] && ids != [] && forall k | 0 <= k < |jobs| :: jobs[k].ids == ids
    requires forall j, k | 0 <= j < k < |jobs| :: jobs[j].ids[0] < jobs[k].ids[0]
    ensures |jobs| == 1
  {
    var first, last := jobs[0], jobs[|jobs| - 1];
    assert first.ids[0] == ids[0] == last.ids[0];
  }

  /** A restart finds at most one sealed batch, and it is the last one sealed. */
  lemma AtMostOneSealed(s: State, jobs: seq<Job>, tail: seq<nat>)
    requires Structured(s) && Scan(s, jobs, tail)
    ensures |jobs| <= 1
    ensures jobs != [] ==> s.seals != [] && jobs[0].key == Some(Last(s).key) && jobs[0].ids == Last(s).ids
    ensures |jobs| == 1 ==> forall i :: i in jobs[0].ids <==> SealedAs(s, i, Last(s).key)
  {
    hide Ids, Queue, Live, Unsealed, SealedAs, Before;
    forall k | 0 <= k < |jobs|
      ensures s.seals != [] && jobs[k].key == Some(Last(s).key) && forall i :: i in jobs[k].ids <==>
              SealedAs(s, i, Last(s).key)
    {
      assert Scanned(s, jobs[k].ids, jobs[k].key.value);
      var i := jobs[k].ids[0];
      assert i in jobs[k].ids && SealedAs(s, i, jobs[k].key.value);
    }
    forall k | 0 <= k < |jobs|
      ensures jobs[k].ids == Last(s).ids
    {
      assert jobs[k].ids[0] in jobs[k].ids && SealedAs(s, jobs[k].ids[0], Last(s).key);
      AscendingIsUnique(jobs[k].ids, Last(s).ids);
    }
    if jobs != [] {
      OneJob(jobs, jobs[0].ids);
    }
  }

  // What is waiting for a writer just opened: one sealed batch, or none, then the rest.
  lemma OpenWaits(s: State, w: Worker, jobs: seq<Job>, tail: seq<nat>)
    requires Structured(s) && Scan(s, jobs, tail) && w.queue == jobs && w.batch == tail
    ensures Ascends(Waiting(w)) && Rest(w) == tail && forall i | Live(s, i) :: i in Waiting(w)
  {
    hide Ids, Queue, Ascends;
    AtMostOneSealed(s, jobs, tail);
    forall i | Live(s, i)
      ensures i in Waiting(w)
    {
      if s.staged[i].key.Some? {
        assert SealedAs(s, i, s.staged[i].key.value);
      }
    }
    if jobs == [] {
      assert Waiting(w) == tail;
    } else {
      WaitingSplits(w);
      assert jobs[1..] == [] && Rest(w) == tail;
      forall i, j | i in jobs[0].ids && j in tail
        ensures i < j
      {
        assert InSeal(s, |s.seals| - 1, i) && Unsealed(s, j);
      }
      AscendsJoin(jobs[0].ids, tail);
    }
  }

  lemma OpenKeeps(s: State, localOnly: bool, spooling: bool, shape: Declared, jobs: seq<Job>, tail: seq<nat>)
    requires Structured(s) && Scan(s, jobs, tail)
    ensures Structured(AfterOpen(s, localOnly, spooling, shape, jobs, tail))
  {
    hide Ids, Seals, Ascends, Waiting, Rest;
    var t := AfterOpen(s, localOnly, spooling, shape, jobs, tail);
    AtMostOneSealed(s, jobs, tail);
    SameRowsSame(s, t);
    OpenWaits(s, t.owner.w, jobs, tail);
    if jobs != [] {
      assert forall i | i in Head(t).ids :: SealedAs(t, i, Last(s).key);
    }
  }

  lemma StepKeeps(s: State, step: Step)
    requires Structured(s) && Working(s) && CanStep(s, step)
    ensures Structured(NextStep(s, step))
  {
    hide Structured, SameWork, HeadHere, HeadGone, Quarantined, Pruned, Sealed, Prepared, Popped;
    if MovesNoRow(step) && !step.Leave? {
      NoRowStepKeeps(s, step);
    } else if step.Seal? {
      SealKeeps(s, step.key);
    } else {
      LeavingKeeps(s, step);
    }
  }

  lemma NoRowStepKeeps(s: State, step: Step)
    requires Structured(s) && Working(s) && CanStep(s, step) && MovesNoRow(step) && !step.Leave?
    ensures Structured(NextStep(s, step))
  {
    hide CanStep, NextStep, Ids, Seals;
    StepLeavesRows(s, step);
    if !step.Fail? {
      StepHasHead(s, step);
    }
    SamePendingSame(s, NextStep(s, step));
  }

  lemma LeavingKeeps(s: State, step: Step)
    requires Structured(s) && Working(s) && CanStep(s, step) && (step.Delete? || step.Leave? || step.Quarantine?)
    ensures Structured(NextStep(s, step))
  {
    hide Ids, Seals, Quarantined, Pruned, Flat, Ascends;
    match step
    case Delete =>
      DeleteKeeps(s);
    case Leave =>
      PopKeeps(s);
    case Quarantine =>
      assert Head(s).ids[0] in Head(s).ids;
      QuarantineKeeps(s);
  }

  /** Every step keeps the order of the queue and of the seals. */
  lemma StructureKept(s: State, e: Event)
    requires Structured(s) && Can(s, e)
    ensures Structured(Next(s, e))
  {
    hide Structured, CanStep, NextStep, CanWalk, NextWalk, Scan, AfterEnqueue, AfterAccept;
    match e
    case Accept(payloads) => AcceptKeeps(s, payloads);
    case Enqueue => EnqueueKeeps(s);
    case Attempt(step) => StepKeeps(s, step);
    case Open(localOnly, spooling, shape, jobs, tail) => OpenKeeps(s, localOnly, spooling, shape, jobs, tail);
    case Walk(step) => WalkLeavesRows(s, step); OwnerlessKeeps(s, Next(s, e));
    case Elsewhere(n) => GapKeeps(s, n);
    case EvictFile(_) => OutsideKeeps(s, Next(s, e));
    case EvictRecord(_) => OutsideKeeps(s, Next(s, e));
    case _ => OwnerlessKeeps(s, Next(s, e));
  }

  lemma OwnerlessKeeps(s: State, t: State)
    requires Structured(s) && SameRows(s, t) && !t.owner.Writer?
    ensures Structured(t)
  {
    hide Ids, Seals;
    SameRowsSame(s, t);
  }

  lemma OutsideKeeps(s: State, t: State)
    requires Structured(s) && SameRows(s, t) && t.owner == s.owner
    ensures Structured(t)
  {
    hide Ids, Seals, Live, Unsealed, SealedAs, Ascends;
    SameRowsSame(s, t);
  }

  lemma GapKeeps(s: State, n: nat)
    requires Structured(s)
    ensures Structured(s.(nextId := s.nextId + n))
  {
    hide Ascends, Before;
    var t := s.(nextId := s.nextId + n);
    assert forall i :: Live(t, i) == Live(s, i) && Unsealed(t, i) == Unsealed(s, i);
    assert forall i, key :: SealedAs(t, i, key) == SealedAs(s, i, key);
    assert forall q, i :: InSeal(t, q, i) == InSeal(s, q, i);
  }
}
