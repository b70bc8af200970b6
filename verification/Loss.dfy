/** When a batch's rows leave and no copy of its file is added. */
module Loss {
  import opened Bytes
  import opened BatchKey
  import opened Protocol
  import opened Structure
  import opened Safety
  import opened Contents
  import opened ExactlyOnce
  import opened Repeats
  import opened Restart
  import opened Order
  import opened Fate

  // All of the batch's rows have left staging.
  ghost predicate Gone(s: State, q: int) { 0 <= q < |s.seals| && forall i | i in s.seals[q].ids :: i !in s.staged }

  // When it was sealed, its file was in the table already, or listed in the backlog.
  predicate SealedUpon(s: State, q: int) { 0 <= q < |s.seals| && (s.seals[q].listed || SealedOver(s, q)) }

  /** The copies of a batch's file: those in the table, and the one a drain would add. */
  function Kept(s: State, key: Digest): nat {
    Copies(s.table, key) + if Unmarked(s, key) && key !in s.table then 1 else 0
  }

  // How many of the first n batches have this key and are out of staging.
  ghost function Spent(s: State, key: Digest, n: nat): nat
    requires n <= |s.seals|
  {
    if n == 0 then 0
    else Spent(s, key, n - 1) + if s.seals[n - 1].key == key && Gone(s, n - 1) then 1 else 0
  }

  // How many of those were sealed upon a copy.
  ghost function SpentUpon(s: State, key: Digest, n: nat): nat
    requires n <= |s.seals|
  {
    if n == 0 then 0
    else SpentUpon(s, key, n - 1) + if s.seals[n - 1].key == key && Gone(s, n - 1) && SealedUpon(s, n - 1) then 1 else 0
  }

  // An equal batch was sealed before.
  ghost predicate Echoes(s: State, q: int)
    requires 0 <= q < |s.seals|
  {
    exists p :: 0 <= p < q && s.seals[p].key == s.seals[q].key
  }

  // A batch sealed again under a key whose rows are gone is sealed upon a copy, and
  // whatever is sealed upon a copy was sealed before.
  ghost predicate Traced(s: State) {
    && (forall q | 0 <= q < |s.seals| :: s.seals[q].seen <= |s.table|)
    && (forall q | SealedUpon(s, q) :: Echoes(s, q))
    && (forall p, q | 0 <= p < q < |s.seals| && s.seals[p].key == s.seals[q].key && Gone(s, p) :: SealedUpon(s, q))
  }

  // ------------------------------------------------------------------ every event

  // The table only grows, and no batch's rows leave but the last one's.
  lemma TracedGrows(s: State, t: State)
    requires Traced(s) && t.seals == s.seals && s.table <= t.table
    requires forall p | 0 <= p < |s.seals| - 1 && Gone(t, p) :: Gone(s, p)
    ensures Traced(t)
  {
    hide Gone;
    forall q | 0 <= q < |s.seals|
      ensures SealedUpon(t, q) == SealedUpon(s, q) && Echoes(t, q) == Echoes(s, q)
    {
      assert t.table[..s.seals[q].seen] == s.table[..s.seals[q].seen];
    }
  }

  // Rows only join staging, or stay.
  lemma TracedStays(s: State, t: State)
    requires Traced(s) && t.seals == s.seals && s.table <= t.table && s.staged.Keys <= t.staged.Keys
    ensures Traced(t)
  {
    forall p | 0 <= p < |s.seals| - 1 && Gone(t, p)
      ensures Gone(s, p)
    {
      assert forall i | i in s.seals[p].ids :: i in t.seals[p].ids && i !in t.staged.Keys;
    }
    TracedGrows(s, t);
  }

  // A batch whose rows are gone is safe: that is why they could go.
  lemma GoneIsSafe(s: State, q: int)
    requires Structured(s) && Stored(s) && Gone(s, q)
    ensures Safe(s, s.seals[q].key)
  {
    hide Ids, Queue, Ascends, Safe;
    FirstIsIn(s.seals[q].ids);
    assert InSeal(s, q, s.seals[q].ids[0]);
  }

  lemma TracedSeal(s: State, key: Digest)
    requires Structured(s) && Counted(s) && Stored(s) && Traced(s) && Working(s) && CanStep(s, Seal(key))
    ensures Traced(Sealed(s, key))
  {
    hide Structured, Counted, Stored, Traced, Stamped, RecodedAll, Recode, KeyFor;
    var t := Sealed(s, key);
    SealedRows(s, key);
    SealUpon(s, t, t.seals[|s.seals|]);
  }

  lemma SealUpon(s: State, t: State, b: Batch)
    requires Structured(s) && Counted(s) && Stored(s) && Traced(s)
    requires t.seals == s.seals + [b] && t.table == s.table && t.staged.Keys == s.staged.Keys
    requires b.seen == |s.table| && b.listed == Unmarked(s, b.key)
    ensures Traced(t)
  {
    hide Structured, Counted, Stored;
    assert forall q | 0 <= q < |s.seals| :: t.seals[q] == s.seals[q];
    assert forall q | 0 <= q < |s.seals| :: SealedUpon(t, q) == SealedUpon(s, q) && Echoes(t, q) == Echoes(s, q);
    if SealedUpon(t, |s.seals|) {
      assert s.table[..|s.table|] == s.table;
      var p := HasSeal(s, b.key);
      assert Echoes(t, |s.seals|);
    }
    forall p | 0 <= p < |s.seals| && Gone(t, p)
      ensures Gone(s, p)
    {
      assert forall i | i in s.seals[p].ids :: i in t.seals[p].ids && i !in t.staged.Keys;
    }
    forall p | 0 <= p < |s.seals| && t.seals[p].key == b.key && Gone(t, p)
      ensures SealedUpon(t, |s.seals|)
    {
      GoneIsSafe(s, p);
      assert s.table[..|s.table|] == s.table;
    }
  }

  lemma TracedDelete(s: State)
    requires Structured(s) && Traced(s) && Keyed(s)
    ensures Traced(s.(staged := Pruned(s.staged, Head(s).ids)))
  {
    hide Ids, Flat, Ascends;
    var t := s.(staged := Pruned(s.staged, Head(s).ids));
    forall p | 0 <= p < |s.seals| - 1 && Gone(t, p)
      ensures Gone(s, p)
    {
      forall i | i in s.seals[p].ids
        ensures i !in s.staged
      {
        assert i in t.seals[p].ids && InSeal(s, p, i);
        if i in Head(s).ids {
          OneSeal(s, p, |s.seals| - 1, i);
        }
      }
    }
    TracedGrows(s, t);
  }

  lemma TracedEffect(s: State, step: Step)
    requires Structured(s) && Counted(s) && Stored(s) && Traced(s) && Working(s) && CanStep(s, step)
             && HasEffect(s, step)
    ensures Traced(Effect(s, step))
  {
    hide Structured, Counted, Stored, Traced, CanStep, Sealed, Pruned;
    match step
    case Seal(key) => TracedSeal(s, key);
    case Delete => TracedDelete(s);
    case Quarantine => assert Quarantined(s.staged, Head(s).ids).Keys == s.staged.Keys; TracedStays(s, Effect(s, step));
    case _ => TracedStays(s, Effect(s, step));
  }

  lemma {:induction false} AcceptTraced(s: State, payloads: seq<seq<byte>>)
    requires Traced(s) && s.owner.Writer?
    ensures Traced(AfterAccept(s, payloads))
    decreases |payloads|
  {
    hide Traced;
    if payloads != [] {
      TracedStays(s, Added(s, payloads[0]));
      AcceptTraced(Added(s, payloads[0]), payloads[1..]);
    }
  }

  lemma AttemptTraced(s: State, step: Step)
    requires Structured(s) && Counted(s) && Stored(s) && Traced(s) && Working(s) && CanStep(s, step)
    ensures Traced(NextStep(s, step))
  {
    hide Structured, Counted, Stored, Traced, CanStep, NextStep, Effect;
    StepEffect(s, step);
    TracedEffect(s, step);
    TracedStays(Effect(s, step), NextStep(s, step));
  }

  lemma WalkTraced(s: State, step: DrainStep)
    requires Traced(s) && s.owner.Drain? && CanWalk(s, step)
    ensures Traced(NextWalk(s, step))
  {
    hide Traced;
    TracedStays(s, NextWalk(s, step));
  }

  lemma TracedKept(s: State, e: Event)
    requires Structured(s) && Counted(s) && Stored(s) && Traced(s) && Can(s, e)
    ensures Traced(Next(s, e))
  {
    hide Structured, Counted, Stored, Traced, CanStep, NextStep, CanWalk, NextWalk, AfterAccept, Scan, Backlog;
    match e
    case Accept(payloads) => AcceptTraced(s, payloads);
    case Attempt(step) => AttemptTraced(s, step);
    case Walk(step) => WalkTraced(s, step);
    case _ => TracedStays(s, Next(s, e));
  }

  lemma {:induction false} RunsTraced(s: State, run: seq<Event>)
    requires Sound(s) && Traced(s) && Legal(s, run)
    ensures Traced(Outcome(s, run))
    decreases |run|
  {
    hide Sound, Traced, Can, Next;
    if run != [] {
      SoundKept(s, run[0]);
      SoundStores(s);
      TracedKept(s, run[0]);
      RunsTraced(Next(s, run[0]), run[1..]);
    }
  }

  lemma SoundStores(s: State)
    requires Sound(s)
    ensures Structured(s) && Counted(s) && Stored(s)
  {
    hide Structured, Counted, Stored, Faithful;
  }

  lemma ReachableTraced(s: State)
    requires Reachable(s)
    ensures Structured(s) && Stored(s) && Traced(s)
  {
    hide Sound, Legal, Outcome, Structured, Counted, Stored;
    ReachableSound(s);
    SoundStores(s);
    var run :| Legal(Initial(s.name), run) && Outcome(Initial(s.name), run) == s;
    StartsSound(s.name);
    RunsTraced(Initial(s.name), run);
  }

  // ----------------------------------------------------------------- multiplicity

  lemma {:induction false} SpentCounts(s: State, key: Digest, n: nat)
    requires Traced(s) && n <= |s.seals|
    ensures Spent(s, key, n) <= SpentUpon(s, key, n) + 1
    ensures Spent(s, key, n) > 0 ==> exists q :: 0 <= q < n && s.seals[q].key == key && Gone(s, q)
    decreases n
  {
    hide Gone, SealedUpon;
    if n > 0 {
      SpentCounts(s, key, n - 1);
    }
  }

  lemma SafeIsKept(s: State, key: Digest)
    requires Safe(s, key)
    ensures Kept(s, key) >= 1
  {
  }

  /** For every key: the batches out of staging are at most the copies in the table, one
      more if a drain would add it, and the batches sealed upon a copy already there. */
  lemma CopiesCover(s: State, key: Digest)
    requires Reachable(s)
    ensures Spent(s, key, |s.seals|) <= Kept(s, key) + SpentUpon(s, key, |s.seals|)
  {
    hide Reachable, Structured, Stored, Traced, Kept, Safe, Gone;
    ReachableTraced(s);
    SpentCounts(s, key, |s.seals|);
    if Spent(s, key, |s.seals|) > 0 {
      var q :| 0 <= q < |s.seals| && s.seals[q].key == key && Gone(s, q);
      GoneIsSafe(s, q);
      SafeIsKept(s, key);
    }
  }

  lemma {:induction false} NoneUpon(s: State, key: Digest, n: nat)
    requires n <= |s.seals| && forall q | 0 <= q < n :: !SealedUpon(s, q)
    ensures SpentUpon(s, key, n) == 0
    decreases n
  {
    if n > 0 {
      NoneUpon(s, key, n - 1);
    }
  }

  /** With no two batches equal, no batch out of staging lacks its copy. */
  lemma DistinctCover(s: State, key: Digest)
    requires Reachable(s) && DistinctBatches(s)
    ensures Spent(s, key, |s.seals|) <= Kept(s, key)
  {
    hide Reachable, Sound, Structured, Counted, Stored, Held, Faithful, DistinctBatches, SealedUpon, Kept;
    ReachableSound(s);
    ReachableTraced(s);
    forall q | 0 <= q < |s.seals|
      ensures !SealedUpon(s, q)
    {
      if SealedUpon(s, q) {
        var p :| 0 <= p < q && s.seals[p].key == s.seals[q].key;
        SealedTwice(s, p, q);
        assert false;
      }
    }
    NoneUpon(s, key, |s.seals|);
    CopiesCover(s, key);
  }

  // ------------------------------------------------------------ one batch, exactly

  // The batch sealed next is out of staging, and there are no more copies than before.
  ghost predicate LeftNoCopy(s: State, u: State, key: Digest) { Gone(u, |s.seals|) && Kept(u, key) <= Kept(s, key) }

  predicate SealsKey(e: Event, key: Digest) { e == Attempt(Seal(key)) }

  // Some continuation, in which no batch is sealed under this key, leaves no copy.
  ghost predicate CanLeaveNoCopy(s: State, key: Digest)
    requires Can(s, Attempt(Seal(key)))
  {
    var t := Next(s, Attempt(Seal(key)));
    exists run :: Legal(t, run) && (forall e | e in run :: !SealsKey(e, key)) && LeftNoCopy(s, Outcome(t, run), key)
  }

  // What the steps below leave alone.
  predicate SameBatch(s: State, t: State) {
    && t.seals == s.seals && t.staged == s.staged && Keyed(s) && Keyed(t)
    && Head(t).ids == Head(s).ids && Head(t).key == Head(s).key
    && t.owner.w.localOnly == s.owner.w.localOnly && t.owner.w.spooling == s.owner.w.spooling
    && t.owner.w.shape == s.owner.w.shape
  }

  predicate NoSeals(run: seq<Event>) { forall e | e in run :: !(e.Attempt? && e.step.Seal?) }

  // A file in hand: spooled, if there is a spool, and uploaded.
  lemma Sends(s: State) returns (run: seq<Event>)
    requires Keyed(s) && Stage(s).Ready? && !s.owner.w.localOnly
    ensures Legal(s, run) && NoSeals(run)
    ensures var t := Outcome(s, run);
            SameBatch(s, t) && Stage(t).Uploaded? && t.table == s.table && t.owner.w.handle == s.owner.w.handle
  {
    var first := if s.owner.w.spooling then Attempt(WriteSpool(0, true)) else Attempt(SkipSpool);
    run := [first, Attempt(Upload(true))];
    var t := Next(s, first);
    assert SameBatch(s, t) && Stage(t).Written?;
    hide Legal, Outcome;
    TwoSteps(s, first, Attempt(Upload(true)));
  }

  // A confirmed commit: its rows go.
  lemma Retires(s: State) returns (run: seq<Event>)
    requires Keyed(s) && Stage(s).Confirmed?
    ensures Legal(s, run) && NoSeals(run)
    ensures var t := Outcome(s, run);
            t.table == s.table && t.seals == s.seals && t.staged == Pruned(s.staged, Head(s).ids)
  {
    hide Legal, Outcome, Pruned;
    run := [Attempt(Mark), Attempt(Delete)];
    TwoSteps(s, Attempt(Mark), Attempt(Delete));
  }

  ghost predicate Renders(s: State)
    requires Keyed(s)
  {
    forall i | i in Head(s).ids :: i in s.staged && Render(s.staged[i], s.owner.w.shape).Ok?
  }

  lemma Refused(s: State)
    requires Keyed(s) && Stage(s).Uploaded?
    ensures Can(s, Attempt(Conflict(true)))
    ensures var t := Next(s, Attempt(Conflict(true)));
            && SameBatch(s, t) && Stage(t).Resting? && t.table == s.table && t.owner.w.handle == s.table
                && Head(t).attempted
  {
  }

  lemma Asked(s: State)
    requires Keyed(s) && Stage(s).Resting? && !s.owner.w.localOnly && Head(s).attempted && s.owner.w.handle == s.table
             && Renders(s)
    ensures Can(s, Attempt(Reread))
    ensures var t := Next(s, Attempt(Reread));
            && SameBatch(s, t) && t.table == s.table && t.owner.w.handle == s.table
            && if Key(s) in s.table then Stage(t).Confirmed? else Stage(t).Ready?
  {
    hide Render, FileOf;
  }

  // An upload whose commit is refused, and the next attempt, which asks the table.
  lemma AsksAgain(s: State) returns (run: seq<Event>)
    requires Keyed(s) && Stage(s).Uploaded? && !s.owner.w.localOnly && Renders(s)
    ensures Legal(s, run) && NoSeals(run)
    ensures var t := Outcome(s, run);
            && SameBatch(s, t) && t.table == s.table && t.owner.w.handle == s.table
            && if Key(s) in s.table then Stage(t).Confirmed? else Stage(t).Ready?
  {
    hide Legal, Outcome, Can, Next, Render;
    run := [Attempt(Conflict(true)), Attempt(Reread)];
    Refused(s);
    Asked(Next(s, Attempt(Conflict(true))));
    TwoSteps(s, Attempt(Conflict(true)), Attempt(Reread));
  }

  // From an upload under a current handle to a batch out of staging.
  lemma Commits(s: State) returns (run: seq<Event>)
    requires Keyed(s) && Stage(s).Uploaded? && s.owner.w.handle == s.table
    ensures Legal(s, run) && NoSeals(run)
    ensures var t := Outcome(s, run);
            t.table == s.table + [Key(s)] && t.seals == s.seals && t.staged == Pruned(s.staged, Head(s).ids)
  {
    hide Legal, Outcome, Pruned;
    NoRun(s);
    Then(s, [], Attempt(Commit(true, true)));
    run := [] + [Attempt(Commit(true, true))];
    var more := Retires(Outcome(s, run));
    Continued(s, run, more);
    run := run + more;
  }

  // The table once this batch's file is known to be in it.
  function With(table: seq<Digest>, key: Digest): seq<Digest> { if key in table then table else table + [key] }

  lemma RemoteLoses(s: State) returns (run: seq<Event>)
    requires Keyed(s) && !s.owner.w.localOnly && Renders(s)
             && (Stage(s).Ready? || (Stage(s).Confirmed? && Key(s) in s.table))
    ensures Legal(s, run) && NoSeals(run)
    ensures var t := Outcome(s, run);
            t.table == With(s.table, Key(s)) && t.seals == s.seals && t.staged == Pruned(s.staged, Head(s).ids)
  {
    hide Legal, Outcome, Pruned, Render;
    if Stage(s).Confirmed? {
      run := Retires(s);
      return;
    }
    run := Sends(s);
    var t := Outcome(s, run);
    var more := AsksAgain(t);
    Continued(s, run, more);
    run, t := run + more, Outcome(t, more);
    if Key(s) in s.table {
      more := Retires(t);
    } else {
      more := Sends(t);
      var last := Commits(Outcome(t, more));
      Continued(t, more, last);
      more := more + last;
    }
    Continued(s, run, more);
    run := run + more;
  }

  lemma LocalLoses(s: State) returns (run: seq<Event>)
    requires Keyed(s) && s.owner.w.localOnly && s.owner.w.spooling && Stage(s).Ready?
    ensures Legal(s, run) && NoSeals(run)
    ensures var t := Outcome(s, run);
            && t.table == s.table && t.seals == s.seals && t.staged == Pruned(s.staged, Head(s).ids)
            && t.records == Recorded(s, Key(s), 0)
  {
    hide Legal, Outcome, Pruned;
    TwoSteps(s, Attempt(WriteSpool(0, true)), Attempt(KeepLocal));
    run := [Attempt(WriteSpool(0, true)), Attempt(KeepLocal)];
    Then(s, run, Attempt(Delete));
    run := run + [Attempt(Delete)];
  }

  // What a batch just sealed is.
  ghost predicate IsSealed(s: State, t: State, key: Digest)
    requires Working(s)
  {
    && Keyed(t) && Key(t) == key && Head(t).ids == Head(s).ids && Renders(t)
    && t.table == s.table && t.records == s.records && |t.seals| == |s.seals| + 1
        && t.seals[|s.seals|].ids == Head(s).ids
    && t.owner.w.localOnly == s.owner.w.localOnly && t.owner.w.spooling == s.owner.w.spooling
    && t.owner.w.handle == s.owner.w.handle
  }

  lemma SealedIs(s: State, key: Digest)
    requires Sound(s) && Working(s) && CanStep(s, Seal(key))
    ensures IsSealed(s, Sealed(s, key), key)
  {
    hide Structured, Counted, Held, Durable, Render, RecodedAll, Recode, KeyFor, Stamped;
    SealedDurable(s, key);
  }

  lemma PreparedIs(s: State, t: State, key: Digest)
    requires Working(s) && IsSealed(s, t, key)
    ensures IsSealed(s, Prepared(t), key)
    ensures Stage(Prepared(t)).Ready? || (!t.owner.w.localOnly && Stage(Prepared(t)).Confirmed?
            && key in t.owner.w.handle)
  {
    hide Render, FileOf;
  }

  lemma JustSealed(s: State, key: Digest)
    requires Sound(s) && Working(s) && CanStep(s, Seal(key))
    ensures var t := NextStep(s, Seal(key));
            && IsSealed(s, t, key)
            && (Stage(t).Ready? || (!t.owner.w.localOnly && Stage(t).Confirmed? && key in t.owner.w.handle))
  {
    hide Sound, Sealed, Prepared, IsSealed;
    SealedIs(s, key);
    PreparedIs(s, Sealed(s, key), key);
    SealedKeepsHandle(s, key);
  }

  lemma SealedKeepsHandle(s: State, key: Digest)
    requires Working(s) && IsSealed(s, Sealed(s, key), key)
    ensures Prepared(Sealed(s, key)).owner.w.handle == Sealed(s, key).owner.w.handle
    ensures Prepared(Sealed(s, key)).owner.w.localOnly == Sealed(s, key).owner.w.localOnly
  {
    hide Stamped, RecodedAll, FileOf, Renders;
  }

  lemma SealedLoses(s: State, key: Digest) returns (run: seq<Event>)
    requires Sound(s) && Working(s) && CanStep(s, Seal(key)) && (key in s.table || Unmarked(s, key))
    ensures var t := NextStep(s, Seal(key));
            Legal(t, run) && NoSeals(run) && LeftNoCopy(s, Outcome(t, run), key)
  {
    hide Legal, Outcome, Structured, Sound, NextStep, CanStep, Pruned, Render;
    var t := NextStep(s, Seal(key));
    JustSealed(s, key);
    assert (s.owner.w.localOnly ==> s.owner.w.spooling) && (!s.owner.w.localOnly ==> s.owner.w.handle <= s.table)
           by { OwnerParts(s); }
    if s.owner.w.localOnly {
      run := LocalLoses(t);
    } else {
      run := RemoteLoses(t);
    }
    var u := Outcome(t, run);
    assert Gone(u, |s.seals|) by { PrunedIsGone(t, u, |s.seals|); }
    NoMoreKept(s, u, key);
  }

  lemma OwnerParts(s: State)
    requires Sound(s) && s.owner.Writer?
    ensures s.owner.w.localOnly ==> s.owner.w.spooling
    ensures !s.owner.w.localOnly ==> s.owner.w.handle <= s.table
  {
    hide Structured, Stored, Faithful, Copies, SealCount;
  }

  lemma PrunedIsGone(s: State, t: State, q: int)
    requires Working(s) && 0 <= q < |s.seals| && s.seals[q].ids == Head(s).ids
    requires t.seals == s.seals && t.staged == Pruned(s.staged, Head(s).ids)
    ensures Gone(t, q)
  {
  }

  lemma NoMoreKept(s: State, u: State, key: Digest)
    requires key in s.table || Unmarked(s, key)
    requires u.table == With(s.table, key) || (u.table == s.table && key in s.records && u.records == s.records)
             || (u.table == s.table && key in s.table)
    ensures Kept(u, key) <= Kept(s, key)
  {
    CopiesAppend(s.table, key, key);
  }

  /** A seal can lead to its own loss, by some continuation with no equal seal in it, if
      and only if its key is in the table or listed in the backlog when it is made. */
  lemma SealCanLoseIff(s: State, key: Digest)
    requires Reachable(s) && Can(s, Attempt(Seal(key)))
    ensures CanLeaveNoCopy(s, key) <==> key in s.table || Unmarked(s, key)
  {
    hide Reachable, Sound, Legal, Outcome, CanStep, NextStep, Kept, Gone;
    ReachableSound(s);
    var t := Next(s, Attempt(Seal(key)));
    if key in s.table || Unmarked(s, key) {
      var run := SealedLoses(s, key);
      assert forall e | e in run :: !SealsKey(e, key);
    } else {
      SoundKept(s, Attempt(Seal(key)));
      forall run | Legal(t, run)
        ensures !LeftNoCopy(s, Outcome(t, run), key)
      {
        GoneKept(s, key, run);
      }
    }
  }

  // Nothing was kept before the seal, and something is when its rows are gone.
  lemma GoneKept(s: State, key: Digest, run: seq<Event>)
    requires Sound(s) && Can(s, Attempt(Seal(key))) && key !in s.table && !Unmarked(s, key)
    requires Legal(Next(s, Attempt(Seal(key))), run)
    ensures !LeftNoCopy(s, Outcome(Next(s, Attempt(Seal(key))), run), key)
  {
    hide Sound, Legal, Outcome, CanStep, Gone, Structured, Stored, Safe, RecodedAll, Stamped, FileOf;
    var t := Next(s, Attempt(Seal(key)));
    assert |t.seals| == |s.seals| + 1 && t.seals[|s.seals|].key == key;
    SoundKept(s, Attempt(Seal(key)));
    RunsSound(t, run);
    RunSeals(t, run);
    var u := Outcome(t, run);
    assert u.seals[|s.seals|] == t.seals[|s.seals|];
    if Gone(u, |s.seals|) {
      SoundStores(u);
      GoneIsSafe(u, |s.seals|);
      SafeIsKept(u, key);
      assert Kept(s, key) == 0;
    }
  }
}
