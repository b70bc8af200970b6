/** When staging is such that no restart can read it ever again. */
module Lockout {
  // internal/staging/index.go refuses to scan staging in which one batch key is on live
  // rows and on quarantined ones, as what a damaged database would hold. Two batches with
  // equal payloads have one key: quarantine the first and seal the second.

  import opened Bytes
  import opened Record
  import opened BatchKey
  import opened Protocol
  import opened Structure
  import opened Safety
  import opened Contents
  import opened ExactlyOnce
  import opened Restart

  // Rows quarantined under this key are there.
  ghost predicate Shadows(s: State, key: Digest) {
    exists i :: i in s.staged && s.staged[i].quarantined && s.staged[i].key == Some(key)
  }

  // -------------------------------------------------------- where it comes from

  lemma SplitsIffShadows(s: State, key: Digest)
    requires Structured(s) && Working(s) && CanStep(s, Seal(key))
    ensures Split(Sealed(s, key)) <==> Shadows(s, key)
  {
    hide Structured, RecodedAll, KeyFor, Recode, FileOf;
    var t := Sealed(s, key);
    SealedRows(s, key);
    NoneSealed(s);
    assert Head(s).ids != [] && Head(s).ids[0] in Head(s).ids by { HeadHasRows(s); }
    if i :| i in s.staged && s.staged[i].quarantined && s.staged[i].key == Some(key) {
      assert i !in Head(s).ids && t.staged[i] == s.staged[i];
      assert SealedAs(t, Head(s).ids[0], key);
    }
    if i, j :| i in t.staged && j in t.staged && t.staged[i].key.Some? && t.staged[j].key == t.staged[i].key
               && !t.staged[i].quarantined && t.staged[j].quarantined {
      assert i in Head(s).ids by {
        assert i !in Head(s).ids ==> SealedAs(s, i, t.staged[i].key.value);
      }
      assert j !in Head(s).ids && t.staged[j] == s.staged[j];
    }
  }

  lemma HeadHasRows(s: State)
    requires Structured(s) && Working(s)
    ensures Head(s).ids != []
  {
    hide Ids, Seals, Flat, Ascends;
  }

  // Rows leave from the head, or are marked there: nothing live is left under a key.
  lemma PartedIsWhole(s: State, t: State)
    requires Structured(s) && Working(s) && HeadHere(s)
    requires t.staged == Pruned(s.staged, Head(s).ids) || t.staged == Quarantined(s.staged, Head(s).ids)
    ensures !Split(t)
  {
    hide Ids, Seals, Ascends, Flat;
    HeadFirst(s);
    assert forall i | Live(s, i) && i !in Head(s).ids :: i in Rest(s.owner.w) && Unsealed(s, i);
    assert forall i | Live(t, i) :: Live(s, i) && i !in Head(s).ids && t.staged[i] == s.staged[i];
  }

  // A split batch is the head, and no one can mark it.
  lemma SplitIsHead(s: State)
    requires Structured(s) && Working(s) && Split(s)
    ensures Keyed(s) && HeadHere(s) && !CanStep(s, Quarantine)
    ensures exists j :: j in s.staged && s.staged[j].quarantined && s.staged[j].key == Head(s).key
  {
    hide Ids, Flat, Ascends, Unpreparable;
    var i, j :| i in s.staged && j in s.staged && s.staged[i].key.Some? && s.staged[j].key == s.staged[i].key
                && !s.staged[i].quarantined && s.staged[j].quarantined;
    HeadFirst(s);
    assert SealedAs(s, i, s.staged[i].key.value);
    assert i in Waiting(s.owner.w);
    assert i in Head(s).ids;
    assert HeadHere(s);
    assert j !in Head(s).ids;
  }

  lemma StepSplits(s: State, step: Step)
    requires Structured(s) && Working(s) && CanStep(s, step)
    ensures Split(NextStep(s, step)) <==>
            if step.Seal? then Shadows(s, step.key) else Split(s) && !step.Delete?
  {
    hide Structured, CanStep, NextStep, Sealed, Split, Shadows, Pruned, Quarantined;
    StepEffect(s, step);
    SameSplit(Effect(s, step), NextStep(s, step));
    match step
    case Seal(key) => SplitsIffShadows(s, key);
    case Delete =>
      DeletesHere(s);
      PartedIsWhole(s, Effect(s, step));
    case Quarantine =>
      if Split(s) {
        SplitIsHead(s);
      }
      MarksHere(s);
      PartedIsWhole(s, Effect(s, step));
    case _ => SameSplit(s, Effect(s, step));
  }

  lemma DeletesHere(s: State)
    requires Structured(s) && Working(s) && CanStep(s, Delete)
    ensures HeadHere(s)
  {
    hide Ids, Seals, Flat, Ascends;
  }

  lemma MarksHere(s: State)
    requires Structured(s) && Working(s) && CanStep(s, Quarantine)
    ensures HeadHere(s)
  {
    hide Ids, Seals, Flat, Ascends, Unpreparable;
    assert Head(s).ids != [] && Head(s).ids[0] in Head(s).ids;
  }

  lemma {:induction false} AcceptSplits(s: State, payloads: seq<seq<byte>>)
    requires Structured(s) && s.owner.Writer?
    ensures Split(AfterAccept(s, payloads)) == Split(s)
    decreases |payloads|
  {
    hide Structured, Split;
    if payloads != [] {
      AddKeeps(s, payloads[0]);
      AddedSplits(s, payloads[0]);
      AcceptSplits(Added(s, payloads[0]), payloads[1..]);
    }
  }

  lemma AddedSplits(s: State, payload: seq<byte>)
    requires Structured(s) && s.owner.Writer?
    ensures Split(Added(s, payload)) == Split(s)
  {
    hide Seals, Queue;
    var t := Added(s, payload);
    assert s.nextId !in s.staged;
    assert forall i | i in s.staged :: i in t.staged && t.staged[i] == s.staged[i];
  }

  /** Staging is split by exactly one kind of event, the seal of a batch under a key that
      quarantined rows carry, and is whole again by exactly one other, that batch's rows
      leaving it. */
  lemma SplitsIff(s: State, e: Event)
    requires Reachable(s) && Can(s, e)
    ensures Split(Next(s, e)) <==>
            if e.Attempt? && e.step.Seal? then Shadows(s, e.step.key)
            else Split(s) && e != Attempt(Delete)
  {
    hide Reachable, Structured, Counted, Held, Faithful, CanStep, NextStep, CanWalk, NextWalk, AfterAccept, Split,
      Shadows, Scan, Backlog;
    ReachableSound(s);
    match e
    case Attempt(step) => StepSplits(s, step);
    case Accept(payloads) => AcceptSplits(s, payloads);
    case Walk(step) => WalkLeavesRows(s, step);
    case _ => SameSplit(s, Next(s, e));
  }

  lemma WalkLeavesRows(s: State, step: DrainStep)
    requires s.owner.Drain? && CanWalk(s, step)
    ensures Split(NextWalk(s, step)) == Split(s)
  {
    hide Split;
    SameSplit(s, NextWalk(s, step));
  }

  // -------------------------------------------------- a key stands for its batches

  // A row under a key is of a batch sealed under it.
  ghost predicate Rooted(s: State) {
    forall i | i in s.staged && s.staged[i].key.Some? ::
      exists q :: InSeal(s, q, i) && s.seals[q].key == s.staged[i].key.value
  }

  // Rows lose no key and gain none, and batches only join.
  lemma RootsStay(s: State, t: State)
    requires Rooted(s) && s.seals <= t.seals
    requires forall i | i in t.staged && t.staged[i].key.Some? :: i in s.staged && t.staged[i].key == s.staged[i].key
    ensures Rooted(t)
  {
    forall i | i in t.staged && t.staged[i].key.Some?
      ensures exists q :: InSeal(t, q, i) && t.seals[q].key == t.staged[i].key.value
    {
      var q :| InSeal(s, q, i) && s.seals[q].key == s.staged[i].key.value;
      assert t.seals[q] == s.seals[q];
    }
  }

  lemma SealRoots(s: State, key: Digest)
    requires Rooted(s) && Working(s) && CanStep(s, Seal(key))
    ensures Rooted(Sealed(s, key))
  {
    hide RecodedAll, KeyFor, Recode, FileOf, Recoded;
    var t := Sealed(s, key);
    assert forall q | 0 <= q < |s.seals| :: t.seals[q] == s.seals[q];
    forall i | i in t.staged && t.staged[i].key.Some?
      ensures exists q :: InSeal(t, q, i) && t.seals[q].key == t.staged[i].key.value
    {
      if i in Head(s).ids {
        assert InSeal(t, |s.seals|, i);
      } else {
        var q :| InSeal(s, q, i) && s.seals[q].key == s.staged[i].key.value;
        assert InSeal(t, q, i);
      }
    }
  }

  lemma StepRoots(s: State, step: Step)
    requires Rooted(s) && Working(s) && CanStep(s, step)
    ensures Rooted(NextStep(s, step))
  {
    hide Rooted, CanStep, NextStep, Sealed;
    StepEffect(s, step);
    if step.Seal? {
      SealRoots(s, step.key);
    } else {
      RootsStay(s, Effect(s, step));
    }
    RootsStay(Effect(s, step), NextStep(s, step));
  }

  lemma {:induction false} AcceptRoots(s: State, payloads: seq<seq<byte>>)
    requires Rooted(s) && s.owner.Writer?
    ensures Rooted(AfterAccept(s, payloads))
    decreases |payloads|
  {
    hide Rooted;
    if payloads != [] {
      RootsStay(s, Added(s, payloads[0]));
      AcceptRoots(Added(s, payloads[0]), payloads[1..]);
    }
  }

  lemma WalkRoots(s: State, step: DrainStep)
    requires Rooted(s) && s.owner.Drain? && CanWalk(s, step)
    ensures Rooted(NextWalk(s, step))
  {
    hide Rooted;
    RootsStay(s, NextWalk(s, step));
  }

  lemma EventRoots(s: State, e: Event)
    requires Rooted(s) && Can(s, e)
    ensures Rooted(Next(s, e))
  {
    hide Rooted, CanStep, NextStep, AfterAccept, CanOpen, Backlog, Split, CanWalk, NextWalk;
    match e
    case Attempt(step) => StepRoots(s, step);
    case Accept(payloads) => AcceptRoots(s, payloads);
    case Walk(step) => WalkRoots(s, step);
    case _ => RootsStay(s, Next(s, e));
  }

  lemma {:induction false} RunsRoot(s: State, run: seq<Event>)
    requires Rooted(s) && Legal(s, run)
    ensures Rooted(Outcome(s, run))
    decreases |run|
  {
    hide Rooted, Can, Next;
    if run != [] {
      EventRoots(s, run[0]);
      RunsRoot(Next(s, run[0]), run[1..]);
    }
  }

  lemma ReachableRooted(s: State)
    requires Reachable(s)
    ensures Rooted(s)
  {
    hide Legal, Outcome, Rooted;
    var run :| Legal(Initial(s.name), run) && Outcome(Initial(s.name), run) == s;
    assert Rooted(Initial(s.name)) by { StartsRooted(s.name); }
    RunsRoot(Initial(s.name), run);
  }

  lemma StartsRooted(name: TableId)
    ensures Rooted(Initial(name))
  {
  }

  /** Split staging takes two batches under one key, so with no two batches equal it
      does not happen. */
  lemma SplitTakesTwo(s: State)
    requires Structured(s) && Rooted(s) && Split(s)
    ensures exists p, q :: 0 <= p < q < |s.seals| && s.seals[p].key == s.seals[q].key
  {
    hide Ids, Queue, Ascends, Before;
    var i, j :| i in s.staged && j in s.staged && s.staged[i].key.Some? && s.staged[j].key == s.staged[i].key
                && !s.staged[i].quarantined && s.staged[j].quarantined;
    var key := s.staged[i].key.value;
    assert SealedAs(s, i, key);
    var q :| InSeal(s, q, j) && s.seals[q].key == key;
    assert q == |s.seals| - 1 ==> SealedAs(s, j, key);
  }

  lemma DistinctNeverSplit(s: State)
    requires Reachable(s) && DistinctBatches(s)
    ensures !Split(s)
  {
    hide Reachable, Structured, Counted, Held, Faithful, Rooted, Split, DistinctBatches;
    ReachableSound(s);
    ReachableRooted(s);
    if Split(s) {
      SplitTakesTwo(s);
      var p, q :| 0 <= p < q < |s.seals| && s.seals[p].key == s.seals[q].key;
      DistinctKeys(s, p, q);
      assert false;
    }
  }

  // ------------------------------------------------------------ what comes of it

  lemma {:induction false} Sorted(ids: set<nat>) returns (tail: seq<nat>)
    ensures Ascends(tail) && forall i :: i in tail <==> i in ids
    decreases |ids|
  {
    if ids == {} {
      tail := [];
    } else {
      var m := Least(ids);
      var rest := Sorted(ids - {m});
      tail := [m] + rest;
      forall a, b | 0 <= a < b < |tail|
        ensures tail[a] < tail[b]
      {
        assert tail[b] == rest[b - 1] && tail[b] in rest;
        if a > 0 {
          assert tail[a] == rest[a - 1];
        }
      }
    }
  }

  lemma {:induction false} Least(ids: set<nat>) returns (m: nat)
    requires ids != {}
    ensures m in ids && forall i | i in ids :: m <= i
    decreases |ids|
  {
    var k :| k in ids;
    if ids == {k} {
      m := k;
    } else {
      var first := Least(ids - {k});
      m := if first < k then first else k;
      forall i | i in ids
        ensures m <= i
      {
        assert i != k ==> i in ids - {k};
      }
    }
  }

  /** A restart can read staging if and only if it is not split. */
  lemma ScanIff(s: State)
    requires Reachable(s)
    ensures (exists jobs, tail :: Scan(s, jobs, tail)) <==> !Split(s)
  {
    hide Reachable, Ids, Queue, Counted, Held, Faithful, Split;
    ReachableSound(s);
    if !Split(s) {
      var tail := Sorted(set i | i in s.staged && Unsealed(s, i));
      if i, key :| SealedAs(s, i, key) {
        var jobs := [Job(Last(s).ids, Some(key), true, false)];
        assert Scanned(s, Last(s).ids, key);
        assert forall j, k | SealedAs(s, j, k) :: jobs[0].key == Some(k);
        assert Scan(s, jobs, tail);
      } else {
        assert Scan(s, [], tail);
      }
    }
  }

  lemma StaysOut(s: State, e: Event)
    requires s.owner.NoOne? && Split(s) && Can(s, e)
    ensures var t := Next(s, e);
            t.owner.NoOne? && t.staged == s.staged && t.table == s.table && t.bucket == s.bucket && Split(t)
  {
    hide Split, CanStep, NextStep, CanWalk, NextWalk, AfterAccept, Backlog, LiveKey;
    SameSplit(s, Next(s, e));
  }

  /** And where a restart finds it split, nothing can ever be done again: no writer opens,
      no drain starts, and what is staged and what is committed stay as they are. */
  lemma {:induction false} LockedOut(s: State, run: seq<Event>)
    requires s.owner.NoOne? && Split(s) && Legal(s, run)
    ensures var t := Outcome(s, run);
            t.owner.NoOne? && t.staged == s.staged && t.table == s.table && t.bucket == s.bucket
    decreases |run|
  {
    hide Split, Can, Next;
    if run != [] {
      StaysOut(s, run[0]);
      LockedOut(Next(s, run[0]), run[1..]);
    }
  }
}
