/** Commit order: exactly which steps lose it. */
module Order {
  import opened Bytes
  import opened BatchKey
  import opened Protocol
  import opened Structure
  import opened Safety
  import opened Contents
  import opened ExactlyOnce
  import opened Restart
  import opened Lockout

  /** At every reachable state at most one batch key is pending, and its rows come
      before every row not yet sealed. */
  lemma OneBatchAtATime(s: State)
    requires Reachable(s)
    ensures forall i, j, a, b | SealedAs(s, i, a) && SealedAs(s, j, b) :: a == b
    ensures forall i, j, key | SealedAs(s, i, key) && Unsealed(s, j) :: i < j
  {
    hide Reachable, Ids, Queue, Counted, Held, Faithful, SealedAs, Unsealed;
    ReachableSound(s);
    forall i, j, key | SealedAs(s, i, key) && Unsealed(s, j)
      ensures i < j
    {
      assert InSeal(s, |s.seals| - 1, i);
    }
  }

  /** Whatever a worker is about to commit, every other record still pending was
      accepted after all of it: no batch overtakes another within a process. */
  lemma NothingOvertakes(s: State, i: nat, j: nat)
    requires Reachable(s) && Keyed(s) && !Stage(s).Resting? && i in Head(s).ids && Live(s, j) && j !in Head(s).ids
    ensures i < j
  {
    hide Reachable, Ids, Seals, Counted, Held, Faithful, Flat;
    ReachableSound(s);
    HeadFirst(s);
  }

  // ------------------------------------------------------------------- the order

  predicate SealOf(s: State, p: int, key: Digest) { 0 <= p < |s.seals| && s.seals[p].key == key }

  // Files are in the table in the order their batches were sealed.
  ghost predicate InOrder(s: State) {
    forall a, b, p, q | 0 <= a < b < |s.table| && SealOf(s, p, s.table[a]) && SealOf(s, q, s.table[b]) :: p < q
  }

  // In the backlog and not in the table.
  predicate Owed(s: State, key: Digest) { Unmarked(s, key) && key !in s.table }

  // Owed, and no longer staged: nothing but a drain will commit it. Where staging is
  // split no drain starts, and no restart.
  ghost predicate Stranded(s: State, key: Digest) { Owed(s, key) && !LiveKey(s, key) && !Split(s) }

  // Every file in the table is of a batch sealed before any under this key.
  ghost predicate Follows(s: State, key: Digest) {
    forall a, p, q | 0 <= a < |s.table| && SealOf(s, p, key) && SealOf(s, q, s.table[a]) :: q < p
  }

  predicate ListedBefore(s: State, k: Digest, l: Digest)
    requires k in s.records && l in s.records
  {
    Sooner(k, l, s.records, s.name.rank)
  }

  // The spool lists the file sealed first before the other.
  ghost predicate InStep(s: State, k: Digest, l: Digest)
    requires k in s.records && l in s.records
  {
    forall p, q | SealOf(s, p, k) && SealOf(s, q, l) && p < q :: ListedBefore(s, k, l)
  }

  // The table is in order, and so will it be with the backlog drained into it.
  ghost predicate Ordered(s: State) {
    && InOrder(s)
    && (forall key | Stranded(s, key) :: Follows(s, key))
    && (forall k, l | Stranded(s, k) && Stranded(s, l) && k != l :: InStep(s, k, l))
  }

  // A drain under way has all that is stranded in hand, oldest first.
  ghost predicate Listed(s: State) {
    s.owner.Drain? ==>
      && !Split(s)
      && (forall key | key in s.owner.todo :: Unmarked(s, key) && !LiveKey(s, key))
      && (forall key | Stranded(s, key) :: key in s.owner.todo)
      && OldestFirst(s.owner.todo, s.records, s.name.rank)
  }

  // ------------------------------------------------------------- the order lost

  /** The guard an event must meet for the order to survive it. Only four steps have
      one. Sealing a batch equal to one in the table: that one must be the last file
      there, and nothing stranded, unless staging is split thereby. A worker's commit:
      nothing stranded, and the batch sealed after all the table has. Rows leaving
      staging, deleted or quarantined, with their file still owed: the same, and a place
      in the backlog that fits among the other files stranded; when they leave a split
      staging, every file in the backlog must fit. */
  ghost predicate Orderly(s: State, e: Event) { e.Attempt? && Working(s) ==> OrderlyStep(s, e.step) }

  ghost predicate OrderlyStep(s: State, step: Step)
    requires Working(s)
  {
    match step
    case Seal(key) =>
      key in s.table ==> key !in s.table[..|s.table| - 1] && (Shadows(s, key) || forall k :: !Stranded(s, k))
    case Commit(_, _) => Keyed(s) ==> Follows(s, Key(s)) && forall k :: !Stranded(s, k)
    case Delete => Parts(s)
    case Quarantine => Parts(s)
    case _ => true
  }

  ghost predicate Parts(s: State)
    requires Working(s)
  {
    if Split(s) then AllFit(s)
    else Keyed(s) && Owed(s, Key(s)) ==>
      Follows(s, Key(s)) && forall k | Stranded(s, k) :: InStep(s, k, Key(s)) && InStep(s, Key(s), k)
  }

  // Every file owed fits after the table, and among the others.
  ghost predicate AllFit(s: State) {
    && (forall k | Owed(s, k) :: Follows(s, k))
    && (forall k, l | Owed(s, k) && Owed(s, l) && k != l :: InStep(s, k, l))
  }

  ghost predicate OrderlyRun(s: State, run: seq<Event>)
    requires Legal(s, run)
    decreases |run|
  {
    run == [] || (Orderly(s, run[0]) && OrderlyRun(Next(s, run[0]), run[1..]))
  }

  // ---------------------------------------------------------------------- frames

  // The same files stranded, at the same stamps, beside the same table and seals.
  ghost predicate SameOrder(s: State, t: State) {
    && t.table == s.table && t.seals == s.seals && t.name == s.name
    && (forall key :: Stranded(t, key) == Stranded(s, key))
    && (forall key | Stranded(s, key) :: key in t.records && t.records[key].stamp == s.records[key].stamp)
  }

  lemma OrderedSame(s: State, t: State)
    requires SameOrder(s, t)
    ensures Ordered(t) == Ordered(s)
  {
    hide Stranded;
    assert forall p, key :: SealOf(t, p, key) == SealOf(s, p, key);
    assert forall key :: Follows(t, key) == Follows(s, key);
    assert forall key | Stranded(s, key) :: key in s.records by { StrandedRecords(s); }
    assert forall k, l | Stranded(s, k) && Stranded(s, l) :: InStep(t, k, l) == InStep(s, k, l);
  }

  lemma StrandedRecords(s: State)
    ensures forall key | Stranded(s, key) :: key in s.records
  {
  }

  // Nothing of all this is the worker's memory.
  lemma StoresOrder(s: State, t: State)
    requires t.name == s.name && t.table == s.table && t.seals == s.seals && t.records == s.records
             && t.staged == s.staged
    ensures SameOrder(s, t) && forall key :: LiveKey(t, key) == LiveKey(s, key)
  {
    hide LiveKey, Split;
    SameLiveKeys(s, t);
    SameSplit(s, t);
    assert forall key :: Stranded(t, key) == Stranded(s, key);
  }

  // A record changed of a batch that is staged or in the table.
  lemma RecordOrder(s: State, t: State, key: Digest)
    requires t.name == s.name && t.table == s.table && t.seals == s.seals && t.staged == s.staged
    requires forall k | k != key ::
               (k in t.records) == (k in s.records) && (k in s.records ==> t.records[k] == s.records[k])
    requires key in s.table || LiveKey(s, key)
    ensures SameOrder(s, t)
  {
    hide LiveKey, Split;
    SameLiveKeys(s, t);
    SameSplit(s, t);
    assert forall k :: Stranded(t, k) == Stranded(s, k);
    StrandedRecords(s);
  }

  // ----------------------------------------------------------- what a seal tells

  lemma {:induction false} CountedHasSeal(seals: seq<Batch>, key: Digest)
    requires 1 <= SealCount(seals, key)
    ensures exists p :: 0 <= p < |seals| && seals[p].key == key
    decreases |seals|
  {
    var n := |seals| - 1;
    if seals[n].key != key {
      CountedHasSeal(seals[..n], key);
      var p :| 0 <= p < n && seals[..n][p].key == key;
      assert seals[p].key == key;
    }
  }

  // Whatever is recorded or committed was sealed.
  lemma HasSeal(s: State, key: Digest) returns (p: int)
    requires Counted(s) && (key in s.records || key in s.table)
    ensures SealOf(s, p, key)
  {
    hide SealCount;
    assert 1 <= SealCount(s.seals, key) by {
      if key in s.table {
        assert 1 <= Copies(s.table, key) <= SealCount(s.seals, key);
      }
    }
    CountedHasSeal(s.seals, key);
    var q :| 0 <= q < |s.seals| && s.seals[q].key == key;
    p := q;
  }

  // While a sealed head is staged, it is the one key that is.
  lemma HeadIsLive(s: State)
    requires Structured(s) && Keyed(s) && HeadHere(s)
    ensures SealOf(s, |s.seals| - 1, Key(s)) && forall key :: LiveKey(s, key) <==> key == Key(s)
  {
    hide Ids, Flat, Ascends;
    assert Head(s).ids != [] && Head(s).ids[0] in Head(s).ids;
    assert SealedAs(s, Head(s).ids[0], Key(s));
    assert forall key | LiveKey(s, key) :: key == Last(s).key;
  }

  // ------------------------------------------------------------------ the seal

  // A batch sealed under a key: its place comes last, and its file is staged again.
  lemma SealOrder(s: State, t: State, key: Digest)
    requires Counted(s) && Ordered(s) && t.name == s.name && t.table == s.table && t.records == s.records
    requires |t.seals| == |s.seals| + 1 && t.seals[..|s.seals|] == s.seals && Last(t).key == key
    requires forall k :: LiveKey(t, k) <==> k == key
    requires forall k :: !LiveKey(s, k)
    requires Split(t) <==> Shadows(s, key)
    ensures Ordered(t) <==>
            (key in s.table ==> key !in s.table[..|s.table| - 1] && (Shadows(s, key) || forall k :: !Stranded(s, k)))
  {
    hide Counted, LiveKey, Ordered, Split, Shadows;
    SealOfLater(s, t, key);
    NoKeyNoSplit(s);
    assert forall k :: Stranded(t, k) <==> Stranded(s, k) && k != key && !Shadows(s, key);
    if Shadows(s, key) {
      SealSplits(s, t, key);
    } else if key !in s.table {
      SealElsewhere(s, t, key);
    } else if key in s.table[..|s.table| - 1] {
      SealTwice(s, t, key);
    } else if k :| Stranded(s, k) {
      SealStranded(s, t, key, k);
    } else {
      SealLast(s, t, key);
    }
  }

  // With staging split it is the table's own order that counts.
  lemma SealSplits(s: State, t: State, key: Digest)
    requires Counted(s) && Ordered(s) && t.name == s.name && t.table == s.table && t.records == s.records
    requires forall p, k :: SealOf(t, p, k) <==> SealOf(s, p, k) || (p == |s.seals| && k == key)
    requires forall k :: !Stranded(t, k)
    ensures Ordered(t) <==> (key in s.table ==> key !in s.table[..|s.table| - 1])
  {
    hide Counted, Stranded, SealOf, Ordered;
    NoneStranded(t);
    OrderedInOrder(s);
    if key !in s.table {
      assert InOrder(t);
    } else if key in s.table[..|s.table| - 1] {
      SealTwice(s, t, key);
    } else {
      SealLast(s, t, key);
    }
  }

  lemma SealOfLater(s: State, t: State, key: Digest)
    requires |t.seals| == |s.seals| + 1 && t.seals[..|s.seals|] == s.seals && Last(t).key == key
    ensures forall p, k :: SealOf(t, p, k) <==> SealOf(s, p, k) || (p == |s.seals| && k == key)
  {
    assert forall p | 0 <= p < |s.seals| :: t.seals[p] == t.seals[..|s.seals|][p] == s.seals[p];
  }

  lemma SealElsewhere(s: State, t: State, key: Digest)
    requires Ordered(s) && t.name == s.name && t.table == s.table && t.records == s.records && key !in s.table
    requires forall p, k :: SealOf(t, p, k) <==> SealOf(s, p, k) || (p == |s.seals| && k == key)
    requires forall k :: Stranded(t, k) <==> Stranded(s, k) && k != key
    ensures Ordered(t)
  {
    hide Stranded, SealOf;
    StrandedRecords(s);
    assert forall k | k != key && Follows(s, k) :: Follows(t, k);
    assert forall k, l | k != key && l != key && k in s.records && l in s.records && InStep(s, k, l) :: InStep(t, k, l);
  }

  lemma SealTwice(s: State, t: State, key: Digest)
    requires Counted(s) && t.table == s.table && s.table != [] && key in s.table[..|s.table| - 1]
             && SealOf(t, |s.seals|, key)
    requires forall p, k | SealOf(s, p, k) :: SealOf(t, p, k)
    ensures !Ordered(t)
  {
    hide Counted, SealCount;
    var a :| 0 <= a < |s.table| - 1 && s.table[..|s.table| - 1][a] == key;
    var b := |s.table| - 1;
    var q := HasSeal(s, s.table[b]);
    assert SealOf(t, q, t.table[b]) && SealOf(t, |s.seals|, t.table[a]) && q < |s.seals|;
    assert !InOrder(t);
  }

  lemma SealStranded(s: State, t: State, key: Digest, k: Digest)
    requires Counted(s) && t.table == s.table && key in s.table && SealOf(t, |s.seals|, key)
    requires Stranded(s, k) && k != key && Stranded(t, k)
    requires forall p, l | SealOf(s, p, l) :: SealOf(t, p, l)
    ensures !Ordered(t)
  {
    hide Counted, LiveKey;
    var a :| 0 <= a < |s.table| && s.table[a] == key;
    var p := HasSeal(s, k);
    assert SealOf(t, p, k) && SealOf(t, |s.seals|, t.table[a]) && p < |s.seals|;
    assert !Follows(t, k);
  }

  lemma SealLast(s: State, t: State, key: Digest)
    requires Ordered(s) && t.table == s.table && key in s.table && key !in s.table[..|s.table| - 1]
    requires forall p, k :: SealOf(t, p, k) <==> SealOf(s, p, k) || (p == |s.seals| && k == key)
    requires forall k :: !Stranded(t, k)
    ensures Ordered(t)
  {
    hide Stranded;
    var n := |s.table| - 1;
    forall a, b, p, q | 0 <= a < b < |t.table| && SealOf(t, p, t.table[a]) && SealOf(t, q, t.table[b])
      ensures p < q
    {
      assert s.table[..n][a] == s.table[a] && s.table[a] in s.table[..n];
      if b < n {
        assert s.table[..n][b] == s.table[b] && s.table[b] in s.table[..n];
      }
    }
  }

  // ---------------------------------------------------------------- the commit

  // One more file in the table, none of the stranded.
  lemma CommitOrder(s: State, key: Digest)
    requires Counted(s) && Ordered(s) && SealOf(s, |s.seals| - 1, key) && LiveKey(s, key)
    ensures Ordered(s.(table := s.table + [key])) <==> Follows(s, key) && forall k :: !Stranded(s, k)
  {
    hide Counted, LiveKey, Ordered, Split;
    var t := s.(table := s.table + [key]);
    SameLiveKeys(s, t);
    SameSplit(s, t);
    assert forall k :: Stranded(t, k) == Stranded(s, k);
    AppendOrder(s, key);
    if k :| Stranded(s, k) {
      var p := HasSeal(s, k);
      assert SealOf(t, p, k) && SealOf(t, |s.seals| - 1, t.table[|s.table|]) && !Follows(t, k);
      assert !Ordered(t) by { OrderedParts(t, k); }
    } else {
      NoneStranded(t);
      OrderedInOrder(s);
    }
    OrderedInOrder(t);
  }

  lemma OrderedParts(s: State, key: Digest)
    requires Stranded(s, key)
    ensures Ordered(s) ==> Follows(s, key)
  {
    hide Stranded, Follows, InStep;
    StrandedRecords(s);
  }

  lemma OrderedInOrder(s: State)
    ensures Ordered(s) ==> InOrder(s)
  {
    hide Stranded, InOrder;
    StrandedRecords(s);
  }

  lemma NoneStranded(s: State)
    requires forall k :: !Stranded(s, k)
    ensures Ordered(s) == InOrder(s)
  {
    hide Stranded, InOrder;
  }

  // A file appended is in order when it follows all that is there.
  lemma AppendOrder(s: State, key: Digest)
    ensures InOrder(s.(table := s.table + [key])) <==> InOrder(s) && Follows(s, key)
  {
    var t := s.(table := s.table + [key]);
    assert forall p, k :: SealOf(t, p, k) == SealOf(s, p, k);
    assert t.table[|s.table|] == key;
    if InOrder(t) {
      forall a, p, q | 0 <= a < |s.table| && SealOf(s, p, key) && SealOf(s, q, s.table[a])
        ensures q < p
      {
        assert t.table[a] == s.table[a];
      }
      forall a, b, p, q | 0 <= a < b < |s.table| && SealOf(s, p, s.table[a]) && SealOf(s, q, s.table[b])
        ensures p < q
      {
        assert t.table[a] == s.table[a] && t.table[b] == s.table[b];
      }
    }
  }

  // ------------------------------------------------------- rows leaving staging

  // The head's rows stop being live, and no other key's were.
  lemma PartOrder(s: State, t: State, key: Digest)
    requires Ordered(s) && t.name == s.name && t.table == s.table && t.seals == s.seals && t.records == s.records
    requires (forall k :: LiveKey(s, k) <==> k == key) && forall k :: !LiveKey(t, k)
    ensures Ordered(t) <==>
            if Split(s) then AllFit(s)
            else Owed(s, key) ==> Follows(s, key) && forall k | Stranded(s, k) :: InStep(s, k, key) && InStep(s, key, k)
  {
    hide LiveKey, Split;
    NoKeyNoSplit(t);
    assert forall p, k :: SealOf(t, p, k) == SealOf(s, p, k);
    assert forall k :: Follows(t, k) == Follows(s, k);
    assert forall k :: Stranded(t, k) <==> Owed(s, k);
    assert !Split(s) ==> forall k :: Stranded(t, k) <==> Stranded(s, k) || (k == key && Owed(s, key));
    assert forall k, l | k in s.records && l in s.records :: InStep(t, k, l) == InStep(s, k, l);
    hide Stranded, Follows, InStep, InOrder;
    StrandedRecords(s);
    StrandedRecords(t);
    assert InOrder(t) == InOrder(s) by { SameInOrder(s, t); }
  }

  lemma SameInOrder(s: State, t: State)
    requires t.table == s.table && t.seals == s.seals
    ensures InOrder(t) == InOrder(s)
  {
    assert forall p, k :: SealOf(t, p, k) == SealOf(s, p, k);
  }

  // -------------------------------------------------------------- the worker's steps

  lemma SealKeptIff(s: State, key: Digest)
    requires Structured(s) && Counted(s) && Ordered(s) && Working(s) && CanStep(s, Seal(key))
    ensures Ordered(Sealed(s, key)) <==> OrderlyStep(s, Seal(key))
  {
    hide Structured, Counted, Ordered, Stranded, Stamped, RecodedAll, KeyFor, Recode;
    var t := Sealed(s, key);
    assert t.seals[..|s.seals|] == s.seals;
    SealedRows(s, key);
    NoneSealed(s);
    assert Head(s).ids != [] && Head(s).ids[0] in Head(s).ids by { HeadHasRows(s); }
    assert SealedAs(t, Head(s).ids[0], key);
    SplitsIffShadows(s, key);
    SealOrder(s, t, key);
  }

  lemma SpoolKept(s: State, stamp: int, recorded: bool)
    requires Structured(s) && Ordered(s) && Working(s) && CanStep(s, WriteSpool(stamp, recorded))
    ensures Ordered(Effect(s, WriteSpool(stamp, recorded)))
  {
    hide Ids, Seals, Flat, Ascends, Ordered, LiveKey, SameOrder;
    HeadIsLive(s);
    var t := Effect(s, WriteSpool(stamp, recorded));
    RecordOrder(s, t, Key(s));
    OrderedSame(s, t);
  }

  lemma MarkKept(s: State)
    requires Held(s) && Ordered(s) && Keyed(s) && Stage(s).Confirmed?
    ensures Ordered(Effect(s, Mark))
  {
    hide Stored, Ordered, SameOrder;
    RecordOrder(s, Effect(s, Mark), Key(s));
    OrderedSame(s, Effect(s, Mark));
  }

  lemma CommitKeptIff(s: State, reported: bool, refreshed: bool)
    requires Structured(s) && Counted(s) && Ordered(s) && Working(s) && CanStep(s, Commit(reported, refreshed))
    ensures Ordered(Effect(s, Commit(reported, refreshed))) <==> OrderlyStep(s, Commit(reported, refreshed))
  {
    hide Ids, Seals, Flat, Ascends, Counted, Ordered, Stranded, LiveKey, Follows;
    HeadIsLive(s);
    CommitOrder(s, Key(s));
  }

  // The head leaves staging, deleted or marked.
  lemma PartKeptIff(s: State, step: Step)
    requires Structured(s) && Ordered(s) && Working(s) && CanStep(s, step) && (step.Delete? || step.Quarantine?)
    ensures Ordered(Effect(s, step)) <==> OrderlyStep(s, step)
  {
    hide Ids, Flat, Ascends, Ordered, Pruned, Quarantined, Unpreparable, LiveKey, Stranded, Follows, InStep, Owed,
      Split, AllFit;
    var t := Effect(s, step);
    HeadHasRows(s);
    assert Head(s).ids[0] in Head(s).ids;
    assert HeadHere(s);
    assert forall i, k :: !SealedAs(t, i, k) by { HeadUnsealed(s, t); }
    if Keyed(s) {
      HeadIsLive(s);
      NotLive(t);
      PartOrder(s, t, Key(s));
    } else {
      NoneSealed(s);
      NotLive(s);
      NotLive(t);
      NoKeyNoSplit(s);
      NoKeyNoSplit(t);
      assert SameOrder(s, t) by { UnkeyedPart(s, t); }
      OrderedSame(s, t);
    }
  }

  lemma NotLive(s: State)
    requires forall i, k :: !SealedAs(s, i, k)
    ensures forall k :: !LiveKey(s, k)
  {
  }

  lemma UnkeyedPart(s: State, t: State)
    requires t.name == s.name && t.table == s.table && t.seals == s.seals && t.records == s.records
    requires (forall k :: !LiveKey(s, k)) && (forall k :: !LiveKey(t, k)) && !Split(s) && !Split(t)
    ensures SameOrder(s, t)
  {
    hide LiveKey, Split;
  }

  lemma HeadUnsealed(s: State, t: State)
    requires Structured(s) && Working(s) && HeadHere(s)
    requires t.staged == Pruned(s.staged, Head(s).ids) || t.staged == Quarantined(s.staged, Head(s).ids)
    ensures forall i, k :: !SealedAs(t, i, k)
  {
    hide Ids, Seals, Ascends, Flat;
    HeadFirst(s);
    assert forall i | Live(s, i) && i !in Head(s).ids :: i in Rest(s.owner.w) && Unsealed(s, i);
    assert forall i | Live(t, i) :: Live(s, i) && i !in Head(s).ids && t.staged[i] == s.staged[i];
  }

  /** A worker's step keeps the order exactly when it is orderly. */
  lemma StepKeepsOrderIff(s: State, step: Step)
    requires Sound(s) && Ordered(s) && Working(s) && CanStep(s, step)
    ensures Ordered(NextStep(s, step)) <==> OrderlyStep(s, step)
  {
    hide Structured, Counted, Held, Faithful, Ordered, CanStep, NextStep, Sealed, Pruned, Quarantined, SameOrder,
      Parts, Stranded;
    StepEffect(s, step);
    var u := Effect(s, step);
    StoresOrder(u, NextStep(s, step));
    OrderedSame(u, NextStep(s, step));
    match step
    case Seal(key) => SealKeptIff(s, key);
    case Commit(reported, refreshed) => CommitKeptIff(s, reported, refreshed);
    case WriteSpool(stamp, recorded) => SpoolKept(s, stamp, recorded);
    case Mark => assert Stage(s).Confirmed? by { MarkNeeds(s); } MarkKept(s);
    case Delete => PartKeptIff(s, step);
    case Quarantine => PartKeptIff(s, step);
    case _ =>
      StoresOrder(s, u);
      OrderedSame(s, u);
  }

  lemma MarkNeeds(s: State)
    requires Working(s) && CanStep(s, Mark)
    ensures Keyed(s) && Stage(s).Confirmed?
  {
  }

  // ------------------------------------------------------------------- a drain

  // The oldest stranded file follows all there is, and the rest follow it.
  lemma JoinOrder(s: State)
    requires Ordered(s) && Listed(s) && s.owner.Drain? && CanWalk(s, Join(true))
    ensures Ordered(s.(table := s.table + [s.owner.todo[0]]))
  {
    hide LiveKey, Split;
    var key := s.owner.todo[0];
    var t := s.(table := s.table + [key]);
    assert key in s.owner.todo && Stranded(s, key);
    SameLiveKeys(s, t);
    SameSplit(s, t);
    AppendOrder(s, key);
    assert forall p, k :: SealOf(t, p, k) == SealOf(s, p, k);
    forall k | Stranded(t, k)
      ensures Stranded(s, k) && k != key && Follows(t, k)
    {
      FirstFollows(s, k);
    }
    assert forall k, l | k in s.records && l in s.records && InStep(s, k, l) :: InStep(t, k, l);
  }

  lemma FirstFollows(s: State, k: Digest)
    requires Ordered(s) && Listed(s) && s.owner.Drain? && s.owner.todo != []
    requires Stranded(s, s.owner.todo[0]) && Stranded(s, k) && k != s.owner.todo[0]
    ensures Follows(s.(table := s.table + [s.owner.todo[0]]), k)
  {
    hide LiveKey;
    var key := s.owner.todo[0];
    var t := s.(table := s.table + [key]);
    assert forall p, l :: SealOf(t, p, l) == SealOf(s, p, l);
    assert k in s.owner.todo;
    var j :| 0 <= j < |s.owner.todo| && s.owner.todo[j] == k;
    assert NoLater(key, k, s.records, s.name.rank);
    assert InStep(s, k, key) && Follows(s, k);
    forall a, p, q | 0 <= a < |t.table| && SealOf(t, p, k) && SealOf(t, q, t.table[a])
      ensures q < p
    {
      assert a < |s.table| ==> t.table[a] == s.table[a];
    }
  }

  lemma OldestFirstTail(todo: seq<Digest>, records: map<Digest, Entry>, marked: map<Digest, Entry>, rank: Digest -> int)
    requires todo != [] && OldestFirst(todo, records, rank)
    requires forall k | k in marked :: k in records && marked[k].stamp == records[k].stamp
    ensures OldestFirst(todo[1..], marked, rank)
    ensures forall k :: k in todo[1..] <==> k in todo && k != todo[0]
  {
    var rest := todo[1..];
    assert forall j | 0 <= j < |rest| :: rest[j] == todo[j + 1];
    forall k | k in todo && k != todo[0]
      ensures k in rest
    {
      var j :| 0 <= j < |todo| && todo[j] == k;
      assert rest[j - 1] == k;
    }
  }

  lemma NoteKept(s: State)
    requires Held(s) && Listed(s) && s.owner.Drain? && CanWalk(s, Note)
    ensures SameOrder(s, NextWalk(s, Note)) && Listed(NextWalk(s, Note))
  {
    hide Stored, LiveKey, OldestFirst, Split;
    var key, t := s.owner.todo[0], NextWalk(s, Note);
    SameLiveKeys(s, t);
    SameSplit(s, t);
    RecordOrder(s, t, key);
    OldestFirstTail(s.owner.todo, s.records, t.records, s.name.rank);
    assert forall k :: Unmarked(t, k) == (Unmarked(s, k) && k != key);
  }

  lemma WalkKept(s: State, step: DrainStep)
    requires Held(s) && Listed(s) && s.owner.Drain? && CanWalk(s, step)
    ensures Listed(NextWalk(s, step)) && (Ordered(s) ==> Ordered(NextWalk(s, step)))
  {
    hide Stored, Ordered, LiveKey, SameOrder, Split;
    var t := NextWalk(s, step);
    SameLiveKeys(s, t);
    SameSplit(s, t);
    match step
    case Join(_) =>
      var u := s.(table := t.table);
      StoresOrder(u, t);
      OrderedSame(u, t);
      if Ordered(s) {
        JoinOrder(s);
      }
    case Note =>
      NoteKept(s);
      OrderedSame(s, t);
    case _ =>
      StoresOrder(s, t);
      OrderedSame(s, t);
  }

  // ------------------------------------------------------------------ every event

  lemma {:induction false} AcceptKept(s: State, payloads: seq<seq<byte>>)
    requires Ids(s) && s.owner.Writer? && Structured(s)
    ensures SameOrder(s, AfterAccept(s, payloads)) && AfterAccept(s, payloads).owner.Writer?
    decreases |payloads|
  {
    hide Structured, LiveKey, Split;
    if payloads != [] {
      var t := Added(s, payloads[0]);
      AddKeeps(s, payloads[0]);
      AddedLive(s, payloads[0]);
      AddedSplits(s, payloads[0]);
      assert Ids(t) by { StructuredIds(t); }
      AcceptKept(t, payloads[1..]);
      assert SameOrder(s, t);
    }
  }

  lemma StructuredIds(s: State)
    requires Structured(s)
    ensures Ids(s)
  {
    hide Ids, Seals, Queue;
  }

  lemma AddedLive(s: State, payload: seq<byte>)
    requires Ids(s) && s.owner.Writer?
    ensures forall key :: LiveKey(Added(s, payload), key) == LiveKey(s, key)
  {
    hide Ids;
    AddedRow(s, payload);
    assert forall i, key :: SealedAs(Added(s, payload), i, key) == SealedAs(s, i, key);
  }

  lemma EvictKept(s: State, key: Digest)
    requires key in s.records && s.records[key].committed
    ensures SameOrder(s, s.(records := s.records - {key}))
    ensures Listed(s) ==> Listed(s.(records := s.records - {key}))
  {
    hide LiveKey, Split;
    var t := s.(records := s.records - {key});
    SameLiveKeys(s, t);
    SameSplit(s, t);
    assert forall k :: Unmarked(t, k) == Unmarked(s, k);
  }

  lemma StartsListed(s: State, todo: seq<Digest>)
    requires Can(s, StartDrain(todo))
    ensures Listed(Next(s, StartDrain(todo)))
  {
    hide LiveKey, Split;
    SameLiveKeys(s, Next(s, StartDrain(todo)));
    SameSplit(s, Next(s, StartDrain(todo)));
  }

  lemma ListedKept(s: State, e: Event)
    requires Sound(s) && Listed(s) && Can(s, e)
    ensures Listed(Next(s, e))
  {
    hide Structured, Counted, Held, Faithful, CanStep, NextStep, CanWalk, NextWalk, AfterAccept, Listed, Scan, Backlog;
    match e
    case Walk(step) => WalkKept(s, step);
    case StartDrain(todo) => StartsListed(s, todo);
    case EvictRecord(key) => EvictKept(s, key);
    case Attempt(step) =>
      StepEffect(s, step);
      NotDraining(NextStep(s, step));
    case Accept(payloads) =>
      assert Structured(s);
      StructuredIds(s);
      AcceptKept(s, payloads);
      NotDraining(Next(s, e));
    case _ => ListedAside(s, Next(s, e));
  }

  lemma NotDraining(s: State)
    requires !s.owner.Drain?
    ensures Listed(s)
  {
  }

  lemma ListedAside(s: State, t: State)
    requires Listed(s) && t.name == s.name && t.table == s.table && t.seals == s.seals && t.records == s.records
             && t.staged == s.staged
    requires t.owner == s.owner || !t.owner.Drain?
    ensures Listed(t)
  {
    hide LiveKey, Split;
    StoresOrder(s, t);
    SameSplit(s, t);
  }

  lemma EventKeepsOrderIff(s: State, e: Event)
    requires Sound(s) && Listed(s) && Ordered(s) && Can(s, e)
    ensures Ordered(Next(s, e)) <==> Orderly(s, e)
  {
    hide Structured, Counted, Held, Faithful, CanStep, NextStep, CanWalk, NextWalk, AfterAccept, Listed, Ordered,
      Scan, Backlog, OrderlyStep, SameOrder;
    match e
    case Attempt(step) => StepKeepsOrderIff(s, step);
    case Walk(step) => WalkKept(s, step);
    case Accept(payloads) =>
      StructuredIds(s);
      AcceptKept(s, payloads);
      OrderedSame(s, Next(s, e));
    case EvictRecord(key) =>
      EvictKept(s, key);
      OrderedSame(s, Next(s, e));
    case _ =>
      StoresOrder(s, Next(s, e));
      OrderedSame(s, Next(s, e));
  }

  // ---------------------------------------------------------- whole runs, exactly

  // Every restart and every drain from here ends with the table in order.
  ghost predicate SettlesInOrder(s: State) {
    forall run | Legal(s, run) && Settling(run) :: InOrder(Outcome(s, run))
  }

  // What every reachable state is, order apart.
  ghost predicate Fit(s: State) { Sound(s) && Listed(s) && Spooled(s) }

  lemma FitKept(s: State, e: Event)
    requires Fit(s) && Can(s, e)
    ensures Fit(Next(s, e))
  {
    hide Sound, Listed, Spooled, Can, Next;
    SoundKept(s, e);
    ListedKept(s, e);
    SpooledKept(s, e);
  }

  lemma StartsFit(name: TableId)
    ensures Fit(Initial(name)) && Ordered(Initial(name))
  {
    StartsSound(name);
  }

  lemma {:induction false} RunsFit(s: State, run: seq<Event>)
    requires Fit(s) && Legal(s, run)
    ensures Fit(Outcome(s, run))
    decreases |run|
  {
    hide Fit, Can, Next;
    if run != [] {
      FitKept(s, run[0]);
      RunsFit(Next(s, run[0]), run[1..]);
    }
  }

  lemma ReachableFit(s: State)
    requires Reachable(s)
    ensures Fit(s)
  {
    hide Fit, Legal, Outcome;
    var run :| Legal(Initial(s.name), run) && Outcome(Initial(s.name), run) == s;
    StartsFit(s.name);
    RunsFit(Initial(s.name), run);
  }

  lemma {:induction false} SettlingKept(s: State, run: seq<Event>)
    requires Fit(s) && Ordered(s) && Legal(s, run) && Settling(run)
    ensures Ordered(Outcome(s, run))
    decreases |run|
  {
    hide Fit, Ordered, Can, Next;
    if run != [] {
      assert run[0] in run && forall e | e in run[1..] :: e in run;
      FitKept(s, run[0]);
      assert Sound(s) && Listed(s) by { FitParts(s); }
      EventKeepsOrderIff(s, run[0]);
      SettlingKept(Next(s, run[0]), run[1..]);
    }
  }

  lemma FitParts(s: State)
    requires Fit(s)
    ensures Sound(s) && Listed(s) && Spooled(s)
  {
    hide Sound, Listed, Spooled;
  }

  // A file stranded out of order, drained, is in the table out of order.
  lemma DrainedLate(s: State, key: Digest) returns (run: seq<Event>)
    requires Spooled(s) && Stranded(s, key) && !Follows(s, key)
    ensures Legal(s, run) && Settling(run) && !InOrder(Outcome(s, run))
  {
    hide Legal, Outcome, LiveKey, Spooled, OldestFirst, Favours;
    var todo;
    todo, run := Drains(s, key);
    var t := Outcome(s, run);
    AppendedHas(s.table, todo);
    assert key in todo by { assert Left(s, key); }
    var a, p, q :| 0 <= a < |s.table| && SealOf(s, p, key) && SealOf(s, q, s.table[a]) && q >= p;
    var b :| 0 <= b < |t.table| && t.table[b] == key;
    assert forall i | 0 <= i < |s.table| :: t.table[i] == s.table[i];
    assert SealOf(t, p, t.table[b]) && SealOf(t, q, t.table[a]) && a < b;
  }

  // Two files stranded that the spool lists out of step with their seals.
  lemma DrainedAcross(s: State, k: Digest, l: Digest) returns (run: seq<Event>)
    requires Spooled(s) && Stranded(s, k) && Stranded(s, l) && k != l && !InStep(s, k, l)
    ensures Legal(s, run) && Settling(run) && !InOrder(Outcome(s, run)) && Outcome(s, run).seals == s.seals
  {
    hide Legal, Outcome, LiveKey, Spooled;
    var p, q :| SealOf(s, p, k) && SealOf(s, q, l) && p < q && !ListedBefore(s, k, l);
    var todo;
    todo, run := Drains(s, l);
    assert k in todo && l in todo by { assert Left(s, k) && Left(s, l); }
    var x :| 0 <= x < |todo| && todo[x] == l;
    var y :| 0 <= y < |todo| && todo[y] == k;
    assert x < y;
    var a, b := AppendedInOrder(s.table, todo, x, y);
    var t := Outcome(s, run);
    assert SealOf(t, q, t.table[a]) && SealOf(t, p, t.table[b]) && a < b;
  }

  lemma FitSettles(s: State)
    requires Fit(s)
    ensures Ordered(s) <==> SettlesInOrder(s)
  {
    hide Fit, Legal, Outcome, InOrder, Follows, InStep, Stranded;
    FitParts(s);
    if Ordered(s) {
      forall run | Legal(s, run) && Settling(run)
        ensures InOrder(Outcome(s, run))
      {
        SettlingKept(s, run);
        OrderedInOrder(Outcome(s, run));
      }
    } else if !InOrder(s) {
      NoRun(s);
      assert Settling([]) && !InOrder(Outcome(s, []));
    } else if key :| Stranded(s, key) && !Follows(s, key) {
      var run := DrainedLate(s, key);
    } else {
      StrandedRecords(s);
      var k, l :| Stranded(s, k) && Stranded(s, l) && k != l && !InStep(s, k, l);
      var run := DrainedAcross(s, k, l);
    }
  }

  /** A reachable state is in order, with all that is stranded, if and only if every
      restart and drain from it ends with the table in order. */
  lemma OrderedIffSettles(s: State)
    requires Reachable(s)
    ensures Ordered(s) <==> SettlesInOrder(s)
  {
    hide Reachable, Fit, Ordered, SettlesInOrder;
    ReachableFit(s);
    FitSettles(s);
  }

  /** Order is kept by exactly the orderly events: a legal event leaves a reachable
      state in order, with all that is stranded, if and only if it meets its guard. */
  lemma OrderKeptIff(s: State, e: Event)
    requires Reachable(s) && Ordered(s) && Can(s, e)
    ensures Ordered(Next(s, e)) <==> Orderly(s, e)
  {
    hide Reachable, Fit, Ordered, Orderly, Can, Next;
    ReachableFit(s);
    FitParts(s);
    EventKeepsOrderIff(s, e);
  }

  /** And an event that misses its guard loses it: some restart and drain after it, in
      which every event is orderly, ends with the table out of order. */
  lemma DisorderlyLosesOrder(s: State, e: Event)
    requires Reachable(s) && Ordered(s) && Can(s, e) && !Orderly(s, e)
    ensures exists run ::
              Legal(Next(s, e), run) && Settling(run) && OrderlyRun(Next(s, e), run)
              && !InOrder(Outcome(Next(s, e), run))
  {
    hide Reachable, Fit, Ordered, Orderly, Can, Next, Legal, Outcome, InOrder, OrderlyRun;
    ReachableFit(s);
    FitParts(s);
    EventKeepsOrderIff(s, e);
    FitKept(s, e);
    FitSettles(Next(s, e));
    var run :| Legal(Next(s, e), run) && Settling(run) && !InOrder(Outcome(Next(s, e), run));
    SettlingIsOrderly(Next(s, e), run);
  }

  lemma {:induction false} SettlingIsOrderly(s: State, run: seq<Event>)
    requires Legal(s, run) && Settling(run)
    ensures OrderlyRun(s, run)
    decreases |run|
  {
    hide Can, Next, OrderlyStep;
    if run != [] {
      assert run[0] in run && forall e | e in run[1..] :: e in run;
      SettlingIsOrderly(Next(s, run[0]), run[1..]);
    }
  }

  // At every point of a run.
  ghost predicate StaysInOrder(s: State, run: seq<Event>)
    requires Legal(s, run)
    decreases |run|
  {
    SettlesInOrder(s) && (run != [] ==> StaysInOrder(Next(s, run[0]), run[1..]))
  }

  lemma {:induction false} StaysIffOrderly(s: State, run: seq<Event>)
    requires Fit(s) && Ordered(s) && Legal(s, run)
    ensures StaysInOrder(s, run) <==> OrderlyRun(s, run)
    decreases |run|
  {
    hide Fit, Ordered, Can, Next, Orderly, SettlesInOrder;
    FitSettles(s);
    if run != [] {
      var t := Next(s, run[0]);
      FitParts(s);
      FitKept(s, run[0]);
      EventKeepsOrderIff(s, run[0]);
      FitSettles(t);
      if Ordered(t) {
        StaysIffOrderly(t, run[1..]);
      }
    }
  }

  /** Commit order is accept order exactly for orderly runs: a run's every event meets
      its guard if and only if, wherever the run is broken off, every restart and
      drain ends with the table's files in the order their batches were accepted. */
  lemma OrderlyIffInOrder(name: TableId, run: seq<Event>)
    requires Legal(Initial(name), run)
    ensures OrderlyRun(Initial(name), run) <==> StaysInOrder(Initial(name), run)
  {
    hide Fit, Ordered, Legal, OrderlyRun, StaysInOrder;
    StartsFit(name);
    StaysIffOrderly(Initial(name), run);
  }

  lemma {:induction false} RunsOrdered(s: State, run: seq<Event>)
    requires Fit(s) && Ordered(s) && Legal(s, run) && OrderlyRun(s, run)
    ensures Fit(Outcome(s, run)) && Ordered(Outcome(s, run))
    decreases |run|
  {
    hide Fit, Ordered, Can, Next, Orderly;
    if run != [] {
      FitParts(s);
      FitKept(s, run[0]);
      EventKeepsOrderIff(s, run[0]);
      RunsOrdered(Next(s, run[0]), run[1..]);
    }
  }

  /** In the row ids themselves: after an orderly run they are strictly ascending
      behind the table's files, file by file. */
  lemma CommitOrderIsAcceptOrder(name: TableId, run: seq<Event>, a: nat, b: nat, p: int, q: int)
    requires Legal(Initial(name), run) && OrderlyRun(Initial(name), run)
    requires var s := Outcome(Initial(name), run);
             a < b < |s.table| && SealOf(s, p, s.table[a]) && SealOf(s, q, s.table[b])
    ensures var s := Outcome(Initial(name), run);
            Ascends(s.seals[p].ids) && Ascends(s.seals[q].ids) && Before(s.seals[p].ids, s.seals[q].ids)
  {
    hide Legal, Outcome, OrderlyRun, Fit, Ordered, Structured, Counted, Held, Faithful, Ascends, Before;
    StartsFit(name);
    RunsOrdered(Initial(name), run);
    var s := Outcome(Initial(name), run);
    FitParts(s);
    OrderedInOrder(s);
    SealsAscend(s, p, q);
  }

  lemma SealsAscend(s: State, p: int, q: int)
    requires Structured(s) && 0 <= p < q < |s.seals|
    ensures Ascends(s.seals[p].ids) && Ascends(s.seals[q].ids) && Before(s.seals[p].ids, s.seals[q].ids)
  {
    hide Ids, Queue, Ascends, Before;
  }

  // ------------------------------------------------------ with batches all distinct

  // A batch not in the table follows all that is, when it was sealed last and alone.
  lemma LastFollows(s: State, key: Digest)
    requires SealOf(s, |s.seals| - 1, key) && key !in s.table
    requires forall p, q | 0 <= p < q < |s.seals| :: s.seals[p].key != s.seals[q].key
    ensures Follows(s, key)
  {
    forall a, p, q | 0 <= a < |s.table| && SealOf(s, p, key) && SealOf(s, q, s.table[a])
      ensures q < p
    {
      assert p == |s.seals| - 1;
    }
  }

  lemma CommitIsNew(s: State)
    requires Structured(s) && Counted(s) && Keyed(s) && Stage(s).Uploaded? && s.owner.w.handle == s.table
    requires forall p, q | 0 <= p < q < |s.seals| :: s.seals[p].key != s.seals[q].key
    ensures Key(s) !in s.table
  {
    hide Structured, SealCount;
    CountedOnce(s.seals, Key(s));
    CommitIsSpendable(s);
  }

  lemma InStepIffLater(s: State, k: Digest, key: Digest, p: int)
    requires k in s.records && key in s.records && k != key && SealOf(s, p, k) && SealOf(s, |s.seals| - 1, key)
    requires forall p, q | 0 <= p < q < |s.seals| :: s.seals[p].key != s.seals[q].key
    ensures InStep(s, k, key) && InStep(s, key, k) <==> ListedBefore(s, k, key)
  {
    assert forall q | SealOf(s, q, key) :: q == |s.seals| - 1;
    assert p < |s.seals| - 1;
  }

  /** With no two batches equal the guards are two: a worker commits only with nothing
      stranded, and rows leave staging with their file owed only if the backlog lists it
      after everything stranded. */
  lemma DistinctOrderly(s: State, step: Step)
    requires Reachable(s) && DistinctBatches(s) && Working(s) && CanStep(s, step)
    ensures step.Commit? ==> (OrderlyStep(s, step) <==> forall k :: !Stranded(s, k))
    ensures step.Delete? || step.Quarantine? ==>
              (OrderlyStep(s, step) <==>
               (Keyed(s) && Owed(s, Key(s)) ==> forall k | Stranded(s, k) :: ListedBefore(s, k, Key(s))))
    ensures step.Seal? && DistinctBatches(Sealed(s, step.key)) ==> OrderlyStep(s, step)
  {
    hide Reachable, Structured, Counted, Held, Faithful, DistinctBatches, Stranded, Owed, Follows, InStep, CanStep,
      Sealed, Split;
    ReachableSound(s);
    DistinctNeverSplit(s);
    StrandedRecords(s);
    forall p, q | 0 <= p < q < |s.seals|
      ensures s.seals[p].key != s.seals[q].key
    {
      DistinctKeys(s, p, q);
    }
    match step
    case Commit(_, _) => DistinctCommit(s, step);
    case Delete => DistinctPart(s, step);
    case Quarantine => DistinctPart(s, step);
    case Seal(key) => if DistinctBatches(Sealed(s, key)) { DistinctSeal(s, key); }
    case _ =>
  }

  lemma DistinctCommit(s: State, step: Step)
    requires Structured(s) && Counted(s) && Working(s) && CanStep(s, step) && step.Commit?
    requires forall p, q | 0 <= p < q < |s.seals| :: s.seals[p].key != s.seals[q].key
    ensures Keyed(s) && Follows(s, Key(s))
  {
    hide Ids, Seals, Flat, Ascends, Counted, LiveKey, Follows;
    HeadIsLive(s);
    CommitIsNew(s);
    LastFollows(s, Key(s));
  }

  lemma DistinctPart(s: State, step: Step)
    requires Structured(s) && Counted(s) && Working(s) && CanStep(s, step) && (step.Delete? || step.Quarantine?)
    requires !Split(s)
    requires forall p, q | 0 <= p < q < |s.seals| :: s.seals[p].key != s.seals[q].key
    ensures OrderlyStep(s, step) <==>
            (Keyed(s) && Owed(s, Key(s)) ==> forall k | Stranded(s, k) :: k in s.records && ListedBefore(s, k, Key(s)))
  {
    hide Ids, Flat, Ascends, Counted, Unpreparable, LiveKey, Follows, InStep, Split;
    HeadHasRows(s);
    assert Head(s).ids[0] in Head(s).ids;
    if Keyed(s) && Owed(s, Key(s)) {
      HeadIsLive(s);
      LastFollows(s, Key(s));
      forall k | Stranded(s, k)
        ensures InStep(s, k, Key(s)) && InStep(s, Key(s), k) <==> ListedBefore(s, k, Key(s))
      {
        var p := HasSeal(s, k);
        InStepIffLater(s, k, Key(s), p);
      }
    }
  }

  lemma DistinctSeal(s: State, key: Digest)
    requires Sound(s) && Working(s) && CanStep(s, Seal(key)) && DistinctBatches(Sealed(s, key))
    ensures key !in s.table
  {
    hide Structured, Counted, Held, Durable, Stamped, RecodedAll, KeyFor, Recode, DistinctBatches, FileOf;
    var t := Sealed(s, key);
    SealedDurable(s, key);
    if key in s.table {
      var p := HasSeal(s, key);
      assert t.seals[p] == s.seals[p];
      assert Faithful(To(t, Resting)) by { FaithfulTo(t, Resting); }
      DistinctKeys(To(t, Resting), p, |s.seals|) by { SameBatches(t, To(t, Resting)); }
    }
  }
}
