/** The safety theorems, over every run from an empty store. */
module ExactlyOnce {
  import opened BatchKey
  import opened Protocol
  import opened Structure
  import opened Safety
  import opened Contents

  ghost predicate Sound(s: State) { Structured(s) && Counted(s) && Held(s) && Faithful(s) }

  lemma StartsSound(name: TableId)
    ensures Sound(Initial(name))
  {
  }

  lemma SoundKept(s: State, e: Event)
    requires Sound(s) && Can(s, e)
    ensures Sound(Next(s, e))
  {
    hide Structured, Counted, Held, Faithful, Can, Next;
    StructureKept(s, e);
    CountedKept(s, e);
    HeldKept(s, e);
    FaithfulKept(s, e);
  }

  lemma {:induction false} RunsSound(s: State, run: seq<Event>)
    requires Sound(s) && Legal(s, run)
    ensures Sound(Outcome(s, run))
    decreases |run|
  {
    hide Sound, Can, Next;
    if run != [] {
      SoundKept(s, run[0]);
      RunsSound(Next(s, run[0]), run[1..]);
    }
  }

  ghost predicate Reachable(s: State) {
    exists run :: Legal(Initial(s.name), run) && Outcome(Initial(s.name), run) == s
  }

  lemma ReachableSound(s: State)
    requires Reachable(s)
    ensures Sound(s)
  {
    hide Sound, Legal, Outcome;
    var run :| Legal(Initial(s.name), run) && Outcome(Initial(s.name), run) == s;
    StartsSound(s.name);
    RunsSound(Initial(s.name), run);
  }

  // ------------------------------------------------------------- no duplicates

  /** In every reachable state a data file is in the table at most as often as its
      key was sealed, with no assumption about the records. */
  lemma NoFileOutrunsItsSeals(s: State, key: Digest)
    requires Reachable(s)
    ensures Copies(s.table, key) <= SealCount(s.seals, key)
  {
    hide Structured, Held, Faithful, Copies, SealCount, Reachable;
    ReachableSound(s);
  }

  // The hypothesis that no two batches carry the same payloads under one shape.
  ghost predicate DistinctBatches(s: State) {
    forall p, q | 0 <= p < q < |s.seals| ::
      s.seals[p].shape != s.seals[q].shape || s.seals[p].payloads != s.seals[q].payloads
  }

  lemma SameBatches(s: State, t: State)
    requires DistinctBatches(s) && t.seals == s.seals
    ensures DistinctBatches(t)
  {
  }

  lemma DistinctKeys(s: State, p: int, q: int)
    requires Faithful(s) && DistinctBatches(s) && 0 <= p < q < |s.seals|
    ensures s.seals[p].key != s.seals[q].key
  {
    hide Reads, BatchHashSpec, Renders;
    var a, b := s.seals[p], s.seals[q];
    assert BatchReads(s, a) && BatchReads(s, b);
    if a.key == b.key {
      KeyDeterminesBatch(s.name.namespace, s.name.name, a.shape, a.payloads,
                         s.name.namespace, s.name.name, b.shape, b.payloads);
    }
  }

  lemma {:induction false} CountedOnce(seals: seq<Batch>, key: Digest)
    requires forall p, q | 0 <= p < q < |seals| :: seals[p].key != seals[q].key
    ensures SealCount(seals, key) <= 1
    ensures SealCount(seals, key) == 1 <==> exists q :: 0 <= q < |seals| && seals[q].key == key
    decreases |seals|
  {
    if seals != [] {
      CountedOnce(seals[..|seals| - 1], key);
      var n := |seals| - 1;
      if exists q :: 0 <= q < n && seals[..n][q].key == key {
        var q :| 0 <= q < n && seals[..n][q].key == key;
        assert seals[q].key == key && seals[n].key != key;
      }
      assert forall q | 0 <= q < n :: seals[..n][q] == seals[q];
    }
  }

  lemma TwiceCounts(table: seq<Digest>, j: nat, k: nat)
    requires j < k < |table| && table[j] == table[k]
    ensures 2 <= Copies(table, table[k])
  {
    assert table == table[..k] + [table[k]] + table[k + 1..];
    assert multiset(table) == multiset(table[..k]) + multiset{table[k]} + multiset(table[k + 1..]);
    assert table[..k][j] == table[j] && table[j] in table[..k];
  }

  lemma AtMostOnce(table: seq<Digest>)
    requires forall key :: Copies(table, key) <= 1
    ensures forall j, k | 0 <= j < k < |table| :: table[j] != table[k]
  {
    hide Copies;
    forall j, k | 0 <= j < k < |table|
      ensures table[j] != table[k]
    {
      if table[j] == table[k] {
        TwiceCounts(table, j, k);
      }
    }
  }

  /** No data file is added to the table twice, provided no two batches carry the
      same payloads. */
  lemma NoDuplicates(s: State)
    requires Reachable(s) && DistinctBatches(s)
    ensures forall j, k | 0 <= j < k < |s.table| :: s.table[j] != s.table[k]
  {
    hide Structured, Counted, Held, Faithful, Copies, SealCount, Reachable, DistinctBatches;
    ReachableSound(s);
    forall p, q | 0 <= p < q < |s.seals|
      ensures s.seals[p].key != s.seals[q].key
    {
      DistinctKeys(s, p, q);
    }
    forall key
      ensures Copies(s.table, key) <= 1
    {
      NoFileOutrunsItsSeals(s, key);
      CountedOnce(s.seals, key);
    }
    AtMostOnce(s.table);
  }

  // -------------------------------------------------------------- nothing lost

  // The file a batch's key names, in the bucket and in the table or else in the
  // backlog, holds the record at this place in the batch.
  ghost predicate Delivered(s: State, q: int, k: int) {
    && Place(s, q, k)
    && var key := s.seals[q].key;
       || (key in s.table && key in s.bucket && Delivers(s, s.bucket[key], q, k))
       || (Unmarked(s, key) && key in s.files && Delivers(s, s.files[key], q, k))
  }

  /** Nothing is lost: in every reachable state, in either mode and across changes
      of mode, an accepted record is staged, or its own values are in an object the
      table references, or in a spool file no commit is recorded for. */
  lemma NothingLost(s: State, i: nat)
    requires Reachable(s) && i in s.accepted
    ensures i in s.staged || exists q, k :: Delivered(s, q, k) && s.seals[q].ids[k] == i
  {
    hide Structured, Counted, Reads, Delivers, BatchReads, Renders, Reachable;
    ReachableSound(s);
    if i !in s.staged {
      var q :| InSeal(s, q, i);
      var k :| 0 <= k < |s.seals[q].ids| && s.seals[q].ids[k] == i;
      var key := s.seals[q].key;
      assert Safe(s, key);
      if key in s.table {
        FileDelivers(s, s.bucket[key], q, k);
      } else {
        FileDelivers(s, s.files[key], q, k);
      }
      assert Delivered(s, q, k);
    }
  }

  /** A spool file is marked committed only once the table references it, so
      retention never evicts the only copy of a batch. */
  lemma MarkedOnlyIfCommitted(s: State, key: Digest)
    requires Reachable(s) && key in s.records && s.records[key].committed
    ensures key in s.table && key in s.bucket
  {
    hide Structured, Counted, Faithful, Reachable;
    ReachableSound(s);
  }

  lemma SealsApart(s: State, p: int, q: int, i: nat, j: nat)
    requires Seals(s)
    ensures p < q && InSeal(s, p, i) && InSeal(s, q, j) ==> i < j
  {
  }

  /** Exactly once: with distinct batches, a record out of staging is in one batch
      only, at one place, and that batch's file is in the table at most once. */
  lemma ExactlyOnce(s: State, i: nat)
    requires Reachable(s) && DistinctBatches(s) && i in s.accepted && i !in s.staged
    ensures exists q, k :: Delivered(s, q, k) && s.seals[q].ids[k] == i
    ensures forall p, j, q, k | Place(s, p, j) && Place(s, q, k) && s.seals[p].ids[j] == i && s.seals[q].ids[k] == i ::
              p == q && j == k
    ensures forall q | InSeal(s, q, i) :: Copies(s.table, s.seals[q].key) <= 1
  {
    hide Counted, Held, Faithful, Reachable, Delivered, DistinctBatches, Copies, Ids, Queue;
    NothingLost(s, i);
    ReachableSound(s);
    forall p, j, q, k | Place(s, p, j) && Place(s, q, k) && s.seals[p].ids[j] == i && s.seals[q].ids[k] == i
      ensures p == q && j == k
    {
      SealsApart(s, p, q, i, i);
      SealsApart(s, q, p, i, i);
    }
    forall q | InSeal(s, q, i)
      ensures Copies(s.table, s.seals[q].key) <= 1
    {
      NoFileOutrunsItsSeals(s, s.seals[q].key);
      forall a, b | 0 <= a < b < |s.seals|
        ensures s.seals[a].key != s.seals[b].key
      {
        DistinctKeys(s, a, b);
      }
      CountedOnce(s.seals, s.seals[q].key);
    }
  }
}
