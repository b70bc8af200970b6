/** What a restart and a drain of the whole backlog leave behind. */
module Restart {
  import opened Bytes
  import opened BatchKey
  import opened Protocol
  import opened Structure
  import opened ExactlyOnce

  // A record is written after its file, and only a marked one's file is evicted.
  ghost predicate Spooled(s: State) { forall key | Unmarked(s, key) :: key in s.files }

  lemma {:induction false} SpooledAccept(s: State, payloads: seq<seq<byte>>)
    requires s.owner.Writer?
    ensures AfterAccept(s, payloads).files == s.files && AfterAccept(s, payloads).records == s.records
    decreases |payloads|
  {
    if payloads != [] {
      SpooledAccept(Added(s, payloads[0]), payloads[1..]);
    }
  }

  // Unmarked records only leave, but for one whose file is written first.
  lemma SpooledStores(s: State, t: State)
    requires Spooled(s)
    requires forall key | Unmarked(t, key) :: key in t.files || Unmarked(s, key)
    requires forall key | key in s.files && Unmarked(t, key) :: key in t.files
    ensures Spooled(t)
  {
    hide Unmarked;
  }

  lemma SpooledStep(s: State, step: Step)
    requires Spooled(s) && Working(s) && CanStep(s, step)
    ensures Spooled(NextStep(s, step))
  {
    hide Spooled, NextStep, Sealed, Pruned, Quarantined, FileOf, Render, Recode, KeyFor, RecodedAll, Unpreparable;
    StepEffect(s, step);
    if step.WriteSpool? || step.Mark? {
      SpooledStores(s, Effect(s, step));
    } else {
      SpooledSame(s, Effect(s, step)) by { SealIsNoFile(s, step); }
    }
    SpooledSame(Effect(s, step), NextStep(s, step));
  }

  lemma SealIsNoFile(s: State, step: Step)
    requires step.Seal? ==> Working(s)
    ensures step.Seal? ==> Sealed(s, step.key).files == s.files && Sealed(s, step.key).records == s.records
  {
    hide Stamped, RecodedAll;
  }

  lemma SpooledSame(s: State, t: State)
    requires Spooled(s) && t.files == s.files && t.records == s.records
    ensures Spooled(t)
  {
    assert forall key :: Unmarked(t, key) == Unmarked(s, key);
  }

  lemma SpooledWalk(s: State, step: DrainStep)
    requires Spooled(s) && s.owner.Drain? && CanWalk(s, step)
    ensures Spooled(NextWalk(s, step))
  {
    hide Spooled;
    if step.Note? {
      SpooledStores(s, NextWalk(s, step));
    } else {
      SpooledSame(s, NextWalk(s, step));
    }
  }

  lemma SpooledEvict(s: State, key: Digest)
    requires Spooled(s) && key in s.records && s.records[key].committed
    ensures Spooled(s.(files := s.files - {key})) && Spooled(s.(records := s.records - {key}))
  {
    hide Spooled;
    SpooledStores(s, s.(files := s.files - {key}));
    SpooledStores(s, s.(records := s.records - {key}));
  }

  lemma SpooledKept(s: State, e: Event)
    requires Spooled(s) && Can(s, e)
    ensures Spooled(Next(s, e))
  {
    hide CanStep, NextStep, CanWalk, NextWalk, AfterAccept, Scan, Backlog, Spooled;
    match e
    case Accept(payloads) => SpooledAccept(s, payloads); SpooledSame(s, Next(s, e));
    case Attempt(step) => SpooledStep(s, step);
    case Walk(step) => SpooledWalk(s, step);
    case EvictFile(key) => SpooledEvict(s, key);
    case EvictRecord(key) => SpooledEvict(s, key);
    case _ => SpooledSame(s, Next(s, e));
  }

  lemma {:induction false} RunsSpooled(s: State, run: seq<Event>)
    requires Spooled(s) && Legal(s, run)
    ensures Spooled(Outcome(s, run))
    decreases |run|
  {
    hide Spooled, Can, Next;
    if run != [] {
      SpooledKept(s, run[0]);
      RunsSpooled(Next(s, run[0]), run[1..]);
    }
  }

  lemma ReachableSpooled(s: State)
    requires Reachable(s)
    ensures Spooled(s)
  {
    hide Legal, Outcome, Spooled;
    var run :| Legal(Initial(s.name), run) && Outcome(Initial(s.name), run) == s;
    assert Spooled(Initial(s.name)) by { StartsSpooled(s.name); }
    RunsSpooled(Initial(s.name), run);
  }

  lemma StartsSpooled(name: TableId)
    ensures Spooled(Initial(name))
  {
  }

  // ------------------------------------------------------- the backlog, in order

  // The first listed of some files; among equals the favoured one if it is there.
  lemma {:induction false} Oldest(keys: set<Digest>, records: map<Digest, Entry>, rank: Digest -> int, favoured: Digest)
    returns (m: Digest)
    requires keys != {} && keys <= records.Keys
    ensures m in keys && forall k | k in keys :: NoLater(m, k, records, rank)
    ensures favoured in keys && NoLater(favoured, m, records, rank) ==> m == favoured
    decreases |keys|
  {
    var k :| k in keys;
    if keys == {k} {
      return k;
    }
    var first := Oldest(keys - {k}, records, rank, favoured);
    m := if !NoLater(first, k, records, rank) || (k == favoured && NoLater(k, first, records, rank)) then k else first;
    forall l | l in keys
      ensures NoLater(m, l, records, rank)
    {
      assert l != k ==> NoLater(first, l, records, rank);
    }
  }

  // Listed strictly before.
  predicate Sooner(k: Digest, l: Digest, records: map<Digest, Entry>, rank: Digest -> int)
    requires k in records && l in records
  {
    !NoLater(l, k, records, rank)
  }

  // Among equals the favoured file goes first.
  predicate Favours(todo: seq<Digest>, records: map<Digest, Entry>, rank: Digest -> int, favoured: Digest) {
    forall j, k | 0 <= j < k < |todo| && todo[k] == favoured && todo[j] in records && favoured in records ::
      Sooner(todo[j], favoured, records, rank)
  }

  lemma {:induction false} Arrange(keys: set<Digest>, records: map<Digest, Entry>,
      rank: Digest -> int, favoured: Digest)
    returns (todo: seq<Digest>)
    requires keys <= records.Keys
    ensures forall k :: k in todo <==> k in keys
    ensures OldestFirst(todo, records, rank) && Favours(todo, records, rank, favoured)
    decreases |keys|
  {
    if keys == {} {
      return [];
    }
    var m := Oldest(keys, records, rank, favoured);
    var rest := Arrange(keys - {m}, records, rank, favoured);
    todo := [m] + rest;
    forall j, k | 0 <= j < k < |todo|
      ensures todo[j] != todo[k] && NoLater(todo[j], todo[k], records, rank)
      ensures todo[k] == favoured ==> Sooner(todo[j], favoured, records, rank)
    {
      assert todo[k] == rest[k - 1] && todo[k] in rest;
      if j > 0 {
        assert todo[j] == rest[j - 1];
      }
    }
  }

  // --------------------------------------------------------------- draining it

  // The table once a drain has been through these files.
  function Appended(table: seq<Digest>, todo: seq<Digest>): seq<Digest>
    decreases |todo|
  {
    if todo == [] then table
    else Appended(if todo[0] in table then table else table + [todo[0]], todo[1..])
  }

  lemma {:induction false} AppendedHas(table: seq<Digest>, todo: seq<Digest>)
    ensures table <= Appended(table, todo)
    ensures forall k | k in todo :: k in Appended(table, todo)
    decreases |todo|
  {
    if todo != [] {
      var t := if todo[0] in table then table else table + [todo[0]];
      AppendedHas(t, todo[1..]);
      assert todo[0] in t;
    }
  }

  // New files join in the order they are walked.
  lemma {:induction false} AppendedInOrder(table: seq<Digest>, todo: seq<Digest>, j: nat, k: nat)
    returns (a: nat, b: nat)
    requires j < k < |todo| && todo[j] != todo[k] && todo[k] !in table
    requires forall i | 0 <= i < k :: todo[i] != todo[k]
    ensures a < b < |Appended(table, todo)| && Appended(table, todo)[a] == todo[j]
            && Appended(table, todo)[b] == todo[k]
    decreases |todo|
  {
    var t := if todo[0] in table then table else table + [todo[0]];
    var all := Appended(table, todo);
    if j == 0 {
      AppendedHas(t, todo[1..]);
      a :| 0 <= a < |t| && t[a] == todo[0];
      assert todo[1..][k - 1] in all;
      b :| 0 <= b < |all| && all[b] == todo[k];
      assert forall x | 0 <= x < |t| :: all[x] == t[x] && t[x] != todo[k];
    } else {
      a, b := AppendedInOrder(t, todo[1..], j - 1, k - 1);
    }
  }

  // What a drain leaves of everything else.
  ghost predicate SameRest(s: State, t: State) {
    t.name == s.name && t.accepted == s.accepted && t.seals == s.seals && t.nextId == s.nextId && t.staged == s.staged
  }

  // Only a restart and drains.
  predicate Settling(run: seq<Event>) { forall e | e in run :: e.Crash? || e.StartDrain? || e.Walk? }

  function WalkFirst(found: bool): seq<Event> {
    [Walk(Load), Walk(Send), Joins(found), Walk(Note)]
  }

  lemma FirstSent(s: State)
    requires s.owner.Drain? && s.owner.at.Loading? && s.owner.todo != [] && s.owner.todo[0] in s.files
    ensures Can(s, Walk(Load)) && Can(Next(s, Walk(Load)), Walk(Send))
    ensures Next(Next(s, Walk(Load)), Walk(Send)) ==
            s.(bucket := s.bucket[s.owner.todo[0] := s.files[s.owner.todo[0]]],
                owner := Drain(s.owner.todo, Sent(s.table)))
  {
  }

  function Joins(found: bool): Event { if found then Walk(Found) else Walk(Join(true)) }

  lemma SentJoins(s: State)
    requires s.owner.Drain? && s.owner.todo != [] && s.owner.at == Sent(s.table)
    ensures var e := Joins(s.owner.todo[0] in s.table);
            && Can(s, e) && Can(Next(s, e), Walk(Note)) && SameRest(s, Next(Next(s, e), Walk(Note)))
            && Next(Next(s, e), Walk(Note)).files == s.files
            && Next(Next(s, e), Walk(Note)).owner == Drain(s.owner.todo[1..], Loading)
            && Next(Next(s, e), Walk(Note)).table == if s.owner.todo[0] in s.table then s.table
                else s.table + [s.owner.todo[0]]
  {
  }

  // One file drained, from loading the table to the mark.
  lemma FirstDrained(s: State)
    requires s.owner.Drain? && s.owner.at.Loading? && s.owner.todo != [] && s.owner.todo[0] in s.files
    ensures var run := WalkFirst(s.owner.todo[0] in s.table);
            && Legal(s, run) && SameRest(s, Outcome(s, run)) && Outcome(s, run).files == s.files
            && Outcome(s, run).owner == Drain(s.owner.todo[1..], Loading)
            && Outcome(s, run).table == if s.owner.todo[0] in s.table then s.table else s.table + [s.owner.todo[0]]
  {
    hide Legal, Outcome, Can, Next;
    var run := WalkFirst(s.owner.todo[0] in s.table);
    FirstSent(s);
    var t1 := Next(s, run[0]);
    var t2 := Next(t1, run[1]);
    SentJoins(t2);
    var t3 := Next(t2, run[2]);
    FourSteps(s, run, t1, t2, t3, Next(t3, run[3]));
  }

  lemma FourSteps(s: State, run: seq<Event>, t1: State, t2: State, t3: State, t4: State)
    requires |run| == 4 && Can(s, run[0]) && t1 == Next(s, run[0]) && Can(t1, run[1]) && t2 == Next(t1, run[1])
    requires Can(t2, run[2]) && t3 == Next(t2, run[2]) && Can(t3, run[3]) && t4 == Next(t3, run[3])
    ensures Legal(s, run) && Outcome(s, run) == t4
  {
    hide Can, Next;
    var r1 := run[1..];
    var r2 := r1[1..];
    var r3 := r2[1..];
    assert r3[1..] == [] && Legal(t4, []) && Outcome(t4, []) == t4;
    assert Legal(t3, r3) && Outcome(t3, r3) == t4;
    assert Legal(t2, r2) && Outcome(t2, r2) == t4;
    assert Legal(t1, r1) && Outcome(t1, r1) == t4;
  }

  lemma {:induction false} AllDrained(s: State) returns (run: seq<Event>)
    requires s.owner.Drain? && s.owner.at.Loading? && forall k | k in s.owner.todo :: k in s.files
    ensures Legal(s, run) && Settling(run) && SameRest(s, Outcome(s, run))
    ensures Outcome(s, run).table == Appended(s.table, s.owner.todo)
    decreases |s.owner.todo|
  {
    hide Legal, Outcome;
    if s.owner.todo == [] {
      assert Legal(s, []) && Outcome(s, []) == s by { NoRun(s); }
      return [];
    }
    var first := WalkFirst(s.owner.todo[0] in s.table);
    FirstDrained(s);
    var t := Outcome(s, first);
    var more := AllDrained(t);
    Continued(s, first, more);
    run := first + more;
  }

  lemma NoRun(s: State)
    ensures Legal(s, []) && Outcome(s, []) == s
  {
  }

  lemma TwoSteps(s: State, first: Event, second: Event)
    requires Can(s, first) && Can(Next(s, first), second)
    ensures Legal(s, [first, second]) && Outcome(s, [first, second]) == Next(Next(s, first), second)
  {
    hide Can, Next;
    var t, run := Next(s, first), [first, second];
    var u := Next(t, second);
    assert run[1..] == [second] && [second][1..] == [];
    NoRun(u);
    assert Legal(t, [second]) && Outcome(t, [second]) == u;
  }

  // The files a drain started now would walk.
  ghost predicate Left(s: State, key: Digest) { Unmarked(s, key) && !LiveKey(s, key) }

  /** From any state whose staging a scan does not refuse, a restart can drain the whole
      backlog, oldest first; where clock readings and ranks both tie, whichever file one
      likes goes first. */
  lemma Drains(s: State, favoured: Digest) returns (todo: seq<Digest>, run: seq<Event>)
    requires Spooled(s) && !Split(s)
    ensures (forall k :: k in todo <==> Left(s, k)) && OldestFirst(todo, s.records, s.name.rank)
    ensures Favours(todo, s.records, s.name.rank, favoured)
    ensures Legal(s, run) && Settling(run) && SameRest(s, Outcome(s, run))
    ensures Outcome(s, run).table == Appended(s.table, todo)
  {
    hide Legal, Outcome, LiveKey, Appended, Split;
    var keys := set k | k in s.records.Keys && Left(s, k);
    todo := Arrange(keys, s.records, s.name.rank, favoured);
    var t := s.(owner := NoOne);
    SameLiveKeys(s, t);
    assert forall k :: Unmarked(t, k) == Unmarked(s, k);
    assert Backlog(t, todo);
    SameSplit(s, t);
    TwoSteps(s, Crash, StartDrain(todo));
    var u := Next(t, StartDrain(todo));
    var more := AllDrained(u);
    Continued(s, [Crash, StartDrain(todo)], more);
    run := [Crash, StartDrain(todo)] + more;
  }

  lemma SameSplit(s: State, t: State)
    requires t.staged == s.staged
    ensures Split(t) == Split(s)
  {
  }

  lemma NoKeyNoSplit(s: State)
    requires forall key :: !LiveKey(s, key)
    ensures !Split(s)
  {
    if i :| i in s.staged && s.staged[i].key.Some? && !s.staged[i].quarantined {
      assert SealedAs(s, i, s.staged[i].key.value);
      assert LiveKey(s, s.staged[i].key.value);
    }
  }

  lemma SameLiveKeys(s: State, t: State)
    requires s.staged == t.staged
    ensures forall key :: LiveKey(t, key) == LiveKey(s, key)
  {
    assert forall i, key :: SealedAs(t, i, key) == SealedAs(s, i, key);
  }
}
