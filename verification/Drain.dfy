/** The transition drain at work. */
module Drain {
  // drain.go, over the stores it changes, in the same terms as Flush.dfy.

  import opened Record
  import opened BatchKey
  import opened Protocol
  import opened Restart

  lemma LoadStep(s: State, todo: seq<Digest>)
    requires s.owner == Owner.Drain(todo, Loading) && todo != []
    ensures Can(s, Walk(Load)) && Next(s, Walk(Load)) == s.(owner := Owner.Drain(todo, Loaded(s.table)))
  {
  }

  lemma SendStep(s: State, todo: seq<Digest>, base: seq<Digest>)
    requires s.owner == Owner.Drain(todo, Loaded(base)) && todo != [] && todo[0] in s.files
    ensures Can(s, Walk(Send))
    ensures Next(s, Walk(Send)) ==
            s.(bucket := s.bucket[todo[0] := s.files[todo[0]]], owner := Owner.Drain(todo, Sent(base)))
  {
  }

  lemma JoinStep(s: State, todo: seq<Digest>, base: seq<Digest>, reported: bool)
    requires s.owner == Owner.Drain(todo, Sent(base)) && todo != [] && todo[0] !in base && base == s.table
    ensures Can(s, Walk(Join(reported)))
    ensures Next(s, Walk(Join(reported))) ==
            s.(table := s.table + [todo[0]], owner := if reported then Owner.Drain(todo, Joined) else NoOne)
  {
  }

  lemma FoundStep(s: State, todo: seq<Digest>, base: seq<Digest>)
    requires s.owner == Owner.Drain(todo, Sent(base)) && todo != [] && todo[0] in base
    ensures Can(s, Walk(Found)) && Next(s, Walk(Found)) == s.(owner := Owner.Drain(todo, Joined))
  {
  }

  lemma NoteStep(s: State, todo: seq<Digest>)
    requires s.owner == Owner.Drain(todo, Joined) && todo != []
    ensures Can(s, Walk(Note))
    ensures Next(s, Walk(Note)) == s.(records := Marked(s, todo[0]).records, owner := Owner.Drain(todo[1..], Loading))
  {
  }

  /** How the calls made for one file go: bringing the table to its shape, the upload,
      asking the table for it, the commit, and marking it. */
  datatype Haul = Haul(open: Reply, put: Reply, ask: Reply, commit: Reply, mark: Reply)

  // What it takes for a file to be drained.
  predicate Hauls(w: Haul, there: bool) {
    w.open.Done? && w.put.Done? && w.ask.Done? && (there || w.commit.Done?) && w.mark.Done?
  }

  class Drainer {
    const name: TableId

    // The stores. A drain reads staging and never changes it.
    var staged: map<nat, Row>
    var bucket: map<Digest, File>
    var table: seq<Digest>
    var files: map<Digest, File>
    var records: map<Digest, Entry>

    ghost var model: State
    ghost var past: seq<Event>

    ghost predicate Ran()
      reads this`model, this`past
    {
      Legal(Initial(name), past) && Outcome(Initial(name), past) == model
    }

    ghost predicate Valid()
      reads this
    {
      && Ran() && model.name == name && model.staged == staged && model.bucket == bucket
      && model.table == table && model.files == files && model.records == records
    }

    constructor (ghost past: seq<Event>, s: State)
      requires Legal(Initial(s.name), past) && Outcome(Initial(s.name), past) == s && s.owner.NoOne?
      ensures Valid() && model == s && this.past == past
    {
      name, staged, bucket, table, files, records := s.name, s.staged, s.bucket, s.table, s.files, s.records;
      model := s;
      this.past := past;
    }

    // The run so far, one step longer.
    ghost method Step(e: Event)
      requires Ran() && Can(model, e)
      modifies this`model, this`past
      ensures Ran() && model == Next(old(model), e) && old(past) <= past
    {
      hide Can, Next, Legal, Outcome, Initial;
      Then(Initial(name), past, e);
      model := Next(model, e);
      past := past + [e];
    }

    // The drain stops where it is; what it has committed stays committed.
    ghost method Stop()
      requires Valid() && (model.owner.Drain? || model.owner.NoOne?)
      modifies this`model, this`past
      ensures Valid() && model == old(model).(owner := NoOne) && old(past) <= past
    {
      hide Ran, Legal, Outcome;
      if model.owner.Drain? {
        Step(Walk(End));
      }
    }

    // Of these keys, one whose file is listed no later than any other's.
    method Oldest(keys: set<Digest>) returns (first: Digest)
      requires keys != {} && forall key | key in keys :: key in records
      ensures first in keys && forall key | key in keys :: NoLater(first, key, records, name.rank)
    {
      first :| first in keys;
      var rest := keys - {first};
      while rest != {}
        invariant rest <= keys && first in keys
        invariant forall key | key in keys && key !in rest :: NoLater(first, key, records, name.rank)
        decreases |rest|
      {
        var key :| key in rest;
        rest := rest - {key};
        if !NoLater(first, key, records, name.rank) {
          first := key;
        }
      }
    }

    /** The files no commit is recorded for, oldest first. */
    method ReadBacklog() returns (backlog: seq<Digest>)
      ensures forall key :: key in backlog <==> key in records && !records[key].committed
      ensures OldestFirst(backlog, records, name.rank)
    {
      var rest := set key | key in records && !records[key].committed;
      backlog := [];
      while rest != {}
        invariant forall key | key in rest :: key in records && !records[key].committed && key !in backlog
        invariant forall key :: key in backlog || key in rest <==> key in records && !records[key].committed
        invariant OldestFirst(backlog, records, name.rank)
        invariant forall j, key | 0 <= j < |backlog| && key in rest :: NoLater(backlog[j], key, records, name.rank)
        decreases |rest|
      {
        var first := Oldest(rest);
        rest := rest - {first};
        backlog := backlog + [first];
      }
    }

    /** The batch keys live staged rows carry: replay's, not the drain's. The scan that
        finds them refuses a key that quarantined rows carry too. */
    method StagedBatchKeys(scan: Reply) returns (keys: Option<set<Digest>>)
      requires Valid()
      ensures keys.Some? <==> scan.Done? && !Split(model)
      ensures keys.Some? ==> forall key :: key in keys.value <==> LiveKey(model, key)
    {
      if !scan.Done? || exists i, j | i in staged && j in staged ::
           staged[i].key.Some? && staged[j].key == staged[i].key && !staged[i].quarantined && staged[j].quarantined {
        return None;
      }
      var found := set i | i in staged && !staged[i].quarantined && staged[i].key.Some? :: staged[i].key.value;
      assert forall i, key ::
          SealedAs(model, i, key) <==> i in staged && !staged[i].quarantined && staged[i].key == Some(key);
      return Some(found);
    }

    // Brings the table to the file's shape and puts the file under its key.
    method SendFile(ghost todo: seq<Digest>, key: Digest, open: Reply, put: Reply) returns (ok: bool, base: seq<Digest>)
      requires Valid() && todo != [] && key == todo[0] && model.owner == Owner.Drain(todo, Loading)
      modifies this`bucket, this`model, this`past
      ensures Valid() && old(past) <= past && base == table
      ensures ok <==> open.Done? && put.Done? && key in files
      ensures ok ==> model.owner == Owner.Drain(todo, Sent(base)) && key in files
      ensures bucket == if open.Done? && !put.Refused? && key in files then old(bucket)[key := files[key]]
                        else old(bucket)
      ensures !ok ==> model.owner.NoOne?
    {
      hide Ran, Can, Next;
      base := table;
      if !open.Done? {
        Stop();
        return false, base;
      }
      LoadStep(model, todo);
      Step(Walk(Load));
      if put.Refused? || key !in files {
        Stop();
        return false, base;
      }
      bucket := bucket[key := files[key]];
      SendStep(model, todo, base);
      Step(Walk(Send));
      if put.Lost? {
        Stop();
        return false, base;
      }
      return true, base;
    }

    // Commits the file unless the table just loaded has it already.
    method JoinFile(ghost todo: seq<Digest>, key: Digest, base: seq<Digest>, ask: Reply, commit: Reply)
      returns (ok: bool)
      requires Valid() && todo != [] && key == todo[0] && model.owner == Owner.Drain(todo, Sent(base)) && base == table
      modifies this`table, this`model, this`past
      ensures Valid() && old(past) <= past
      ensures ok <==> ask.Done? && (key in old(table) || commit.Done?)
      ensures table == if ask.Done? && key !in old(table) && !commit.Refused? then old(table) + [key] else old(table)
      ensures ok ==> key in table && model.owner == Owner.Drain(todo, Joined)
      ensures !ok ==> model.owner.NoOne?
    {
      hide Ran, Can, Next;
      if !ask.Done? || (key !in base && commit.Refused?) {
        Stop();
        return false;
      }
      if key in base {
        FoundStep(model, todo, base);
        Step(Walk(Found));
        return true;
      }
      table := table + [key];
      JoinStep(model, todo, base, commit.Done?);
      Step(Walk(Join(commit.Done?)));
      return commit.Done?;
    }

    /** One backlog file: uploaded, committed unless it already is, and then marked. */
    method DrainFile(ghost todo: seq<Digest>, key: Digest, w: Haul) returns (ok: bool)
      requires Valid() && todo != [] && key == todo[0] && model.owner == Owner.Drain(todo, Loading)
      modifies this`bucket, this`table, this`records, this`model, this`past
      ensures Valid() && old(past) <= past
      ensures ok <==> Hauls(w, key in old(table)) && key in files
      ensures table == old(table) || (key !in old(table) && table == old(table) + [key])
      ensures ok ==> key in table && model.owner == Owner.Drain(todo[1..], Loading)
      ensures ok ==> records == if key in old(records) then old(records)[key := old(records)[key].(committed := true)]
              else old(records)
      ensures !ok ==> model.owner.NoOne? && records == old(records)
    {
      hide Valid;
      var base;
      ok, base := SendFile(todo, key, w.open, w.put);
      if ok {
        ok := JoinFile(todo, key, base, w.ask, w.commit);
      }
      if ok {
        ok := MarkDrained(todo, key, w.mark);
      }
    }

    // After the commit, never before.
    method MarkDrained(ghost todo: seq<Digest>, key: Digest, mark: Reply) returns (ok: bool)
      requires Valid() && todo != [] && key == todo[0] && model.owner == Owner.Drain(todo, Joined)
      modifies this`records, this`model, this`past
      ensures Valid() && old(past) <= past
      ensures ok == mark.Done?
      ensures ok ==> model.owner == Owner.Drain(todo[1..], Loading)
      ensures ok ==> records == if key in old(records) then old(records)[key := old(records)[key].(committed := true)]
              else old(records)
      ensures !ok ==> model.owner.NoOne? && records == old(records)
    {
      hide Ran, Can, Next;
      if !mark.Done? {
        Stop();
        return false;
      }
      if key in records {
        records := records[key := records[key].(committed := true)];
      }
      NoteStep(model, todo);
      Step(Walk(Note));
      return true;
    }

    /** Walks the backlog oldest first, leaving out what replay owns, and stops at the
        first failure. It succeeds exactly when every call it makes is done and the scan
        of staging, made when there is a backlog at all, refuses nothing. The table grows
        by the files walked, in their order and each at most once: by all of them when it
        succeeds, and then every file still unmarked is one replay owns, which is what a
        writer needs to open. */
    method DrainTable(list: Reply, scan: Reply, world: Digest -> Haul) returns (ok: bool, ghost todo: seq<Digest>)
      requires Valid() && model.owner.NoOne?
      modifies this
      ensures Valid() && old(past) <= past && model.owner.NoOne? && staged == old(staged)
      ensures ok <==> list.Done? && old((exists key :: Unmarked(model, key)) ==>
                        scan.Done? && !Split(model) && forall key | Left(model, key) :: Hauls(world(key), key in table))
      ensures OldestFirst(todo, old(records), name.rank) && forall key | key in todo :: old(Left(model, key))
      ensures ok ==> (forall key | old(Left(model, key)) :: key in todo) && table == Appended(old(table), todo)
      ensures !ok ==> exists k :: 0 <= k <= |todo| && table == Appended(old(table), todo[..k])
      ensures ok ==> forall key | key in records && !records[key].committed :: LiveKey(model, key)
    {
      hide Hauls, Appended, Split, LiveKey;
      todo := [];
      assert table == Appended(table, todo) && todo == todo[..0] by { NothingAppended(table); }
      if !list.Done? {
        return false, todo;
      }
      var backlog := ReadBacklog();
      if |backlog| == 0 {
        assert forall key | Unmarked(model, key) :: key in backlog;
        return true, todo;
      }
      assert Unmarked(model, backlog[0]) by { assert backlog[0] in backlog; }
      var owned := StagedBatchKeys(scan);
      if owned.None? {
        return false, todo;
      }
      var rest := WithoutOwned(backlog, owned.value);
      todo := rest;
      BacklogIs(model, rest);
      Step(StartDrain(rest));
      ghost var before := model;
      ok := WalkAll(rest, world);
      if !ok {
        return;
      }
      assert todo[..|todo|] == todo;
      Stop();
      SameLiveKeys(old(model), before);
      SameLiveKeys(before, model);
    }

    // File after file, up to the first failure.
    method WalkAll(todo: seq<Digest>, world: Digest -> Haul) returns (ok: bool)
      requires Valid() && model.owner == Owner.Drain(todo, Loading)
      requires forall key | key in todo :: key in records && !records[key].committed
      requires forall i, j | 0 <= i < j < |todo| :: todo[i] != todo[j]
      modifies this`bucket, this`table, this`records, this`model, this`past
      ensures Valid() && old(past) <= past
      ensures ok <==> forall key | key in todo :: Hauls(world(key), key in old(table))
      ensures ok ==> model.owner == Owner.Drain([], Loading) && table == Appended(old(table), todo)
      ensures ok ==> forall key | key in records && !records[key].committed ::
                key !in todo && key in old(records) && !old(records)[key].committed
      ensures !ok ==> model.owner.NoOne? && exists k :: 0 <= k <= |todo| && table == Appended(old(table), todo[..k])
    {
      hide Ran, Hauls, Appended;
      var rest, k := todo, 0;
      assert table == Appended(table, todo[..0]) by { NothingAppended(table); }
      while |rest| > 0
        invariant Valid() && old(past) <= past && model.owner == Owner.Drain(rest, Loading)
        invariant 0 <= k <= |todo| && rest == todo[k..] && table == Appended(old(table), todo[..k])
        invariant forall j | 0 <= j < k :: Hauls(world(todo[j]), todo[j] in old(table))
        invariant forall key | key in records && !records[key].committed ::
                    key !in todo[..k] && key in old(records) && !old(records)[key].committed
        invariant forall key | key in rest :: key in records && !records[key].committed
        decreases |rest|
      {
        HasFile(rest[0]);
        NextInTable(old(table), todo, k);
        ok := DrainFile(rest, rest[0], world(rest[0]));
        if !ok {
          assert todo[k] in todo;
          return;
        }
        assert todo[..k + 1] == todo[..k] + [todo[k]];
        rest := rest[1..];
        k := k + 1;
      }
      assert todo[..k] == todo;
      return true;
    }

    // A file no commit is recorded for is there.
    lemma HasFile(key: Digest)
      requires Valid() && key in records && !records[key].committed
      ensures key in files
    {
      hide Legal, Outcome;
      ReachableSpooled(model);
      assert Unmarked(model, key);
    }

    // The backlog, oldest first, without what replay owns.
    method WithoutOwned(backlog: seq<Digest>, owned: set<Digest>) returns (todo: seq<Digest>)
      requires OldestFirst(backlog, records, name.rank)
      ensures OldestFirst(todo, records, name.rank) && forall key :: key in todo <==> key in backlog && key !in owned
    {
      todo := [];
      for i := 0 to |backlog|
        invariant forall key :: key in todo <==> key in backlog[..i] && key !in owned
        invariant OldestFirst(todo, records, name.rank)
      {
        assert backlog[..i + 1] == backlog[..i] + [backlog[i]];
        if backlog[i] !in owned {
          Later(backlog, i, todo, records, name.rank);
          todo := todo + [backlog[i]];
        }
      }
      assert backlog[..|backlog|] == backlog;
    }
  }

  lemma Later(backlog: seq<Digest>, i: nat, todo: seq<Digest>, records: map<Digest, Entry>, rank: Digest -> int)
    requires i < |backlog| && OldestFirst(backlog, records, rank)
    requires OldestFirst(todo, records, rank) && forall key | key in todo :: key in backlog[..i]
    ensures OldestFirst(todo + [backlog[i]], records, rank)
  {
    forall j | 0 <= j < |todo|
      ensures todo[j] != backlog[i]
      ensures todo[j] in records && backlog[i] in records ==> NoLater(todo[j], backlog[i], records, rank)
    {
      assert todo[j] in backlog[..i];
      var k :| 0 <= k < i && backlog[k] == todo[j];
    }
  }

  lemma NothingAppended(table: seq<Digest>)
    ensures Appended(table, []) == table
  {
  }

  // The next file to walk: in the table, or about to be.
  lemma NextInTable(table: seq<Digest>, todo: seq<Digest>, k: nat)
    requires k < |todo| && forall i, j | 0 <= i < j < |todo| :: todo[i] != todo[j]
    ensures (todo[k] in Appended(table, todo[..k])) == (todo[k] in table)
    ensures var now := Appended(table, todo[..k]);
            Appended(table, todo[..k + 1]) == if todo[k] in now then now else now + [todo[k]]
  {
    hide Appended;
    assert todo[..k + 1] == todo[..k] + [todo[k]];
    OneMoreAppended(table, todo[..k], todo[k]);
  }

  lemma {:induction false} OneMoreAppended(table: seq<Digest>, todo: seq<Digest>, key: Digest)
    ensures var now := Appended(table, todo);
            && Appended(table, todo + [key]) == (if key in now then now else now + [key])
            && (key in now <==> key in table || key in todo)
    decreases |todo|
  {
    if todo == [] {
      assert [] + [key] == [key] && [key][1..] == [];
    } else {
      assert (todo + [key])[1..] == todo[1..] + [key] && todo == [todo[0]] + todo[1..];
      OneMoreAppended(if todo[0] in table then table else table + [todo[0]], todo[1..], key);
    }
  }

  lemma BacklogIs(s: State, todo: seq<Digest>)
    requires s.owner.NoOne? && OldestFirst(todo, s.records, s.name.rank)
    requires forall key :: key in todo <==> key in s.records && !s.records[key].committed && !LiveKey(s, key)
    requires !Split(s)
    ensures Can(s, StartDrain(todo))
    ensures Next(s, StartDrain(todo)) == s.(owner := Owner.Drain(todo, Loading))
  {
    hide LiveKey;
  }
}
