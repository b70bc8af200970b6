/** One owner per table: the store's registry (store.go). */
module Claims {
  // With everyone who takes a slot in it: a writer being opened, the spool drain, a
  // writer being closed, and the store's own close.

  import opened Record

  datatype Refusal = StoreClosed | InUse

  // ---------------------------------------------------------------- the registry

  /** The slots, by table, each held by an actor; nothing once the store has closed. */
  datatype Slots = Slots(owners: map<nat, nat>, closed: bool)

  function Attached(s: Slots, table: nat, who: nat): (r: (Slots, Option<Refusal>)) {
    if s.closed then (s, Some(StoreClosed))
    else if table in s.owners then (s, Some(InUse))
    else (s.(owners := s.owners[table := who]), None)
  }

  function Swapped(s: Slots, table: nat, who: nat): (r: (Slots, Option<Refusal>)) {
    if s.closed then (s, Some(StoreClosed)) else (s.(owners := s.owners[table := who]), None)
  }

  // By key, whoever holds it; a missing key is not an error.
  function Detached(s: Slots, table: nat): Slots { s.(owners := s.owners - {table}) }

  class Registry {
    var writers: map<nat, nat>
    var closed: bool

    function View(): Slots
      reads this
    {
      Slots(writers, closed)
    }

    constructor ()
      ensures View() == Slots(map[], false)
    {
      writers, closed := map[], false;
    }

    method Attach(table: nat, who: nat) returns (refusal: Option<Refusal>)
      modifies this
      ensures (View(), refusal) == Attached(old(View()), table, who)
      ensures refusal == if old(closed) then Some(StoreClosed) else if table in old(writers) then Some(InUse) else None
      ensures closed == old(closed) && writers == if refusal.Some? then old(writers) else old(writers)[table := who]
    {
      if closed {
        return Some(StoreClosed);
      }
      if table in writers {
        return Some(InUse);
      }
      writers := writers[table := who];
      return None;
    }

    method SwapClaim(table: nat, who: nat) returns (refusal: Option<Refusal>)
      modifies this
      ensures (View(), refusal) == Swapped(old(View()), table, who)
      ensures refusal == if old(closed) then Some(StoreClosed) else None
      ensures closed == old(closed) && writers == if refusal.Some? then old(writers) else old(writers)[table := who]
    {
      if closed {
        return Some(StoreClosed);
      }
      writers := writers[table := who];
      return None;
    }

    method Detach(table: nat)
      modifies this
      ensures View() == Detached(old(View()), table)
      ensures closed == old(closed) && writers == old(writers) - {table}
    {
      writers := writers - {table};
    }

    /** Closes the store and takes everyone who held a slot. */
    method TakeAll() returns (refusal: Option<Refusal>, taken: map<nat, nat>)
      modifies this
      ensures old(closed) ==> refusal == Some(StoreClosed) && View() == old(View()) && taken == map[]
      ensures !old(closed) ==> refusal == None && View() == Slots(map[], true) && taken == old(writers)
    {
      if closed {
        return Some(StoreClosed), map[];
      }
      closed := true;
      taken := writers;
      writers := map[];
      return None, taken;
    }
  }

  // ------------------------------------------------------------------- the actors

  /** Where an actor has got to. A walker holds a claim and works on the table: a drain,
      or an open that drains, loads, reconciles and scans. `Started` has its worker
      running and is about to take the slot for the writer itself. */
  datatype Place = Walking(opening: bool) | Started | Unwinding | Live | Closing | Stopped | Gone | Turned(why: Refusal)

  datatype Actor = Actor(table: nat, at: Place)

  /** `awaited` is whom the store's close still has to see stopped, `hurried` that its
      context ended first, and `databases` that staging is still open. */
  datatype State = State(slots: Slots, actors: map<nat, Actor>, awaited: set<nat>, hurried: bool, databases: bool)

  const START := State(Slots(map[], false), map[], {}, false, true)

  datatype Event =
    | Arrive(who: nat, table: nat, opening: bool)
    | StartWorker(who: nat)
    | Swap(who: nat)
    | GiveUp(who: nat)
    | Release(who: nat)
    | CloseWriter(who: nat)
    | WorkerExits(who: nat)
    | Detach(who: nat)
    | CloseStore
    | SeeStopped(who: nat)
    | RunOutOfTime
    | CloseDatabases

  predicate Is(s: State, who: nat, at: Place) { who in s.actors && s.actors[who].at == at }

  predicate Can(s: State, e: Event) {
    match e
    case Arrive(who, _, _) => who !in s.actors
    case StartWorker(who) => Is(s, who, Walking(true))
    case Swap(who) => Is(s, who, Started)
    // A drain that ends, and an open that fails at any point, stops working first.
    case GiveUp(who) => who in s.actors && (s.actors[who].at.Walking? || s.actors[who].at.Started?)
    case Release(who) => Is(s, who, Unwinding)
    case CloseWriter(who) => Is(s, who, Live)
    case WorkerExits(who) => Is(s, who, Closing)
    case Detach(who) => Is(s, who, Stopped)
    case CloseStore => !s.slots.closed
    // A claim is waited for not at all, a writer until its worker is gone.
    case SeeStopped(who) =>
      who in s.awaited && (who in s.actors ==> !s.actors[who].at.Live? && !s.actors[who].at.Closing?)
    case RunOutOfTime => s.slots.closed
    case CloseDatabases => s.slots.closed && s.databases && (s.awaited == {} || s.hurried)
  }

  function Moved(s: State, who: nat, at: Place): State
    requires who in s.actors
  {
    s.(actors := s.actors[who := s.actors[who].(at := at)])
  }

  function After(s: State, e: Event): State
    requires Can(s, e)
  {
    match e
    case Arrive(who, table, opening) =>
      var (slots, refusal) := Attached(s.slots, table, who);
      s.(slots := slots,
         actors := s.actors[who := Actor(table, if refusal.Some? then Turned(refusal.value) else Walking(opening))])
    case StartWorker(who) => Moved(s, who, Started)
    case Swap(who) =>
      var (slots, refusal) := Swapped(s.slots, s.actors[who].table, who);
      Moved(s.(slots := slots), who, if refusal.Some? then Unwinding else Live)
    case GiveUp(who) => Moved(s, who, Unwinding)
    case Release(who) => Moved(s.(slots := Detached(s.slots, s.actors[who].table)), who, Gone)
    case CloseWriter(who) => Moved(s, who, Closing)
    case WorkerExits(who) => Moved(s, who, Stopped)
    case Detach(who) => Moved(s.(slots := Detached(s.slots, s.actors[who].table)), who, Gone)
    case CloseStore => s.(slots := Slots(map[], true), awaited := s.slots.owners.Values)
    case SeeStopped(who) => s.(awaited := s.awaited - {who})
    case RunOutOfTime => s.(hurried := true)
    case CloseDatabases => s.(databases := false)
  }

  // ------------------------------------------------------------------- invariants

  // Between claiming a slot and giving it back.
  predicate Holds(a: Actor) { !a.at.Gone? && !a.at.Turned? }

  /** Doing something to the table: walking it, or with a worker that may be. */
  predicate Active(a: Actor) { a.at.Walking? || a.at.Started? || a.at.Live? || a.at.Closing? }

  // A registered writer whose worker may still use the databases.
  predicate Serving(a: Actor) { a.at.Live? || a.at.Closing? }

  predicate Exclusive(s: State) {
    forall a, b | a in s.actors && b in s.actors && a != b && Holds(s.actors[a]) && Holds(s.actors[b]) ::
      s.actors[a].table != s.actors[b].table
  }

  // While the store is open the registry is exactly who holds what.
  predicate Registered(s: State) {
    && (!s.slots.closed ==>
          && (forall a | a in s.actors && Holds(s.actors[a]) ::
                s.actors[a].table in s.slots.owners && s.slots.owners[s.actors[a].table] == a)
          && (forall t | t in s.slots.owners ::
                s.slots.owners[t] in s.actors && Holds(s.actors[s.slots.owners[t]])
                    && s.actors[s.slots.owners[t]].table == t)
          && s.databases)
    && (s.slots.closed ==> s.slots.owners == map[])
  }

  // Once the store has closed, every writer still serving is being waited for.
  predicate Awaited(s: State) {
    && (s.slots.closed ==> forall a | a in s.actors && Serving(s.actors[a]) :: a in s.awaited)
    && (!s.databases && !s.hurried ==> forall a | a in s.actors :: !Serving(s.actors[a]))
  }

  predicate Kept(s: State) { Exclusive(s) && Registered(s) && Awaited(s) }

  // A holder goes on holding.
  lemma MoveKept(s: State, who: nat, at: Place)
    requires Kept(s) && who in s.actors && Holds(s.actors[who]) && !at.Gone? && !at.Turned?
    requires at.Live? || at.Closing? ==> Serving(s.actors[who]) || !s.slots.closed
    ensures Kept(Moved(s, who, at))
  {
    hide Exclusive;
    ExclusiveMoves(s, who, at);
  }

  lemma ExclusiveMoves(s: State, who: nat, at: Place)
    requires Exclusive(s) && who in s.actors && (Holds(s.actors[who]) || at.Gone?)
    ensures Exclusive(Moved(s, who, at))
  {
    var t := Moved(s, who, at);
    assert forall a | a in t.actors :: a in s.actors && t.actors[a].table == s.actors[a].table;
    assert forall a | a in t.actors && Holds(t.actors[a]) :: Holds(s.actors[a]);
  }

  // A holder gives back its slot, by key: it is its own, or there is none.
  lemma ReleaseKept(s: State, who: nat)
    requires Kept(s) && who in s.actors && Holds(s.actors[who]) && !Serving(s.actors[who])
    ensures Kept(Moved(s.(slots := Detached(s.slots, s.actors[who].table)), who, Gone))
  {
    hide Exclusive;
    var t := Moved(s.(slots := Detached(s.slots, s.actors[who].table)), who, Gone);
    OthersElsewhere(s, who);
    ExclusiveMoves(s, who, Gone);
    assert t.actors == Moved(s, who, Gone).actors;
    assert Exclusive(t) by { SameActors(Moved(s, who, Gone), t); }
  }

  lemma OthersElsewhere(s: State, who: nat)
    requires Exclusive(s) && who in s.actors && Holds(s.actors[who])
    ensures forall a | a in s.actors && a != who && Holds(s.actors[a]) :: s.actors[a].table != s.actors[who].table
  {
  }

  lemma SameActors(s: State, t: State)
    requires Exclusive(s) && t.actors == s.actors
    ensures Exclusive(t)
  {
  }

  lemma ArriveKept(s: State, who: nat, table: nat, opening: bool)
    requires Kept(s) && who !in s.actors
    ensures Kept(After(s, Arrive(who, table, opening)))
  {
    var t := After(s, Arrive(who, table, opening));
    assert forall a | a in s.actors :: t.actors[a] == s.actors[a];
    if !s.slots.closed && table !in s.slots.owners {
      forall a | a in s.actors && Holds(s.actors[a])
        ensures s.actors[a].table != table
      {
        assert s.actors[a].table in s.slots.owners;
      }
    }
  }

  lemma CloseKept(s: State)
    requires Kept(s) && !s.slots.closed
    ensures Kept(After(s, CloseStore))
  {
    hide Exclusive;
    var t := After(s, CloseStore);
    SameActors(s, t);
    forall a | a in t.actors && Serving(t.actors[a])
      ensures a in t.awaited
    {
      assert s.slots.owners[s.actors[a].table] == a;
    }
  }

  lemma SwapKept(s: State, who: nat)
    requires Kept(s) && Is(s, who, Started)
    ensures Kept(After(s, Swap(who)))
  {
    hide Exclusive;
    if s.slots.closed {
      MoveKept(s, who, Unwinding);
    } else {
      MoveKept(s, who, Live);
      assert s.slots.owners[s.actors[who].table := who] == s.slots.owners;
    }
  }

  /** Every step keeps the single-owner rule. */
  lemma StepKept(s: State, e: Event)
    requires Kept(s) && Can(s, e)
    ensures Kept(After(s, e))
  {
    hide Kept, Swapped, Attached;
    match e
    case Arrive(who, table, opening) => ArriveKept(s, who, table, opening);
    case StartWorker(who) => MoveKept(s, who, Started);
    case Swap(who) => SwapKept(s, who);
    case GiveUp(who) => MoveKept(s, who, Unwinding);
    case Release(who) => ReleaseKept(s, who);
    case CloseWriter(who) => MoveKept(s, who, Closing);
    case WorkerExits(who) => MoveKept(s, who, Stopped);
    case Detach(who) => ReleaseKept(s, who);
    case CloseStore => CloseKept(s);
    case _ => EndingKept(s, e);
  }

  lemma EndingKept(s: State, e: Event)
    requires Kept(s) && Can(s, e) && (e.SeeStopped? || e.RunOutOfTime? || e.CloseDatabases?)
    ensures Kept(After(s, e))
  {
    hide Exclusive;
    SameActors(s, After(s, e));
  }

  // -------------------------------------------------------------------- the theorems

  predicate Legal(s: State, run: seq<Event>)
    decreases |run|
  {
    run == [] || (Can(s, run[0]) && Legal(After(s, run[0]), run[1..]))
  }

  function End(s: State, run: seq<Event>): State
    requires Legal(s, run)
    decreases |run|
  {
    if run == [] then s else End(After(s, run[0]), run[1..])
  }

  ghost predicate Reachable(s: State) { exists run :: Legal(START, run) && End(START, run) == s }

  lemma {:induction false} RunKept(s: State, run: seq<Event>)
    requires Kept(s) && Legal(s, run)
    ensures Kept(End(s, run))
    decreases |run|
  {
    hide Kept, Can, After;
    if run != [] {
      StepKept(s, run[0]);
      RunKept(After(s, run[0]), run[1..]);
    }
  }

  lemma ReachableKept(s: State)
    requires Reachable(s)
    ensures Kept(s)
  {
    hide Legal, End, Kept;
    var run :| Legal(START, run) && End(START, run) == s;
    assert Kept(START) by { StartKept(); }
    RunKept(START, run);
  }

  lemma StartKept()
    ensures Kept(START)
  {
  }

  /** Under any interleaving at most one walker or worker is at a table, and while the
      store is open it is the one in the table's slot. */
  lemma OneOwnerPerTable(s: State, a: nat, b: nat)
    requires Reachable(s) && a in s.actors && b in s.actors && Active(s.actors[a]) && Active(s.actors[b])
    requires s.actors[a].table == s.actors[b].table
    ensures a == b
    ensures !s.slots.closed ==> s.actors[a].table in s.slots.owners && s.slots.owners[s.actors[a].table] == a
  {
    hide Reachable, Awaited;
    ReachableKept(s);
  }

  /** Handing the claim to the writer leaves no gap: in an open store the slot holds this
      actor before the step and after it, and the registry does not change. */
  lemma SwapLeavesNoGap(s: State, who: nat)
    requires Reachable(s) && Is(s, who, Started) && !s.slots.closed
    ensures var t := After(s, Swap(who));
            && Is(t, who, Live) && t.slots == s.slots
            && s.actors[who].table in t.slots.owners && t.slots.owners[s.actors[who].table] == who
  {
    hide Reachable, Awaited, Exclusive;
    ReachableKept(s);
    assert s.slots.owners[s.actors[who].table := who] == s.slots.owners;
  }

  /** Removal is by key, and the key is always the remover's own: no other actor's slot
      goes, and in an open store its own does. */
  lemma RemovalIsOwn(s: State, who: nat, t: nat)
    requires Reachable(s) && (Is(s, who, Unwinding) || Is(s, who, Stopped)) && t in s.slots.owners
    ensures t !in Detached(s.slots, s.actors[who].table).owners <==> s.slots.owners[t] == who
  {
    hide Reachable, Awaited;
    ReachableKept(s);
  }

  /** Nobody is let in to a closed store, and a second owner of a table is refused. */
  lemma RefusalsInOrder(s: State, who: nat, table: nat, opening: bool)
    requires Reachable(s) && who !in s.actors
    ensures var t := After(s, Arrive(who, table, opening));
            && (s.slots.closed ==> Is(t, who, Turned(StoreClosed)))
            && (!s.slots.closed && (exists a :: a in s.actors && s.actors[a].table == table && Holds(s.actors[a])) ==>
                  Is(t, who, Turned(InUse)))
            && (!s.slots.closed && (forall a | a in s.actors && s.actors[a].table == table :: !Holds(s.actors[a])) ==>
                  Is(t, who, Walking(opening)))
  {
    hide Reachable, Awaited, Exclusive;
    ReachableKept(s);
    if table in s.slots.owners {
      assert s.slots.owners[table] in s.actors;
    }
  }

  /** The databases close under no registered writer: unless the close ran out of time,
      every one of them has stopped its worker by then. */
  lemma DatabasesOutliveWriters(s: State, a: nat)
    requires Reachable(s) && !s.databases && !s.hurried && a in s.actors
    ensures !s.actors[a].at.Live? && !s.actors[a].at.Closing?
  {
    hide Reachable, Exclusive, Registered;
    ReachableKept(s);
  }
}
