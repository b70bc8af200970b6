/** One goroutine, many waiters. */
module Worker {
  // The bookkeeping of internal/flush/worker.go.
  //
  // Each region the program runs under the worker's lock is one function here, and
  // one method of the class at the end; the machine interleaves them, with a program
  // counter for the goroutine and for every waiter. Channels are modelled by what
  // can be observed of them: the wake channel by whether it holds its one token, and
  // the close-and-replace broadcast channel by its generation.

  import opened Record

  /** A failure or a quarantine: the batch it belongs to, and its place among the
      failures (or among the quarantines) recorded so far, counted from one. */
  datatype Report = Report(batch: nat, number: nat)

  /** The fields guarded by the lock, and the wake channel. */
  datatype Shared = Shared(
    queue: seq<nat>,
    enqueued: nat,
    completed: nat,
    failure: Option<Report>,
    failures: nat,
    notice: Option<Report>,
    stopping: bool,
    generation: nat,
    wake: bool)

  const FRESH := Shared([], 0, 0, None, 0, None, false, 0, false)

  /** What a cycle did to its batch. */
  datatype Outcome = Committed | Isolated | Failed

  /** What a look at the state tells a waiter: nothing yet, nil, or an error. */
  datatype Answer = Unsettled | Flushed | FailedCycle(report: Report) | Quarantined(report: Report)

  function Broadcast(s: Shared): Shared { s.(generation := s.generation + 1) }

  function Enqueued(s: Shared): Shared {
    Broadcast(s.(enqueued := s.enqueued + 1, queue := s.queue + [s.enqueued + 1])).(wake := true)
  }

  // A batch leaves when it commits and when it is quarantined; a failure keeps it.
  function Finished(s: Shared, j: nat, outcome: Outcome, report: Report): Shared {
    if outcome.Failed? then Broadcast(s.(failure := Some(report), failures := s.failures + 1))
    else
      var popped := if s.queue != [] && s.queue[0] == j then s.queue[1..] else s.queue;
      Broadcast(s.(queue := popped, completed := s.completed + 1,
                   notice := if outcome.Isolated? then Some(report) else s.notice,
                   failure := if outcome.Committed? then None else s.failure))
  }

  // Reads the state once for a waiter that began after `since` failures.
  function Look(s: Shared, upTo: nat, since: nat): Answer {
    if s.notice.Some? && s.notice.value.batch <= upTo then Quarantined(s.notice.value)
    else if s.failures > since && s.failure.Some? && s.failure.value.batch <= upTo then FailedCycle(s.failure.value)
    else if s.completed >= upTo then Flushed
    else Unsettled
  }

  // Taking the notice clears it, under the same hold of the lock.
  function Looked(s: Shared, upTo: nat, since: nat): Shared {
    if Look(s, upTo, since).Quarantined? then s.(notice := None) else s
  }

  /** What the goroutine does next, told by `head`. */
  datatype Next = Exit | Rest | Work(j: nat)

  function Head(s: Shared, cancelled: bool): Next {
    if cancelled then Exit
    else if s.queue != [] then Work(s.queue[0])
    else if s.stopping then Exit
    else Rest
  }

  // ------------------------------------------------------------------ the machine

  /** The goroutine. `empty` says that it idles because it saw an empty queue rather
      than because a cycle failed. */
  datatype Goroutine =
    | Looking
    | Cycling(j: nat)
    | Finishing(j: nat, outcome: Outcome)
    | IdleCheck(empty: bool)
    | IdleSelect(empty: bool)
    | IdleAfter
    | Exited

  datatype Waiter = Waiter(upTo: nat, since: nat, at: Place)

  datatype Place = Ready | Blocked(generation: nat) | Returned(answer: Answer)

  /** How a batch that left the queue left it, and what became of its notice. */
  datatype Fate = Landed | Pending | Told(waiter: nat) | Overwritten

  /** `fates` is history: the n-th batch queued left as fates[n - 1] says. */
  datatype State = State(
    s: Shared,
    cancelled: bool,
    go: Goroutine,
    closers: nat,
    waiters: map<nat, Waiter>,
    fates: seq<Fate>)

  const START := State(FRESH, false, Looking, 0, map[], [])

  datatype Event =
    | Enqueue
    | Kick
    | CloseStop
    | CloseSignal
    | Cancel
    | GoHead
    | GoCycle(outcome: Outcome)
    | GoFinish
    | GoIdle
    | GoWake
    | GoCancelled
    | GoOn
    | WaitBegin(id: nat, upTo: nat)
    | WaitLook(id: nat)
    | WaitWoken(id: nat)
    | WaitGiveUp(id: nat)

  predicate At(t: State, id: nat, place: Place) { id in t.waiters && t.waiters[id].at == place }

  predicate Can(t: State, e: Event) {
    match e
    case CloseSignal => t.closers > 0
    case GoHead => t.go.Looking?
    case GoCycle(_) => t.go.Cycling?
    case GoFinish => t.go.Finishing?
    case GoIdle => t.go.IdleCheck?
    case GoWake => t.go.IdleSelect? && t.s.wake
    case GoCancelled => t.go.IdleSelect? && t.cancelled
    case GoOn => t.go.IdleAfter?
    case WaitBegin(id, _) => id !in t.waiters
    case WaitLook(id) => At(t, id, Ready)
    // The select goes on when its channel has been closed or the goroutine is gone.
    case WaitWoken(id) => id in t.waiters && t.waiters[id].at.Blocked?
        && (t.waiters[id].at.generation < t.s.generation || t.go.Exited?)
    case WaitGiveUp(id) => id in t.waiters && t.waiters[id].at.Blocked?
    case _ => true
  }

  function Told(fates: seq<Fate>, n: nat, id: nat): seq<Fate> {
    if 1 <= n <= |fates| then fates[n - 1 := Fate.Told(id)] else fates
  }

  // A second quarantine takes the place of a notice nobody has read.
  function Overwrite(fates: seq<Fate>, notice: Option<Report>): seq<Fate> {
    if notice.Some? && 1 <= notice.value.batch <= |fates| then fates[notice.value.batch - 1 := Overwritten] else fates
  }

  function Numbered(s: Shared, j: nat, outcome: Outcome): Report {
    Report(j, if outcome.Failed? then s.failures + 1 else s.completed + 1)
  }

  function AfterFinish(t: State, j: nat, outcome: Outcome): State {
    var s := Finished(t.s, j, outcome, Numbered(t.s, j, outcome));
    var fates := match outcome
                 case Failed => t.fates
                 case Committed => t.fates + [Landed]
                 case Isolated => Overwrite(t.fates, t.s.notice) + [Pending];
    t.(s := s, fates := fates, go := if outcome.Failed? then IdleCheck(false) else Looking)
  }

  function AfterLook(t: State, id: nat): State
    requires id in t.waiters
  {
    var w := t.waiters[id];
    var answer := Look(t.s, w.upTo, w.since);
    var place := if !answer.Unsettled? then Returned(answer)
                 else if t.go.Exited? then Returned(Unsettled)
                 else Blocked(t.s.generation);
    t.(s := Looked(t.s, w.upTo, w.since),
       waiters := t.waiters[id := w.(at := place)],
       fates := if answer.Quarantined? then Told(t.fates, answer.report.batch, id) else t.fates)
  }

  function After(t: State, e: Event): State
    requires Can(t, e)
  {
    match e
    case Enqueue => t.(s := Enqueued(t.s))
    case Kick => t.(s := t.s.(wake := true))
    case CloseStop => t.(s := t.s.(stopping := true), closers := t.closers + 1)
    case CloseSignal => t.(s := t.s.(wake := true), closers := t.closers - 1)
    case Cancel => t.(cancelled := true)
    case GoHead =>
      (match Head(t.s, t.cancelled)
       case Exit => t.(go := Exited)
       case Rest => t.(go := IdleCheck(true))
       case Work(j) => t.(go := Cycling(j)))
    case GoCycle(outcome) => t.(go := Finishing(t.go.j, outcome))
    case GoFinish => AfterFinish(t, t.go.j, t.go.outcome)
    case GoIdle => t.(go := if t.s.stopping then Exited else IdleSelect(t.go.empty))
    case GoWake => t.(s := t.s.(wake := false), go := IdleAfter)
    case GoCancelled => t.(go := Exited)
    case GoOn => t.(go := if t.s.stopping && t.s.queue == [] then Exited else Looking)
    case WaitBegin(id, upTo) => t.(waiters := t.waiters[id := Waiter(upTo, t.s.failures, Ready)])
    case WaitLook(id) => AfterLook(t, id)
    case WaitWoken(id) => t.(waiters := t.waiters[id := t.waiters[id].(at := Ready)])
    case WaitGiveUp(id) => t.(waiters := t.waiters[id := t.waiters[id].(at := Returned(Unsettled))])
  }

  // ------------------------------------------------------------- what it keeps

  /** Queued sequence numbers are exactly completed + 1 up to enqueued, and the batch
      being worked on is always the head. */
  predicate Lined(t: State) {
    && t.s.completed + |t.s.queue| == t.s.enqueued
    && (forall k | 0 <= k < |t.s.queue| :: t.s.queue[k] == t.s.completed + 1 + k)
    && (t.go.Cycling? || t.go.Finishing? ==> t.s.queue != [] && t.go.j == t.s.queue[0])
    && |t.fates| == t.s.completed
  }

  predicate Idling(go: Goroutine) { (go.IdleCheck? || go.IdleSelect?) && go.empty }

  /** No lost wakeup: idling on an empty queue, a token is pending once work arrives;
      about to sleep, one is pending once a stop has been signalled. */
  predicate Wakeful(t: State) {
    && (Idling(t.go) && t.s.queue != [] ==> t.s.wake)
    && (t.go.IdleSelect? && t.s.stopping && t.closers == 0 ==> t.s.wake)
    && (t.go.Exited? ==> t.s.stopping || t.cancelled)
  }

  // The recorded failure is the newest, and no batch behind the head has failed.
  predicate Generational(s: Shared) {
    && (s.failure.Some? ==> s.failure.value.number == s.failures && 1 <= s.failure.value.batch <= s.completed + 1)
    && (s.notice.Some? ==> 1 <= s.notice.value.batch <= s.completed && s.notice.value.number == s.notice.value.batch)
  }

  // The unread notice is the one pending fate.
  predicate Noticed(t: State) {
    && (t.s.notice.Some? ==> 1 <= t.s.notice.value.batch <= |t.fates| && t.fates[t.s.notice.value.batch - 1].Pending?)
    && (forall n | 0 <= n < |t.fates| && t.fates[n].Pending? :: t.s.notice == Some(Report(n + 1, n + 1)))
  }

  predicate WaiterOk(t: State, w: Waiter) {
    && w.since <= t.s.failures
    && match w.at
       case Blocked(g) => g <= t.s.generation && (g == t.s.generation ==> Look(t.s, w.upTo, w.since).Unsettled?)
       case Returned(Flushed) => w.upTo <= |t.fates| && forall n | 0 <= n < w.upTo :: !t.fates[n].Pending?
       case Returned(FailedCycle(r)) => w.since < r.number <= t.s.failures && r.batch <= w.upTo
       case _ => true
  }

  predicate Honest(t: State) { forall id | id in t.waiters :: WaiterOk(t, t.waiters[id]) }

  // Every notice told was told to one waiter it concerns, and every waiter that
  // returned one was told it.
  predicate ToldOnce(t: State) {
    && (forall n | 0 <= n < |t.fates| && t.fates[n].Told? ::
          At(t, t.fates[n].waiter, Returned(Quarantined(Report(n + 1, n + 1))))
              && n + 1 <= t.waiters[t.fates[n].waiter].upTo)
    && (forall id | id in t.waiters && t.waiters[id].at.Returned? && t.waiters[id].at.answer.Quarantined? ::
          var r := t.waiters[id].at.answer.report;
          1 <= r.batch <= |t.fates| && t.fates[r.batch - 1] == Fate.Told(id))
  }

  predicate Kept(t: State) {
    Lined(t) && Wakeful(t) && Generational(t.s) && Noticed(t) && Honest(t) && ToldOnce(t)
  }

  lemma StartKept()
    ensures Kept(START)
  {
  }

  // A change of what waiters read comes with a broadcast.
  lemma BroadcastKeepsHonest(t: State, u: State)
    requires Honest(t) && u.waiters == t.waiters && u.s.failures >= t.s.failures && u.s.generation > t.s.generation
    requires |t.fates| <= |u.fates| && forall n | 0 <= n < |t.fates| && u.fates[n].Pending? :: t.fates[n].Pending?
    ensures Honest(u)
  {
    hide Look;
    forall id | id in u.waiters
      ensures WaiterOk(u, u.waiters[id])
    {
      assert WaiterOk(t, t.waiters[id]);
    }
  }

  lemma FinishKept(t: State, j: nat, outcome: Outcome)
    requires Kept(t) && t.go == Finishing(j, outcome)
    ensures Kept(AfterFinish(t, j, outcome))
  {
    hide Look, WaiterOk, Honest, ToldOnce;
    var u := AfterFinish(t, j, outcome);
    BroadcastKeepsHonest(t, u);
    FatesKept(t, j, outcome);
  }

  lemma FatesKept(t: State, j: nat, outcome: Outcome)
    requires ToldOnce(t) && Noticed(t)
    ensures ToldOnce(AfterFinish(t, j, outcome))
  {
    hide ToldOnce, Finished;
    var u := AfterFinish(t, j, outcome);
    forall n | 0 <= n < |u.fates|
      ensures u.fates[n].Told? ==> n < |t.fates| && t.fates[n] == u.fates[n]
      ensures n < |t.fates| && t.fates[n].Told? ==> t.fates[n] == u.fates[n]
    {
    }
    SameTold(t, u);
  }

  lemma SameTold(t: State, u: State)
    requires ToldOnce(t) && u.waiters == t.waiters && |t.fates| <= |u.fates|
    requires forall n | 0 <= n < |u.fates| && u.fates[n].Told? :: n < |t.fates| && t.fates[n] == u.fates[n]
    requires forall n | 0 <= n < |t.fates| && t.fates[n].Told? :: t.fates[n] == u.fates[n]
    ensures ToldOnce(u)
  {
  }

  lemma LookKept(t: State, id: nat)
    requires Kept(t) && At(t, id, Ready)
    ensures Kept(AfterLook(t, id))
  {
    hide Lined, Wakeful, Generational, Noticed, WaiterOk, ToldOnce;
    var u := AfterLook(t, id);
    LookKeepsState(t, id);
    LookKeepsTold(t, id);
    assert WaiterOk(u, u.waiters[id]) by { LookIsHonest(t, id); }
    forall other | other in u.waiters && other != id
      ensures WaiterOk(u, u.waiters[other])
    {
      assert WaiterOk(t, t.waiters[other]);
      OthersKept(t, id, other);
    }
  }

  lemma LookKeepsState(t: State, id: nat)
    requires Kept(t) && At(t, id, Ready)
    ensures Lined(AfterLook(t, id)) && Wakeful(AfterLook(t, id)) && Generational(AfterLook(t, id).s)
            && Noticed(AfterLook(t, id))
  {
    hide Honest, ToldOnce;
  }

  lemma LookKeepsTold(t: State, id: nat)
    requires Kept(t) && At(t, id, Ready)
    ensures ToldOnce(AfterLook(t, id))
  {
    hide Honest, Wakeful;
    var u := AfterLook(t, id);
    forall n | 0 <= n < |u.fates| && u.fates[n].Told?
      ensures At(u, u.fates[n].waiter, Returned(Quarantined(Report(n + 1, n + 1))))
              && n + 1 <= u.waiters[u.fates[n].waiter].upTo
    {
    }
  }

  lemma LookIsHonest(t: State, id: nat)
    requires Kept(t) && At(t, id, Ready)
    ensures WaiterOk(AfterLook(t, id), AfterLook(t, id).waiters[id])
  {
    hide ToldOnce, Wakeful;
    assert WaiterOk(t, t.waiters[id]);
  }

  lemma OthersKept(t: State, id: nat, other: nat)
    requires At(t, id, Ready) && other in t.waiters && other != id && WaiterOk(t, t.waiters[other])
    ensures WaiterOk(AfterLook(t, id), AfterLook(t, id).waiters[other])
  {
  }

  /** Every step keeps all of it. */
  lemma StepKept(t: State, e: Event)
    requires Kept(t) && Can(t, e)
    ensures Kept(After(t, e))
  {
    hide Look, Kept, AfterFinish, AfterLook;
    match e
    case GoFinish => FinishKept(t, t.go.j, t.go.outcome);
    case WaitLook(id) => LookKept(t, id);
    case Enqueue => EnqueueKept(t);
    case WaitBegin(_, _) => WaitingKept(t, e);
    case WaitWoken(_) => WaitingKept(t, e);
    case WaitGiveUp(_) => WaitingKept(t, e);
    case _ => QuietKept(t, e);
  }

  lemma EnqueueKept(t: State)
    requires Kept(t)
    ensures Kept(After(t, Enqueue))
  {
    hide Look, Honest, WaiterOk;
    BroadcastKeepsHonest(t, After(t, Enqueue));
  }

  // One waiter that has not returned moves on, and nothing else changes.
  lemma WaiterMoves(t: State, id: nat, w: Waiter)
    requires Kept(t) && (id in t.waiters ==> !t.waiters[id].at.Returned?) && WaiterOk(t, w)
    requires w.at.Returned? ==> !w.at.answer.Quarantined?
    ensures Kept(t.(waiters := t.waiters[id := w]))
  {
    hide Look, Lined, Wakeful, Generational, Noticed;
    var u := t.(waiters := t.waiters[id := w]);
    MovesNothing(t, u);
    forall other | other in u.waiters
      ensures WaiterOk(u, u.waiters[other])
    {
      assert other != id ==> WaiterOk(t, t.waiters[other]);
    }
    forall n | 0 <= n < |u.fates| && u.fates[n].Told?
      ensures At(u, u.fates[n].waiter, Returned(Quarantined(Report(n + 1, n + 1))))
              && n + 1 <= u.waiters[u.fates[n].waiter].upTo
    {
      assert At(t, t.fates[n].waiter, Returned(Quarantined(Report(n + 1, n + 1))));
    }
  }

  lemma MovesNothing(t: State, u: State)
    requires Kept(t) && u.s == t.s && u.go == t.go && u.fates == t.fates && u.closers == t.closers
             && u.cancelled == t.cancelled
    ensures Lined(u) && Wakeful(u) && Generational(u.s) && Noticed(u)
  {
    hide Honest, ToldOnce;
  }

  lemma WaitingKept(t: State, e: Event)
    requires Kept(t) && Can(t, e) && (e.WaitBegin? || e.WaitWoken? || e.WaitGiveUp?)
    ensures Kept(After(t, e))
  {
    hide Look, Lined, Wakeful, Generational, Noticed, ToldOnce;
    var w := After(t, e).waiters[e.id];
    if e.id in t.waiters {
      assert WaiterOk(t, t.waiters[e.id]);
    }
    WaiterMoves(t, e.id, w);
  }

  // Steps that touch no waiter and nothing a waiter reads.
  lemma QuietKept(t: State, e: Event)
    requires Kept(t) && Can(t, e) && !e.GoFinish? && !e.Enqueue? && !e.WaitBegin? && !e.WaitLook? && !e.WaitWoken?
             && !e.WaitGiveUp?
    ensures Kept(After(t, e))
  {
    var u := After(t, e);
    assert u.waiters == t.waiters && u.fates == t.fates;
    forall id | id in u.waiters
      ensures WaiterOk(u, u.waiters[id])
    {
      assert WaiterOk(t, t.waiters[id]);
    }
  }

  // ------------------------------------------------------------------------ runs

  predicate Legal(t: State, run: seq<Event>)
    decreases |run|
  {
    run == [] || (Can(t, run[0]) && Legal(After(t, run[0]), run[1..]))
  }

  function End(t: State, run: seq<Event>): State
    requires Legal(t, run)
    decreases |run|
  {
    if run == [] then t else End(After(t, run[0]), run[1..])
  }

  ghost predicate Reachable(t: State) { exists run :: Legal(START, run) && End(START, run) == t }

  lemma {:induction false} RunKept(t: State, run: seq<Event>)
    requires Kept(t) && Legal(t, run)
    ensures Kept(End(t, run))
    decreases |run|
  {
    hide Kept, Can, After;
    if run != [] {
      StepKept(t, run[0]);
      RunKept(After(t, run[0]), run[1..]);
    }
  }

  lemma ReachableKept(t: State)
    requires Reachable(t)
    ensures Kept(t)
  {
    hide Kept, Legal, End;
    var run :| Legal(START, run) && End(START, run) == t;
    StartKept();
    RunKept(START, run);
  }

  /** The queue holds exactly the batches not completed, in order, and finishing a
      cycle always takes the batch the cycle was about. */
  lemma QueueIsTheRest(t: State)
    requires Reachable(t)
    ensures t.s.completed <= t.s.enqueued
    ensures t.s.queue == seq(t.s.enqueued - t.s.completed, k requires 0 <= k => t.s.completed + 1 + k)
    ensures t.go.Finishing? && !t.go.outcome.Failed? ==>
              t.s.queue != [] &&
              Finished(t.s, t.go.j, t.go.outcome, Numbered(t.s, t.go.j, t.go.outcome)).queue == t.s.queue[1..]
  {
    hide Reachable, Honest, ToldOnce, Noticed;
    ReachableKept(t);
  }

  /** A goroutine idling because its queue was empty can always go on once there is
      work, and one about to sleep can always go on once a stop has been signalled. */
  lemma NoLostWakeup(t: State)
    requires Reachable(t) && t.go.IdleSelect?
    ensures t.go.empty && t.s.queue != [] ==> Can(t, GoWake)
    ensures t.s.stopping && t.closers == 0 ==> Can(t, GoWake)
  {
    hide Reachable, Honest, ToldOnce, Noticed, Lined;
    ReachableKept(t);
  }

  // ------------------------------------------------------------ what a wait is told

  // An unread quarantine of a batch this wait covers.
  predicate HasNotice(t: State, w: Waiter) { t.s.notice.Some? && t.s.notice.value.batch <= w.upTo }

  // A failure of a batch this wait covers, recorded since it began.
  predicate HasFailure(t: State, w: Waiter) {
    t.s.failure.Some? && t.s.failure.value.batch <= w.upTo && w.since < t.s.failure.value.number
  }

  // Every batch up to this one has been queued, and none of them still is.
  predicate NoneLeft(t: State, upTo: nat) { upTo <= t.s.enqueued && forall n | n in t.s.queue :: upTo < n }

  /** One look answers a wait, whatever there is to say: an unread quarantine of a batch
      it covers, which is then read; else a failure of one, recorded since it began; else
      nil, once none of them is left. Only when there is nothing to say does it wait on,
      or give up with the goroutine. */
  lemma WaitIsAnswered(t: State, id: nat)
    requires Reachable(t) && At(t, id, Ready)
    ensures var w, u := t.waiters[id], After(t, WaitLook(id));
            && At(u, id, if HasNotice(t, w) then Returned(Quarantined(t.s.notice.value))
                         else if HasFailure(t, w) then Returned(FailedCycle(t.s.failure.value))
                         else if NoneLeft(t, w.upTo) then Returned(Flushed)
                         else if t.go.Exited? then Returned(Unsettled)
                         else Blocked(t.s.generation))
            && u.s == if HasNotice(t, w) then t.s.(notice := None) else t.s
  {
    hide Reachable, Honest, ToldOnce, Noticed, Wakeful;
    ReachableKept(t);
    GoneIsCompleted(t, t.waiters[id].upTo);
  }

  lemma GoneIsCompleted(t: State, upTo: nat)
    requires Lined(t)
    ensures NoneLeft(t, upTo) <==> t.s.completed >= upTo
  {
    if t.s.queue != [] {
      assert t.s.queue[0] in t.s.queue;
    }
  }

  /** No waiter sleeps on an open channel once there is something to tell it, or nobody
      left who could. */
  lemma NoSleepingAnswer(t: State, id: nat)
    requires Reachable(t) && id in t.waiters && t.waiters[id].at.Blocked?
    requires var w := t.waiters[id]; HasNotice(t, w) || HasFailure(t, w) || NoneLeft(t, w.upTo) || t.go.Exited?
    ensures Can(t, WaitWoken(id))
  {
    hide Reachable, ToldOnce, Noticed;
    ReachableKept(t);
    GoneIsCompleted(t, t.waiters[id].upTo);
    assert WaiterOk(t, t.waiters[id]);
  }

  // A failure stands only while nothing has committed since.
  predicate Standing(t: State) {
    t.s.failure.Some? ==>
      forall k | 0 <= k < |t.fates| && t.s.failure.value.batch <= k + 1 :: !t.fates[k].Landed?
  }

  lemma StepStands(t: State, e: Event)
    requires Kept(t) && Standing(t) && Can(t, e)
    ensures Standing(After(t, e))
  {
    hide Honest, ToldOnce, Wakeful, Look;
    var u := After(t, e);
    if u.s.failure.Some? {
      forall k | 0 <= k < |u.fates| && u.s.failure.value.batch <= k + 1
        ensures !u.fates[k].Landed?
      {
      }
    }
  }

  lemma {:induction false} RunStands(t: State, run: seq<Event>)
    requires Kept(t) && Standing(t) && Legal(t, run)
    ensures Standing(End(t, run))
    decreases |run|
  {
    hide Kept, Standing, Can, After;
    if run != [] {
      StepKept(t, run[0]);
      StepStands(t, run[0]);
      RunStands(After(t, run[0]), run[1..]);
    }
  }

  /** The failure a wait can be told is the last one, of the head of the queue or of a
      batch that was quarantined since; a commit wipes it out. */
  lemma FailureStands(t: State)
    requires Reachable(t) && t.s.failure.Some?
    ensures var r := t.s.failure.value;
            && r.number == t.s.failures && 1 <= r.batch <= t.s.completed + 1
            && |t.fates| == t.s.completed && forall k | r.batch - 1 <= k < |t.fates| :: !t.fates[k].Landed?
  {
    hide Legal, End, Honest, ToldOnce, Noticed, Wakeful;
    ReachableKept(t);
    var run :| Legal(START, run) && End(START, run) == t;
    StartKept();
    RunStands(START, run);
  }

  /** The goroutine never leaves work behind unless it was told to stop. */
  lemma ExitsOnlyIfTold(t: State)
    requires Reachable(t) && t.go.Exited?
    ensures t.s.stopping || t.cancelled
  {
    hide Reachable, Honest, ToldOnce, Noticed, Lined;
    ReachableKept(t);
  }

  // A batch no wait still has to hear about.
  predicate Accounted(t: State, n: nat) {
    && 1 <= n <= |t.fates|
    && match t.fates[n - 1]
       case Landed => true
       case Told(other) => At(t, other, Returned(Quarantined(Report(n, n)))) && n <= t.waiters[other].upTo
       case Overwritten => true
       case Pending => false
  }

  /** A wait that returned nil: every batch up to the one it asked for has left the
      queue, and each either committed, or had its quarantine reported to a wait that
      covers it, or is one whose notice a later quarantine overwrote. */
  lemma NilIsHonest(t: State, id: nat)
    requires Reachable(t) && At(t, id, Returned(Flushed))
    ensures t.waiters[id].upTo <= t.s.completed && forall n | n in t.s.queue :: t.waiters[id].upTo < n
    ensures forall n | 1 <= n <= t.waiters[id].upTo :: Accounted(t, n)
  {
    hide Reachable, Look, Wakeful;
    ReachableKept(t);
    assert WaiterOk(t, t.waiters[id]);
    forall n | 1 <= n <= t.waiters[id].upTo
      ensures Accounted(t, n)
    {
      assert !t.fates[n - 1].Pending?;
    }
  }

  /** A wait that returned a cycle's failure: the batch is one it covers, and the
      failure was recorded after the wait began. */
  lemma FailureIsOwn(t: State, id: nat, r: Report)
    requires Reachable(t) && At(t, id, Returned(FailedCycle(r)))
    ensures t.waiters[id].since < r.number <= t.s.failures && r.batch <= t.waiters[id].upTo
  {
    hide Reachable, ToldOnce, Noticed, Lined, Wakeful;
    ReachableKept(t);
    assert WaiterOk(t, t.waiters[id]);
  }

  /** A quarantine notice reaches at most one waiter, and one its batch concerns. */
  lemma NoticeReachesOneWaiter(t: State, a: nat, b: nat, r: Report, q: Report)
    requires Reachable(t) && At(t, a, Returned(Quarantined(r))) && At(t, b, Returned(Quarantined(q)))
             && r.batch == q.batch
    ensures a == b && r.batch <= t.waiters[a].upTo
  {
    hide Reachable, Honest, Noticed, Lined, Wakeful;
    ReachableKept(t);
    assert t.fates[r.batch - 1] == Fate.Told(a);
  }

  // ------------------------------------------------------ the notice that is lost

  predicate Lost(t: State, n: nat) { n < |t.fates| && t.fates[n].Overwritten? }

  // A batch quarantined while the last quarantine is still unread.
  predicate Overwrites(t: State, e: Event) {
    e.GoFinish? && t.go.Finishing? && t.go.outcome.Isolated? && t.s.notice.Some?
  }

  /** A notice is lost by exactly one kind of step: a quarantine recorded while an
      earlier one is unread. */
  lemma LosesIffOverwrites(t: State, e: Event)
    requires Kept(t) && Can(t, e)
    ensures (exists n :: Lost(After(t, e), n) && !Lost(t, n)) <==> Overwrites(t, e)
  {
    hide Look, Honest, ToldOnce, Wakeful;
    if Overwrites(t, e) {
      var n := t.s.notice.value.batch - 1;
      assert Lost(After(t, e), n) && !Lost(t, n);
    }
  }

  predicate Unhurried(t: State, run: seq<Event>)
    requires Legal(t, run)
    decreases |run|
  {
    run == [] || (!Overwrites(t, run[0]) && Unhurried(After(t, run[0]), run[1..]))
  }

  lemma {:induction false} UnhurriedLosesNothing(t: State, run: seq<Event>)
    requires Kept(t) && Legal(t, run) && Unhurried(t, run) && forall n :: !Lost(t, n)
    ensures forall n :: !Lost(End(t, run), n)
    decreases |run|
  {
    hide Kept, Can, After, Overwrites, Lost;
    if run != [] {
      LosesIffOverwrites(t, run[0]);
      StepKept(t, run[0]);
      UnhurriedLosesNothing(After(t, run[0]), run[1..]);
    }
  }

  /** As long as every quarantine is read before the next one, a wait that returns nil
      means every batch it covers committed or was reported, to exactly one wait, as
      quarantined. */
  lemma NilMeansFlushedOrTold(run: seq<Event>, id: nat, n: nat)
    requires Legal(START, run) && Unhurried(START, run)
    requires At(End(START, run), id, Returned(Flushed)) && 1 <= n <= End(START, run).waiters[id].upTo
    ensures var t := End(START, run);
            Accounted(t, n) && (t.fates[n - 1].Landed? || t.fates[n - 1].Told?)
  {
    hide Legal, End, Unhurried, Kept;
    StartKept();
    assert forall n :: !Lost(START, n);
    UnhurriedLosesNothing(START, run);
    NilIsHonest(End(START, run), id);
    assert !Lost(End(START, run), n - 1);
  }

  lemma {:induction false} LegalThen(t: State, run: seq<Event>, e: Event)
    requires Legal(t, run) && Can(End(t, run), e)
    ensures Legal(t, run + [e]) && End(t, run + [e]) == After(End(t, run), e)
    decreases |run|
  {
    hide Can, After;
    if run == [] {
      assert [] + [e] == [e] && [e][1..] == [];
    } else {
      assert (run + [e])[0] == run[0] && (run + [e])[1..] == run[1..] + [e];
      LegalThen(After(t, run[0]), run[1..], e);
    }
  }

  /** Two quarantines with no wait between them: a wait for the first batch alone is
      then answered nil, though that batch never committed and nobody was told. */
  lemma OverwrittenNoticeReadsAsFlushed()
    ensures exists run, id :: Legal(START, run) &&
                              var t := End(START, run);
                              At(t, id, Returned(Flushed)) && t.waiters[id].upTo == 1
                                  && t.fates == [Overwritten, Pending]
  {
    hide Legal, End;
    var r: seq<Event> := [];
    assert Legal(START, r) && End(START, r) == START by { NoSteps(); }
    LegalThen(START, r, Enqueue);
    r := r + [Enqueue];
    LegalThen(START, r, Enqueue);
    r := r + [Enqueue];
    r := IsolateOne(r);
    r := IsolateOne(r);
    r := WaitOnce(r);
    assert At(End(START, r), 0, Returned(Flushed));
  }

  // A wait for the first batch alone that finds it gone and nothing to report.
  lemma WaitOnce(run: seq<Event>) returns (more: seq<Event>)
    requires Legal(START, run)
    requires var t := End(START, run); t.waiters == map[] && Look(t.s, 1, t.s.failures).Flushed?
    ensures Legal(START, more) && At(End(START, more), 0, Returned(Flushed)) && End(START, more).waiters[0].upTo == 1
    ensures End(START, more).fates == End(START, run).fates
  {
    hide Legal, End, Look;
    more := run;
    LegalThen(START, more, WaitBegin(0, 1));
    more := more + [WaitBegin(0, 1)];
    LegalThen(START, more, WaitLook(0));
    more := more + [WaitLook(0)];
  }

  lemma NoSteps()
    ensures Legal(START, []) && End(START, []) == START
  {
  }

  lemma IsolateOne(run: seq<Event>) returns (more: seq<Event>)
    requires Legal(START, run)
    requires var t := End(START, run); t.go.Looking? && !t.cancelled && t.s.queue != []
    ensures Legal(START, more)
    ensures var t := End(START, run);
            End(START, more) == AfterFinish(t.(go := Finishing(t.s.queue[0], Isolated)), t.s.queue[0], Isolated)
  {
    hide Legal, End, AfterFinish;
    more := run;
    LegalThen(START, more, GoHead);
    more := more + [GoHead];
    LegalThen(START, more, GoCycle(Isolated));
    more := more + [GoCycle(Isolated)];
    LegalThen(START, more, GoFinish);
    more := more + [GoFinish];
  }

  // ------------------------------------------------------------- every wait can end

  // The same waits, with the goroutine still free to work.
  predicate Onward(t: State, u: State) {
    u.waiters == t.waiters && u.s.enqueued == t.s.enqueued && !u.cancelled && !u.s.stopping && !u.go.Exited?
  }

  lemma One(run: seq<Event>, e: Event) returns (more: seq<Event>)
    requires Legal(START, run) && Can(End(START, run), e)
    ensures Legal(START, more) && End(START, more) == After(End(START, run), e) && run <= more
    ensures more == run + [e]
  {
    LegalThen(START, run, e);
    more := run + [e];
  }

  // A goroutine that idles is woken, one at work finishes: it looks at its queue again.
  lemma LooksAgain(run: seq<Event>) returns (more: seq<Event>)
    requires Legal(START, run) && Onward(End(START, run), End(START, run))
    ensures Legal(START, more) && run <= more && Onward(End(START, run), End(START, more))
    ensures End(START, more).go.Looking?
  {
    hide Legal, End, AfterFinish, AfterLook;
    var t := End(START, run);
    more := run;
    if t.go.IdleCheck? {
      more := One(more, GoIdle);
    }
    if End(START, more).go.IdleSelect? {
      more := One(more, Kick);
      more := One(more, GoWake);
    }
    if End(START, more).go.IdleAfter? {
      more := One(more, GoOn);
    }
    if End(START, more).go.Cycling? {
      more := One(more, GoCycle(Committed));
    }
    if End(START, more).go.Finishing? {
      more := Finishes(more);
    }
  }

  // A cycle that failed idles, and is woken.
  lemma Finishes(run: seq<Event>) returns (more: seq<Event>)
    requires Legal(START, run) && Onward(End(START, run), End(START, run)) && End(START, run).go.Finishing?
    ensures Legal(START, more) && run <= more && Onward(End(START, run), End(START, more))
    ensures End(START, more).go.Looking?
  {
    hide Legal, End;
    more := One(run, GoFinish);
    if End(START, more).go.IdleCheck? {
      more := One(more, GoIdle);
      more := One(more, Kick);
      more := One(more, GoWake);
      more := One(more, GoOn);
    }
  }

  // Batch after batch is committed.
  lemma {:induction false} WorksThrough(run: seq<Event>) returns (more: seq<Event>)
    requires Legal(START, run) && Onward(End(START, run), End(START, run)) && End(START, run).go.Looking?
    ensures Legal(START, more) && run <= more && Onward(End(START, run), End(START, more))
    ensures End(START, more).s.queue == []
    decreases |End(START, run).s.queue|
  {
    hide Legal, End;
    more := run;
    var t := End(START, run);
    if t.s.queue != [] {
      more := One(more, GoHead);
      more := One(more, GoCycle(Committed));
      more := One(more, GoFinish);
      assert End(START, more).s.queue == t.s.queue[1..];
      more := WorksThrough(more);
    }
  }

  /** From every reachable state in which the worker has not been told to stop, every wait
      for batches queued can still be answered. */
  lemma EveryWaitCanEnd(past: seq<Event>, id: nat) returns (run: seq<Event>)
    requires Legal(START, past) && Onward(End(START, past), End(START, past))
    requires id in End(START, past).waiters && !End(START, past).waiters[id].at.Returned?
    requires End(START, past).waiters[id].upTo <= End(START, past).s.enqueued
    ensures Legal(START, run) && past <= run
    ensures var t := End(START, run);
            id in t.waiters && t.waiters[id].at.Returned? && !t.waiters[id].at.answer.Unsettled?
  {
    hide Legal, End, AfterLook, AfterFinish;
    run := LooksAgain(past);
    run := WorksThrough(run);
    if End(START, run).waiters[id].at.Blocked? {
      assert Reachable(End(START, run));
      NoSleepingAnswer(End(START, run), id);
      run := One(run, WaitWoken(id));
    }
    assert Reachable(End(START, run));
    WaitIsAnswered(End(START, run), id);
    run := One(run, WaitLook(id));
  }

  // --------------------------------------------------------- the fields themselves

  /** The worker's own fields. Each method is one region the program runs under the
      lock, or one use of the wake channel. */
  class Bookkeeping {
    var queue: seq<nat>
    var enqueued: nat
    var completed: nat
    var failure: Option<Report>
    var failures: nat
    var notice: Option<Report>
    var stopping: bool
    var changed: nat
    var wake: bool

    function View(): Shared
      reads this
    {
      Shared(queue, enqueued, completed, failure, failures, notice, stopping, changed, wake)
    }

    constructor ()
      ensures View() == FRESH
    {
      queue, enqueued, completed, failure, failures := [], 0, 0, None, 0;
      notice, stopping, changed, wake := None, false, 0, false;
    }

    // A token is dropped when one is already pending.
    method Signal()
      modifies this`wake
      ensures wake
    {
      if !wake {
        wake := true;
      }
    }

    // Closes the channel waiters hold and replaces it.
    method BroadcastLocked()
      modifies this`changed
      ensures changed == old(changed) + 1
    {
      changed := changed + 1;
    }

    method Enqueue() returns (number: nat)
      modifies this
      ensures View() == Enqueued(old(View()))
      ensures number == enqueued == old(enqueued) + 1 && queue == old(queue) + [number] && wake
      ensures changed > old(changed)
    {
      enqueued := enqueued + 1;
      queue := queue + [enqueued];
      BroadcastLocked();
      Signal();
      return enqueued;
    }

    method FindHead(cancelled: bool) returns (next: Next)
      ensures next == Head(View(), cancelled)
      ensures next.Work? <==> !cancelled && queue != []
      ensures next.Work? ==> next.j == queue[0]
      ensures next.Exit? <==> cancelled || (queue == [] && stopping)
    {
      if cancelled {
        return Exit;
      }
      if |queue| > 0 {
        return Work(queue[0]);
      }
      if stopping {
        return Exit;
      }
      return Rest;
    }

    method Finish(j: nat, outcome: Outcome, report: Report)
      modifies this
      ensures View() == Finished(old(View()), j, outcome, report)
      ensures changed > old(changed) && enqueued == old(enqueued) && stopping == old(stopping) && wake == old(wake)
      ensures outcome.Failed? ==>
                queue == old(queue) && completed == old(completed) && notice == old(notice)
                && failure == Some(report) && failures == old(failures) + 1
      ensures !outcome.Failed? ==>
                completed == old(completed) + 1 && failures == old(failures)
                && (old(queue) != [] && old(queue)[0] == j ==> queue == old(queue)[1..])
      ensures outcome.Isolated? ==> notice == Some(report) && failure == old(failure)
      ensures outcome.Committed? ==> notice == old(notice) && failure == None
    {
      match outcome {
        case Isolated =>
          notice := Some(report);
        case Failed =>
          failure := Some(report);
          failures := failures + 1;
          BroadcastLocked();
          return;
        case Committed =>
      }
      if |queue| > 0 && queue[0] == j {
        queue := queue[1..];
      }
      completed := completed + 1;
      if outcome.Committed? {
        failure := None;
      }
      BroadcastLocked();
    }

    // One look on behalf of a waiter; a notice it covers is taken.
    method Ask(upTo: nat, since: nat) returns (answer: Answer)
      modifies this`notice
      ensures answer == Look(old(View()), upTo, since) && View() == Looked(old(View()), upTo, since)
      ensures answer.Quarantined? <==> old(notice.Some? && notice.value.batch <= upTo)
      ensures answer.Quarantined? ==> Some(answer.report) == old(notice) && notice == None
      ensures !answer.Quarantined? ==> notice == old(notice)
      ensures !answer.Quarantined? ==>
                (answer.FailedCycle? <==> failures > since && failure.Some? && failure.value.batch <= upTo)
      ensures answer.FailedCycle? ==> Some(answer.report) == failure
      ensures answer.Flushed? ==> completed >= upTo
      ensures answer.Unsettled? ==> completed < upTo
    {
      if notice.Some? && notice.value.batch <= upTo {
        answer := Quarantined(notice.value);
        notice := None;
        return;
      }
      if failures > since && failure.Some? && failure.value.batch <= upTo {
        return FailedCycle(failure.value);
      }
      if completed >= upTo {
        return Flushed;
      }
      return Unsettled;
    }

    method Stop()
      modifies this`stopping
      ensures stopping
    {
      stopping := true;
    }
  }
}
