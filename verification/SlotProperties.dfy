/** What the supervisor and its worker's thread keep, over every move and every run. */
module SlotProperties {

  import opened Wrappers
  import opened SlotInfo
  import opened Bridge
  import opened Chunks
  import opened Slots

  // ---- Hot reload ----

  /** A recyclable worker never takes a request while its code is older than the pool's generation. */
  lemma TakesOnlyWithFreshCode(s: Slot, a: Ambient)
    requires SlotInv(s, a) && Can(s, Takes, a) && s.phase.worker.recyclable
    ensures s.bootGeneration == a.generation && s.info.jobsHandled < Limit(a.maxJobs)
  {
    hide Next, CanStep, Signals, DropsDone, ThreadInv, Fits;
  }

  predicate Stale(s: Slot, a: Ambient) {
    (s.phase.Booting? || Serving(s.phase)) && s.phase.worker.recyclable && s.bootGeneration < a.generation
  }

  function StaleCount(s: Slot, a: Ambient): nat {
    if Stale(s, a) then 1 else 0
  }

  /** Without a new reload no slot turns stale, and every recycle for a reload ends a stale one. */
  lemma StaleOnlyDecreases(s: Slot, m: Move, a: Ambient)
    requires SlotInv(s, a) && Can(s, m, a)
    ensures var s' := Apply(s, m, a);
            StaleCount(s', a) + (s'.reloadRecycles - s.reloadRecycles) <= StaleCount(s, a)
  {
    hide Next, CanStep, Signals, DropsDone, ThreadInv, Fits, InboxFresh;
  }

  /** A stale idle worker is offered its recycle, and its supervisor can do nothing else. */
  lemma StaleIdleMustRecycle(s: Slot, m: Move, a: Ambient)
    requires SlotInv(s, a) && s.phase.Ready? && Stale(s, a)
    ensures Can(s, SeesReload, a) && Apply(s, SeesReload, a).phase == Terminating(s.phase.worker, false)
    ensures Can(s, m, a) ==> m == SeesReload || m == Panics || m.ThreadSteps? || m.ThreadEnds?
  {
    hide Next, CanStep, Signals, DropsDone, ThreadInv, Fits, InboxFresh;
  }

  /** A stale worker that finishes a request is recycled, however the request ended. */
  lemma StaleFinishRecycles(s: Slot, how: Ending, expired: bool, a: Ambient)
    requires SlotInv(s, a) && Stale(s, a) && Can(s, Finishes(how, expired), a)
    ensures var s' := Apply(s, Finishes(how, expired), a);
            s'.phase.Terminating? && !s'.phase.exit && s'.reloadRecycles == s.reloadRecycles + 1
  {
    hide Next, CanStep, Signals, DropsDone, ThreadInv, Fits, InboxFresh;
  }

  // ---- Permits ----

  /**
   * A slot lets go of the request it holds in exactly these ways. Only a timeout, a lost worker or a
   * panic frees the permit before the reply is complete: otherwise the whole reply has been sent.
   */
  lemma ReleasesAfterEnd(s: Slot, m: Move, a: Ambient)
    requires SlotInv(s, a) && Can(s, m, a) && Holds(s.phase) && !Holds(Apply(s, m, a).phase)
    ensures m == Panics || (m.Finishes? && s.phase.Running?)
    ensures m.Finishes? && m.how == Completed ==>
              var log, r := s.phase.worker.bridge.log, s.phase.req.id;
              IsReply(ChunksOf(log, r)) && Count(log, Signalled(r)) == 1 && Window(log) != Some(r)
  {
    if m.Finishes? && m.how == Completed {
      var w, r := s.phase.worker, s.phase.req.id;
      EndedIsNotHeld(w, r);
      assert FateOf(w.bridge.log, r) != Wrong;
      FateMeaning(w.bridge.log, r);
      WindowIsOpen(w.bridge.log, r);
    }
  }

  // ---- The task channel ----

  /** The ids queued on a thread, and the one it is working on. */
  function Owed(w: Worker): set<nat> {
    QueuedIds(w.bridge.tasks) + if w.alive && w.bridge.stream.Some? then {w.bridge.stream.value.request} else {}
  }

  lemma {:induction false} DistinctIdsCount(tasks: seq<Request>)
    requires forall i, j | 0 <= i < j < |tasks| :: tasks[i].id != tasks[j].id
    ensures |QueuedIds(tasks)| == |tasks|
  {
    if tasks != [] {
      var init, last := tasks[..|tasks| - 1], tasks[|tasks| - 1];
      DistinctIdsCount(init);
      QueuedOneMore(init, last);
      assert tasks == init + [last];
      assert last.id !in QueuedIds(init);
    }
  }

  lemma SubsetCount(a: set<nat>, b: set<nat>)
    requires a <= b
    ensures |a| <= |b|
  {
    assert b == a + (b - a);
  }

  lemma OwedSize(w: Worker, taken: set<nat>, running: Option<nat>)
    requires ThreadInv(w, taken, running)
    ensures |Owed(w)| == |w.bridge.tasks| + (if w.alive && w.bridge.stream.Some? then 1 else 0)
  {
    DistinctIdsCount(w.bridge.tasks);
    var queued := QueuedIds(w.bridge.tasks);
    if w.alive && w.bridge.stream.Some? {
      var r := w.bridge.stream.value.request;
      assert FateOf(w.bridge.log, r).Open?;
      assert r !in queued;
    }
  }

  lemma OwedIsAllowed(w: Worker, taken: set<nat>, running: Option<nat>)
    requires ThreadInv(w, taken, running)
    ensures |Owed(w)| <= |w.abandoned| + (if running.Some? then 1 else 0)
  {
    hide Inv, FateOf;
    var extra := if running.Some? then {running.value} else {};
    assert Owed(w) <= w.abandoned + extra;
    SubsetCount(Owed(w), w.abandoned + extra);
  }

  /**
   * A worker's thread has at most one request to do besides those that timed out on it: so at most
   * one unfinished task as long as nothing times out, and none at all when its supervisor is idle.
   */
  lemma BacklogIsTimeouts(s: Slot, a: Ambient)
    requires SlotInv(s, a) && HasWorker(s.phase)
    ensures var w := s.phase.worker;
            |w.bridge.tasks| + (if w.alive && w.bridge.stream.Some? then 1 else 0)
            <= |w.abandoned| + (if s.phase.Running? then 1 else 0)
  {
    hide Owed, ThreadInv, InboxFresh;
    OwedSize(s.phase.worker, s.taken, Lent(s.phase));
    OwedIsAllowed(s.phase.worker, s.taken, Lent(s.phase));
  }

  /** The requests that timed out on a worker before its thread received them. */
  function NeverReceived(w: Worker): set<nat> {
    set r | r in w.abandoned && Received(r) !in w.bridge.log
  }

  lemma QueuedAreNeverReceived(w: Worker, taken: set<nat>)
    requires ThreadInv(w, taken, None) && w.alive
    ensures NeverReceived(w) == QueuedIds(w.bridge.tasks)
  {
    forall r | r in w.abandoned ensures r in QueuedIds(w.bridge.tasks) <==> Received(r) !in w.bridge.log {
      assert FateOf(w.bridge.log, r) != Wrong;
      FateMeaning(w.bridge.log, r);
      InLogIffCounted(w.bridge.log, Received(r));
    }
  }

  /**
   * Handing a task to the thread blocks exactly when the thread lives and as many requests as its
   * channel holds timed out before it received them.
   */
  lemma SubmitBlocksIff(s: Slot, a: Ambient)
    requires SlotInv(s, a) && s.phase.Sending?
    ensures var w := s.phase.worker;
            !Can(s, Submits, a) <==> w.alive && |NeverReceived(w)| >= 8
  {
    hide Next, CanStep, Signals, DropsDone, Fits, InboxFresh, Ids;
    var w := s.phase.worker;
    if w.alive {
      QueuedAreNeverReceived(w, s.taken);
      DistinctIdsCount(w.bridge.tasks);
    }
  }

  /** So it does not block while fewer than eight requests timed out on the worker. */
  lemma SubmitDoesNotBlock(s: Slot, a: Ambient)
    requires SlotInv(s, a) && s.phase.Sending? && |s.phase.worker.abandoned| < 8
    ensures Can(s, Submits, a)
  {
    hide SlotInv, Can;
    SubmitBlocksIff(s, a);
    SubsetCount(NeverReceived(s.phase.worker), s.phase.worker.abandoned);
  }

  // ---- A slot's life ----

  /**
   * After a request a worker stays exactly when it cannot be recycled, or when its code is current, it
   * is below the job limit and its time is not up. Otherwise it is terminated, to be replaced. A
   * request that timed out is noted as the worker's own, and no other ending is.
   */
  lemma WorkerStaysIff(s: Slot, how: Ending, expired: bool, a: Ambient)
    requires SlotInv(s, a) && Can(s, Finishes(how, expired), a)
    ensures var w, s' := s.phase.worker, Apply(s, Finishes(how, expired), a);
            && (s'.phase.Ready? <==>
                  !w.recyclable
                  || (s.bootGeneration == a.generation && s.info.jobsHandled + 1 < a.maxJobs && !expired))
            && (!s'.phase.Ready? ==> s'.phase.Terminating? && !s'.phase.exit)
            && s'.phase.worker == w.(abandoned := w.abandoned + if how == TimedOut then {s.phase.req.id} else {})
            && s'.info == Info(Idle, Some(w.id), s.info.jobsHandled + 1)
  {
    hide Next, CanStep, Signals, DropsDone, ThreadInv, Fits, InboxFresh;
  }

  /** A worker that boots is new, idle under its own id, and runs the code of this generation. */
  lemma BootsAfresh(s: Slot, id: nat, recyclable: bool, a: Ambient)
    requires SlotInv(s, a) && s.phase.Vacant?
    ensures Can(s, Spawns(id, recyclable), a)
    ensures var s1 := Apply(s, Spawns(id, recyclable), a);
            && Can(s1, BootSucceeds, a)
            && var s2 := Apply(s1, BootSucceeds, a);
               && s2.phase == Ready(Worker(id, recyclable, true, {}, Init(id)))
               && s2.info == Info(Idle, Some(id), 0) && s2.bootGeneration == a.generation
               && s2.inbox == s.inbox
  {
    hide Next, CanStep, Signals, DropsDone, ThreadInv, Fits, InboxFresh;
  }

  /** A worker that fails to boot is terminated, and its slot tries again with a new record. */
  lemma BootsAgain(s: Slot, a: Ambient)
    requires SlotInv(s, a) && s.phase.Booting?
    ensures Can(s, BootFails, a)
    ensures var s1 := Apply(s, BootFails, a);
            && Can(s1, ThreadEnds, a) == s.phase.worker.alive
            && var s2 := if s.phase.worker.alive then Apply(s1, ThreadEnds, a) else s1;
               && Can(s2, Joins, a)
               && var s3 := Apply(s2, Joins, a);
                  s3.phase == Vacant && s3.info == Info(Spawning, None, 0) && s3.inbox == s.inbox
  {
    hide Next, CanStep, Signals, DropsDone, ThreadInv, Fits, InboxFresh;
  }

  /**
   * Once the pool is dropped, an idle worker that could be recycled, and has seen every reload, can
   * only be shut down; its supervisor then returns, and what was in its inbox is gone.
   */
  lemma DroppedSlotExits(s: Slot, m: Move, a: Ambient)
    requires SlotInv(s, a) && s.phase.Ready? && s.phase.worker.recyclable && a.closing && s.seen == a.generation
    ensures Can(s, m, a) ==> m == SeesShutdown || m == Panics || m.ThreadSteps? || m.ThreadEnds?
    ensures Can(s, SeesShutdown, a)
    ensures var s1 := Apply(s, SeesShutdown, a);
            && Can(s1, ThreadEnds, a) == s.phase.worker.alive
            && var s2 := if s.phase.worker.alive then Apply(s1, ThreadEnds, a) else s1;
               Can(s2, Joins, a) && Apply(s2, Joins, a).phase == Exited && Apply(s2, Joins, a).inbox == []
  {
    hide Next, CanStep, Signals, DropsDone, ThreadInv, Fits, InboxFresh;
  }

  /** A supervisor is done for only by a panic or by joining a worker it shut down for good. */
  lemma EndsOnlyBy(s: Slot, m: Move, a: Ambient)
    requires Can(s, m, a)
    ensures var s' := Apply(s, m, a);
            && (!IsOpen(s') <==> m == Panics || (m == Joins && s.phase.exit))
            && (s'.phase.Crashed? <==> m == Panics)
            && (ShutDown(s'.phase) && !ShutDown(s.phase) <==> m == SeesShutdown || m == SeesInboxClosed)
            && (m == Joins && s.phase.worker.recyclable ==> !s.phase.worker.alive)
  {
    hide Next, CanStep, Signals, DropsDone;
  }

  /** A reload that landed while the worker booted is noted and changes nothing else. */
  lemma FreshIdleStays(s: Slot, a: Ambient)
    requires Can(s, SeesReload, a) && s.bootGeneration == a.generation
    ensures Apply(s, SeesReload, a) == s.(seen := a.generation)
  {
  }

  /**
   * An idle slot with something to do can do it: a worker that cannot be recycled takes the next
   * request whatever is going on, and another does when there is no reload to see and no shutdown.
   */
  lemma IdleSlotProceeds(s: Slot, a: Ambient)
    requires SlotInv(s, a) && s.phase.Ready?
    ensures Can(s, Takes, a) <==>
              s.inbox != [] && (!s.phase.worker.recyclable || (s.seen == a.generation && !a.closing))
    ensures s.inbox != [] || (s.phase.worker.recyclable && (s.seen < a.generation || a.closing)) ==>
              Can(s, Arm(s, a), a)
  {
    hide Next, CanStep, Signals, DropsDone, ThreadInv, Fits, InboxFresh;
  }

  /** A supervisor never waits for a thread that is gone: it sees completion, or its loss. */
  lemma DeadThreadIsNoticed(s: Slot, expired: bool, a: Ambient)
    requires s.phase.Running? && !s.phase.worker.alive
    ensures Can(s, Finishes(if Signalled(s.phase.req.id) in s.phase.worker.bridge.log then Completed else Lost, expired), a)
    ensures Can(s, Finishes(TimedOut, expired), a)
  {
  }

  /** Shut down for good, rather than to be replaced. */
  predicate ShutDown(p: Phase) {
    p.Exited? || (p.Terminating? && p.exit)
  }

  // ---- The order of tasks on a thread ----

  /** What has been handed to the present worker, in order; nothing can be handed to a dead thread. */
  function HandedNext(s: Slot, m: Move, handed: seq<Request>): seq<Request> {
    if m.Spawns? then []
    else if m == Submits && s.phase.Sending? && s.phase.worker.alive then handed + [s.phase.req]
    else handed
  }

  /** The thread has received the first of them, and a living one has the rest queued, in order. */
  ghost predicate ReceivesInOrder(p: Phase, handed: seq<Request>) {
    HasWorker(p) ==>
      var b := p.worker.bridge;
      var k := |ReceivedIds(b.log)|;
      && k <= |handed| && ReceivedIds(b.log) == TaskIds(handed[..k])
      && (p.worker.alive ==> b.tasks == handed[k..])
  }

  lemma MoveKeepsTaskOrder(s: Slot, m: Move, a: Ambient, handed: seq<Request>)
    requires Can(s, m, a) && ReceivesInOrder(s.phase, handed)
    ensures ReceivesInOrder(Apply(s, m, a).phase, HandedNext(s, m, handed))
  {
    hide Next, CanStep, Signals, DropsDone, ReceivedIds, Idled, Recycles;
    match m
    case Spawns(id, _) => NothingReceived(id);
    case Submits =>
      var k := |ReceivedIds(s.phase.worker.bridge.log)|;
      assert (handed + [s.phase.req])[..k] == handed[..k];
      assert (handed + [s.phase.req])[k..] == handed[k..] + [s.phase.req];
    case ThreadSteps(step) =>
      var b := s.phase.worker.bridge;
      StepsTakeInOrder(b, step);
      ReceiveOne(b, step, handed);
    case _ =>
  }

  lemma NothingReceived(id: nat)
    ensures ReceivedIds(Init(id).log) == [] && Init(id).tasks == []
  {
  }

  lemma ReceiveOne(b: State, step: Step, handed: seq<Request>)
    requires CanStep(b, step)
    requires |ReceivedIds(b.log)| <= |handed| && ReceivedIds(b.log) == TaskIds(handed[..|ReceivedIds(b.log)|])
    requires b.tasks == handed[|ReceivedIds(b.log)|..]
    ensures var b' := Next(b, step);
            var k := |ReceivedIds(b'.log)|;
            k <= |handed| && ReceivedIds(b'.log) == TaskIds(handed[..k]) && b'.tasks == handed[k..]
  {
    hide Next, ReceivedIds;
    StepsTakeInOrder(b, step);
    var k := |ReceivedIds(b.log)|;
    if step.Receive? {
      assert b.tasks[0] == handed[k];
      assert handed[..k + 1] == handed[..k] + [handed[k]];
    }
  }

  // ---- Runs of one slot ----

  datatype SlotEvent = Moves(m: Move) | Push(req: Request)

  predicate CanDo(s: Slot, e: SlotEvent, a: Ambient) {
    match e
    case Moves(m) => Can(s, m, a)
    case Push(req) => IsOpen(s) && req.id !in s.taken && req.id !in Ids(s.inbox)
  }

  function Do(s: Slot, e: SlotEvent, a: Ambient): Slot
    requires CanDo(s, e, a)
  {
    match e
    case Moves(m) => Apply(s, m, a)
    case Push(req) => Pushed(s, req)
  }

  function SlotRun(events: seq<SlotEvent>, a: Ambient): Option<Slot> {
    if events == [] then Some(NEW_SLOT)
    else match SlotRun(events[..|events| - 1], a)
      case Some(s) =>
        if CanDo(s, events[|events| - 1], a) then Some(Do(s, events[|events| - 1], a)) else None
      case None => None
  }

  lemma {:induction false} SlotRunKeepsInv(events: seq<SlotEvent>, a: Ambient)
    requires SlotRun(events, a).Some?
    ensures SlotInv(SlotRun(events, a).value, a)
  {
    if events != [] {
      SlotRunKeepsInv(events[..|events| - 1], a);
      var s := SlotRun(events[..|events| - 1], a).value;
      match events[|events| - 1]
      case Moves(m) => MoveKeepsInv(s, m, a);
      case Push(req) => PushKeepsInv(s, req, a);
    }
  }

  // ---- Recycling arithmetic ----

  /** Recyclable workers only, nothing expires, nobody panics: the job limit alone recycles. */
  predicate OnlyJobs(e: SlotEvent) {
    e.Push? || (e.m != Panics && (e.m.Spawns? ==> e.m.recyclable) && (e.m.Finishes? ==> !e.m.expired))
  }

  ghost predicate Tally(s: Slot, a: Ambient) {
    var limit := Limit(a.maxJobs);
    && s.reloadRecycles == 0
    && (s.phase.Booting? || Serving(s.phase) ==> s.bootGeneration == a.generation && s.phase.worker.recyclable)
    && (s.phase.Terminating? ==> !s.phase.exit) && IsOpen(s)
    && s.completed == s.jobRecycles * limit + (if Serving(s.phase) then s.info.jobsHandled else 0)
  }

  lemma TallyStep(s: Slot, e: SlotEvent, a: Ambient)
    requires SlotInv(s, a) && Tally(s, a) && CanDo(s, e, a) && OnlyJobs(e) && !a.closing && !a.inboxClosed
    ensures Tally(Do(s, e, a), a)
  {
    hide Next, CanStep, Signals, DropsDone, ThreadInv, Fits, InboxFresh, Ids;
    if e.Moves? && e.m.Finishes? {
      var limit := Limit(a.maxJobs);
      assert (s.jobRecycles + 1) * limit == s.jobRecycles * limit + limit;
    }
  }

  lemma {:induction false} RunTallies(events: seq<SlotEvent>, a: Ambient)
    requires SlotRun(events, a).Some? && !a.closing && !a.inboxClosed
    requires forall i | 0 <= i < |events| :: OnlyJobs(events[i])
    ensures Tally(SlotRun(events, a).value, a)
  {
    if events != [] {
      RunTallies(events[..|events| - 1], a);
      SlotRunKeepsInv(events[..|events| - 1], a);
      TallyStep(SlotRun(events[..|events| - 1], a).value, events[|events| - 1], a);
    }
  }

  lemma {:induction false} BigMultiple(x: nat, d: nat)
    requires x > 0
    ensures x * d >= d
  {
    if x > 1 {
      BigMultiple(x - 1, d);
      assert x * d == (x - 1) * d + d;
    }
  }

  lemma DivModUnique(n: nat, d: nat, q: nat, r: nat)
    requires d > 0 && n == q * d + r && r < d
    ensures n / d == q && n % d == r
  {
    var a := n / d;
    assert n == a * d + n % d;
    assert (q - a) * d == q * d - a * d && (a - q) * d == a * d - q * d;
    if q > a {
      BigMultiple(q - a, d);
    } else if q < a {
      BigMultiple(a - q, d);
    }
  }

  /**
   * With nothing but the job limit firing, after `k` requests a slot has recycled exactly `k / limit`
   * times and its worker has handled `k % limit`, the limit being at least one.
   */
  lemma RecyclesEveryLimit(events: seq<SlotEvent>, a: Ambient)
    requires SlotRun(events, a).Some? && !a.closing && !a.inboxClosed
    requires forall i | 0 <= i < |events| :: OnlyJobs(events[i])
    ensures var s, limit := SlotRun(events, a).value, Limit(a.maxJobs);
            && s.jobRecycles == s.completed / limit
            && (if Serving(s.phase) then s.info.jobsHandled else 0) == s.completed % limit
  {
    RunTallies(events, a);
    SlotRunKeepsInv(events, a);
    var s := SlotRun(events, a).value;
    DivModUnique(s.completed, Limit(a.maxJobs), s.jobRecycles, if Serving(s.phase) then s.info.jobsHandled else 0);
  }

  // ---- A stuck thread ----

  function Task(k: nat): Request {
    Request(k, 64, None)
  }

  /** One request that times out while the thread never looks at its channel. */
  function Round(k: nat): seq<SlotEvent> {
    [Push(Task(k)), Moves(Takes), Moves(Submits), Moves(Finishes(TimedOut, false))]
  }

  function Rounds(k: nat): seq<SlotEvent> {
    if k == 0 then [Moves(Spawns(1, false)), Moves(BootSucceeds)] else Rounds(k - 1) + Round(k - 1)
  }

  lemma RunOne(events: seq<SlotEvent>, e: SlotEvent, a: Ambient)
    requires SlotRun(events, a).Some? && CanDo(SlotRun(events, a).value, e, a)
    ensures SlotRun(events + [e], a) == Some(Do(SlotRun(events, a).value, e, a))
  {
    assert (events + [e])[..|events|] == events;
  }

  ghost predicate StuckAfter(s: Slot, k: nat) {
    && s.phase.Ready? && !s.phase.worker.recyclable && s.phase.worker.alive
    && s.inbox == [] && |s.phase.worker.bridge.tasks| == k
    && (forall r | r in s.taken :: r < k)
  }

  lemma StuckTimesOut(s: Slot, k: nat, a: Ambient)
    requires s.phase.Sending? && s.phase.req == Task(k) && s.inbox == []
    requires !s.phase.worker.recyclable && s.phase.worker.alive
    requires |s.phase.worker.bridge.tasks| == k < TASK_CAPACITY
    requires forall r | r in s.taken :: r < k + 1
    ensures Can(s, Submits, a)
    ensures var s1 := Apply(s, Submits, a);
            && Can(s1, Finishes(TimedOut, false), a)
            && StuckAfter(Apply(s1, Finishes(TimedOut, false), a), k + 1)
  {
    hide Next, CanStep, Signals, DropsDone, SlotInv;
  }

  lemma StuckBoots(a: Ambient)
    ensures SlotRun(Rounds(0), a).Some? && StuckAfter(SlotRun(Rounds(0), a).value, 0)
  {
    hide Next, CanStep, Signals, DropsDone;
    var spawned := [Moves(Spawns(1, false))];
    assert [] + spawned == spawned;
    RunOne([], spawned[0], a);
    RunOne(spawned, Moves(BootSucceeds), a);
    assert spawned + [Moves(BootSucceeds)] == Rounds(0);
  }

  lemma StuckRound(before: seq<SlotEvent>, k: nat, a: Ambient)
    requires k < TASK_CAPACITY && SlotRun(before, a).Some? && StuckAfter(SlotRun(before, a).value, k)
    ensures SlotRun(before + Round(k), a).Some? && StuckAfter(SlotRun(before + Round(k), a).value, k + 1)
  {
    hide Next, CanStep, Signals, DropsDone, AfterRequest;
    var events := TakeStuck(before, k, a);
    StuckTimesOut(SlotRun(events, a).value, k, a);
    var submitted := events + [Moves(Submits)];
    RunOne(events, Moves(Submits), a);
    RunOne(submitted, Moves(Finishes(TimedOut, false)), a);
    assert before + Round(k) == submitted + [Moves(Finishes(TimedOut, false))];
  }

  lemma {:induction false} StuckRounds(k: nat, a: Ambient)
    requires k <= TASK_CAPACITY
    ensures SlotRun(Rounds(k), a).Some? && StuckAfter(SlotRun(Rounds(k), a).value, k)
  {
    if k == 0 {
      StuckBoots(a);
    } else {
      StuckRounds(k - 1, a);
      StuckRound(Rounds(k - 1), k - 1, a);
    }
  }

  lemma TakeStuck(before: seq<SlotEvent>, k: nat, a: Ambient) returns (events: seq<SlotEvent>)
    requires SlotRun(before, a).Some? && StuckAfter(SlotRun(before, a).value, k)
    ensures events == before + [Push(Task(k)), Moves(Takes)]
    ensures SlotRun(events, a).Some?
    ensures var s, s0 := SlotRun(events, a).value, SlotRun(before, a).value;
            s.phase == Sending(s0.phase.worker, Task(k)) && s.inbox == [] && s.taken == s0.taken + {k}
  {
    var s0 := SlotRun(before, a).value;
    RunOne(before, Push(Task(k)), a);
    assert Pushed(s0, Task(k)).inbox == [Task(k)];
    RunOne(before + [Push(Task(k))], Moves(Takes), a);
    events := before + [Push(Task(k)), Moves(Takes)];
    assert before + [Push(Task(k))] + [Moves(Takes)] == events;
  }

  /** After eight timeouts on a thread that never receives, handing over the next task does block. */
  lemma SubmitCanBlock(a: Ambient) returns (events: seq<SlotEvent>)
    ensures SlotRun(events, a).Some?
    ensures var s := SlotRun(events, a).value; s.phase.Sending? && !Can(s, Submits, a)
  {
    hide Next, CanStep, Signals, DropsDone, Apply, SlotRun;
    StuckRounds(TASK_CAPACITY, a);
    events := TakeStuck(Rounds(TASK_CAPACITY), TASK_CAPACITY, a);
  }

  // ---- The main PHP thread ----

  /**
   * While the inbox stays open, a worker that cannot be recycled is never let go: only a panic of
   * its supervisor takes it out of service.
   */
  lemma MainWorkerStays(s: Slot, m: Move, a: Ambient)
    requires Serving(s.phase) && !s.phase.worker.recyclable && Can(s, m, a) && !a.inboxClosed && m != Panics
    ensures var p := Apply(s, m, a).phase;
            Serving(p) && p.worker.id == s.phase.worker.id && !p.worker.recyclable
  {
    hide Next, CanStep, Signals, DropsDone;
  }

}
