/**
 * One slot of the pool: its supervisor, the worker the supervisor holds, and the worker's thread
 * with its task channel and bridge. Each move is one stretch between two awaits, or one step of
 * the thread; timeouts, expiry, failures and panics may happen whenever they could.
 */
module Slots {

  import opened Wrappers
  import opened SlotInfo
  import opened Bridge

  /** Capacity of a worker's task channel. */
  const TASK_CAPACITY := 8

  /** `abandoned` are the requests whose execution timed out on this worker. */
  datatype Worker = Worker(id: nat, recyclable: bool, alive: bool, abandoned: set<nat>, bridge: State)

  datatype Phase =
    | Vacant
    | Booting(worker: Worker)
    | Ready(worker: Worker)
    | Sending(worker: Worker, req: Request)
    | Running(worker: Worker, req: Request)
    | Terminating(worker: Worker, exit: bool)
    | Exited
    | Crashed

  datatype Slot = Slot(
    inbox: seq<Request>,
    phase: Phase,
    info: Info,
    bootGeneration: nat,
    seen: nat,
    taken: set<nat>,
    completed: nat,
    reloadRecycles: nat,
    jobRecycles: nat,
    spawned: nat,
    retired: nat,
    leaked: nat)

  const NEW_SLOT := Slot([], Vacant, NEW_INFO, 0, 0, {}, 0, 0, 0, 0, 0, 0)

  /** What a slot sees of the pool around it. */
  datatype Ambient = Ambient(generation: nat, closing: bool, inboxClosed: bool, maxJobs: nat)

  datatype Ending = Completed | Lost | TimedOut

  datatype Move =
    | SpawnFails
    | Spawns(id: nat, recyclable: bool)
    | BootFails
    | BootSucceeds
    | SeesReload
    | SeesShutdown
    | SeesInboxClosed
    | Takes
    | Submits
    | Finishes(how: Ending, expired: bool)
    | Joins
    | Panics
    | ThreadSteps(step: Step)
    | ThreadEnds

  predicate HasWorker(p: Phase) {
    p.Booting? || p.Ready? || p.Sending? || p.Running? || p.Terminating?
  }

  predicate Holds(p: Phase) {
    p.Sending? || p.Running?
  }

  predicate IsOpen(s: Slot) {
    s.phase != Exited && s.phase != Crashed
  }

  predicate Signals(w: Worker, r: nat) {
    Signalled(r) in w.bridge.log
  }

  /** The done sender of `r` was dropped unused: the thread is gone, or went on to another task. */
  predicate DropsDone(w: Worker, r: nat) {
    !Signals(w, r) && (!w.alive || (Received(r) in w.bridge.log && Window(w.bridge.log) != Some(r)))
  }

  predicate Can(s: Slot, m: Move, a: Ambient) {
    match m
    case SpawnFails => s.phase.Vacant?
    case Spawns(_, _) => s.phase.Vacant?
    case BootFails => s.phase.Booting?
    case BootSucceeds => s.phase.Booting?
    case SeesReload => s.phase.Ready? && s.phase.worker.recyclable && a.generation > s.seen
    case SeesShutdown => s.phase.Ready? && s.phase.worker.recyclable && a.generation <= s.seen && a.closing
    case SeesInboxClosed => s.phase.Ready? && Listens(s, a) && s.inbox == [] && a.inboxClosed
    case Takes => s.phase.Ready? && Listens(s, a) && s.inbox != []
    case Submits => s.phase.Sending? && (s.phase.worker.alive ==> |s.phase.worker.bridge.tasks| < TASK_CAPACITY)
    case Finishes(Completed, _) => s.phase.Running? && Signals(s.phase.worker, s.phase.req.id)
    case Finishes(Lost, _) => s.phase.Running? && DropsDone(s.phase.worker, s.phase.req.id)
    case Finishes(TimedOut, _) => s.phase.Running?
    case Joins => s.phase.Terminating? && (s.phase.worker.recyclable ==> !s.phase.worker.alive)
    case Panics => IsOpen(s)
    case ThreadSteps(step) => HasWorker(s.phase) && s.phase.worker.alive && CanStep(s.phase.worker.bridge, step)
    case ThreadEnds => HasWorker(s.phase) && s.phase.worker.alive
  }

  /** The inbox is polled only when the reload arm, which comes first, is off or has nothing to say. */
  predicate Listens(s: Slot, a: Ambient)
    requires s.phase.Ready?
  {
    s.phase.worker.recyclable ==> a.generation <= s.seen && !a.closing
  }

  /** The arm a biased select takes: reload, then shutdown, then the inbox. */
  function Arm(s: Slot, a: Ambient): Move
    requires s.phase.Ready?
  {
    if s.phase.worker.recyclable && a.generation > s.seen then SeesReload
    else if s.phase.worker.recyclable && a.closing then SeesShutdown
    else if s.inbox == [] then SeesInboxClosed
    else Takes
  }

  /** No other arm can be taken. */
  lemma ArmIsTheOnlyOne(s: Slot, m: Move, a: Ambient)
    requires s.phase.Ready? && Can(s, m, a)
    requires m.SeesReload? || m.SeesShutdown? || m.SeesInboxClosed? || m.Takes?
    ensures m == Arm(s, a)
  {
  }

  function Marked(w: Worker, how: Ending, r: nat): Worker {
    if how == TimedOut then w.(abandoned := w.abandoned + {r}) else w
  }

  /** The permit is gone: count the request, and recycle the worker if a reload or a policy asks for it. */
  function AfterRequest(s: Slot, w: Worker, a: Ambient, expired: bool): Slot {
    var info := Idled(s.info);
    var reload := a.generation > s.bootGeneration;
    var done := s.(info := info, completed := s.completed + 1);
    if (reload || Recycles(info, a.maxJobs, expired)) && w.recyclable then
      done.(phase := Terminating(w, false),
            reloadRecycles := s.reloadRecycles + if reload then 1 else 0,
            jobRecycles := s.jobRecycles + if reload then 0 else 1)
    else
      done.(phase := Ready(w))
  }

  function Enqueued(w: Worker, req: Request): Worker {
    w.(bridge := w.bridge.(tasks := w.bridge.tasks + [req]))
  }

  function Apply(s: Slot, m: Move, a: Ambient): Slot
    requires Can(s, m, a)
  {
    match m
    case SpawnFails => s.(bootGeneration := a.generation)
    case Spawns(id, recyclable) =>
      s.(bootGeneration := a.generation, spawned := s.spawned + 1,
         phase := Booting(Worker(id, recyclable, true, {}, Init(id))))
    case BootFails => s.(phase := Terminating(s.phase.worker, false))
    case BootSucceeds => s.(phase := Ready(s.phase.worker), info := Readied(s.info, s.phase.worker.id))
    case SeesReload =>
      if a.generation > s.bootGeneration then
        s.(seen := a.generation, phase := Terminating(s.phase.worker, false), reloadRecycles := s.reloadRecycles + 1)
      else s.(seen := a.generation)
    case SeesShutdown => s.(phase := Terminating(s.phase.worker, true))
    case SeesInboxClosed => s.(phase := Terminating(s.phase.worker, true))
    case Takes =>
      s.(phase := Sending(s.phase.worker, s.inbox[0]), inbox := s.inbox[1..], info := Busied(s.info),
         taken := s.taken + {s.inbox[0].id})
    case Submits =>
      var w := s.phase.worker;
      s.(phase := Running(if w.alive then Enqueued(w, s.phase.req) else w, s.phase.req))
    case Finishes(how, expired) =>
      AfterRequest(s, Marked(s.phase.worker, how, s.phase.req.id), a, expired)
    case Joins =>
      if s.phase.exit then s.(phase := Exited, inbox := [], retired := s.retired + 1)
      else s.(phase := Vacant, info := NEW_INFO, retired := s.retired + 1)
    case Panics => s.(phase := Crashed, inbox := [], leaked := s.leaked + if HasWorker(s.phase) then 1 else 0)
    case ThreadSteps(step) =>
      s.(phase := s.phase.(worker := s.phase.worker.(bridge := Next(s.phase.worker.bridge, step))))
    case ThreadEnds =>
      s.(phase := s.phase.(worker := s.phase.worker.(alive := false, bridge := s.phase.worker.bridge.(tasks := []))))
  }

  // ---- Requests in a slot, by id ----

  function Ids(rs: seq<Request>): multiset<nat> {
    if rs == [] then multiset{} else multiset{rs[0].id} + Ids(rs[1..])
  }

  lemma {:induction false} IdsAppend(rs: seq<Request>, r: Request)
    ensures Ids(rs + [r]) == Ids(rs) + multiset{r.id}
  {
    if rs == [] {
      assert rs + [r] == [r];
    } else {
      assert (rs + [r])[1..] == rs[1..] + [r];
      IdsAppend(rs[1..], r);
    }
  }

  lemma {:induction false} IdsSize(rs: seq<Request>)
    ensures |Ids(rs)| == |rs|
  {
    if rs != [] {
      IdsSize(rs[1..]);
    }
  }

  lemma {:induction false} IdsIn(rs: seq<Request>, i: nat)
    requires i < |rs|
    ensures rs[i].id in Ids(rs)
  {
    if i > 0 {
      IdsIn(rs[1..], i - 1);
    }
  }

  function Executing(s: Slot): multiset<nat> {
    if Holds(s.phase) then multiset{s.phase.req.id} else multiset{}
  }

  function Held(s: Slot): multiset<nat> {
    Ids(s.inbox) + Executing(s)
  }

  function Holder(p: Phase): Option<Request> {
    if Holds(p) then Some(p.req) else None
  }

  /** The inbox and the request being held, before and after a move. */
  ghost predicate Carries(s: Slot, m: Move, s': Slot) {
    && (m == Takes ==> s.inbox != [] && Holder(s.phase) == None)
    && (m == Joins ==> s.phase.Terminating?)
    && s'.inbox == (
         if m == Takes then s.inbox[1..]
         else if m == Panics || (m == Joins && s.phase.exit) then []
         else s.inbox)
    && Holder(s'.phase) == (
         if m == Takes then Some(s.inbox[0])
         else if m == Panics || m.Finishes? then None
         else Holder(s.phase))
    && s'.taken == s.taken + (if m == Takes then {s.inbox[0].id} else {})
    && IsOpen(s)
  }

  lemma MoveCarries(s: Slot, m: Move, a: Ambient)
    requires Can(s, m, a)
    ensures Carries(s, m, Apply(s, m, a))
  {
    hide Next, AfterCalls, Signals, DropsDone, CanStep, Idled, Recycles;
  }

  // ---- The invariant ----

  function Limit(maxJobs: nat): nat {
    if maxJobs == 0 then 1 else maxJobs
  }

  function Lent(p: Phase): Option<nat> {
    if p.Running? then Some(p.req.id) else None
  }

  /** Whatever the thread still has to do was abandoned by a timeout, or is the request being run. */
  ghost predicate ThreadInv(w: Worker, taken: set<nat>, running: Option<nat>) {
    && Inv(w.bridge)
    && w.abandoned <= taken
    && (forall r :: FateOf(w.bridge.log, r) != Unseen ==> r in taken)
    && (forall i | 0 <= i < |w.bridge.tasks| :: w.bridge.tasks[i].id in taken
         && (w.bridge.tasks[i].id in w.abandoned || running == Some(w.bridge.tasks[i].id)))
    && (w.alive && w.bridge.stream.Some? ==>
          w.bridge.stream.value.request in w.abandoned || running == Some(w.bridge.stream.value.request))
    && (!w.alive ==> w.bridge.tasks == [])
    && (w.alive ==> KeepsTasks(w, running))
  }

  function QueuedIds(tasks: seq<Request>): set<nat> {
    set i | 0 <= i < |tasks| :: tasks[i].id
  }

  /** A request handed to a living thread stays queued until the thread receives it. */
  ghost predicate KeepsTasks(w: Worker, running: Option<nat>) {
    forall r | (r in w.abandoned || running == Some(r)) && FateOf(w.bridge.log, r) == Unseen :: r in QueuedIds(w.bridge.tasks)
  }

  ghost predicate WorkerInv(s: Slot, w: Worker) {
    && ThreadInv(w, s.taken, Lent(s.phase))
    && (Holds(s.phase) ==> s.phase.req.id in s.taken && s.phase.req.id !in w.abandoned)
    && (s.phase.Sending? ==> Fits(w.bridge, s.phase.req))
  }

  /** The supervisor's two records of its worker agree. */
  predicate Agrees(s: Slot) {
    match s.phase
    case Vacant => s.info == NEW_INFO
    case Booting(_) => s.info == NEW_INFO
    case Ready(w) => s.info.state == Idle && s.info.pid == Some(w.id)
    case Sending(w, _) => s.info.state == Busy && s.info.pid == Some(w.id)
    case Running(w, _) => s.info.state == Busy && s.info.pid == Some(w.id)
    case _ => true
  }

  predicate Serving(p: Phase) {
    p.Ready? || p.Sending? || p.Running?
  }

  predicate GenerationsInOrder(s: Slot, a: Ambient) {
    && s.seen <= a.generation && s.bootGeneration <= a.generation
    && s.reloadRecycles <= a.generation
    && (Serving(s.phase) || s.phase.Booting? ==> s.seen <= s.bootGeneration && s.reloadRecycles <= s.bootGeneration)
  }

  predicate CountsAdd(s: Slot, a: Ambient) {
    && s.spawned == s.retired + s.leaked + (if HasWorker(s.phase) then 1 else 0)
    && (Serving(s.phase) && s.phase.worker.recyclable ==> s.info.jobsHandled < Limit(a.maxJobs))
  }

  ghost predicate InboxFresh(s: Slot) {
    && (forall r | r in Ids(s.inbox) :: r !in s.taken && Ids(s.inbox)[r] == 1)
    && (!IsOpen(s) ==> s.inbox == [])
  }

  ghost predicate SlotInv(s: Slot, a: Ambient) {
    && Agrees(s) && GenerationsInOrder(s, a) && CountsAdd(s, a) && InboxFresh(s)
    && (HasWorker(s.phase) ==> WorkerInv(s, s.phase.worker))
  }

  lemma NewSlotInv(a: Ambient)
    ensures SlotInv(NEW_SLOT, a)
  {
  }

  lemma ThreadStepKeeps(w: Worker, step: Step, taken: set<nat>, running: Option<nat>)
    requires ThreadInv(w, taken, running) && w.alive && CanStep(w.bridge, step)
    ensures ThreadInv(w.(bridge := Next(w.bridge, step)), taken, running)
    ensures forall req | Fits(w.bridge, req) :: Fits(Next(w.bridge, step), req)
  {
    var b := w.bridge;
    StepKeepsInv(b, step);
    match step
    case Receive =>
      forall r ensures FateOf(DoReceive(b).log, r) == Follow(FateOf(b.log, r), Received(b.tasks[0].id), r) {
        LogAppend(b.log, Received(b.tasks[0].id), r);
      }
    case Called(call) => CallTouchesNoTask(b, call);
    case Finalised(result) =>
      if b.stream.Some? {
        FinishMoves(b, if b.started then None else Some(AnswerChunk(result)));
      }
  }

  lemma CallTouchesNoTask(b: State, call: Call)
    requires Inv(b)
    ensures var b' := DoCall(b, call).1;
            && b'.tasks == b.tasks && (b'.stream.Some? ==> b'.stream == b.stream)
            && (forall q :: FateOf(b'.log, q) == Unseen <==> FateOf(b.log, q) == Unseen)
  {
    StepKeepsInv(b, Called(call));
    if b.stream.Some? {
      CallKeepsOthers(b, call, b.stream.value.request);
    }
  }

  lemma QueuedOneMore(tasks: seq<Request>, req: Request)
    ensures QueuedIds(tasks + [req]) == QueuedIds(tasks) + {req.id}
  {
    var all := tasks + [req];
    assert all[|tasks|] == req;
    forall r | r in QueuedIds(tasks) ensures r in QueuedIds(all) {
      var i :| 0 <= i < |tasks| && tasks[i].id == r;
      assert all[i].id == r;
    }
  }

  lemma SubmitKeeps(w: Worker, req: Request, taken: set<nat>)
    requires ThreadInv(w, taken, None) && w.alive && Fits(w.bridge, req) && req.id in taken
    ensures ThreadInv(Enqueued(w, req), taken, Some(req.id))
  {
    EnqueueKeepsInv(w.bridge, req);
    QueuedOneMore(w.bridge.tasks, req);
  }

  lemma TakeInbox(s: Slot, s': Slot)
    requires InboxFresh(s) && s.inbox != [] && IsOpen(s')
    requires s'.inbox == s.inbox[1..] && s'.taken == s.taken + {s.inbox[0].id}
    ensures s.inbox[0].id !in s.taken && InboxFresh(s')
  {
    var r, rest := s.inbox[0].id, Ids(s.inbox[1..]);
    assert Ids(s.inbox) == multiset{r} + rest;
    assert r in Ids(s.inbox);
    forall q | q in rest ensures q !in s'.taken && rest[q] == 1 {
      assert q in Ids(s.inbox);
    }
  }

  lemma TakeWorker(w: Worker, req: Request, taken: set<nat>)
    requires ThreadInv(w, taken, None) && req.id !in taken
    ensures ThreadInv(w, taken + {req.id}, None) && Fits(w.bridge, req) && req.id !in w.abandoned
  {
    assert FateOf(w.bridge.log, req.id) == Unseen;
  }

  lemma TakeKeeps(s: Slot, a: Ambient)
    requires SlotInv(s, a) && Can(s, Takes, a)
    ensures SlotInv(Apply(s, Takes, a), a)
  {
    hide Next, Signals, DropsDone, AfterRequest, ThreadInv, Fits, InboxFresh;
    TakeInbox(s, Apply(s, Takes, a));
    TakeWorker(s.phase.worker, s.inbox[0], s.taken);
  }

  lemma {:induction false} InLogIffCounted(log: seq<Event>, e: Event)
    ensures e in log <==> Count(log, e) > 0
  {
    if log != [] {
      InLogIffCounted(log[..|log| - 1], e);
      assert log == log[..|log| - 1] + [log[|log| - 1]];
    }
  }

  /** What a signal, or a dropped signal, says about the thread's hold on the request. */
  lemma EndedIsNotHeld(w: Worker, r: nat)
    requires Inv(w.bridge)
    requires Signals(w, r) || DropsDone(w, r)
    ensures Signals(w, r) ==> FateOf(w.bridge.log, r) == Over
    ensures w.alive ==> FateOf(w.bridge.log, r) != Unseen && !FateOf(w.bridge.log, r).Open?
  {
    assert FateOf(w.bridge.log, r) != Wrong;
    FateMeaning(w.bridge.log, r);
    InLogIffCounted(w.bridge.log, Signalled(r));
    InLogIffCounted(w.bridge.log, Received(r));
    WindowIsOpen(w.bridge.log, r);
  }

  /** A worker whose request ended, however it ended, owes nothing but what was abandoned. */
  lemma EndingKeepsThread(w: Worker, r: nat, how: Ending, taken: set<nat>)
    requires ThreadInv(w, taken, Some(r)) && r in taken
    requires how == Completed ==> Signals(w, r)
    requires how == Lost ==> DropsDone(w, r)
    ensures ThreadInv(Marked(w, how, r), taken, None)
  {
    if how != TimedOut {
      EndedIsNotHeld(w, r);
    }
  }

  lemma AfterRequestKeeps(s: Slot, w: Worker, a: Ambient, expired: bool)
    requires s.phase.Running? && SlotInv(s, a) && ThreadInv(w, s.taken, None)
    requires w.id == s.phase.worker.id && w.recyclable == s.phase.worker.recyclable
    ensures SlotInv(AfterRequest(s, w, a, expired), a)
  {
    hide ThreadInv, Fits, Ids;
  }

  lemma FinishKeeps(s: Slot, how: Ending, expired: bool, a: Ambient)
    requires SlotInv(s, a) && Can(s, Finishes(how, expired), a)
    ensures SlotInv(Apply(s, Finishes(how, expired), a), a)
  {
    hide Next, Signals, DropsDone, ThreadInv, AfterRequest;
    EndingKeepsThread(s.phase.worker, s.phase.req.id, how, s.taken);
    AfterRequestKeeps(s, Marked(s.phase.worker, how, s.phase.req.id), a, expired);
  }

  lemma EndingThreadKeeps(w: Worker, taken: set<nat>, running: Option<nat>)
    requires ThreadInv(w, taken, running)
    ensures ThreadInv(w.(alive := false, bridge := w.bridge.(tasks := [])), taken, running)
    ensures forall req | Fits(w.bridge, req) :: Fits(w.bridge.(tasks := []), req)
  {
  }

  lemma ThreadKeeps(s: Slot, m: Move, a: Ambient)
    requires SlotInv(s, a) && Can(s, m, a) && (m.ThreadSteps? || m.ThreadEnds?)
    ensures SlotInv(Apply(s, m, a), a)
  {
    hide Next, Signals, DropsDone, AfterRequest, ThreadInv, Ids, Fits;
    if m.ThreadSteps? {
      ThreadStepKeeps(s.phase.worker, m.step, s.taken, Lent(s.phase));
    } else {
      EndingThreadKeeps(s.phase.worker, s.taken, Lent(s.phase));
    }
  }

  lemma NewWorkerInv(id: nat, recyclable: bool, taken: set<nat>)
    ensures ThreadInv(Worker(id, recyclable, true, {}, Init(id)), taken, None)
  {
    InitInv(id);
  }

  lemma BootKeeps(s: Slot, m: Move, a: Ambient)
    requires SlotInv(s, a) && Can(s, m, a)
    requires m.SpawnFails? || m.Spawns? || m.BootFails? || m.BootSucceeds?
    ensures SlotInv(Apply(s, m, a), a)
  {
    hide Next, CanStep, Signals, DropsDone, AfterRequest, ThreadInv, Fits, Init, InboxFresh;
    SameInboxFresh(s, Apply(s, m, a));
    if m.Spawns? {
      NewWorkerInv(m.id, m.recyclable, s.taken);
    }
  }

  lemma SameInboxFresh(s: Slot, s': Slot)
    requires s'.inbox == s.inbox && s'.taken == s.taken && IsOpen(s')
    ensures InboxFresh(s) ==> InboxFresh(s')
  {
  }

  lemma SignKeeps(s: Slot, m: Move, a: Ambient)
    requires SlotInv(s, a) && Can(s, m, a)
    requires m.SeesReload? || m.SeesShutdown? || m.SeesInboxClosed?
    ensures SlotInv(Apply(s, m, a), a)
  {
    hide Next, CanStep, Signals, DropsDone, AfterRequest, ThreadInv, Fits, Init, InboxFresh;
    SameInboxFresh(s, Apply(s, m, a));
  }

  lemma EndKeeps(s: Slot, m: Move, a: Ambient)
    requires SlotInv(s, a) && Can(s, m, a) && (m.Joins? || m.Panics?)
    ensures SlotInv(Apply(s, m, a), a)
  {
    hide Next, CanStep, Signals, DropsDone, AfterRequest, ThreadInv, Fits, Init;
  }

  lemma SubmitsKeeps(s: Slot, a: Ambient)
    requires SlotInv(s, a) && Can(s, Submits, a)
    ensures SlotInv(Apply(s, Submits, a), a)
  {
    hide Next, Signals, DropsDone, AfterRequest, Ids;
    if s.phase.worker.alive {
      SubmitKeeps(s.phase.worker, s.phase.req, s.taken);
    }
  }

  /** Every move keeps the slot's invariant. */
  lemma MoveKeepsInv(s: Slot, m: Move, a: Ambient)
    requires SlotInv(s, a) && Can(s, m, a)
    ensures SlotInv(Apply(s, m, a), a)
  {
    hide SlotInv, ThreadInv, Next, Signals, DropsDone, AfterRequest;
    match m
    case Takes => TakeKeeps(s, a);
    case Submits => SubmitsKeeps(s, a);
    case Finishes(how, expired) => FinishKeeps(s, how, expired, a);
    case ThreadSteps(_) => ThreadKeeps(s, m, a);
    case ThreadEnds => ThreadKeeps(s, m, a);
    case Joins => EndKeeps(s, m, a);
    case Panics => EndKeeps(s, m, a);
    case SeesReload => SignKeeps(s, m, a);
    case SeesShutdown => SignKeeps(s, m, a);
    case SeesInboxClosed => SignKeeps(s, m, a);
    case _ => BootKeeps(s, m, a);
  }

  /** The router's push, of a request the slot has never seen. */
  function Pushed(s: Slot, req: Request): Slot {
    s.(inbox := s.inbox + [req])
  }

  lemma PushKeepsInv(s: Slot, req: Request, a: Ambient)
    requires SlotInv(s, a) && IsOpen(s) && req.id !in s.taken && req.id !in Ids(s.inbox)
    ensures SlotInv(Pushed(s, req), a) && Held(Pushed(s, req)) == Held(s) + multiset{req.id}
  {
    hide ThreadInv, Fits;
    IdsAppend(s.inbox, req);
    var before, after := Ids(s.inbox), Ids(s.inbox + [req]);
    hide Ids;
    assert after == before + multiset{req.id};
    assert forall r | r in after :: r == req.id || r in before;
  }

  /** A later generation, or the pool being dropped, keeps it too. */
  lemma AmbientMoves(s: Slot, a: Ambient, a': Ambient)
    requires SlotInv(s, a) && a.generation <= a'.generation && a.maxJobs == a'.maxJobs
    ensures SlotInv(s, a')
  {
  }

}
