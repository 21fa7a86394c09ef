/** The order in which a pool serves its requests, and how it comes to an end, over every run. */
module PoolOrder {

  import opened Wrappers
  import opened Bridge
  import opened Slots
  import opened SlotProperties
  import opened Pool
  import opened PoolProperties
  import opened PoolRuns

  function InHand(r: RouterState): seq<Request> {
    if r.Routing? then [r.req] else []
  }

  function HeldBy(s: Slot): seq<Request> {
    if Holds(s.phase) then [s.phase.req] else []
  }

  // ---- The queue ----

  /** The requests callers put in the queue over a run, in order. */
  function Enqueued(count: nat, maxJobs: nat, events: seq<PoolEvent>): seq<Request>
    requires PoolRun(count, maxJobs, events).Some?
  {
    if events == [] then []
    else
      var init, last := events[..|events| - 1], events[|events| - 1];
      var p := PoolRun(count, maxJobs, init).value;
      Enqueued(count, maxJobs, init) + if last.Enqueue? && last.k < |p.enqueuing| then [p.enqueuing[last.k]] else []
  }

  /** The requests that came into the router's hand, in order. */
  function TakenByRouter(count: nat, maxJobs: nat, events: seq<PoolEvent>): seq<Request>
    requires PoolRun(count, maxJobs, events).Some?
  {
    if events == [] then []
    else
      var init, last := events[..|events| - 1], events[|events| - 1];
      TakenByRouter(count, maxJobs, init)
      + if last.RouterTakes? then InHand(PoolRun(count, maxJobs, events).value.router) else []
  }

  /** What an event does to the queue. */
  lemma QueueStep(p: Pool, e: PoolEvent)
    requires Shape(p) && Enabled(p, e)
    ensures var p' := PoolNext(p, e);
            && (e.RouterTakes? ==> InHand(p'.router) + p'.queue == p.queue && |InHand(p'.router)| == 1)
            && (e.Enqueue? ==> e.k < |p.enqueuing| && p'.queue == p.queue + [p.enqueuing[e.k]])
            && (!e.RouterTakes? && !e.Enqueue? ==> p'.queue == p.queue)
  {
    hide Apply, Can, Frees;
  }

  /**
   * Over any run, the requests the router took followed by those still queued are the requests
   * enqueued, in that order: the queue is first in, first out, and loses nothing.
   */
  lemma {:induction false} QueueIsFair(count: nat, maxJobs: nat, events: seq<PoolEvent>)
    requires PoolRun(count, maxJobs, events).Some?
    ensures TakenByRouter(count, maxJobs, events) + PoolRun(count, maxJobs, events).value.queue
            == Enqueued(count, maxJobs, events)
  {
    hide PoolNext, Enabled;
    if events != [] {
      var init, last := events[..|events| - 1], events[|events| - 1];
      QueueIsFair(count, maxJobs, init);
      QueueStep(PoolRun(count, maxJobs, init).value, last);
    }
  }

  // ---- One slot's inbox ----

  function GivenTo(p: Pool, e: PoolEvent, i: nat): seq<Request>
    requires Shape(p)
  {
    if Delivers(p, e) && Target(p) == i then InHand(p.router) else []
  }

  /** What the event made slot `i` take, which is then `s`. */
  function TakenWith(e: PoolEvent, i: nat, s: Slot): seq<Request> {
    if e == SlotMoves(i, Takes) then HeldBy(s) else []
  }

  function DeliveredTo(count: nat, maxJobs: nat, events: seq<PoolEvent>, i: nat): seq<Request>
    requires PoolRun(count, maxJobs, events).Some?
  {
    if events == [] then []
    else
      var init, last := events[..|events| - 1], events[|events| - 1];
      DeliveredTo(count, maxJobs, init, i) + GivenTo(PoolRun(count, maxJobs, init).value, last, i)
  }

  function TakenBySlot(count: nat, maxJobs: nat, events: seq<PoolEvent>, i: nat): seq<Request>
    requires PoolRun(count, maxJobs, events).Some? && i < |PoolRun(count, maxJobs, events).value.slots|
  {
    if events == [] then []
    else
      var init, last := events[..|events| - 1], events[|events| - 1];
      LengthStays(PoolRun(count, maxJobs, init).value, last);
      TakenBySlot(count, maxJobs, init, i) + TakenWith(last, i, PoolRun(count, maxJobs, events).value.slots[i])
  }

  lemma LengthStays(p: Pool, e: PoolEvent)
    requires Shape(p) && Enabled(p, e)
    ensures |PoolNext(p, e).slots| == |p.slots|
  {
    hide Apply, Can, Frees;
  }

  /** What an event does to a slot's inbox. */
  lemma InboxStep(p: Pool, e: PoolEvent, i: nat)
    requires Shape(p) && Enabled(p, e) && i < p.count
    ensures |PoolNext(p, e).slots| == p.count
    ensures var s, s' := p.slots[i], PoolNext(p, e).slots[i];
            var took, given := TakenWith(e, i, s'), GivenTo(p, e, i);
            && (took == [] || given == [])
            && (IsOpen(s') ==> IsOpen(s) && took + s'.inbox == s.inbox + given)
            && (!IsOpen(s') ==> took == given == [])
  {
    hide Apply, Can, Frees, HeldBy, Try;
    if e.SlotMoves? && e.i == i {
      MoveInbox(p.slots[i], e.m, Around(p));
    } else {
      OthersPush(p, e, i);
    }
  }

  /** Events that are not the slot's own at most push a request. */
  lemma OthersPush(p: Pool, e: PoolEvent, i: nat)
    requires Shape(p) && Enabled(p, e) && i < p.count && !(e.SlotMoves? && e.i == i)
    ensures |PoolNext(p, e).slots| == p.count
    ensures var s, s' := p.slots[i], PoolNext(p, e).slots[i];
            && s' == s.(inbox := s.inbox + GivenTo(p, e, i))
            && (GivenTo(p, e, i) != [] ==> IsOpen(s))
  {
    hide Apply, Can, Frees, IsOpen;
    assert p.slots[i].inbox + [] == p.slots[i].inbox;
  }

  lemma MoveInbox(s: Slot, m: Move, a: Ambient)
    requires Can(s, m, a)
    ensures var s' := Apply(s, m, a);
            && IsOpen(s)
            && (m == Takes ==> HeldBy(s') + s'.inbox == s.inbox && IsOpen(s'))
            && (m != Takes && IsOpen(s') ==> s'.inbox == s.inbox)
  {
    hide Next, CanStep, Signals, DropsDone;
  }

  /**
   * Over any run, what an open slot took followed by what is in its inbox is what was delivered to
   * it, in that order. A slot that died took the first of what was delivered, in order.
   */
  lemma {:induction false} InboxIsFair(count: nat, maxJobs: nat, events: seq<PoolEvent>, i: nat)
    requires PoolRun(count, maxJobs, events).Some? && i < |PoolRun(count, maxJobs, events).value.slots|
    ensures var s := PoolRun(count, maxJobs, events).value.slots[i];
            var taken, delivered := TakenBySlot(count, maxJobs, events, i), DeliveredTo(count, maxJobs, events, i);
            && taken <= delivered
            && (IsOpen(s) ==> taken + s.inbox == delivered)
  {
    hide PoolNext, Enabled, GivenTo, TakenWith, IsOpen;
    if events == [] {
      StartsEmpty(count, maxJobs, i);
    } else {
      var init, last := events[..|events| - 1], events[|events| - 1];
      var p := PoolRun(count, maxJobs, init).value;
      LengthStays(p, last);
      InboxIsFair(count, maxJobs, init, i);
      InboxStep(p, last, i);
      var s' := PoolNext(p, last).slots[i];
      InboxLedger(TakenBySlot(count, maxJobs, init, i), DeliveredTo(count, maxJobs, init, i),
                  p.slots[i].inbox, s'.inbox, TakenWith(last, i, s'), GivenTo(p, last, i), IsOpen(p.slots[i]), IsOpen(s'));
    }
  }

  lemma StartsEmpty(count: nat, maxJobs: nat, i: nat)
    requires i < count
    ensures Start(count, maxJobs).slots[i].inbox == []
  {
  }

  lemma InboxLedger(taken: seq<Request>, delivered: seq<Request>, inbox: seq<Request>, inbox': seq<Request>,
                    took: seq<Request>, given: seq<Request>, open: bool, open': bool)
    requires taken <= delivered && (open ==> taken + inbox == delivered)
    requires open' ==> open && took + inbox' == inbox + given
    requires !open' ==> took == given == []
    ensures taken + took <= delivered + given
    ensures open' ==> (taken + took) + inbox' == delivered + given
  {
    if open' {
      assert (taken + took) + inbox' == taken + (took + inbox');
      assert (taken + inbox) + given == taken + (inbox + given);
    }
  }

  // ---- One worker's tasks ----

  /** What has been handed to the worker slot `i` has, in order. */
  function HandedTo(count: nat, maxJobs: nat, events: seq<PoolEvent>, i: nat): seq<Request>
    requires PoolRun(count, maxJobs, events).Some? && i < |PoolRun(count, maxJobs, events).value.slots|
  {
    if events == [] then []
    else
      var init, last := events[..|events| - 1], events[|events| - 1];
      var p := PoolRun(count, maxJobs, init).value;
      LengthStays(p, last);
      var handed := HandedTo(count, maxJobs, init, i);
      if last.SlotMoves? && last.i == i then HandedNext(p.slots[i], last.m, handed) else handed
  }

  lemma TaskStep(p: Pool, e: PoolEvent, i: nat, handed: seq<Request>)
    requires Shape(p) && Enabled(p, e) && i < p.count && ReceivesInOrder(p.slots[i].phase, handed)
    ensures |PoolNext(p, e).slots| == p.count
    ensures var own := e.SlotMoves? && e.i == i;
            ReceivesInOrder(PoolNext(p, e).slots[i].phase, if own then HandedNext(p.slots[i], e.m, handed) else handed)
  {
    hide Apply, Frees, ReceivesInOrder;
    if e.SlotMoves? && e.i == i {
      MoveKeepsTaskOrder(p.slots[i], e.m, Around(p), handed);
    } else {
      OtherEventsKeepPhase(p, e, i);
    }
  }

  /**
   * Over any run, a worker's thread has received the first of the requests handed to it, in order,
   * and while it lives the rest are queued for it, in order: also when some of them timed out.
   */
  lemma {:induction false} TasksAreFair(count: nat, maxJobs: nat, events: seq<PoolEvent>, i: nat)
    requires PoolRun(count, maxJobs, events).Some? && i < |PoolRun(count, maxJobs, events).value.slots|
    ensures ReceivesInOrder(PoolRun(count, maxJobs, events).value.slots[i].phase, HandedTo(count, maxJobs, events, i))
  {
    hide PoolNext, Enabled, ReceivesInOrder, HandedNext;
    if events == [] {
      NobodyReceived(count, maxJobs, i);
    } else {
      var init, last := events[..|events| - 1], events[|events| - 1];
      var p := PoolRun(count, maxJobs, init).value;
      LengthStays(p, last);
      TasksAreFair(count, maxJobs, init, i);
      TaskStep(p, last, i, HandedTo(count, maxJobs, init, i));
    }
  }

  lemma NobodyReceived(count: nat, maxJobs: nat, i: nat)
    requires i < count
    ensures ReceivesInOrder(Start(count, maxJobs).slots[i].phase, [])
  {
  }

  // ---- Capacities ----

  predicate WithinCapacities(p: Pool) {
    && |p.queue| <= 1024
    && forall i | 0 <= i < |p.slots| :: SlotWithin(p.slots[i])
  }

  predicate SlotWithin(s: Slot) {
    |s.inbox| <= 8 && (HasWorker(s.phase) ==> |s.phase.worker.bridge.tasks| <= 8)
  }

  lemma MoveWithin(s: Slot, m: Move, a: Ambient)
    requires Can(s, m, a) && SlotWithin(s)
    ensures SlotWithin(Apply(s, m, a))
  {
    hide Next, Signals, DropsDone;
    match m
    case ThreadSteps(step) => StepsTakeInOrder(s.phase.worker.bridge, step);
    case Spawns(id, _) => NothingReceived(id);
    case Finishes(_, _) =>
    case Submits =>
    case _ =>
  }

  lemma StepWithin(p: Pool, e: PoolEvent)
    requires Shape(p) && Enabled(p, e) && WithinCapacities(p)
    ensures WithinCapacities(PoolNext(p, e))
  {
    hide Apply, Can, Frees;
    if e.SlotMoves? {
      hide SlotWithin;
      MoveWithin(p.slots[e.i], e.m, Around(p));
    }
  }

  /** No channel ever holds more than its capacity: the queue 1024, an inbox and a task channel eight. */
  lemma {:induction false} ChannelsBounded(count: nat, maxJobs: nat, events: seq<PoolEvent>)
    requires PoolRun(count, maxJobs, events).Some?
    ensures WithinCapacities(PoolRun(count, maxJobs, events).value)
  {
    hide PoolNext, Enabled;
    if events != [] {
      ChannelsBounded(count, maxJobs, events[..|events| - 1]);
      StepWithin(PoolRun(count, maxJobs, events[..|events| - 1]).value, events[|events| - 1]);
    }
  }

  // ---- How a request ends ----

  /**
   * A request counts as finished when a worker's completion, loss or time out is seen, as crashed
   * when its supervisor panics, and as discarded only when its caller gives up, no slot is left, or
   * the inbox it waits in goes with its supervisor.
   */
  lemma EndsAreTold(p: Pool, e: PoolEvent, r: nat)
    requires Shape(p) && Enabled(p, e)
    ensures var p' := PoolNext(p, e);
            && (p'.finished[r] > p.finished[r] <==>
                  e.SlotMoves? && e.i < p.count && e.m.Finishes? && r in Executing(p.slots[e.i]))
            && (p'.crashed[r] > p.crashed[r] <==>
                  e.SlotMoves? && e.i < p.count && e.m == Panics && r in Executing(p.slots[e.i]))
            && (p'.discarded[r] > p.discarded[r] <==>
                  || (e.Cancel? && e.k < |p.enqueuing| && p.enqueuing[e.k].id == r)
                  || (e == RouterTries && p.router.Routing? && p.router.attempt >= p.count && p.router.req.id == r)
                  || (e.SlotMoves? && e.i < p.count && r in Ids(p.slots[e.i].inbox)
                      && !IsOpen(Apply(p.slots[e.i], e.m, Around(p)))))
  {
    hide Apply, Ids, Executing, Frees, Can, IsOpen;
    if e.SlotMoves? {
      MoveFrees(p.slots[e.i], e.m, Around(p), r);
    }
  }

  lemma MoveFrees(s: Slot, m: Move, a: Ambient, r: nat)
    requires Can(s, m, a)
    ensures r in Frees(s, m).finished <==> m.Finishes? && r in Executing(s)
    ensures r in Frees(s, m).crashed <==> m == Panics && r in Executing(s)
    ensures r in Frees(s, m).discarded <==> r in Ids(s.inbox) && !IsOpen(Apply(s, m, a))
  {
    hide Apply, Ids, Executing;
    EndsOnlyBy(s, m, a);
  }

  // ---- Shutdown ----

  predicate ShutsOnlyWhenClosing(p: Pool) {
    forall i | 0 <= i < |p.slots| && ShutDown(p.slots[i].phase) :: p.closing
  }

  lemma ShutdownStep(p: Pool, e: PoolEvent)
    requires PoolInv(p) && Enabled(p, e) && ShutsOnlyWhenClosing(p)
    ensures ShutsOnlyWhenClosing(PoolNext(p, e))
  {
    hide Apply, Frees, Conserved, SlotsKept, RoutesKept, ShutDown;
    if e.SlotMoves? {
      EndsOnlyBy(p.slots[e.i], e.m, Around(p));
      InboxNeverSeenClosed(p, e.i);
    } else {
      forall i | 0 <= i < p.count ensures |PoolNext(p, e).slots| == p.count && PoolNext(p, e).slots[i].phase == p.slots[i].phase {
        OtherEventsKeepPhase(p, e, i);
      }
    }
  }

  /** No supervisor returns, or lets a worker go for good, before the pool is dropped. */
  lemma {:induction false} StaysUntilDropped(count: nat, maxJobs: nat, events: seq<PoolEvent>)
    requires PoolRun(count, maxJobs, events).Some?
    ensures ShutsOnlyWhenClosing(PoolRun(count, maxJobs, events).value)
  {
    hide PoolNext, Enabled, Conserved, SlotsKept, RoutesKept;
    if events != [] {
      var init := events[..|events| - 1];
      StaysUntilDropped(count, maxJobs, init);
      RunKeepsPoolInv(count, maxJobs, init);
      ShutdownStep(PoolRun(count, maxJobs, init).value, events[|events| - 1]);
    }
  }

  /** The pool is closing once it was dropped, and nothing is acquired or reloaded from then on. */
  lemma {:induction false} ClosingIffDropped(count: nat, maxJobs: nat, events: seq<PoolEvent>)
    requires PoolRun(count, maxJobs, events).Some?
    ensures PoolRun(count, maxJobs, events).value.closing <==> DropPool in events
    ensures forall i, j | 0 <= i < j < |events| && events[i] == DropPool ::
              !events[j].Acquire? && events[j] != Reload && events[j] != DropPool
  {
    hide PoolNext, Can, Apply, Frees;
    if events != [] {
      var init, last := events[..|events| - 1], events[|events| - 1];
      ClosingIffDropped(count, maxJobs, init);
      ClosingStep(PoolRun(count, maxJobs, init).value, last);
      assert events == init + [last];
      assert forall i | 0 <= i < |init| :: events[i] == init[i];
    }
  }

  lemma ClosingStep(p: Pool, e: PoolEvent)
    requires Shape(p) && Enabled(p, e)
    ensures PoolNext(p, e).closing <==> p.closing || e == DropPool
    ensures p.closing ==> !e.Acquire? && e != Reload && e != DropPool
  {
    hide Apply, Can, Frees;
  }

  /** When the pool task has returned, the pool was dropped, no request is left in it, and every permit is back. */
  lemma ReturnsLast(count: nat, maxJobs: nat, events: seq<PoolEvent>)
    requires PoolRun(count, maxJobs, events).Some? && PoolRun(count, maxJobs, events).value.router == Returned
    ensures var p := PoolRun(count, maxJobs, events).value;
            && DropPool in events && p.permits == count
            && p.enqueuing == [] && p.queue == []
            && forall i | 0 <= i < |p.slots| :: !IsOpen(p.slots[i]) && p.slots[i].inbox == []
  {
    hide PoolRun, SlotInv, LedgerOf, Balanced, IsOpen;
    RunKeepsPoolInv(count, maxJobs, events);
    RunKeepsCount(count, maxJobs, events);
    ClosingIffDropped(count, maxJobs, events);
    var p := PoolRun(count, maxJobs, events).value;
    forall i | 0 <= i < |p.slots| ensures p.slots[i].inbox == [] && Executing(p.slots[i]) == multiset{} {
      ClosedIsEmpty(p.slots[i], Around(p));
    }
    NothingLeft(p);
  }

  lemma ClosedIsEmpty(s: Slot, a: Ambient)
    requires SlotInv(s, a) && !IsOpen(s)
    ensures s.inbox == [] && Executing(s) == multiset{}
  {
  }

  lemma NothingLeft(p: Pool)
    requires p.enqueuing == [] && p.queue == [] && !p.router.Routing?
    requires forall i | 0 <= i < |p.slots| :: p.slots[i].inbox == [] && Executing(p.slots[i]) == multiset{}
    ensures LedgerOf(p).pending == multiset{} && LedgerOf(p).executing == multiset{}
  {
    hide Executing;
    assert Ids([]) == multiset{};
    SumEmpty(InboxIds(p.slots));
    SumEmpty(ExecutingIds(p.slots));
  }

}
