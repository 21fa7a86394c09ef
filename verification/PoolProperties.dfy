/** What the pool promises over every run: from any start, through any events, with any failures. */
module PoolProperties {

  import opened Wrappers
  import opened Chunks
  import opened Collectors
  import opened Bridge
  import opened Slots
  import opened SlotProperties
  import opened Pool

  // ---- Requests and permits ----

  /** How often `r` occurs in each place it could be. */
  function Places(p: Pool, r: nat): nat {
    Ids(p.enqueuing)[r] + Ids(p.queue)[r] + Routed(p.router)[r] + Sum(InboxIds(p.slots))[r]
    + Sum(ExecutingIds(p.slots))[r] + p.finished[r] + p.crashed[r] + p.discarded[r]
  }

  /**
   * After any run: every request that got a permit is in exactly one place, nothing else is in any,
   * and the free permits and the unfinished requests add up to the number of workers.
   */
  lemma OnePlaceEach(count: nat, maxJobs: nat, events: seq<PoolEvent>, r: nat)
    requires PoolRun(count, maxJobs, events).Some?
    ensures var p := PoolRun(count, maxJobs, events).value;
            && Places(p, r) == (if r in p.issued then 1 else 0)
            && p.permits + |LedgerOf(p).pending| + |LedgerOf(p).executing| == count
  {
    hide SlotInv, SlotsKept, RoutesKept, Sum, Ids, PoolRun;
    RunKeepsPoolInv(count, maxJobs, events);
    RunKeepsCount(count, maxJobs, events);
    var p := PoolRun(count, maxJobs, events).value;
    var l := LedgerOf(p);
    assert (l.pending + multiset(l.begun) + l.discarded)[r] == multiset(l.issued)[r];
    assert (l.executing + l.finished + l.crashed)[r] == multiset(l.begun)[r];
  }

  lemma {:induction false} RunKeepsCount(count: nat, maxJobs: nat, events: seq<PoolEvent>)
    requires PoolRun(count, maxJobs, events).Some?
    ensures var p := PoolRun(count, maxJobs, events).value; p.count == count && p.maxJobs == maxJobs
  {
    hide Can, Apply, Frees, PoolNext;
    if events != [] {
      RunKeepsCount(count, maxJobs, events[..|events| - 1]);
      StepKeepsShape(PoolRun(count, maxJobs, events[..|events| - 1]).value, events[|events| - 1]);
    }
  }

  /** A request a supervisor takes was never taken before, by any slot, and is marked as begun. */
  lemma StartsOnce(p: Pool, i: nat)
    requires PoolInv(p) && i < p.count && p.slots[i].inbox != [] && Enabled(p, SlotMoves(i, Takes))
    ensures var r := p.slots[i].inbox[0].id;
            && r !in p.begun && (forall j | 0 <= j < p.count :: r !in p.slots[j].taken)
            && r in SlotNext(p, i, Takes).begun
  {
    hide Apply, SlotInv, Conserved, RoutesKept;
    MoveCarries(p.slots[i], Takes, Around(p));
    SlotMoveConserves(p, i, Takes, Apply(p.slots[i], Takes, Around(p)));
  }

  /** The event hands request `r` to a worker. */
  predicate Begins(p: Pool, e: PoolEvent, r: nat) {
    e.SlotMoves? && e.m == Takes && e.i < |p.slots| && p.slots[e.i].inbox != [] && p.slots[e.i].inbox[0].id == r
  }

  lemma BegunByTaking(p: Pool, e: PoolEvent, r: nat)
    requires Shape(p) && Enabled(p, e)
    ensures r in PoolNext(p, e).begun <==> r in p.begun || Begins(p, e, r)
  {
    hide Apply, Frees, SlotInv;
  }

  /** How many times a run handed request `r` to a worker. */
  function Beginnings(count: nat, maxJobs: nat, events: seq<PoolEvent>, r: nat): nat
    requires PoolRun(count, maxJobs, events).Some?
  {
    if events == [] then 0
    else
      var init, last := events[..|events| - 1], events[|events| - 1];
      Beginnings(count, maxJobs, init, r) + if Begins(PoolRun(count, maxJobs, init).value, last, r) then 1 else 0
  }

  lemma {:induction false} BeginningsAreBegun(count: nat, maxJobs: nat, events: seq<PoolEvent>, r: nat)
    requires PoolRun(count, maxJobs, events).Some?
    ensures Beginnings(count, maxJobs, events, r) == if r in PoolRun(count, maxJobs, events).value.begun then 1 else 0
  {
    hide PoolNext, PoolInv, Apply, Can, Frees;
    if events != [] {
      var init, last := events[..|events| - 1], events[|events| - 1];
      var p := PoolRun(count, maxJobs, init).value;
      BeginningsAreBegun(count, maxJobs, init, r);
      BegunByTaking(p, last, r);
      RunKeepsPoolInv(count, maxJobs, init);
      if Begins(p, last, r) {
        StartsOnce(p, last.i);
      }
    }
  }

  /**
   * Over any run no request is started twice, and the ones that were started are being executed,
   * were answered, or were lost with a panic.
   */
  lemma NeverStartsTwice(count: nat, maxJobs: nat, events: seq<PoolEvent>, r: nat)
    requires PoolRun(count, maxJobs, events).Some?
    ensures var p := PoolRun(count, maxJobs, events).value;
            Beginnings(count, maxJobs, events, r) == Sum(ExecutingIds(p.slots))[r] + p.finished[r] + p.crashed[r] <= 1
  {
    hide SlotInv, SlotsKept, RoutesKept, Sum, Ids, PoolRun, Beginnings;
    BeginningsAreBegun(count, maxJobs, events, r);
    RunKeepsPoolInv(count, maxJobs, events);
    var p := PoolRun(count, maxJobs, events).value;
    var l := LedgerOf(p);
    assert (l.executing + l.finished + l.crashed)[r] == multiset(l.begun)[r];
  }

  /** The router gives a request up only when every slot is closed. */
  lemma GivesUpOnlyWhenAllClosed(p: Pool)
    requires PoolInv(p) && p.router.Routing? && Enabled(p, RouterTries)
    requires PoolNext(p, RouterTries).discarded != p.discarded
    ensures AllClosed(p.slots)
  {
    hide SlotInv, Conserved, SlotsKept, Apply, Can, Frees;
    assert p.router.attempt >= p.count;
    assert forall i | 0 <= i < p.count :: p.ring.dead[i];
  }

  /** The request being run has been sent its whole reply, and its window on the thread is closed. */
  ghost predicate Answered(p: Phase) {
    p.Running? && IsReply(ChunksOf(p.worker.bridge.log, p.req.id)) && Window(p.worker.bridge.log) != Some(p.req.id)
  }

  /**
   * A permit comes back in exactly these ways. When a worker reports completion, the request
   * has been answered.
   */
  lemma PermitComesBack(p: Pool, e: PoolEvent)
    requires PoolInv(p) && Enabled(p, e) && PoolNext(p, e).permits > p.permits
    ensures match e
            case Cancel(_) => true
            case RouterTries => AllClosed(p.slots)
            case SlotMoves(i, Finishes(Completed, _)) => i < p.count && Answered(p.slots[i].phase)
            case SlotMoves(i, Finishes(_, _)) => i < p.count && p.slots[i].phase.Running?
            case SlotMoves(i, Panics) => true
            case SlotMoves(i, Joins) => i < p.count && p.slots[i].phase.Terminating? && p.slots[i].phase.exit
            case _ => false
  {
    hide SlotInv, Conserved, Apply, Answered;
    match e
    case SlotMoves(i, Finishes(Completed, _)) =>
      assert SlotInv(p.slots[i], Around(p));
      CompletionIsWhole(p.slots[i], e.m, Around(p));
    case RouterTries =>
      if p.router.attempt >= p.count {
        assert forall i | 0 <= i < p.count :: p.ring.dead[i];
      }
    case _ =>
  }

  lemma CompletionIsWhole(s: Slot, m: Move, a: Ambient)
    requires SlotInv(s, a) && Can(s, m, a) && m.Finishes? && m.how == Completed
    ensures Answered(s.phase)
  {
    hide SlotInv, Next;
    ReleasesAfterEnd(s, m, a);
  }

  // ---- Capacities ----

  lemma InboxIsPending(p: Pool, i: nat)
    requires PoolInv(p) && i < p.count
    ensures |p.slots[i].inbox| + |Ids(p.queue)| + |Ids(p.enqueuing)| + |Routed(p.router)| <= p.count
  {
    hide SlotsKept, RoutesKept, SlotInv, Balanced, Sum, Ids;
    SlotIdsUpdate(p.slots, i, p.slots[i]);
    IdsSize(p.slots[i].inbox);
    var rest := Sum(InboxIds(p.slots)) - Ids(p.slots[i].inbox);
    assert Sum(InboxIds(p.slots)) == Ids(p.slots[i].inbox) + rest;
  }

  /** With at most eight workers the router never waits for room in an inbox. */
  lemma RouterNeverWaits(p: Pool)
    requires PoolInv(p) && p.router.Routing? && p.count <= 8
    ensures Enabled(p, RouterTries)
  {
    hide SlotsKept, Conserved, SlotInv, Apply;
    if p.router.attempt < p.count {
      InboxIsPending(p, Target(p));
    }
  }

  /** With at most 1024 workers a caller that has its permit never waits for room in the queue. */
  lemma CallerNeverWaits(p: Pool, k: nat)
    requires PoolInv(p) && k < |p.enqueuing| && p.count <= 1024
    ensures Enabled(p, Enqueue(k))
  {
    hide SlotsKept, RoutesKept, SlotInv, Balanced, Sum, Ids;
    IdsSize(p.queue);
    IdsSize(p.enqueuing);
  }

  // ---- Hot reload ----

  lemma PoolTakesFreshCode(p: Pool, i: nat)
    requires PoolInv(p) && i < p.count && Can(p.slots[i], Takes, Around(p)) && p.slots[i].phase.worker.recyclable
    ensures p.slots[i].bootGeneration == p.generation
  {
    hide Conserved, SlotInv, RoutesKept;
    TakesOnlyWithFreshCode(p.slots[i], Around(p));
  }

  function Reloads(events: seq<PoolEvent>): nat {
    if events == [] then 0
    else Reloads(events[..|events| - 1]) + if events[|events| - 1] == Reload then 1 else 0
  }

  lemma {:induction false} GenerationCountsReloads(count: nat, maxJobs: nat, events: seq<PoolEvent>)
    requires PoolRun(count, maxJobs, events).Some?
    ensures PoolRun(count, maxJobs, events).value.generation == Reloads(events)
  {
    hide PoolNext, Can, Apply, Frees;
    if events != [] {
      GenerationCountsReloads(count, maxJobs, events[..|events| - 1]);
      GenerationStep(PoolRun(count, maxJobs, events[..|events| - 1]).value, events[|events| - 1]);
    }
  }

  lemma GenerationStep(p: Pool, e: PoolEvent)
    requires Shape(p) && Enabled(p, e)
    ensures PoolNext(p, e).generation == p.generation + if e == Reload then 1 else 0
  {
    hide Apply, Can, Frees;
  }

  /** However reloads fall, a slot recycles for them at most once per call. */
  lemma ReloadsCoalesce(count: nat, maxJobs: nat, events: seq<PoolEvent>, i: nat)
    requires PoolRun(count, maxJobs, events).Some? && i < count
    ensures var p := PoolRun(count, maxJobs, events).value;
            i < |p.slots| && p.slots[i].reloadRecycles <= Reloads(events)
  {
    hide PoolRun, Conserved, RoutesKept, WorkerInv, InboxFresh, CountsAdd, Agrees;
    RunKeepsPoolInv(count, maxJobs, events);
    RunKeepsCount(count, maxJobs, events);
    GenerationCountsReloads(count, maxJobs, events);
    var p := PoolRun(count, maxJobs, events).value;
    assert SlotInv(p.slots[i], Around(p));
  }

  function StaleTotal(slots: seq<Slot>, a: Ambient): nat {
    if slots == [] then 0 else StaleCount(slots[0], a) + StaleTotal(slots[1..], a)
  }

  lemma {:induction false} StaleTotalUpdate(slots: seq<Slot>, i: nat, s: Slot, a: Ambient)
    requires i < |slots|
    ensures StaleTotal(slots[i := s], a) == StaleTotal(slots, a) - StaleCount(slots[i], a) + StaleCount(s, a)
  {
    if i == 0 {
      assert slots[0 := s][1..] == slots[1..];
    } else {
      assert slots[i := s][1..] == slots[1..][i - 1 := s];
      StaleTotalUpdate(slots[1..], i - 1, s, a);
    }
  }

  /**
   * No move of a slot makes the pool staler, and one that recycles for a reload leaves it strictly
   * less so: between reloads, the stale workers run out.
   */
  lemma StaleRunsOut(p: Pool, i: nat, m: Move)
    requires PoolInv(p) && i < p.count && Enabled(p, SlotMoves(i, m))
    ensures var slots := SlotNext(p, i, m).slots;
            var recycles := slots[i].reloadRecycles - p.slots[i].reloadRecycles;
            StaleTotal(slots, Around(p)) + recycles <= StaleTotal(p.slots, Around(p))
  {
    hide Conserved, SlotInv, RoutesKept, Stale, Frees;
    var s' := Apply(p.slots[i], m, Around(p));
    StaleOnlyDecreases(p.slots[i], m, Around(p));
    StaleTotalUpdate(p.slots, i, s', Around(p));
  }

  // ---- Worker handles ----

  function Unterminated(slots: seq<Slot>): int {
    if slots == [] then 0
    else slots[0].spawned - slots[0].retired - slots[0].leaked + Unterminated(slots[1..])
  }

  lemma {:induction false} UnterminatedBound(slots: seq<Slot>, a: Ambient)
    requires forall i | 0 <= i < |slots| :: SlotInv(slots[i], a)
    ensures 0 <= Unterminated(slots) <= |slots|
  {
    if slots != [] {
      assert SlotInv(slots[0], a);
      UnterminatedBound(slots[1..], a);
    }
  }

  /** Handles spawned and neither terminated nor lost with a panicking supervisor: one per slot at most. */
  lemma HandlesBounded(count: nat, maxJobs: nat, events: seq<PoolEvent>)
    requires PoolRun(count, maxJobs, events).Some?
    ensures 0 <= Unterminated(PoolRun(count, maxJobs, events).value.slots) <= count
  {
    hide PoolRun, Conserved, RoutesKept, SlotInv, Unterminated;
    RunKeepsPoolInv(count, maxJobs, events);
    RunKeepsCount(count, maxJobs, events);
    var p := PoolRun(count, maxJobs, events).value;
    UnterminatedBound(p.slots, Around(p));
  }

  // ---- Replies ----

  /**
   * In every reachable pool, what a thread has sent a request is a reply or the beginning of one,
   * however it timed out or was recycled; and a request is served by one slot's thread only.
   */
  lemma RepliesStayWellFormed(count: nat, maxJobs: nat, events: seq<PoolEvent>, i: nat, j: nat, r: nat)
    requires PoolRun(count, maxJobs, events).Some? && i < count && j < count
    ensures var slots := PoolRun(count, maxJobs, events).value.slots;
            && |slots| == count
            && (HasWorker(slots[i].phase) ==>
                  var w := ChunksOf(slots[i].phase.worker.bridge.log, r);
                  forall k | 0 <= k <= |w| :: PoolReading(w[..k]) == HandleReading(w[..k]))
            && (HasWorker(slots[i].phase) && HasWorker(slots[j].phase)
                && ChunksOf(slots[i].phase.worker.bridge.log, r) != [] && ChunksOf(slots[j].phase.worker.bridge.log, r) != []
                ==> i == j)
  {
    hide PoolRun, Conserved, RoutesKept, SlotInv, ChunksOf, PoolReading, HandleReading;
    RunKeepsPoolInv(count, maxJobs, events);
    RunKeepsCount(count, maxJobs, events);
    var p := PoolRun(count, maxJobs, events).value;
    assert SlotInv(p.slots[i], Around(p)) && SlotInv(p.slots[j], Around(p));
    SentIsTaken(p.slots[i], r, Around(p));
    SentIsTaken(p.slots[j], r, Around(p));
    if HasWorker(p.slots[i].phase) {
      SlotReplies(p.slots[i], r, Around(p));
    }
  }

  lemma SentIsTaken(s: Slot, r: nat, a: Ambient)
    requires SlotInv(s, a)
    ensures HasWorker(s.phase) && ChunksOf(s.phase.worker.bridge.log, r) != [] ==> r in s.taken
  {
    if HasWorker(s.phase) {
      assert FateOf(s.phase.worker.bridge.log, r) != Wrong;
      FateMeaning(s.phase.worker.bridge.log, r);
    }
  }

  lemma SlotReplies(s: Slot, r: nat, a: Ambient)
    requires SlotInv(s, a) && HasWorker(s.phase)
    ensures var w := ChunksOf(s.phase.worker.bridge.log, r);
            forall k | 0 <= k <= |w| :: PoolReading(w[..k]) == HandleReading(w[..k])
  {
    hide PoolReading, HandleReading, ModeOf;
    var log := s.phase.worker.bridge.log;
    var w := ChunksOf(log, r);
    assert FateOf(log, r) != Wrong;
    FateMeaning(log, r);
    forall k | 0 <= k <= |w| ensures PoolReading(w[..k]) == HandleReading(w[..k]) {
      PrefixNotBroken(w, k);
      PrefixIffNotBroken(w[..k]);
      CollectorsAgreeOnReplies(w[..k]);
    }
  }

  // ---- Shutdown ----

  lemma OpenSlotHoldsRouter(p: Pool, i: nat)
    requires Shape(p) && RoutesKept(p) && i < p.count && IsOpen(p.slots[i])
    ensures p.router != Returned && !Around(p).inboxClosed
    ensures !AllClosed(p.slots)
  {
  }

  /**
   * No supervisor ever sees its inbox closed: the pool task keeps every sender until all
   * supervisors have returned, so the arm that would shut one down that way is never taken.
   */
  lemma InboxNeverSeenClosed(p: Pool, i: nat)
    requires PoolInv(p) && i < p.count
    ensures !Can(p.slots[i], SeesInboxClosed, Around(p))
  {
    hide Conserved, SlotsKept, RoutesKept, Apply;
    if IsOpen(p.slots[i]) {
      OpenSlotHoldsRouter(p, i);
    }
  }

  ghost predicate ServesMain(p: Pool, i: nat) {
    i < |p.slots| && Serving(p.slots[i].phase) && !p.slots[i].phase.worker.recyclable
  }

  lemma OtherEventsKeepPhase(p: Pool, e: PoolEvent, i: nat)
    requires Shape(p) && Enabled(p, e) && i < p.count && (e.SlotMoves? ==> e.i != i)
    ensures |PoolNext(p, e).slots| == p.count && PoolNext(p, e).slots[i].phase == p.slots[i].phase
    ensures PoolNext(p, e).router == Returned ==> p.router == Returned || AllClosed(p.slots)
  {
    hide Apply, Can, Frees;
  }

  lemma MainStep(p: Pool, e: PoolEvent, i: nat)
    requires PoolInv(p) && Enabled(p, e) && ServesMain(p, i) && e != SlotMoves(i, Panics)
    ensures ServesMain(PoolNext(p, e), i) && PoolNext(p, e).router != Returned
  {
    hide Apply, Conserved, SlotsKept, RoutesKept, Frees;
    OpenSlotHoldsRouter(p, i);
    if e.SlotMoves? && e.i == i {
      MainWorkerStays(p.slots[i], e.m, Around(p));
    } else {
      OtherEventsKeepPhase(p, e, i);
    }
  }

  /**
   * So a slot serving the main PHP thread, which cannot be recycled, keeps it through reloads and
   * through the dropping of the pool, and the pool task never returns, unless that supervisor panics.
   */
  lemma {:induction false} MainThreadHoldsPoolOpen(count: nat, maxJobs: nat, before: seq<PoolEvent>, after: seq<PoolEvent>, i: nat)
    requires PoolRun(count, maxJobs, before + after).Some? && PoolRun(count, maxJobs, before).Some?
    requires ServesMain(PoolRun(count, maxJobs, before).value, i)
    requires PoolRun(count, maxJobs, before).value.router != Returned
    requires SlotMoves(i, Panics) !in after
    ensures var p := PoolRun(count, maxJobs, before + after).value;
            ServesMain(p, i) && p.router != Returned
    decreases |after|
  {
    hide PoolNext, PoolInv, ServesMain, Can;
    if after == [] {
      assert before + after == before;
    } else {
      var init, last := after[..|after| - 1], after[|after| - 1];
      assert (before + after)[..|before + after| - 1] == before + init;
      assert last in after;
      MainThreadHoldsPoolOpen(count, maxJobs, before, init, i);
      RunKeepsPoolInv(count, maxJobs, before + init);
      MainStep(PoolRun(count, maxJobs, before + init).value, last, i);
    }
  }

}
