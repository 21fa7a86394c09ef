/** Stretches of a pool's run: what holds from one state to a later one, whatever happens between. */
module PoolRuns {

  import opened Wrappers
  import opened Slots
  import opened Router
  import opened Pool
  import opened PoolProperties

  /** The pool after more events, if each could happen in turn. */
  function Continue(p: Pool, events: seq<PoolEvent>): (r: Option<Pool>)
    requires Shape(p)
    ensures r.Some? ==> Shape(r.value) && r.value.count == p.count
  {
    if events == [] then Some(p)
    else match Continue(p, events[..|events| - 1])
      case None => None
      case Some(q) =>
        if Enabled(q, events[|events| - 1]) then
          StepKeepsShape(q, events[|events| - 1]);
          Some(PoolNext(q, events[|events| - 1]))
        else None
  }

  /** A run falls into a run and a stretch, wherever it is cut. */
  lemma {:induction false} RunsJoin(count: nat, maxJobs: nat, before: seq<PoolEvent>, after: seq<PoolEvent>)
    requires PoolRun(count, maxJobs, before + after).Some?
    ensures PoolRun(count, maxJobs, before).Some?
    ensures Continue(PoolRun(count, maxJobs, before).value, after) == PoolRun(count, maxJobs, before + after)
    decreases |after|
  {
    hide PoolNext, Enabled;
    if after == [] {
      assert before + after == before;
    } else {
      assert (before + after)[..|before + after| - 1] == before + after[..|after| - 1];
      RunsJoin(count, maxJobs, before, after[..|after| - 1]);
    }
  }

  lemma {:induction false} ContinueKeepsInv(p: Pool, events: seq<PoolEvent>)
    requires PoolInv(p) && Continue(p, events).Some?
    ensures PoolInv(Continue(p, events).value)
  {
    hide PoolNext, Conserved, SlotsKept, RoutesKept, Enabled;
    if events != [] {
      ContinueKeepsInv(p, events[..|events| - 1]);
      PoolStepKeepsInv(Continue(p, events[..|events| - 1]).value, events[|events| - 1]);
    }
  }

  // ---- Between reloads, the stale workers run out ----

  function RecyclesTotal(slots: seq<Slot>): nat {
    if slots == [] then 0 else slots[0].reloadRecycles + RecyclesTotal(slots[1..])
  }

  lemma {:induction false} RecyclesTotalUpdate(slots: seq<Slot>, i: nat, s: Slot)
    requires i < |slots|
    ensures RecyclesTotal(slots[i := s]) == RecyclesTotal(slots) - slots[i].reloadRecycles + s.reloadRecycles
  {
    if i == 0 {
      assert slots[0 := s][1..] == slots[1..];
    } else {
      assert slots[i := s][1..] == slots[1..][i - 1 := s];
      RecyclesTotalUpdate(slots[1..], i - 1, s);
    }
  }

  lemma {:induction false} StaleByGeneration(slots: seq<Slot>, a: Ambient, a': Ambient)
    requires a.generation == a'.generation
    ensures StaleTotal(slots, a) == StaleTotal(slots, a')
  {
    if slots != [] {
      StaleByGeneration(slots[1..], a, a');
    }
  }

  /** Recycles for reloads so far, and those the stale workers can still cause. */
  function ReloadDebt(p: Pool): nat {
    RecyclesTotal(p.slots) + StaleTotal(p.slots, Around(p))
  }

  lemma SlotKeepsDebt(p: Pool, i: nat, m: Move)
    requires PoolInv(p) && i < p.count && Enabled(p, SlotMoves(i, m))
    ensures ReloadDebt(SlotNext(p, i, m)) <= ReloadDebt(p)
  {
    hide Conserved, SlotsKept, RoutesKept, Can, Apply, Frees, StaleTotal, RecyclesTotal;
    var q := SlotNext(p, i, m);
    StaleRunsOut(p, i, m);
    RecyclesTotalUpdate(p.slots, i, q.slots[i]);
  }

  lemma TryKeepsDebt(p: Pool)
    requires Shape(p) && p.router.Routing?
    ensures ReloadDebt(Try(p)) == ReloadDebt(p)
  {
    hide StaleTotal, RecyclesTotal;
    if p.router.attempt < p.count {
      var s := Pushed(p.slots[Target(p)], p.router.req);
      RecyclesTotalUpdate(p.slots, Target(p), s);
      StaleTotalUpdate(p.slots, Target(p), s, Around(p));
    }
  }

  lemma StepKeepsDebt(p: Pool, e: PoolEvent)
    requires PoolInv(p) && Enabled(p, e) && e != Reload
    ensures ReloadDebt(PoolNext(p, e)) <= ReloadDebt(p)
  {
    hide Conserved, SlotsKept, RoutesKept, Can, Apply, Frees, Try, SlotNext, StaleTotal, RecyclesTotal;
    if e.SlotMoves? {
      SlotKeepsDebt(p, e.i, e.m);
    } else if e.RouterTries? {
      TryKeepsDebt(p);
    } else {
      StaleByGeneration(p.slots, Around(p), Around(PoolNext(p, e)));
    }
  }

  lemma {:induction false} StretchKeepsDebt(p: Pool, events: seq<PoolEvent>)
    requires PoolInv(p) && Continue(p, events).Some? && Reload !in events
    ensures ReloadDebt(Continue(p, events).value) <= ReloadDebt(p)
  {
    hide PoolNext, Conserved, SlotsKept, RoutesKept, Enabled, ReloadDebt;
    if events != [] {
      var init, last := events[..|events| - 1], events[|events| - 1];
      assert last in events;
      StretchKeepsDebt(p, init);
      ContinueKeepsInv(p, init);
      StepKeepsDebt(Continue(p, init).value, last);
    }
  }

  /**
   * Over any stretch without a reload, the recycles for reloads and the workers still stale at its
   * end are together no more than the workers that were stale at its start.
   */
  lemma StaleWorkersRunOut(count: nat, maxJobs: nat, before: seq<PoolEvent>, after: seq<PoolEvent>)
    requires PoolRun(count, maxJobs, before + after).Some? && Reload !in after
    ensures PoolRun(count, maxJobs, before).Some?
    ensures var p, q := PoolRun(count, maxJobs, before).value, PoolRun(count, maxJobs, before + after).value;
            RecyclesTotal(q.slots) - RecyclesTotal(p.slots) + StaleTotal(q.slots, Around(q))
            <= StaleTotal(p.slots, Around(p))
  {
    hide PoolRun, PoolInv, StaleTotal, RecyclesTotal;
    RunsJoin(count, maxJobs, before, after);
    RunKeepsPoolInv(count, maxJobs, before);
    StretchKeepsDebt(PoolRun(count, maxJobs, before).value, after);
  }

  // ---- Between slot deaths, the router goes round ----

  function ClosedSlots(p: Pool): seq<bool> {
    seq(|p.slots|, i requires 0 <= i < |p.slots| => !IsOpen(p.slots[i]))
  }

  predicate Delivers(p: Pool, e: PoolEvent)
    requires Shape(p)
  {
    && e == RouterTries && p.router.Routing? && p.router.attempt < p.count
    && !p.ring.dead[Target(p)] && IsOpen(p.slots[Target(p)])
  }

  /** The slots the router delivers to over a stretch, in order. */
  function Deliveries(p: Pool, events: seq<PoolEvent>): seq<nat>
    requires Shape(p) && Continue(p, events).Some?
  {
    if events == [] then []
    else
      var init, last := events[..|events| - 1], events[|events| - 1];
      var q := Continue(p, init).value;
      Deliveries(p, init) + if Delivers(q, last) then [Target(q)] else []
  }

  lemma ClosedStays(p: Pool, e: PoolEvent)
    requires Shape(p) && Enabled(p, e)
    ensures |PoolNext(p, e).slots| == p.count
    ensures forall i | 0 <= i < p.count :: ClosedSlots(p)[i] ==> ClosedSlots(PoolNext(p, e))[i]
  {
    hide Apply, Frees, SlotInv;
    if e.SlotMoves? {
      MoveCarries(p.slots[e.i], e.m, Around(p));
    }
  }

  lemma {:induction false} ClosedStaysOver(p: Pool, events: seq<PoolEvent>, i: nat)
    requires Shape(p) && Continue(p, events).Some? && i < p.count
    ensures ClosedSlots(p)[i] ==> ClosedSlots(Continue(p, events).value)[i]
  {
    hide PoolNext, Enabled, ClosedSlots;
    if events != [] {
      ClosedStaysOver(p, events[..|events| - 1], i);
      ClosedStays(Continue(p, events[..|events| - 1]).value, events[|events| - 1]);
    }
  }

  lemma CursorMoves(p: Pool, e: PoolEvent)
    requires Shape(p) && Enabled(p, e)
    ensures PoolNext(p, e).ring.next == if Delivers(p, e) then Target(p) + 1 else p.ring.next
  {
    hide Apply, Can, Frees;
  }

  /** The slot being delivered to is the one a whole pass from the same cursor would find. */
  lemma TargetIsFirst(p: Pool, r: Ring)
    requires Shape(p) && RoutesKept(p) && Delivers(p, RouterTries)
    requires Sound(r) && |r.dead| == p.count && r.next == p.ring.next
    requires forall i | 0 <= i < p.count :: Usable(r, ClosedSlots(p), i) <==> !ClosedSlots(p)[i]
    ensures var (r', to) := Pass(r, 0, ClosedSlots(p)); to == Some(Target(p)) && r'.next == Target(p) + 1
  {
    var closed, c := ClosedSlots(p), Target(p);
    TriedBefore(p);
    PassFindsFirst(r, 0, closed);
    hide Pass;
    assert Usable(r, closed, c);
    assert forall i | 0 <= i < p.count && AttemptFor(r, i) < AttemptFor(r, c) :: closed[i];
    assert AttemptFor(r, Pass(r, 0, closed).1.value) == AttemptFor(r, c);
  }

  lemma UsableIsOpen(p: Pool, k: nat)
    requires Shape(p) && RoutesKept(p)
    ensures forall i | 0 <= i < p.count :: Usable(After(p.ring, ClosedSlots(p), k), ClosedSlots(p), i) <==> !ClosedSlots(p)[i]
  {
    hide After;
    UsableStays(p.ring, ClosedSlots(p), k);
    assert forall i | 0 <= i < p.count :: Usable(p.ring, ClosedSlots(p), i) <==> !ClosedSlots(p)[i];
  }

  lemma {:induction false} DeliveriesArePicks(p: Pool, events: seq<PoolEvent>)
    requires PoolInv(p) && Continue(p, events).Some? && ClosedSlots(Continue(p, events).value) == ClosedSlots(p)
    ensures var closed, d := ClosedSlots(p), Deliveries(p, events);
            && Continue(p, events).value.ring.next == After(p.ring, closed, |d|).next
            && (forall k | 0 <= k < |d| :: Pick(p.ring, closed, k) == Some(d[k]))
  {
    hide PoolNext, Enabled, Conserved, SlotsKept, Pass;
    if events != [] {
      var init, last := events[..|events| - 1], events[|events| - 1];
      var q, closed, d := Continue(p, init).value, ClosedSlots(p), Deliveries(p, init);
      SameClosed(p, events);
      DeliveriesArePicks(p, init);
      ContinueKeepsInv(p, init);
      CursorMoves(q, last);
      if Delivers(q, last) {
        UsableIsOpen(p, |d|);
        TargetIsFirst(q, After(p.ring, closed, |d|));
      }
    }
  }

  lemma SameClosed(p: Pool, events: seq<PoolEvent>)
    requires Shape(p) && events != [] && Continue(p, events).Some?
    requires ClosedSlots(Continue(p, events).value) == ClosedSlots(p)
    ensures ClosedSlots(Continue(p, events[..|events| - 1]).value) == ClosedSlots(p)
  {
    hide PoolNext, Enabled;
    var init, last := events[..|events| - 1], events[|events| - 1];
    var q := Continue(p, init).value;
    ClosedStays(q, last);
    forall i | 0 <= i < p.count ensures ClosedSlots(q)[i] == ClosedSlots(p)[i] {
      ClosedStaysOver(p, init, i);
    }
  }

  function OpenSlots(p: Pool): set<nat> {
    set i | 0 <= i < |p.slots| && IsOpen(p.slots[i])
  }

  lemma LiveIsOpen(p: Pool)
    requires Shape(p) && RoutesKept(p)
    ensures Live(p.ring, ClosedSlots(p)) == |OpenSlots(p)|
  {
    RankCounts(p.ring, ClosedSlots(p), p.count);
    hide IsOpen;
    forall i | 0 <= i < p.count ensures i in UsableBelow(p.ring, ClosedSlots(p), p.count) <==> i in OpenSlots(p) {
      assert Usable(p.ring, ClosedSlots(p), i) <==> !ClosedSlots(p)[i];
    }
    assert UsableBelow(p.ring, ClosedSlots(p), p.count) == OpenSlots(p);
  }

  /** The stretch `after` begins at a reachable pool, and no slot dies in it. */
  ghost predicate Steady(count: nat, maxJobs: nat, before: seq<PoolEvent>, after: seq<PoolEvent>) {
    && PoolRun(count, maxJobs, before).Some? && Continue(PoolRun(count, maxJobs, before).value, after).Some?
    && ClosedSlots(PoolRun(count, maxJobs, before).value)
       == ClosedSlots(Continue(PoolRun(count, maxJobs, before).value, after).value)
  }

  /**
   * While no slot dies and `L` are open, the router comes back to a slot after exactly `L`
   * deliveries: between two requests to one slot every other open slot gets exactly one.
   */
  lemma RouterGoesRound(count: nat, maxJobs: nat, before: seq<PoolEvent>, after: seq<PoolEvent>, i: nat, j: nat)
    requires Steady(count, maxJobs, before, after)
    requires i < j < |Deliveries(PoolRun(count, maxJobs, before).value, after)|
    requires j <= i + |OpenSlots(PoolRun(count, maxJobs, before).value)|
    ensures var p := PoolRun(count, maxJobs, before).value;
            var d := Deliveries(p, after);
            d[i] == d[j] <==> j == i + |OpenSlots(p)|
  {
    hide PoolRun, Conserved, SlotsKept, Pick, Deliveries;
    RunKeepsPoolInv(count, maxJobs, before);
    var p := PoolRun(count, maxJobs, before).value;
    DeliveriesArePicks(p, after);
    LiveIsOpen(p);
    SameSlotAfterLive(p.ring, ClosedSlots(p), i, j);
  }

  /** And any `L` consecutive deliveries include one to each open slot. */
  lemma EveryOpenSlotGetsOne(count: nat, maxJobs: nat, before: seq<PoolEvent>, after: seq<PoolEvent>, i: nat, slot: nat)
    returns (j: nat)
    requires Steady(count, maxJobs, before, after) && slot in OpenSlots(PoolRun(count, maxJobs, before).value)
    requires i + |OpenSlots(PoolRun(count, maxJobs, before).value)|
             <= |Deliveries(PoolRun(count, maxJobs, before).value, after)|
    ensures var p := PoolRun(count, maxJobs, before).value;
            i <= j < i + |OpenSlots(p)| && Deliveries(p, after)[j] == slot
  {
    hide PoolRun, Conserved, SlotsKept, Pick, Deliveries;
    RunKeepsPoolInv(count, maxJobs, before);
    var p := PoolRun(count, maxJobs, before).value;
    DeliveriesArePicks(p, after);
    LiveIsOpen(p);
    assert Usable(p.ring, ClosedSlots(p), slot);
    j := EveryLiveSlotServed(p.ring, ClosedSlots(p), i, slot);
  }

}
