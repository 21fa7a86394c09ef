/** A request's whole way through a slot, from the inbox to its completed reply. */
module Service {

  import opened Wrappers
  import opened Json
  import opened Bridge
  import opened EndToEnd
  import opened Slots

  /** The slot after its worker's thread has made these steps. */
  function ThreadRun(s: Slot, steps: seq<Step>, a: Ambient): Option<Slot> {
    if steps == [] then Some(s)
    else match ThreadRun(s, steps[..|steps| - 1], a)
      case None => None
      case Some(t) =>
        if Can(t, ThreadSteps(steps[|steps| - 1]), a) then Some(Apply(t, ThreadSteps(steps[|steps| - 1]), a)) else None
  }

  function WithBridge(s: Slot, b: State): Slot
    requires HasWorker(s.phase)
  {
    s.(phase := s.phase.(worker := s.phase.worker.(bridge := b)))
  }

  lemma ThreadRunOne(s: Slot, steps: seq<Step>, step: Step, b: State, a: Ambient)
    requires HasWorker(s.phase) && s.phase.worker.alive
    requires ThreadRun(s, steps, a) == Some(WithBridge(s, b)) && CanStep(b, step)
    ensures ThreadRun(s, steps + [step], a) == Some(WithBridge(s, Next(b, step)))
  {
    hide Next, CanStep, Signals, DropsDone, AfterRequest;
    assert (steps + [step])[..|steps|] == steps;
  }

  function Steps(calls: seq<Call>): seq<Step> {
    if calls == [] then [Receive] else Steps(calls[..|calls| - 1]) + [Called(calls[|calls| - 1])]
  }

  lemma {:induction false} ThreadRunsCalls(s: Slot, calls: seq<Call>, a: Ambient)
    requires HasWorker(s.phase) && s.phase.worker.alive && s.phase.worker.bridge.tasks != []
    ensures ThreadRun(s, Steps(calls), a) == Some(WithBridge(s, AfterCalls(DoReceive(s.phase.worker.bridge), calls)))
  {
    hide Can, Apply, DoCall, DoReceive;
    var b := s.phase.worker.bridge;
    if calls == [] {
      assert WithBridge(s, b) == s;
      ThreadRunOne(s, [], Receive, b, a);
      assert [] + [Receive] == Steps([]);
    } else {
      ThreadRunsCalls(s, calls[..|calls| - 1], a);
      ThreadRunOne(s, Steps(calls[..|calls| - 1]), Called(calls[|calls| - 1]),
                   AfterCalls(DoReceive(b), calls[..|calls| - 1]), a);
    }
  }

  /** A dispatch is some steps of the thread. */
  lemma ThreadRunsDispatch(s: Slot, calls: seq<Call>, result: Result<Value, string>, a: Ambient)
    requires HasWorker(s.phase) && s.phase.worker.alive && s.phase.worker.bridge.tasks != []
    ensures ThreadRun(s, Steps(calls) + [Finalised(result)], a)
            == Some(WithBridge(s, Dispatch(s.phase.worker.bridge, calls, result)))
  {
    hide Can, Apply, DoCall, DoReceive, ThreadRun;
    ThreadRunsCalls(s, calls, a);
    ThreadRunOne(s, Steps(calls), Finalised(result), AfterCalls(DoReceive(s.phase.worker.bridge), calls), a);
  }

  /** The thread can run any handler on the request, and then completion can be reported. */
  lemma RunningServes(s: Slot, a: Ambient, calls: seq<Call>, result: Result<Value, string>, expired: bool)
    requires s.phase.Running? && s.phase.worker.alive && Inv(s.phase.worker.bridge)
    requires s.phase.worker.bridge.tasks == [s.phase.req]
    ensures ThreadRun(s, Steps(calls) + [Finalised(result)], a).Some?
    ensures var s' := ThreadRun(s, Steps(calls) + [Finalised(result)], a).value;
            && s' == WithBridge(s, s'.phase.worker.bridge)
            && Can(s', Finishes(Completed, expired), a)
            && Reads(ChunksOf(s'.phase.worker.bridge.log, s.phase.req.id), Meaning(calls, result))
  {
    hide Inv, ThreadRun, Dispatch, Reads, Meaning, ChunksOf, Count, CanStep, DropsDone;
    var b := s.phase.worker.bridge;
    ThreadRunsDispatch(s, calls, result, a);
    CallerGetsMeaning(b, calls, result);
    DispatchCompletes(b, calls, result);
    InLogIffCounted(Dispatch(b, calls, result).log, Signalled(s.phase.req.id));
  }

  /**
   * An idle slot whose thread owes nothing can take the next request, hand it over without waiting,
   * have any handler run on it, and then report completion: its caller reads what the handler meant.
   */
  lemma IdleSlotServes(s: Slot, a: Ambient, calls: seq<Call>, result: Result<Value, string>, expired: bool)
    requires SlotInv(s, a) && Can(s, Takes, a)
    requires s.phase.worker.alive && s.phase.worker.bridge.tasks == []
    ensures Can(Apply(s, Takes, a), Submits, a)
    ensures var s1 := Apply(Apply(s, Takes, a), Submits, a);
            && ThreadRun(s1, Steps(calls) + [Finalised(result)], a).Some?
            && var s2 := ThreadRun(s1, Steps(calls) + [Finalised(result)], a).value;
               && Can(s2, Finishes(Completed, expired), a) && s2.phase.req == s.inbox[0]
               && Reads(ChunksOf(s2.phase.worker.bridge.log, s.inbox[0].id), Meaning(calls, result))
  {
    hide Next, CanStep, Signals, DropsDone, ThreadRun, Steps, Reads, Meaning, ChunksOf, AfterRequest, Inv;
    var s0 := Apply(s, Takes, a);
    MoveKeepsInv(s, Takes, a);
    MoveKeepsInv(s0, Submits, a);
    RunningServes(Apply(s0, Submits, a), a, calls, result, expired);
  }

}
