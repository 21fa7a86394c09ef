/**
 * The slot supervisor with its local variables updated in place, one method for each stretch of its
 * loop between two awaits. Its bookkeeping calls meet their assertions in every valid state, and
 * each method makes exactly the move of module `Slots` that it names.
 */
module Supervisors {

  import opened Wrappers
  import opened SlotInfo
  import opened Bridge
  import opened Slots

  /** The await the loop is parked at. */
  datatype Await = AtHead | AtReady | AtSelect | AtSend | AtDone | AtJoin(exit: bool) | Returned | Panicked

  class Supervisor {
    var at: Await
    var inbox: seq<Request>
    var worker: Option<Worker>
    var req: Option<Request>
    var slot: SlotInfo
    var bootGeneration: nat
    var seen: nat
    ghost var taken: set<nat>
    ghost var completed: nat
    ghost var reloadRecycles: nat
    ghost var jobRecycles: nat
    ghost var spawned: nat
    ghost var retired: nat
    ghost var leaked: nat

    predicate Shaped()
      reads this
    {
      && (worker.None? <==> at.AtHead? || at.Returned? || at.Panicked?)
      && (req.Some? <==> at.AtSend? || at.AtDone?)
    }

    function Phase(): Phase
      reads this
      requires Shaped()
    {
      match at
      case AtHead => Vacant
      case AtReady => Booting(worker.value)
      case AtSelect => Ready(worker.value)
      case AtSend => Sending(worker.value, req.value)
      case AtDone => Running(worker.value, req.value)
      case AtJoin(exit) => Terminating(worker.value, exit)
      case Returned => Exited
      case Panicked => Crashed
    }

    ghost function Abs(): Slot
      reads this, slot
      requires Shaped()
    {
      Slot(inbox, Phase(), slot.Abs(), bootGeneration, seen, taken, completed, reloadRecycles, jobRecycles,
           spawned, retired, leaked)
    }

    /** The worker is there exactly when the slot's own record says so, under the same id. */
    ghost predicate Valid()
      reads this, slot
    {
      Shaped() && Agrees(Abs())
    }

    constructor ()
      ensures Valid() && Abs() == NEW_SLOT && fresh(slot)
    {
      at, inbox, worker, req := AtHead, [], None, None;
      slot := new SlotInfo();
      bootGeneration, seen := 0, 0;
      taken, completed, reloadRecycles, jobRecycles := {}, 0, 0, 0;
      spawned, retired, leaked := 0, 0, 0;
    }

    /** Loop head without a worker: note the generation, then ask the runtime for one. */
    method Spawn(spawn: Option<(nat, bool)>, a: Ambient)
      requires Valid() && at == AtHead
      modifies this
      ensures Valid() && slot == old(slot)
      ensures Abs() == Apply(old(Abs()), if spawn.Some? then Spawns(spawn.value.0, spawn.value.1) else SpawnFails, a)
    {
      hide Next, CanStep, Signals, DropsDone, AfterRequest;
      bootGeneration := a.generation;
      if spawn.Some? {
        var (id, recyclable) := spawn.value;
        worker := Some(Worker(id, recyclable, true, {}, Init(id)));
        spawned := spawned + 1;
        at := AtReady;
      }
    }

    method Boot(ready: bool, a: Ambient)
      requires Valid() && at == AtReady
      modifies this, slot
      ensures Valid() && slot == old(slot)
      ensures Abs() == Apply(old(Abs()), if ready then BootSucceeds else BootFails, a)
    {
      hide Next, CanStep, Signals, DropsDone, AfterRequest;
      if ready {
        slot.MarkReady(worker.value.id);
        at := AtSelect;
      } else {
        at := AtJoin(false);
      }
    }

    /** One poll of the biased select, when one of its arms has something to say. */
    method Select(a: Ambient)
      requires Valid() && at == AtSelect && Can(Abs(), Arm(Abs(), a), a)
      modifies this, slot
      ensures Valid() && slot == old(slot)
      ensures Abs() == Apply(old(Abs()), Arm(old(Abs()), a), a)
    {
      hide Next, CanStep, Signals, DropsDone, AfterRequest;
      var recyclable := worker.value.recyclable;
      if recyclable && a.generation > seen {
        seen := a.generation;
        if a.generation > bootGeneration {
          reloadRecycles := reloadRecycles + 1;
          at := AtJoin(false);
        }
        return;
      }
      if recyclable && a.closing {
        at := AtJoin(true);
        return;
      }
      if inbox == [] {
        at := AtJoin(true);
        return;
      }
      req := Some(inbox[0]);
      inbox := inbox[1..];
      taken := taken + {req.value.id};
      slot.MarkBusy();
      at := AtSend;
    }

    /** The blocking send into the worker's task channel. */
    method Submit(a: Ambient)
      requires Valid() && at == AtSend && Can(Abs(), Submits, a)
      modifies this
      ensures Valid() && slot == old(slot) && Abs() == Apply(old(Abs()), Submits, a)
    {
      hide Next, CanStep, Signals, DropsDone, AfterRequest;
      var w := worker.value;
      if w.alive {
        worker := Some(Enqueued(w, req.value));
      }
      at := AtDone;
    }

    method Terminate(exit: bool)
      requires Shaped() && at == AtSelect
      modifies `at
      ensures at == AtJoin(exit)
    {
      at := AtJoin(exit);
    }

    /** The permit is gone: the slot is idle again and has one more job behind it. */
    method GoIdle(how: Ending)
      requires Valid() && at == AtDone
      modifies this, slot
      ensures Valid() && slot == old(slot)
      ensures Abs() == old(Abs()).(phase := Ready(Marked(old(worker).value, how, old(req).value.id)),
                                   info := Idled(old(slot.Abs())), completed := old(completed) + 1)
    {
      hide Next;
      worker := Some(Marked(worker.value, how, req.value.id));
      req := None;
      slot.MarkIdle();
      completed := completed + 1;
      at := AtSelect;
    }

    /** The done signal, its loss, or the timeout: the permit goes, then the worker may. This is the move `Finishes`. */
    method Finish(how: Ending, expired: bool, a: Ambient)
      requires Valid() && at == AtDone
      modifies this, slot
      ensures Valid() && slot == old(slot)
      ensures Abs() == AfterRequest(old(Abs()), Marked(old(worker).value, how, old(req).value.id), a, expired)
    {
      hide Next;
      GoIdle(how);
      var reloadPending := a.generation > bootGeneration;
      var policy := slot.ShouldRecycle(a.maxJobs, expired);
      if reloadPending || policy {
        if !worker.value.recyclable {
          return;
        }
        if reloadPending {
          reloadRecycles := reloadRecycles + 1;
        } else {
          jobRecycles := jobRecycles + 1;
        }
        Terminate(false);
      }
    }

    /** The terminated worker's thread is gone: start over with a new slot record, or return. */
    method Join(a: Ambient)
      requires Valid() && at.AtJoin? && Can(Abs(), Joins, a)
      modifies this
      ensures Valid() && Abs() == Apply(old(Abs()), Joins, a)
      ensures slot == old(slot) || fresh(slot)
    {
      hide Next, CanStep, Signals, DropsDone, AfterRequest;
      var exit := at.exit;
      worker := None;
      retired := retired + 1;
      if exit {
        inbox := [];
        at := Returned;
      } else {
        slot := new SlotInfo();
        at := AtHead;
      }
    }
  }

}
