/** Per-slot bookkeeping of the supervisor; the age that `ttl` looks at is an input. */
module SlotInfo {

  import opened Wrappers

  datatype SlotState = Spawning | Idle | Busy | Stopping | Dead

  datatype Info = Info(state: SlotState, pid: Option<nat>, jobsHandled: nat)

  const NEW_INFO := Info(Spawning, None, 0)

  function Recycles(info: Info, maxJobs: nat, expired: bool): bool {
    info.jobsHandled >= maxJobs || expired
  }

  function Readied(info: Info, pid: nat): Info {
    info.(state := Idle, pid := Some(pid))
  }

  function Busied(info: Info): Info {
    info.(state := Busy)
  }

  function Idled(info: Info): Info {
    info.(jobsHandled := info.jobsHandled + 1, state := if info.state == Busy then Idle else info.state)
  }

  /** The three `mark_` methods require what their debug assertions check. */
  class SlotInfo {
    var state: SlotState
    var pid: Option<nat>
    var jobsHandled: nat

    function Abs(): Info
      reads this
    {
      Info(state, pid, jobsHandled)
    }

    constructor ()
      ensures Abs() == NEW_INFO
    {
      state, pid, jobsHandled := Spawning, None, 0;
    }

    method ShouldRecycle(maxJobs: nat, expired: bool) returns (yes: bool)
      ensures yes <==> Recycles(Abs(), maxJobs, expired)
    {
      if jobsHandled >= maxJobs {
        return true;
      }
      if expired {
        return true;
      }
      return false;
    }

    method MarkReady(pid: nat)
      requires state == Spawning
      modifies this
      ensures Abs() == Readied(old(Abs()), pid)
    {
      state := Idle;
      this.pid := Some(pid);
    }

    method MarkBusy()
      requires state == Idle
      modifies this
      ensures Abs() == Busied(old(Abs()))
    {
      state := Busy;
    }

    method MarkIdle()
      requires state == Busy || state == Stopping
      modifies this
      ensures Abs() == Idled(old(Abs()))
    {
      jobsHandled := jobsHandled + 1;
      if state == Busy {
        state := Idle;
      }
    }
  }

}
