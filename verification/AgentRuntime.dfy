// The controller of the bot runtime (internal/control/agent_runtime.go): its fields and the
// critical sections that change them.
module AgentRuntime {
  import opened Prelude

  datatype BotState = Stopped | Starting | Running | Stopping | Failed

  /** Runs are numbered as they are launched. */
  type RunId = nat

  /** What mu guards. A revision of 0 means that none is active. */
  datatype Fields = Fields(run: Option<RunId>, state: BotState, activeRev: nat, failed: bool, closed: bool)

  const CREATED := Fields(None, Stopped, 0, false, false)

  /** launch installs a new run, unless the controller is closing. */
  function Installed(f: Fields, run: RunId): Fields {
    if f.closed then f else f.(run := Some(run), state := Starting, activeRev := 0, failed := false)
  }

  /** launch saw the run start. */
  function Started(f: Fields, run: RunId, revision: nat): Fields {
    if f.run == Some(run) && f.state == Starting then f.(state := Running, activeRev := revision) else f
  }

  /** runAgent's run returned; a clean or cancelled return during a stop is no failure. */
  function Ended(f: Fields, run: RunId, clean: bool, cancelled: bool): Fields {
    if f.run != Some(run) then f
    else if (f.state == Stopping || f.closed) && (clean || cancelled) then f.(run := None, activeRev := 0, state := Stopped, failed := false)
    else f.(run := None, activeRev := 0, state := Failed, failed := true)
  }

  /** detachRunLocked. */
  function Detached(f: Fields): Fields {
    if f.run == None then if f.state == Failed then f else f.(state := Stopped, activeRev := 0)
    else f.(state := Stopping, activeRev := 0)
  }

  /** The run WithChatActions lets an action use. */
  function Admitted(f: Fields): Option<RunId> {
    if f.closed || f.state != Running then None else f.run
  }

  class AgentController {
    var run: Option<RunId>
    var state: BotState
    var activeRev: nat
    var failed: bool
    var closed: bool

    constructor ()
      ensures All() == CREATED
    {
      run, state, activeRev, failed, closed := None, Stopped, 0, false, false;
    }

    function All(): Fields
      reads this
    {
      Fields(run, state, activeRev, failed, closed)
    }

    method Install(id: RunId) returns (ok: bool)
      modifies this
      ensures All() == Installed(old(All()), id) && ok == !old(closed)
    {
      if closed {
        return false;
      }
      run, state, activeRev, failed := Some(id), Starting, 0, false;
      return true;
    }

    method MarkStarted(id: RunId, revision: nat)
      modifies this
      ensures All() == Started(old(All()), id, revision)
    {
      if run == Some(id) && state == Starting {
        state, activeRev := Running, revision;
      }
    }

    method RunEnded(id: RunId, clean: bool, cancelled: bool)
      modifies this
      ensures All() == Ended(old(All()), id, clean, cancelled)
    {
      if run == Some(id) {
        var stopping := state == Stopping || closed;
        run, activeRev := None, 0;
        if stopping && (clean || cancelled) {
          state, failed := Stopped, false;
        } else {
          state, failed := Failed, true;
        }
      }
    }

    method DetachRunLocked() returns (detached: Option<RunId>)
      modifies this
      ensures All() == Detached(old(All())) && detached == old(run)
    {
      if run == None {
        if state != Failed {
          state, activeRev := Stopped, 0;
        }
        return None;
      }
      state, activeRev := Stopping, 0;
      return run;
    }

    /** The first half of Close. */
    method CloseLocked() returns (detached: Option<RunId>)
      modifies this
      ensures All() == Detached(old(All()).(closed := true)) && detached == old(run)
    {
      closed := true;
      detached := DetachRunLocked();
    }

    method Admit() returns (admitted: Option<RunId>)
      ensures admitted == Admitted(All())
    {
      if closed || run == None || state != Running {
        return None;
      }
      return run;
    }
  }
}
