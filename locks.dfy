/**
 * The door lock and the charge-port lock of a vehicle (`Lock` and `ChargerLock` in
 * teslajsonpy/lock.py). Each keeps a cached lock state, True, False or unknown (None),
 * and the time of its last manual write. A poll overwrites the cache only when it is
 * not older than that write; lock and unlock send a command only when the cache
 * disagrees with the target, change the cache only on a confirmed reply, and always
 * stamp the manual-write time.
 */
module Locks {
  import opened Wrappers
  import opened Controller

  const DOOR_LOCK := "door_lock"
  const DOOR_UNLOCK := "door_unlock"
  const CHARGE_PORT_DOOR_CLOSE := "charge_port_door_close"
  const CHARGE_PORT_DOOR_OPEN := "charge_port_door_open"

  /** What a lock adapter caches: its lock state and the time of its last manual write. */
  datatype LockCache = LockCache(lockState: Option<bool>, manualTime: int)

  /** Both adapters start out "unlocked" (not unknown) with manual-write time 0. */
  const INITIAL: LockCache := LockCache(Some(false), 0)

  /** Python truthiness of a cached state: only True is truthy, False and None are not. */
  predicate IsTruthy(state: Option<bool>)
  {
    state == Some(true)
  }

  /** Lock sends a command unless the cached state is truthy. */
  predicate NeedsLock(c: LockCache)
  {
    !IsTruthy(c.lockState)
  }

  /** Unlock sends a command only when the cached state is truthy. */
  predicate NeedsUnlock(c: LockCache)
  {
    IsTruthy(c.lockState)
  }

  /** The cache after a poll at `lastUpdate` whose snapshot gives the state `derived`. */
  function Polled(c: LockCache, lastUpdate: int, derived: Option<bool>): (r: LockCache)
    ensures r.manualTime == c.manualTime
    ensures lastUpdate >= c.manualTime ==> r.lockState == derived
    ensures lastUpdate < c.manualTime ==> r == c
  {
    if lastUpdate >= c.manualTime then c.(lockState := derived) else c
  }

  /** The cache after `lock()` at time `now`, the command (if sent) answering `result`. */
  function Engaged(c: LockCache, result: CommandResult, now: int): (r: LockCache)
    ensures !NeedsLock(c) ==> r == c
    ensures NeedsLock(c) ==> r.manualTime == now
    ensures NeedsLock(c) ==> (IsTruthy(r.lockState) <==> Confirmed(result))
    ensures !Confirmed(result) ==> r.lockState == c.lockState
  {
    if !NeedsLock(c) then c
    else LockCache(if Confirmed(result) then Some(true) else c.lockState, now)
  }

  /** The cache after `unlock()` at time `now`, the command (if sent) answering `result`. */
  function Disengaged(c: LockCache, result: CommandResult, now: int): (r: LockCache)
    ensures !NeedsUnlock(c) ==> r == c
    ensures NeedsUnlock(c) ==> r.manualTime == now
    ensures NeedsUnlock(c) ==> (r.lockState == Some(false) <==> Confirmed(result))
    ensures NeedsUnlock(c) && !Confirmed(result) ==> r.lockState == Some(true)
  {
    if !NeedsUnlock(c) then c
    else LockCache(if Confirmed(result) then Some(false) else c.lockState, now)
  }

  /** The part of `get_state_params` the door lock reads. */
  datatype StateParams = StateParams(locked: bool)

  /** The part of `get_charging_params` the charger lock reads. */
  datatype ChargingParams = ChargingParams(chargePortDoorOpen: bool, chargePortLatch: string)

  /** The door lock takes the snapshot's `locked` field, or unknown without a snapshot. */
  function DoorLockState(data: Option<StateParams>): (r: Option<bool>)
    ensures r == None <==> data == None
    ensures data.Some? ==> r == Some(data.value.locked)
  {
    match data
    case None => None
    case Some(p) => Some(p.locked)
  }

  /**
   * The charger lock is locked unless the port door is open with a latch that is not
   * engaged: a closed port door is locked whatever the latch says; an open one is locked exactly when the latch is
   * "Engaged"; no snapshot gives an unknown state.
   */
  function ChargerLockState(data: Option<ChargingParams>): (r: Option<bool>)
    ensures r == None <==> data == None
    ensures data.Some? && !data.value.chargePortDoorOpen ==> r == Some(true)
    ensures data.Some? && data.value.chargePortDoorOpen ==>
              (r == Some(true) <==> data.value.chargePortLatch == "Engaged")
  {
    match data
    case None => None
    case Some(p) => Some(!(p.chargePortDoorOpen && p.chargePortLatch != "Engaged"))
  }

  /** One call on a lock adapter, with what the controller answered it. */
  datatype Call =
    | Poll(lastUpdate: int, derived: Option<bool>)
    | LockCall(result: CommandResult, now: int)
    | UnlockCall(result: CommandResult, now: int)

  function Step(c: LockCache, call: Call): LockCache
  {
    match call
    case Poll(t, d) => Polled(c, t, d)
    case LockCall(res, now) => Engaged(c, res, now)
    case UnlockCall(res, now) => Disengaged(c, res, now)
  }

  /** The number of commands (0 or 1) a call sends from cache `c`. */
  function Issued(c: LockCache, call: Call): nat
  {
    match call
    case Poll(_, _) => 0
    case LockCall(_, _) => if NeedsLock(c) then 1 else 0
    case UnlockCall(_, _) => if NeedsUnlock(c) then 1 else 0
  }

  /** The cache after a sequence of calls. */
  function Run(c: LockCache, calls: seq<Call>): LockCache
    decreases |calls|
  {
    if calls == [] then c else Run(Step(c, calls[0]), calls[1..])
  }

  /** The number of commands a sequence of calls sends. */
  function Commands(c: LockCache, calls: seq<Call>): nat
    decreases |calls|
  {
    if calls == [] then 0 else Issued(c, calls[0]) + Commands(Step(c, calls[0]), calls[1..])
  }

  /** Polls older than the last manual write change nothing, however many arrive. */
  lemma {:induction false} StalePollsPreserve(c: LockCache, calls: seq<Call>)
    requires forall i :: 0 <= i < |calls| ==> calls[i].Poll? && calls[i].lastUpdate < c.manualTime
    ensures Run(c, calls) == c
    ensures Commands(c, calls) == 0
    decreases |calls|
  {
    if calls != [] {
      StalePollsPreserve(Step(c, calls[0]), calls[1..]);
    }
  }

  /** Once locked, any number of further lock calls send nothing and change nothing. */
  lemma {:induction false} RepeatedLocksAreSilent(c: LockCache, calls: seq<Call>)
    requires IsTruthy(c.lockState)
    requires forall i :: 0 <= i < |calls| ==> calls[i].LockCall?
    ensures Run(c, calls) == c
    ensures Commands(c, calls) == 0
    decreases |calls|
  {
    if calls != [] {
      RepeatedLocksAreSilent(Step(c, calls[0]), calls[1..]);
    }
  }

  /** From False or unknown, any number of unlock calls send nothing and change nothing. */
  lemma {:induction false} RepeatedUnlocksAreSilent(c: LockCache, calls: seq<Call>)
    requires !IsTruthy(c.lockState)
    requires forall i :: 0 <= i < |calls| ==> calls[i].UnlockCall?
    ensures Run(c, calls) == c
    ensures Commands(c, calls) == 0
    decreases |calls|
  {
    if calls != [] {
      RepeatedUnlocksAreSilent(Step(c, calls[0]), calls[1..]);
    }
  }

  /**
   * The race the manual-write stamp guards against: a confirmed lock at `now`,
   * followed by polls that were taken before `now`, leaves the adapter locked, and
   * only the lock itself sent a command.
   */
  lemma ConfirmedLockSurvivesStalePolls(c: LockCache, result: CommandResult, now: int, polls: seq<Call>)
    requires NeedsLock(c) && Confirmed(result)
    requires forall i :: 0 <= i < |polls| ==> polls[i].Poll? && polls[i].lastUpdate < now
    ensures Run(c, [LockCall(result, now)] + polls) == LockCache(Some(true), now)
    ensures Commands(c, [LockCall(result, now)] + polls) == 1
  {
    var calls := [LockCall(result, now)] + polls;
    assert calls[1..] == polls;
    StalePollsPreserve(Engaged(c, result, now), polls);
  }

  /** The same guard for unlock. */
  lemma ConfirmedUnlockSurvivesStalePolls(c: LockCache, result: CommandResult, now: int, polls: seq<Call>)
    requires NeedsUnlock(c) && Confirmed(result)
    requires forall i :: 0 <= i < |polls| ==> polls[i].Poll? && polls[i].lastUpdate < now
    ensures Run(c, [UnlockCall(result, now)] + polls) == LockCache(Some(false), now)
    ensures Commands(c, [UnlockCall(result, now)] + polls) == 1
  {
    var calls := [UnlockCall(result, now)] + polls;
    assert calls[1..] == polls;
    StalePollsPreserve(Disengaged(c, result, now), polls);
  }

  /** The vehicle's door lock (`Lock`). */
  class DoorLock {
    var lockState: Option<bool>
    var manualTime: int
    /** How many commands this adapter has sent to the controller. */
    ghost var commandsIssued: nat

    function Cache(): LockCache
      reads this
    {
      LockCache(lockState, manualTime)
    }

    constructor ()
      ensures Cache() == INITIAL
      ensures commandsIssued == 0
    {
      lockState := Some(false);
      manualTime := 0;
      commandsIssued := 0;
    }

    /** `async_update`: the controller's last poll time and its state snapshot are inputs. */
    method Update(lastUpdate: int, data: Option<StateParams>)
      modifies this
      ensures Cache() == Polled(old(Cache()), lastUpdate, DoorLockState(data))
      ensures commandsIssued == old(commandsIssued)
    {
      if lastUpdate >= manualTime {
        lockState := if data.Some? then Some(data.value.locked) else None;
      }
    }

    /** `lock`: returns the command it sends, if any; `result` is the controller's reply. */
    method Lock(result: CommandResult, now: int) returns (sent: Option<string>)
      modifies this
      ensures sent == (if NeedsLock(old(Cache())) then Some(DOOR_LOCK) else None)
      ensures Cache() == Engaged(old(Cache()), result, now)
      ensures commandsIssued == old(commandsIssued) + Issued(old(Cache()), LockCall(result, now))
    {
      sent := None;
      if lockState != Some(true) {
        sent := Some(DOOR_LOCK);
        commandsIssued := commandsIssued + 1;
        if result == Some(true) {
          lockState := Some(true);
        }
        manualTime := now;
      }
    }

    /** `unlock`: returns the command it sends, if any; `result` is the controller's reply. */
    method Unlock(result: CommandResult, now: int) returns (sent: Option<string>)
      modifies this
      ensures sent == (if NeedsUnlock(old(Cache())) then Some(DOOR_UNLOCK) else None)
      ensures Cache() == Disengaged(old(Cache()), result, now)
      ensures commandsIssued == old(commandsIssued) + Issued(old(Cache()), UnlockCall(result, now))
    {
      sent := None;
      if lockState == Some(true) {
        sent := Some(DOOR_UNLOCK);
        commandsIssued := commandsIssued + 1;
        if result == Some(true) {
          lockState := Some(false);
        }
        manualTime := now;
      }
    }

    method IsLocked() returns (state: Option<bool>)
      ensures state == lockState
    {
      state := lockState;
    }
  }

  /** The vehicle's charge-port door (`ChargerLock`). */
  class ChargerLock {
    var lockState: Option<bool>
    var manualTime: int
    /** How many commands this adapter has sent to the controller. */
    ghost var commandsIssued: nat

    function Cache(): LockCache
      reads this
    {
      LockCache(lockState, manualTime)
    }

    constructor ()
      ensures Cache() == INITIAL
      ensures commandsIssued == 0
    {
      lockState := Some(false);
      manualTime := 0;
      commandsIssued := 0;
    }

    /** `async_update`: the controller's last poll time and its charging snapshot are inputs. */
    method Update(lastUpdate: int, data: Option<ChargingParams>)
      modifies this
      ensures Cache() == Polled(old(Cache()), lastUpdate, ChargerLockState(data))
      ensures commandsIssued == old(commandsIssued)
    {
      if lastUpdate >= manualTime {
        lockState :=
          if data.Some?
          then Some(!(data.value.chargePortDoorOpen && data.value.chargePortLatch != "Engaged"))
          else None;
      }
    }

    /** `lock` closes the port door. */
    method Lock(result: CommandResult, now: int) returns (sent: Option<string>)
      modifies this
      ensures sent == (if NeedsLock(old(Cache())) then Some(CHARGE_PORT_DOOR_CLOSE) else None)
      ensures Cache() == Engaged(old(Cache()), result, now)
      ensures commandsIssued == old(commandsIssued) + Issued(old(Cache()), LockCall(result, now))
    {
      sent := None;
      if lockState != Some(true) {
        sent := Some(CHARGE_PORT_DOOR_CLOSE);
        commandsIssued := commandsIssued + 1;
        if result == Some(true) {
          lockState := Some(true);
        }
        manualTime := now;
      }
    }

    /** `unlock` opens the port door. */
    method Unlock(result: CommandResult, now: int) returns (sent: Option<string>)
      modifies this
      ensures sent == (if NeedsUnlock(old(Cache())) then Some(CHARGE_PORT_DOOR_OPEN) else None)
      ensures Cache() == Disengaged(old(Cache()), result, now)
      ensures commandsIssued == old(commandsIssued) + Issued(old(Cache()), UnlockCall(result, now))
    {
      sent := None;
      if lockState == Some(true) {
        sent := Some(CHARGE_PORT_DOOR_OPEN);
        commandsIssued := commandsIssued + 1;
        if result == Some(true) {
          lockState := Some(false);
        }
        manualTime := now;
      }
    }

    method IsLocked() returns (state: Option<bool>)
      ensures state == lockState
    {
      state := lockState;
    }
  }

  /**
   * A poll at time 5 reports the doors unlocked; a lock at `now` sends "door_lock",
   * the controller confirms it, and the adapter then reports locked with its
   * manual-write time at the lock's time, no earlier than the poll.
   */
  method LockAfterPollScenario(now: int) returns (before: Option<bool>, sent: Option<string>, after: Option<bool>, stamped: int)
    requires now >= 5
    ensures before == Some(false)
    ensures sent == Some(DOOR_LOCK)
    ensures after == Some(true)
    ensures stamped == now && stamped >= 5
  {
    var lock := new DoorLock();
    lock.Update(5, Some(StateParams(false)));
    before := lock.IsLocked();
    sent := lock.Lock(Some(true), now);
    after := lock.IsLocked();
    stamped := lock.manualTime;
  }

  /**
   * Charge-port snapshots: a closed door reads locked whatever the latch says, an open
   * door with an engaged latch reads locked, an open door with a disengaged latch reads
   * unlocked, and a missing snapshot reads unknown.
   */
  method ChargerSnapshotScenario(latch: string) returns (closed: Option<bool>, engaged: Option<bool>, disengaged: Option<bool>, missing: Option<bool>)
    ensures closed == Some(true)
    ensures engaged == Some(true)
    ensures disengaged == Some(false)
    ensures missing == None
  {
    var charger := new ChargerLock();
    charger.Update(0, Some(ChargingParams(false, latch)));
    closed := charger.IsLocked();
    charger.Update(0, Some(ChargingParams(true, "Engaged")));
    engaged := charger.IsLocked();
    charger.Update(0, Some(ChargingParams(true, "Disengaged")));
    disengaged := charger.IsLocked();
    charger.Update(0, None);
    missing := charger.IsLocked();
  }
}
