# Vehicle lock and seat-heater adapters

This project models the adapters in teslajsonpy that turn remote vehicle commands into
small stateful objects for a home-automation platform. There are three of them: the
door lock, the charge-port lock and a seat heater. Each adapter caches a piece of
vehicle state and the time of its last manual write.

- A poll from the controller overwrites the cache only when it is not older than that
  write.
- The two locks suppress redundant commands: `lock` and `unlock` send a command only
  when the cached state disagrees with the target.
- The seat heater sends its command on every `set_value` call whose seat name is known,
  without comparing against the cached level.
- The cache changes only when the controller confirms the command. The manual-write
  time is stamped only after a command was sent and nothing raised.

The controller is not part of this model. Its answers are parameters of the methods:
the last poll time, the poll snapshot (`None` when there is none) and the command
reply (`None` when missing, otherwise how truthy its result is). Wall-clock time is an
integer parameter `now`.

Modules:

- `Wrappers`: `Option`.
- `Controller`: the command reply and what counts as confirmed.
- `Locks` (teslajsonpy/lock.py):
  - pure transitions `Polled`, `Engaged` and `Disengaged` on a `LockCache`;
  - the snapshot functions `DoorLockState` and `ChargerLockState`;
  - the classes `DoorLock` and `ChargerLock`, whose methods change `lockState` and
    `manualTime`, with a ghost counter of the commands sent;
  - lemmas over sequences of calls (`Run`, `Commands`).
- `HeatedSeats` (teslajsonpy/homeassistant/heated_seats.py):
  - the two constant tables and the unused numeric-level list;
  - the transitions `Refreshed` and `SetValueEffectOf`;
  - the class `HeatedSeat`.

The model follows the code as written:

- Both locks start in the state False, not unknown (lock.py:37, :109).
- A seat refresh without a snapshot caches False, not unknown (heated_seats.py:89).
- `set_value` sends the `level` argument as it was passed (heated_seats.py:102). It
  does not translate a symbolic name to its number. The list it builds by that
  translation (:97) is never used. After a confirmed reply it looks `level` up as a
  numeric key (:106).
- Python does not fix the type of `level`, so the model takes either an integer or a
  string (`LevelArg`). `NumericLevelMissesHeatLookup` proves that no argument serves both
  :97 and :106.
- The two lookups in `set_value` can raise `KeyError`: the seat name at :102 and the
  level at :106. They are modelled as outcomes, not preconditions, because the source
  does not check them. A raise skips the time stamp.

## Model

| member | source | states |
|---|---|---|
| `Locks.DoorLock.constructor` | teslajsonpy/lock.py:36-37 | a new door lock has state False (not unknown), manual time 0 and no commands sent |
| `Locks.ChargerLock.constructor` | teslajsonpy/lock.py:108-109 | a new charger lock has state False, manual time 0 and no commands sent |
| `Locks.Polled` | teslajsonpy/lock.py:50-53 | a poll at or after the manual time sets the state to what the snapshot gives; an older poll changes nothing; the manual time is never touched |
| `Locks.DoorLockState` | teslajsonpy/lock.py:52-53 | the door state is the snapshot's `locked` value, and unknown exactly when there is no snapshot |
| `Locks.ChargerLockState` | teslajsonpy/lock.py:124-132 | unknown exactly when there is no snapshot; a closed port door is locked whatever the latch; an open one is locked iff the latch is "Engaged" |
| `Locks.Engaged` | teslajsonpy/lock.py:57-63 | from True, lock changes nothing; from False or unknown it stamps `now`, and the state becomes True iff the reply is confirmed, staying as it was otherwise |
| `Locks.Disengaged` | teslajsonpy/lock.py:67-73 | from False or unknown, unlock changes nothing; from True it stamps `now` and the state becomes False iff the reply is confirmed, staying True otherwise |
| `Locks.DoorLock.Update` | teslajsonpy/lock.py:47-53 | the new cache is the poll transition applied to the door snapshot; no command is sent |
| `Locks.DoorLock.Lock` | teslajsonpy/lock.py:55-63 | sends "door_lock" exactly when the cached state is not True, counts that one command, and leaves the cache as `Engaged` gives |
| `Locks.DoorLock.Unlock` | teslajsonpy/lock.py:65-73 | sends "door_unlock" exactly when the cached state is True, counts that one command, and leaves the cache as `Disengaged` gives |
| `Locks.DoorLock.IsLocked` | teslajsonpy/lock.py:75-77 | returns the cached state and changes nothing |
| `Locks.ChargerLock.Update` | teslajsonpy/lock.py:119-132 | the new cache is the poll transition applied to the charger state of the snapshot; no command is sent |
| `Locks.ChargerLock.Lock` | teslajsonpy/lock.py:134-142 | sends "charge_port_door_close" exactly when the cached state is not True; the cache follows `Engaged` |
| `Locks.ChargerLock.Unlock` | teslajsonpy/lock.py:144-152 | sends "charge_port_door_open" exactly when the cached state is True; the cache follows `Disengaged` |
| `Locks.ChargerLock.IsLocked` | teslajsonpy/lock.py:154-156 | returns the cached state and changes nothing |
| `Locks.StalePollsPreserve` | teslajsonpy/lock.py:50-53 | any number of polls older than the manual time leave the cache unchanged and send nothing |
| `Locks.RepeatedLocksAreSilent` | teslajsonpy/lock.py:57-63 | once locked, any number of lock calls send no command and change nothing |
| `Locks.RepeatedUnlocksAreSilent` | teslajsonpy/lock.py:67-73 | from False or unknown, any number of unlock calls send no command and change nothing |
| `Locks.ConfirmedLockSurvivesStalePolls` | teslajsonpy/lock.py:51-63 | a confirmed lock at `now` followed by polls older than `now` ends locked with manual time `now`, after exactly one command |
| `Locks.ConfirmedUnlockSurvivesStalePolls` | teslajsonpy/lock.py:51-73 | a confirmed unlock at `now` followed by polls older than `now` ends unlocked with manual time `now`, after exactly one command |
| `Locks.LockAfterPollScenario` | teslajsonpy/lock.py:47-77 | a poll at time 5 reporting unlocked gives False; lock then sends "door_lock", and a confirmed reply gives True with a manual time of at least 5 |
| `Locks.ChargerSnapshotScenario` | teslajsonpy/lock.py:119-156 | door closed gives locked for any latch; open with "Engaged" gives locked; open with "Disengaged" gives unlocked; no snapshot gives unknown |
| `HeatedSeats.SeatIdMapShape` | teslajsonpy/homeassistant/heated_seats.py:14-20 | the seat table maps its five seat names one-to-one onto heater indices {0,1,2,4,5}; index 3 is unused |
| `HeatedSeats.SeatHeatMapShape` | teslajsonpy/homeassistant/heated_seats.py:22-27 | the heat table maps the keys {0,1,2,3} one-to-one onto Off, Low, Medium, High |
| `HeatedSeats.SeatHeatItemsListTable` | teslajsonpy/homeassistant/heated_seats.py:22-27 | the item sequence holds exactly the heat table's pairs: the pair for level i is at position i |
| `HeatedSeats.KeysWithValue` | teslajsonpy/homeassistant/heated_seats.py:97 | a key is in the result iff some item has that key and a name equal to the argument; the result is no longer than the items |
| `HeatedSeats.NumericLevelInverts` | teslajsonpy/homeassistant/heated_seats.py:97 | for every level in the heat table, the numeric list of its name is exactly that level |
| `HeatedSeats.NumericLevelOfUnknownName` | teslajsonpy/homeassistant/heated_seats.py:97 | a name that is not in the heat table gives the empty list |
| `HeatedSeats.NumericLevelMissesHeatLookup` | teslajsonpy/homeassistant/heated_seats.py:97-106 | the numeric list is non-empty exactly for the names in the heat table, and every argument that the heat lookup accepts gives the empty list |
| `HeatedSeats.Any` | teslajsonpy/homeassistant/heated_seats.py:81-88 | true iff some element of the list is non-zero |
| `HeatedSeats.SeatsOn` | teslajsonpy/homeassistant/heated_seats.py:80-90 | on iff some of the five heaters in the snapshot is on; off without a snapshot |
| `HeatedSeats.Refreshed` | teslajsonpy/homeassistant/heated_seats.py:77-90 | a poll at or after the manual time sets "seats are on" from the snapshot; an older poll changes nothing; level and manual time are never touched |
| `HeatedSeats.SetValueEffectOf` | teslajsonpy/homeassistant/heated_seats.py:92-107 | see the list below the table |
| `HeatedSeats.StaleRefreshesPreserve` | teslajsonpy/homeassistant/heated_seats.py:77-90 | any number of refreshes from polls older than the manual time leave the cache unchanged |
| `HeatedSeats.ConfirmedSetSurvivesStaleRefreshes` | teslajsonpy/homeassistant/heated_seats.py:78-107 | after a confirmed, non-raising `set_value` at `now`, refreshes older than `now` keep the level's name, the "seats are on" flag and the manual time `now` |
| `HeatedSeats.HeatedSeat.constructor` | teslajsonpy/homeassistant/heated_seats.py:52-55 | a new adapter as written has seats off, no level, manual time 0 and no seat name |
| `HeatedSeats.HeatedSeat.ForSeat` | teslajsonpy/homeassistant/heated_seats.py:55 | the corrected initialiser: the same initial cache, and the seat name it is given |
| `HeatedSeats.HeatedSeat.Refresh` | teslajsonpy/homeassistant/heated_seats.py:71-90 | the new cache is `Refreshed` of the old one |
| `HeatedSeats.HeatedSeat.SetValue` | teslajsonpy/homeassistant/heated_seats.py:92-107 | the climate switch-on, the request sent, the exception raised and the new cache are exactly `SetValueEffectOf` of the old cache |
| `HeatedSeats.HeatedSeat.GetValue` | teslajsonpy/homeassistant/heated_seats.py:109-111 | returns the "seats are on" flag, not the level, and changes nothing |
| `HeatedSeats.NewSeatCannotSetValue` | teslajsonpy/homeassistant/heated_seats.py:55-102 | on a new adapter as written, `set_value` may switch the climate system on but always raises at the seat lookup, sends nothing and leaves the manual time at 0 |
| `HeatedSeats.HighOnNamedSeatScenario` | teslajsonpy/homeassistant/heated_seats.py:92-107 | on the left seat with climate off, level 3 switches climate on, sends heater 0 with level 3, and a confirmed reply caches "High" |
| `HeatedSeats.SymbolicLevelScenario` | teslajsonpy/homeassistant/heated_seats.py:97-107 | passing "High" sends "High" itself, and a confirmed reply raises at the level lookup, keeping the level and the manual time |
| `HeatedSeats.RefreshScenario` | teslajsonpy/homeassistant/heated_seats.py:77-111 | a fresh snapshot with one heater on reads on; a fresh poll with no snapshot reads off |

`SetValueEffectOf` states the following:

- It enables climate iff HVAC is disabled.
- It sends a request iff the seat name is a key of the seat table. The request carries
  that seat's index and `level` exactly as passed.
- It raises at the seat lookup iff the seat name is unknown.
- It raises at the level lookup iff the reply is confirmed and `level` is not a key of
  the heat table.
- A raise leaves the cache untouched. Otherwise the manual time becomes `now`.
- "Seats are on" never changes.
- The level changes only on a confirmed reply. It then becomes the table name of the
  level.

## Left out

- The device base class (identity, names, its own update and refresh): not part of this model.
- `HeatedSeat.async_update` only calls the base update and then `refresh`, so only `refresh` is modelled.
- The climate adapter is not part of this model. It is reduced to an `hvacEnabled` input
  and an `enableClimate` output. The command that switching it on sends is not modelled.
  `set_value` reads the climate adapter's `is_hvac_enabled` without calling it, and the
  model takes that as the boolean HVAC state. Were it a method rather than a property,
  its negation would always be False and `set_value` would never switch climate on; which
  it is is decided in the climate adapter.
- Levels that are neither integers nor strings are not modelled. Python's lookup in the
  heat table also accepts a bool (`True` finds "Low") or a float equal to a key (`3.0`
  finds "High").
- Controller calls (commands, snapshots, last update time) are foreign I/O. Their results are parameters. The `wake_if_asleep` flag is not modelled.
- A reply that is present but has no `response`/`result` raises `KeyError` in the source. This is not modelled: a reply is either missing or carries a result.
- A snapshot is either missing or complete. An empty dictionary acts like a missing one in the source, and the model uses `None` for both. A snapshot missing a field would raise `KeyError` and is not modelled.
- The snapshot's `locked` and `charge_port_door_open` fields are booleans. The seat heater fields are integers, and "on" means non-zero.
- `async`/`await`: each method is one sequential step.
- `time.time()` is a float wall clock. It is replaced by an integer `now`, and the poll time is an integer too.
- Display metadata and the static capability flag: `type`, `hass_type`, `name`, `uniq_name`, `bin_type`, `sensor_type`, `has_battery`. They are constants with no behaviour.

## Findings

| source | as written | input that shows it | evidently intended | confidence | as-written member | corrected member |
|---|---|---|---|---|---|---|
| teslajsonpy/homeassistant/heated_seats.py:55 | the seat name is set to None and never assigned, so the seat lookup at :102 raises `KeyError` on every `set_value`, after climate may already have been switched on | `set_value(3)` on any newly built heated seat | the adapter is built knowing its seat name, so the command goes to that seat's heater | medium; not executed | `HeatedSeats.NewSeatCannotSetValue` | `HeatedSeats.HeatedSeat.ForSeat` (used by `HeatedSeats.HighOnNamedSeatScenario`) |
