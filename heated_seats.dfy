/**
 * A seat heater of a vehicle (`HeatedSeat` in teslajsonpy/homeassistant/heated_seats.py)
 * and the two fixed tables it uses. The adapter caches whether any seat heater is on,
 * refreshed from the climate snapshot under the same staleness rule as the locks, and
 * the symbolic heat level last set by a confirmed `remote_seat_heater_request`.
 */
module HeatedSeats {
  import opened Wrappers
  import opened Controller

  const REMOTE_SEAT_HEATER_REQUEST := "remote_seat_heater_request"

  /** `seat_id_map`: seat position to the heater index the command expects. */
  const SEAT_ID_MAP: map<string, int> :=
    map["left" := 0, "right" := 1, "rear_left" := 2, "rear_center" := 4, "rear_right" := 5]

  /** `seat_heat_map`: numeric heat level to its symbolic name. */
  const SEAT_HEAT_MAP: map<int, string> := map[0 := "Off", 1 := "Low", 2 := "Medium", 3 := "High"]

  /** `seat_heat_map.items()`, in the dictionary's insertion order. */
  const SEAT_HEAT_ITEMS: seq<(int, string)> := [(0, "Off"), (1, "Low"), (2, "Medium"), (3, "High")]

  /** Five seat names map one-to-one onto the heater indices 0, 1, 2, 4, 5; index 3 is never used. */
  lemma SeatIdMapShape()
    ensures SEAT_ID_MAP.Keys == {"left", "right", "rear_left", "rear_center", "rear_right"}
    ensures SEAT_ID_MAP.Values == {0, 1, 2, 4, 5}
    ensures 3 !in SEAT_ID_MAP.Values
    ensures forall a, b :: a in SEAT_ID_MAP && b in SEAT_ID_MAP && SEAT_ID_MAP[a] == SEAT_ID_MAP[b] ==> a == b
  {
  }

  /** The levels 0..3 map one-to-one onto Off, Low, Medium, High. */
  lemma SeatHeatMapShape()
    ensures SEAT_HEAT_MAP.Keys == {0, 1, 2, 3}
    ensures SEAT_HEAT_MAP.Values == {"Off", "Low", "Medium", "High"}
    ensures forall a, b :: a in SEAT_HEAT_MAP && b in SEAT_HEAT_MAP && SEAT_HEAT_MAP[a] == SEAT_HEAT_MAP[b] ==> a == b
  {
  }

  /** The item list holds exactly the table's pairs, the pair for level i at position i. */
  lemma SeatHeatItemsListTable()
    ensures forall k :: k in SEAT_HEAT_MAP <==> 0 <= k < |SEAT_HEAT_ITEMS|
    ensures forall i :: 0 <= i < |SEAT_HEAT_ITEMS| ==> SEAT_HEAT_ITEMS[i] == (i, SEAT_HEAT_MAP[i])
  {
  }

  /**
   * The `level` argument of `set_value`, as an integer or a string. Python leaves its type open: the command
   * payload carries it as it is, the lookup in the heat table after a confirmed reply
   * needs one of the integer keys, and the comparison against the table's names that
   * builds the unused numeric list needs a string.
   */
  datatype LevelArg = Code(code: int) | Name(name: string)

  /** Python equality between a table name `v` and the argument: a string equals only the same string. */
  predicate SameValue(v: string, level: LevelArg)
  {
    level.Name? && level.name == v
  }

  /** The keys, in item order, of the items whose name equals `level` (the list comprehension of `set_value`). */
  function KeysWithValue(items: seq<(int, string)>, level: LevelArg): (r: seq<int>)
    ensures |r| <= |items|
    ensures forall k :: k in r <==>
              exists i :: 0 <= i < |items| && items[i].0 == k && SameValue(items[i].1, level)
    decreases |items|
  {
    if items == [] then []
    else
      var rest := KeysWithValue(items[1..], level);
      assert forall i :: 0 < i < |items| ==> items[i] == items[1..][i - 1];
      if SameValue(items[0].1, level) then [items[0].0] + rest else rest
  }

  /** The symbolic-to-numeric list `set_value` computes and then leaves unused. */
  function NumericLevel(level: LevelArg): seq<int>
  {
    KeysWithValue(SEAT_HEAT_ITEMS, level)
  }

  /** Looking `level` up in the heat table succeeds. */
  predicate LevelKnown(level: LevelArg)
  {
    level.Code? && level.code in SEAT_HEAT_MAP
  }

  /** Read backwards, the table turns each level's name into exactly that level. */
  lemma NumericLevelInverts(code: int)
    requires code in SEAT_HEAT_MAP
    ensures NumericLevel(Name(SEAT_HEAT_MAP[code])) == [code]
  {
  }

  /** A name that is not in the table gives the empty list. */
  lemma NumericLevelOfUnknownName(name: string)
    requires name !in SEAT_HEAT_MAP.Values
    ensures NumericLevel(Name(name)) == []
  {
    SeatHeatMapShape();
  }

  /**
   * No argument serves both uses: the numeric list is non-empty exactly for the names in
   * the heat table, and whenever looking the argument up in the heat table would succeed,
   * the list computed from the same argument is empty.
   */
  lemma NumericLevelMissesHeatLookup(level: LevelArg)
    ensures NumericLevel(level) != [] <==> level.Name? && level.name in SEAT_HEAT_MAP.Values
    ensures LevelKnown(level) ==> NumericLevel(level) == []
  {
    if level.Name? {
      if level.name in SEAT_HEAT_MAP.Values {
        var code :| code in SEAT_HEAT_MAP && SEAT_HEAT_MAP[code] == level.name;
        NumericLevelInverts(code);
      } else {
        NumericLevelOfUnknownName(level.name);
      }
    }
  }

  /** The part of `get_climate_params` the seat adapter reads: the five heater levels. */
  datatype ClimateParams = ClimateParams(
    seatHeaterLeft: int,
    seatHeaterRight: int,
    seatHeaterRearLeft: int,
    seatHeaterRearCenter: int,
    seatHeaterRearRight: int)

  /** The list that `refresh` hands to `any`. */
  function HeaterFlags(p: ClimateParams): seq<int>
  {
    [p.seatHeaterLeft, p.seatHeaterRight, p.seatHeaterRearLeft, p.seatHeaterRearCenter, p.seatHeaterRearRight]
  }

  /** Python `any` over integers: some element is non-zero. */
  function Any(xs: seq<int>): (r: bool)
    ensures r <==> exists i :: 0 <= i < |xs| && xs[i] != 0
    decreases |xs|
  {
    if xs == [] then false
    else
      assert forall i :: 0 < i < |xs| ==> xs[i] == xs[1..][i - 1];
      xs[0] != 0 || Any(xs[1..])
  }

  /** On when some heater in the snapshot is on; off, not unknown, without a snapshot. */
  function SeatsOn(data: Option<ClimateParams>): (r: bool)
    ensures data == None ==> !r
    ensures data.Some? ==> (r <==>
              data.value.seatHeaterLeft != 0 || data.value.seatHeaterRight != 0 ||
              data.value.seatHeaterRearLeft != 0 || data.value.seatHeaterRearCenter != 0 ||
              data.value.seatHeaterRearRight != 0)
  {
    match data
    case None => false
    case Some(p) =>
      var flags := HeaterFlags(p);
      assert flags[0] == p.seatHeaterLeft && flags[1] == p.seatHeaterRight && flags[2] == p.seatHeaterRearLeft;
      assert flags[3] == p.seatHeaterRearCenter && flags[4] == p.seatHeaterRearRight;
      Any(flags)
  }

  /** What the seat adapter caches. */
  datatype SeatCache = SeatCache(seatsAreOn: bool, seatHeatLevel: Option<string>, manualTime: int)

  /** Off, level unknown, manual-write time 0. */
  const INITIAL: SeatCache := SeatCache(false, None, 0)

  /** The cache after `refresh`, the controller's last poll at `lastUpdate` giving `data`. */
  function Refreshed(c: SeatCache, lastUpdate: int, data: Option<ClimateParams>): (r: SeatCache)
    ensures r.seatHeatLevel == c.seatHeatLevel && r.manualTime == c.manualTime
    ensures lastUpdate >= c.manualTime ==> r.seatsAreOn == SeatsOn(data)
    ensures lastUpdate < c.manualTime ==> r == c
  {
    if lastUpdate >= c.manualTime then c.(seatsAreOn := SeatsOn(data)) else c
  }

  /** The `data` of the heater command. */
  datatype HeaterRequest = HeaterRequest(heater: int, level: LevelArg)

  /** The exceptions `set_value` can raise: the lookups of the seat name and of the level. */
  datatype KeyError = SeatNameKeyError | LevelKeyError

  /** Everything one `set_value` call does. */
  datatype SetValueEffect = SetValueEffect(
    enableClimate: bool,
    request: Option<HeaterRequest>,
    raised: Option<KeyError>,
    cache: SeatCache)

  /** Looking the adapter's seat name up in the seat table succeeds. */
  predicate SeatKnown(seatName: Option<string>)
  {
    seatName.Some? && seatName.value in SEAT_ID_MAP
  }

  /**
   * `set_value(level)` on a seat named `seatName` with cache `c`, the climate system's
   * HVAC state and the controller's reply given. It first switches the climate system
   * on if needed; an unknown seat name raises before the command; otherwise the command
   * carries the seat's heater index and the level as passed. A confirmed reply caches the
   * level's name (raising if the level is not a table key, before the time stamp);
   * every call that returns stamps the manual-write time.
   */
  function SetValueEffectOf(c: SeatCache, seatName: Option<string>, level: LevelArg,
                            hvacEnabled: bool, result: CommandResult, now: int): (e: SetValueEffect)
    ensures e.enableClimate <==> !hvacEnabled
    ensures e.request.Some? <==> SeatKnown(seatName)
    ensures SeatKnown(seatName) ==> e.request.value == HeaterRequest(SEAT_ID_MAP[seatName.value], level)
    ensures e.raised == Some(SeatNameKeyError) <==> !SeatKnown(seatName)
    ensures e.raised == Some(LevelKeyError) <==> SeatKnown(seatName) && Confirmed(result) && !LevelKnown(level)
    ensures e.raised.Some? ==> e.cache == c
    ensures e.raised == None ==> e.cache.manualTime == now
    ensures e.cache.seatsAreOn == c.seatsAreOn
    ensures !(SeatKnown(seatName) && Confirmed(result)) ==> e.cache.seatHeatLevel == c.seatHeatLevel
    ensures SeatKnown(seatName) && Confirmed(result) && LevelKnown(level) ==>
              e.cache.seatHeatLevel == Some(SEAT_HEAT_MAP[level.code])
  {
    var enable := !hvacEnabled;
    if !SeatKnown(seatName) then SetValueEffect(enable, None, Some(SeatNameKeyError), c)
    else
      var request := Some(HeaterRequest(SEAT_ID_MAP[seatName.value], level));
      if !Confirmed(result) then SetValueEffect(enable, request, None, c.(manualTime := now))
      else if !LevelKnown(level) then SetValueEffect(enable, request, Some(LevelKeyError), c)
      else SetValueEffect(enable, request, None,
                          c.(seatHeatLevel := Some(SEAT_HEAT_MAP[level.code]), manualTime := now))
  }

  /** One poll the seat adapter is refreshed from. */
  datatype SeatPoll = SeatPoll(lastUpdate: int, data: Option<ClimateParams>)

  function RefreshAll(c: SeatCache, polls: seq<SeatPoll>): SeatCache
    decreases |polls|
  {
    if polls == [] then c else RefreshAll(Refreshed(c, polls[0].lastUpdate, polls[0].data), polls[1..])
  }

  /** Refreshes from polls older than the last manual write change nothing, however many arrive. */
  lemma {:induction false} StaleRefreshesPreserve(c: SeatCache, polls: seq<SeatPoll>)
    requires forall i :: 0 <= i < |polls| ==> polls[i].lastUpdate < c.manualTime
    ensures RefreshAll(c, polls) == c
    decreases |polls|
  {
    if polls != [] {
      StaleRefreshesPreserve(Refreshed(c, polls[0].lastUpdate, polls[0].data), polls[1..]);
    }
  }

  /**
   * A confirmed `set_value` at `now` followed by refreshes from polls taken before
   * `now` keeps the level it set and the "seats are on" flag it found.
   */
  lemma {:induction false} ConfirmedSetSurvivesStaleRefreshes(c: SeatCache, seatName: Option<string>, level: LevelArg,
                                           hvacEnabled: bool, result: CommandResult, now: int,
                                           polls: seq<SeatPoll>)
    requires SeatKnown(seatName) && Confirmed(result) && LevelKnown(level)
    requires forall i :: 0 <= i < |polls| ==> polls[i].lastUpdate < now
    ensures RefreshAll(SetValueEffectOf(c, seatName, level, hvacEnabled, result, now).cache, polls)
              == SeatCache(c.seatsAreOn, Some(SEAT_HEAT_MAP[level.code]), now)
  {
    StaleRefreshesPreserve(SetValueEffectOf(c, seatName, level, hvacEnabled, result, now).cache, polls);
  }

  class HeatedSeat {
    /** `__seat_name`: only the constructors set it. */
    const seatName: Option<string>
    var seatsAreOn: bool
    var seatHeatLevel: Option<string>
    var manualTime: int

    function Cache(): SeatCache
      reads this
    {
      SeatCache(seatsAreOn, seatHeatLevel, manualTime)
    }

    /** `__init__` as written: the seat name stays None. */
    constructor ()
      ensures seatName == None
      ensures Cache() == INITIAL
    {
      seatName := None;
      seatsAreOn := false;
      seatHeatLevel := None;
      manualTime := 0;
    }

    /** The evidently intended initialiser: the adapter knows which seat it heats. */
    constructor ForSeat(name: string)
      ensures seatName == Some(name)
      ensures Cache() == INITIAL
    {
      seatName := Some(name);
      seatsAreOn := false;
      seatHeatLevel := None;
      manualTime := 0;
    }

    /** `refresh`: the controller's last poll time and its climate snapshot are inputs. */
    method Refresh(lastUpdate: int, data: Option<ClimateParams>)
      modifies this
      ensures Cache() == Refreshed(old(Cache()), lastUpdate, data)
    {
      if lastUpdate >= manualTime {
        seatsAreOn := if data.Some? then Any(HeaterFlags(data.value)) else false;
      }
    }

    /**
     * `set_value`: returns whether it switched the climate system on, the heater command
     * it sent (if any) and the exception it raised (if any).
     */
    method SetValue(level: LevelArg, hvacEnabled: bool, result: CommandResult, now: int)
      returns (enableClimate: bool, request: Option<HeaterRequest>, raised: Option<KeyError>)
      modifies this
      ensures SetValueEffect(enableClimate, request, raised, Cache())
                == SetValueEffectOf(old(Cache()), seatName, level, hvacEnabled, result, now)
    {
      enableClimate := !hvacEnabled;
      var numericLevel := NumericLevel(level);
      request, raised := None, None;
      if !(seatName.Some? && seatName.value in SEAT_ID_MAP) {
        raised := Some(SeatNameKeyError);
        return;
      }
      request := Some(HeaterRequest(SEAT_ID_MAP[seatName.value], level));
      if result == Some(true) {
        if !(level.Code? && level.code in SEAT_HEAT_MAP) {
          raised := Some(LevelKeyError);
          return;
        }
        seatHeatLevel := Some(SEAT_HEAT_MAP[level.code]);
      }
      manualTime := now;
    }

    /** `get_value` reports whether any seat heater is on, not the level. */
    method GetValue() returns (on: bool)
      ensures on == seatsAreOn
    {
      on := seatsAreOn;
    }
  }

  /**
   * As written, a new adapter has no seat name, so every `set_value` raises at the
   * seat lookup: it may switch the climate system on, but it never sends the heater
   * command and never stamps the manual-write time.
   */
  method NewSeatCannotSetValue(level: LevelArg, hvacEnabled: bool, result: CommandResult, now: int)
    returns (enableClimate: bool, request: Option<HeaterRequest>, raised: Option<KeyError>, stamped: int)
    ensures enableClimate == !hvacEnabled
    ensures request == None
    ensures raised == Some(SeatNameKeyError)
    ensures stamped == 0
  {
    var seat := new HeatedSeat();
    enableClimate, request, raised := seat.SetValue(level, hvacEnabled, result, now);
    stamped := seat.manualTime;
  }

  /**
   * With the seat named, setting level 3 while the climate system is off switches it
   * on, sends heater 0 with level 3, and a confirmed reply caches "High".
   */
  method HighOnNamedSeatScenario(now: int)
    returns (enableClimate: bool, request: Option<HeaterRequest>, raised: Option<KeyError>, level: Option<string>)
    ensures enableClimate
    ensures request == Some(HeaterRequest(0, Code(3)))
    ensures raised == None
    ensures level == Some("High")
  {
    var seat := new HeatedSeat.ForSeat("left");
    enableClimate, request, raised := seat.SetValue(Code(3), false, Some(true), now);
    level := seat.seatHeatLevel;
  }

  /**
   * Passing the symbolic name instead sends "High" itself in the command, and the
   * confirmed reply then raises at the level lookup: the cached level and the
   * manual-write time stay as they were.
   */
  method SymbolicLevelScenario(now: int)
    returns (request: Option<HeaterRequest>, raised: Option<KeyError>, level: Option<string>, stamped: int)
    ensures request == Some(HeaterRequest(0, Name("High")))
    ensures raised == Some(LevelKeyError)
    ensures level == None
    ensures stamped == 0
  {
    var seat := new HeatedSeat.ForSeat("left");
    var enableClimate;
    enableClimate, request, raised := seat.SetValue(Name("High"), true, Some(true), now);
    level := seat.seatHeatLevel;
    stamped := seat.manualTime;
  }

  /**
   * A fresh poll with the rear-centre heater on reports the seats on; the same adapter
   * with no snapshot reports them off, not unknown.
   */
  method RefreshScenario() returns (on: bool, off: bool)
    ensures on
    ensures !off
  {
    var seat := new HeatedSeat.ForSeat("rear_center");
    seat.Refresh(0, Some(ClimateParams(0, 0, 0, 2, 0)));
    on := seat.GetValue();
    seat.Refresh(0, None);
    off := seat.GetValue();
  }
}
