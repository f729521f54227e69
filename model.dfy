/**
 * Value model of the refrigerated-truck simulator (truck_component/fridgeTruck.c).
 *
 * One function per C function: each takes the truck's state (the file-scope
 * statics, as a State value) and whatever the C code obtains from outside
 * (the value AirVantage delivers, the outcome of a record append, the
 * clock, the config tree), and returns the new state together with the
 * external effects it causes, in order, as a list of events.
 *
 * Temperatures are fixed point, in tenths of a degree Celsius: 4.2 C is 42,
 * the 0.4 C step is 4. The outside temperature is a whole number of degrees
 * (an int in the C code) and is scaled by 10 where it is compared with the
 * current temperature.
 */
module TruckModel {
  import opened Routing

  const DefaultStartTemp: int := 52    // DEFAULT_START_TEMP, 5.2 C
  const MaxRecords: nat := 6           // TIMESERIE_MAX_RECORD
  const TemperatureStep: nat := 4      // TEMPERATURE_INC_STEP, 0.4 C
  const FanDurationStep: nat := 5      // FAN_DURATION_INC_STEP

  datatype Timer = DataGenTimer | DataPushTimer

  /** What le_avdata_RecordInt reports for an append to the open record. */
  datatype RecordResult = Ok | NoMemory | Overflow | OtherFault

  /** The four values SaveConfig writes to the config tree. */
  datatype Persisted = Persisted(dataGenInterval: int, dataPushInterval: int, temperatureOutside: int, temperatureTarget: int)

  /** External effects, in the order the C code causes them. */
  datatype Event =
    | PushFanState(isOn: bool)                     // set and push truck.var.fan.isOn
    | PushDoorState(isOpen: bool)                  // set and push truck.var.door.isOpen
    | SetTemperatureVar(tenths: int)               // set truck.var.temp.current
    | SetFanDurationVar(minutes: int)              // set truck.var.fan.duration
    | DriveFanMotor(on: bool)                      // fan motor output
    | DriveDoorLed(on: bool)                       // door LED output
    | SetBoardType(boardType: int)                 // hand the board type to the GPIO library
    | WriteConfig(saved: Persisted)                // SaveConfig
    | StopTimer(timer: Timer)
    | SetTimerInterval(timer: Timer, seconds: int)
    | StartTimer(timer: Timer)
    | PushLocation
    | CreateRecord
    | RecordTemperature(tenths: int, timestamp: nat)
    | RecordFanDuration(minutes: int, timestamp: nat)
    | PushRecord
    | DeleteRecord
    | ReplyExecOk                                  // le_avdata_ReplyExecResult(..., LE_OK)

  /** The file-scope statics of fridgeTruck.c; recordOpen stands for _recordRef != NULL. */
  datatype State = State(
    fanIsOn: bool,
    fanDuration: int,
    temperature: int,
    doorIsOpen: bool,
    temperatureTarget: int,
    temperatureOutside: int,
    dataGenInterval: int,
    dataPushInterval: int,
    mangohBoardType: int,
    recordOpen: bool,
    recordCount: int)

  /** The state after an operation and the effects it caused. */
  datatype Step = Step(state: State, events: seq<Event>)

  function Last<T>(xs: seq<T>): T
    requires xs != []
  {
    xs[|xs| - 1]
  }

  lemma AppendAssoc<T>(a: seq<T>, b: seq<T>, c: seq<T>)
    ensures a + (b + c) == (a + b) + c
  {
  }

  lemma LastThreeOfAppend<T>(a: seq<T>, b: seq<T>)
    requires |b| >= 3
    ensures var c := a + b;
      c[|c| - 3] == b[|b| - 3] && c[|c| - 2] == b[|b| - 2] && c[|c| - 1] == b[|b| - 1]
  {
  }

  function Dist(a: int, b: int): nat
  {
    if a < b then b - a else a - b
  }

  /**
   * What the truck keeps true between callbacks: the fan duration is a
   * multiple of the accrual step and is 0 whenever the fan is off, and an
   * open record holds fewer than MaxRecords samples.
   */
  predicate Inv(s: State)
  {
    && 0 <= s.fanDuration
    && s.fanDuration % FanDurationStep == 0
    && (!s.fanIsOn ==> s.fanDuration == 0)
    && 0 <= s.recordCount <= MaxRecords
    && (s.recordOpen ==> s.recordCount < MaxRecords)
  }

  /** The static initialisers: fan on, 4.2 C inside, target 2.2 C, 27 C outside, 5 s and 20 s, no record. */
  function Initial(): (s: State)
    ensures Inv(s) && s.fanIsOn && !s.doorIsOpen && !s.recordOpen
  {
    State(true, 0, 42, false, 22, 27, 5, 20, 0, false, 0)
  }

  /** What SaveConfig writes: the two intervals, the outside and the target temperature. */
  function Saved(s: State): Persisted
  {
    Persisted(s.dataGenInterval, s.dataPushInterval, s.temperatureOutside, s.temperatureTarget)
  }

  /** converge: one step up when below the target, one step down otherwise (so also when equal). */
  function Converge(target: int, step: nat, value: int): (r: int)
    ensures value < target ==> r == value + step
    ensures target <= value ==> r == value - step
    ensures step <= Dist(value, target) ==> Dist(r, target) == Dist(value, target) - step
    ensures Dist(value, target) <= step ==> Dist(r, target) <= step
  {
    if value < target then value + step else value - step
  }

  /** SwitchFan: set the fan flag, optionally push it, drive the motor; switching off clears the duration. */
  function SwitchFan(s: State, on: bool, publish: bool): (r: Step)
    ensures r.state.fanIsOn == on
    ensures r.state.fanDuration == (if on then s.fanDuration else 0)
    ensures r.state == s.(fanIsOn := on, fanDuration := r.state.fanDuration)
    ensures r.events != [] && Last(r.events) == DriveFanMotor(on)
    ensures PushFanState(on) in r.events <==> publish
    ensures |r.events| == if publish then 2 else 1
    ensures Inv(s) ==> Inv(r.state)
  {
    var pushed := if publish then [PushFanState(on)] else [];
    var switched := s.(fanIsOn := on);
    Step(if on then switched else switched.(fanDuration := 0), pushed + [DriveFanMotor(on)])
  }

  /** SwitchDoor: set the door flag, optionally push it, drive the door LED. */
  function SwitchDoor(s: State, open: bool, publish: bool): (r: Step)
    ensures r.state == s.(doorIsOpen := open)
    ensures r.events != [] && Last(r.events) == DriveDoorLed(open)
    ensures PushDoorState(open) in r.events <==> publish
    ensures |r.events| == if publish then 2 else 1
    ensures Inv(s) ==> Inv(r.state)
  {
    var pushed := if publish then [PushDoorState(open)] else [];
    Step(s.(doorIsOpen := open), pushed + [DriveDoorLed(open)])
  }

  /** pushData: publish the current fan and door flags; nothing changes. */
  function PushData(s: State): (r: Step)
    ensures r.state == s
    ensures |r.events| == 2 && r.events[0] == PushFanState(s.fanIsOn) && Last(r.events) == PushDoorState(s.doorIsOpen)
  {
    Step(s, [PushFanState(s.fanIsOn), PushDoorState(s.doorIsOpen)])
  }

  /** The fan is cooling the truck: it runs and the door is closed. */
  predicate Cooling(s: State)
  {
    s.fanIsOn && !s.doorIsOpen
  }

  /**
   * The simulation part of emulate: converge toward the target while
   * cooling (and switch the fan off, with a push, once the target is
   * reached), otherwise toward the outside temperature; then accrue fan
   * duration if the fan still runs.
   */
  function Simulate(s: State): (r: Step)
    ensures Cooling(s) ==> r.state.temperature == Converge(s.temperatureTarget, TemperatureStep, s.temperature)
    ensures !Cooling(s) ==> r.state.temperature == Converge(10 * s.temperatureOutside, TemperatureStep, s.temperature)
    ensures r.state.fanIsOn <==> s.fanIsOn && !(Cooling(s) && r.state.temperature <= s.temperatureTarget)
    ensures r.state.fanIsOn ==> r.state.fanDuration == s.fanDuration + FanDurationStep
    ensures !r.state.fanIsOn ==> r.state.fanDuration == (if s.fanIsOn then 0 else s.fanDuration)
    ensures r.state == s.(fanIsOn := r.state.fanIsOn, fanDuration := r.state.fanDuration, temperature := r.state.temperature)
    ensures r.events == if s.fanIsOn && !r.state.fanIsOn then [PushFanState(false), DriveFanMotor(false)] else []
    ensures Inv(s) ==> Inv(r.state)
  {
    var moved :=
      if Cooling(s) then
        var t := Converge(s.temperatureTarget, TemperatureStep, s.temperature);
        var s1 := s.(temperature := t);
        if t <= s.temperatureTarget then SwitchFan(s1, false, true) else Step(s1, [])
      else
        Step(s.(temperature := Converge(10 * s.temperatureOutside, TemperatureStep, s.temperature)), []);
    if moved.state.fanIsOn then
      moved.(state := moved.state.(fanDuration := moved.state.fanDuration + FanDurationStep))
    else
      moved
  }

  /** The buffer decision of Accumulate: flush when the record is full or the append ran out of room. */
  predicate FlushesOn(countAfter: int, outcome: RecordResult)
  {
    (outcome == Ok && countAfter >= MaxRecords) || outcome == NoMemory || outcome == Overflow
  }

  /**
   * Accumulate: open a record (pushing the location) if none is open, append
   * the temperature and the fan duration with timestamp `now`, count the
   * sample if the fan-duration append succeeded, and flush when full or on
   * buffer exhaustion; a flushed record is always deleted.
   */
  function Accumulate(s: State, outcome: RecordResult, now: nat): (r: Step)
    ensures r.state == s.(recordOpen := r.state.recordOpen, recordCount := r.state.recordCount)
    ensures var before := if s.recordOpen then s.recordCount else 0;
      && r.state.recordCount == (if outcome == Ok then before + 1 else before)
      && (r.state.recordOpen <==> !FlushesOn(r.state.recordCount, outcome))
    ensures Inv(s) ==> Inv(r.state)
  {
    var count := if s.recordOpen then s.recordCount else 0;
    var counted := if outcome == Ok then count + 1 else count;
    var pushNow := FlushesOn(counted, outcome);
    var opening := if s.recordOpen then [] else [PushLocation, CreateRecord];
    var sample := [RecordTemperature(s.temperature, now), RecordFanDuration(s.fanDuration, now)];
    var flushed := if pushNow then [PushRecord, DeleteRecord] else [];
    Step(s.(recordOpen := !pushNow, recordCount := counted), opening + sample + flushed)
  }

  /**
   * The effects of Accumulate: both values of the sample are recorded with
   * timestamp `now`; a record is started (location push, record creation)
   * exactly when none was open, and pushed and then deleted, as its last
   * two effects, exactly when it ends closed.
   */
  lemma AccumulateEffects(s: State, outcome: RecordResult, now: nat)
    ensures var r := Accumulate(s, outcome, now);
      && RecordTemperature(s.temperature, now) in r.events
      && RecordFanDuration(s.fanDuration, now) in r.events
      && (PushLocation in r.events <==> !s.recordOpen)
      && (CreateRecord in r.events <==> !s.recordOpen)
      && (PushRecord in r.events <==> !r.state.recordOpen)
      && (DeleteRecord in r.events <==> !r.state.recordOpen)
      && (!r.state.recordOpen ==> |r.events| >= 2 && r.events[|r.events| - 2] == PushRecord && Last(r.events) == DeleteRecord)
  {
    var r := Accumulate(s, outcome, now);
    var opening := if s.recordOpen then [] else [PushLocation, CreateRecord];
    var sample := [RecordTemperature(s.temperature, now), RecordFanDuration(s.fanDuration, now)];
    var flushed := if r.state.recordOpen then [] else [PushRecord, DeleteRecord];
    assert r.events == opening + sample + flushed;
  }

  /** The settings part of the state; only setting writes and LoadConfig change it. */
  function Settings(s: State): (int, int, int, int, int)
  {
    (s.temperatureTarget, s.temperatureOutside, s.dataGenInterval, s.dataPushInterval, s.mangohBoardType)
  }

  /** The physical part of the state: fan, fan duration, temperature, door. */
  function Physics(s: State): (bool, int, int, bool)
  {
    (s.fanIsOn, s.fanDuration, s.temperature, s.doorIsOpen)
  }

  /**
   * emulate, the data-generation tick: simulate, publish the temperature and
   * fan duration variables, then accumulate the new values.
   */
  function Emulate(s: State, outcome: RecordResult, now: nat): (r: Step)
    ensures Physics(r.state) == Physics(Simulate(s).state)
    ensures r.state == Accumulate(Simulate(s).state, outcome, now).state
    ensures r.state == Simulate(s).state.(recordOpen := r.state.recordOpen, recordCount := r.state.recordCount)
    ensures SetTemperatureVar(Simulate(s).state.temperature) in r.events
    ensures SetFanDurationVar(Simulate(s).state.fanDuration) in r.events
    ensures RecordTemperature(Simulate(s).state.temperature, now) in r.events
    ensures RecordFanDuration(Simulate(s).state.fanDuration, now) in r.events
    ensures Inv(s) ==> Inv(r.state)
  {
    var sim := Simulate(s);
    var published := [SetTemperatureVar(sim.state.temperature), SetFanDurationVar(sim.state.fanDuration)];
    var acc := Accumulate(sim.state, outcome, now);
    AccumulateEffects(sim.state, outcome, now);
    Step(acc.state, sim.events + published + acc.events)
  }

  /** The timer a setting write restarts, if any. */
  function TimerOf(f: Setting): Option<Timer>
  {
    match f
    case DataGen => Some(DataGenTimer)
    case DataPush => Some(DataPushTimer)
    case _ => None
  }

  /** Stop, re-interval and restart one timer, as a changed interval setting does. */
  function Restart(t: Timer, seconds: int): seq<Event>
  {
    [StopTimer(t), SetTimerInterval(t, seconds), StartTimer(t)]
  }

  /**
   * OnWriteSetting: route the path to the first setting token it contains
   * and adopt `value`, the setting's new value fetched from AirVantage
   * (tenths of a degree for the target, whole degrees for the outside
   * temperature, seconds for the intervals). An interval equal to the
   * current one changes nothing; a new interval is saved and restarts its
   * timer; the other settings are adopted and saved unconditionally.
   */
  function OnWriteSetting(s: State, path: string, value: int): (r: Step)
    ensures SettingOf(path).None? ==> r == Step(s, [])
    ensures SettingOf(path) == Some(DataGen) ==>
      if value == s.dataGenInterval then r == Step(s, [])
      else r.state == s.(dataGenInterval := value) && r.events == [WriteConfig(Saved(r.state))] + Restart(DataGenTimer, value)
    ensures SettingOf(path) == Some(DataPush) ==>
      if value == s.dataPushInterval then r == Step(s, [])
      else r.state == s.(dataPushInterval := value) && r.events == [WriteConfig(Saved(r.state))] + Restart(DataPushTimer, value)
    ensures SettingOf(path) == Some(Target) ==>
      r.state == s.(temperatureTarget := value) && r.events == [WriteConfig(Saved(r.state))]
    ensures SettingOf(path) == Some(Outside) ==>
      r.state == s.(temperatureOutside := value) && r.events == [WriteConfig(Saved(r.state))]
    ensures SettingOf(path) == Some(MangohType) ==>
      r.state == s.(mangohBoardType := value) && r.events == [SetBoardType(value), WriteConfig(Saved(r.state))]
    ensures Inv(s) ==> Inv(r.state)
  {
    match SettingOf(path)
    case None => Step(s, [])
    case Some(DataGen) =>
      if value == s.dataGenInterval then Step(s, [])
      else
        var s1 := s.(dataGenInterval := value);
        Step(s1, [WriteConfig(Saved(s1))] + Restart(DataGenTimer, value))
    case Some(DataPush) =>
      if value == s.dataPushInterval then Step(s, [])
      else
        var s1 := s.(dataPushInterval := value);
        Step(s1, [WriteConfig(Saved(s1))] + Restart(DataPushTimer, value))
    case Some(Target) =>
      var s1 := s.(temperatureTarget := value);
      Step(s1, [WriteConfig(Saved(s1))])
    case Some(Outside) =>
      var s1 := s.(temperatureOutside := value);
      Step(s1, [WriteConfig(Saved(s1))])
    case Some(MangohType) =>
      var s1 := s.(mangohBoardType := value);
      Step(s1, [SetBoardType(value), WriteConfig(Saved(s1))])
  }

  /** The actuation a command performs (SwitchFan or SwitchDoor, with push). */
  function Actuate(s: State, c: Command): (r: Step)
    ensures c == StartFan ==> r.state == s.(fanIsOn := true) && r.events == [PushFanState(true), DriveFanMotor(true)]
    ensures c == StopFan ==> r.state == s.(fanIsOn := false, fanDuration := 0) && r.events == [PushFanState(false), DriveFanMotor(false)]
    ensures c == OpenDoor ==> r.state == s.(doorIsOpen := true) && r.events == [PushDoorState(true), DriveDoorLed(true)]
    ensures c == CloseDoor ==> r.state == s.(doorIsOpen := false) && r.events == [PushDoorState(false), DriveDoorLed(false)]
    ensures ReplyExecOk !in r.events
  {
    match c
    case StartFan => SwitchFan(s, true, true)
    case StopFan => SwitchFan(s, false, true)
    case OpenDoor => SwitchDoor(s, true, true)
    case CloseDoor => SwitchDoor(s, false, true)
  }

  /**
   * OnCommand: route the path to the first command token it contains,
   * actuate, and reply success exactly once, whether or not a token matched.
   */
  function OnCommand(s: State, path: string): (r: Step)
    ensures r.events != [] && Last(r.events) == ReplyExecOk && ReplyExecOk !in r.events[..|r.events| - 1]
    ensures CommandOf(path).None? ==> r == Step(s, [ReplyExecOk])
    ensures CommandOf(path) == Some(StartFan) ==>
      r.state == s.(fanIsOn := true) && r.events == [PushFanState(true), DriveFanMotor(true), ReplyExecOk]
    ensures CommandOf(path) == Some(StopFan) ==>
      r.state == s.(fanIsOn := false, fanDuration := 0) && r.events == [PushFanState(false), DriveFanMotor(false), ReplyExecOk]
    ensures CommandOf(path) == Some(OpenDoor) ==>
      r.state == s.(doorIsOpen := true) && r.events == [PushDoorState(true), DriveDoorLed(true), ReplyExecOk]
    ensures CommandOf(path) == Some(CloseDoor) ==>
      r.state == s.(doorIsOpen := false) && r.events == [PushDoorState(false), DriveDoorLed(false), ReplyExecOk]
    ensures Inv(s) ==> Inv(r.state)
  {
    var acted := match CommandOf(path)
      case Some(c) => Actuate(s, c)
      case None => Step(s, []);
    Step(acted.state, acted.events + [ReplyExecOk])
  }

  /**
   * OnDoorSwitchChangeCallback: toggle the door, with push. The C code reads
   * the LED back; the LED mirrors the door flag, so this is the flag's negation.
   */
  function OnDoorSwitch(s: State): (r: Step)
    ensures r.state == s.(doorIsOpen := !s.doorIsOpen)
    ensures PushDoorState(!s.doorIsOpen) in r.events
  {
    SwitchDoor(s, !s.doorIsOpen, true)
  }

  /** Some config key was missing: an int read back negative or the target read back as the sentinel. */
  predicate MissingKey(dataGen: int, dataPush: int, outside: int, target: Option<int>)
  {
    dataGen < 0 || dataPush < 0 || outside < 0 || target.None?
  }

  /**
   * LoadConfig: the config tree answers -1 for a missing int key and the
   * sentinel (here None) for a missing target. Each present value is
   * adopted; a present outside temperature also restarts the simulation at
   * DefaultStartTemp; a missing key makes SaveConfig write all four values.
   */
  function LoadConfig(s: State, dataGen: int, dataPush: int, outside: int, target: Option<int>): (r: Step)
    ensures r.state.dataGenInterval == if dataGen >= 0 then dataGen else s.dataGenInterval
    ensures r.state.dataPushInterval == if dataPush >= 0 then dataPush else s.dataPushInterval
    ensures r.state.temperatureOutside == if outside >= 0 then outside else s.temperatureOutside
    ensures r.state.temperature == if outside >= 0 then DefaultStartTemp else s.temperature
    ensures r.state.temperatureTarget == if target.Some? then target.value else s.temperatureTarget
    ensures r.state == s.(dataGenInterval := r.state.dataGenInterval, dataPushInterval := r.state.dataPushInterval,
                          temperatureOutside := r.state.temperatureOutside, temperature := r.state.temperature,
                          temperatureTarget := r.state.temperatureTarget)
    ensures r.events == if MissingKey(dataGen, dataPush, outside, target) then [WriteConfig(Saved(r.state))] else []
    ensures Inv(s) ==> Inv(r.state)
  {
    var s1 := s.(dataGenInterval := if dataGen >= 0 then dataGen else s.dataGenInterval);
    var s2 := s1.(dataPushInterval := if dataPush >= 0 then dataPush else s1.dataPushInterval);
    var s3 := if outside >= 0 then s2.(temperatureOutside := outside, temperature := DefaultStartTemp) else s2;
    var s4 := match target case Some(t) => s3.(temperatureTarget := t) case None => s3;
    Step(s4, if MissingKey(dataGen, dataPush, outside, target) then [WriteConfig(Saved(s4))] else [])
  }

  /**
   * The first part of COMPONENT_INIT: load the configuration over the
   * static initialisers, take the board type, mirror fan and door onto the
   * outputs without pushing, and publish the fan duration and temperature.
   */
  function Boot(dataGen: int, dataPush: int, outside: int, target: Option<int>, boardType: int): (r: Step)
    ensures Inv(r.state) && !r.state.recordOpen
    ensures r.state.dataGenInterval == (if dataGen >= 0 then dataGen else Initial().dataGenInterval)
    ensures r.state.dataPushInterval == (if dataPush >= 0 then dataPush else Initial().dataPushInterval)
    ensures r.state.temperatureOutside == (if outside >= 0 then outside else Initial().temperatureOutside)
    ensures r.state.temperatureTarget == (if target.Some? then target.value else Initial().temperatureTarget)
    ensures r.state.mangohBoardType == boardType
    ensures Physics(r.state) == (true, 0, if outside >= 0 then DefaultStartTemp else Initial().temperature, false)
    ensures r.events != [] && r.events[0] == if MissingKey(dataGen, dataPush, outside, target) then WriteConfig(Saved(r.state)) else DriveFanMotor(true)
  {
    var loaded := LoadConfig(Initial(), dataGen, dataPush, outside, target);
    var s0 := loaded.state.(mangohBoardType := boardType);
    var fan := SwitchFan(s0, s0.fanIsOn, false);
    var vars := [SetFanDurationVar(fan.state.fanDuration), SetTemperatureVar(fan.state.temperature)];
    var door := SwitchDoor(fan.state, fan.state.doorIsOpen, false);
    Step(door.state, loaded.events + fan.events + vars + door.events)
  }

  /**
   * The second part of COMPONENT_INIT: set the data-generation interval,
   * run one emulate tick and start that timer, then set the push interval,
   * push once and start that timer.
   */
  function StartTimers(s: State, outcome: RecordResult, now: nat): (r: Step)
    ensures r.state == Accumulate(Simulate(s).state, outcome, now).state
    ensures Physics(r.state) == Physics(Simulate(s).state) && Settings(r.state) == Settings(s)
    ensures Inv(s) ==> Inv(r.state)
    ensures |r.events| >= 3 && r.events[0] == SetTimerInterval(DataGenTimer, s.dataGenInterval)
    ensures r.events[|r.events| - 3] == PushFanState(r.state.fanIsOn) && r.events[|r.events| - 2] == PushDoorState(r.state.doorIsOpen)
    ensures Last(r.events) == StartTimer(DataPushTimer)
  {
    var tick := Emulate(s, outcome, now);
    var push := PushData(tick.state);
    Step(push.state, [SetTimerInterval(DataGenTimer, s.dataGenInterval)] + tick.events + [StartTimer(DataGenTimer)]
      + [SetTimerInterval(DataPushTimer, tick.state.dataPushInterval)] + push.events + [StartTimer(DataPushTimer)])
  }

  /** COMPONENT_INIT: boot, then start the timers. */
  function Startup(dataGen: int, dataPush: int, outside: int, target: Option<int>,
                   boardType: int, outcome: RecordResult, now: nat): (r: Step)
    ensures Inv(r.state)
    ensures Settings(r.state) == Settings(Boot(dataGen, dataPush, outside, target, boardType).state)
    ensures Physics(r.state) == Physics(Simulate(Boot(dataGen, dataPush, outside, target, boardType).state).state)
  {
    var boot := Boot(dataGen, dataPush, outside, target, boardType);
    var timers := StartTimers(boot.state, outcome, now);
    Step(timers.state, boot.events + timers.events)
  }

  /**
   * After COMPONENT_INIT the startup tick's sample is in a record that
   * stays open unless the append ran out of room, and start-up ends by
   * pushing the fan and door flags and starting the data-push timer.
   */
  lemma StartupEffects(dataGen: int, dataPush: int, outside: int, target: Option<int>,
                       boardType: int, outcome: RecordResult, now: nat)
    ensures var r := Startup(dataGen, dataPush, outside, target, boardType, outcome, now);
      && r.state.recordCount == (if outcome == Ok then 1 else 0)
      && (r.state.recordOpen <==> outcome == Ok || outcome == OtherFault)
      && |r.events| >= 3 && r.events[|r.events| - 3] == PushFanState(r.state.fanIsOn)
      && r.events[|r.events| - 2] == PushDoorState(r.state.doorIsOpen) && Last(r.events) == StartTimer(DataPushTimer)
  {
    var boot := Boot(dataGen, dataPush, outside, target, boardType);
    var timers := StartTimers(boot.state, outcome, now);
    LastThreeOfAppend(boot.events, timers.events);
    assert !Simulate(boot.state).state.recordOpen;
  }
}
