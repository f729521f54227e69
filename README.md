# Refrigerated truck simulator, modelled in Dafny

The fridge-truck application (`truck_component/fridgeTruck.c`) is a Legato
component for a mangOH board. It simulates a refrigerated truck and reports
it to AirVantage. File-scope statics hold three groups of state:

- the truck's physical state: fan on or off, how long the fan has run, the temperature inside, door open or closed;
- its settings: target temperature, outside temperature, the data-generation and data-push intervals, the board type;
- a time-series buffer: a handle to an open record and the number of samples in it.

Callbacks change this state:

- a data-generation timer (`emulate`) moves the temperature toward the target or toward the outside temperature, and appends a sample to the record;
- a data-push timer (`pushData`) publishes the fan and door flags;
- AirVantage setting writes (`OnWriteSetting`) and commands (`OnCommand`) each pick the first field name found in the resource path;
- the door push button (`OnDoorSwitchChangeCallback`) toggles the door;
- at start-up (`COMPONENT_INIT`) the settings are loaded from the configuration tree, with defaults saved back when a key is missing.

The project has four modules:

- `Routing` (routing.dfy):
  - `Contains` is the `strstr(path, token) != NULL` test;
  - `SettingOf` and `CommandOf` are the two first-match routers;
  - one lemma per registered resource path proves that the path reaches its own branch.
- `TruckModel` (model.dfy): the value model.
  - `State` is one datatype holding the statics.
  - Each C function becomes one function from the state and the function's outside inputs to a `Step`: the new state and the list of external effects, in order (`Event`: variable pushes, the motor and LED outputs, config saves, timer stop/interval/start, location push, record create/append/push/delete, command reply).
- `TruckProperties` (properties.dfy): lemmas that span several callbacks.
  - the cool-down and warm-up trajectories;
  - batching of samples by six;
  - repeated writes and commands;
  - save-then-load of the configuration.
- `FridgeTruck` (truck.dfy): class `Truck`.
  - Its fields are the statics, with a ghost `log` of effects.
  - Each method mutates the fields as the C function does and is proved to leave exactly the state, and append exactly the effects, that the matching `TruckModel` function prescribes.

Units:

- Temperatures are fixed point, in tenths of a degree Celsius: 4.2 C is `42`, the 0.4 C step is `4`.
- The outside temperature is an `int` of whole degrees in the C code. It stays so here and is multiplied by 10 where `emulate` converges toward it.

Inputs the C code fetches from outside are parameters:

- the value AirVantage holds for a written setting;
- the result of the fan-duration append;
- the timestamp;
- the four values read from the configuration tree, with the target as an `Option`, `None` standing for the sentinel answer of a missing key;
- the board type reported by the GPIO library.

## Model

| member | source | states |
|---|---|---|
| Routing.Contains | truck_component/fridgeTruck.c:271 | the `strstr(path, token) != NULL` test: the token occurs in the path at some index |
| Routing.SettingOf | truck_component/fridgeTruck.c:271-345 | the setting chosen is one whose token occurs in the path, no token earlier in the chain (datagen, datapush, target, outside, mangohType) occurs, and there is no setting exactly when no token occurs |
| Routing.CommandOf | truck_component/fridgeTruck.c:359-378 | the command chosen has its token in the path, no earlier token (startFan, stopFan, openDoor, closeDoor) occurs, and there is none exactly when no token occurs |
| Routing.DataGenPathRoutes | truck_component/fridgeTruck.c:68 | `truck.set.interval.datagen` routes to the data-generation interval |
| Routing.DataPushPathRoutes | truck_component/fridgeTruck.c:69 | `truck.set.interval.datapush` routes to the data-push interval (it does not contain `datagen`) |
| Routing.TargetPathRoutes | truck_component/fridgeTruck.c:66 | `truck.set.temp.target` routes to the target temperature |
| Routing.OutsidePathRoutes | truck_component/fridgeTruck.c:67 | `truck.set.temp.outside` routes to the outside temperature |
| Routing.MangohTypePathRoutes | truck_component/fridgeTruck.c:70 | `truck.set.mangohType` routes to the board type, past the four earlier tokens |
| Routing.StartFanPathRoutes | truck_component/fridgeTruck.c:85 | `truck.cmd.startFan` routes to StartFan |
| Routing.StopFanPathRoutes | truck_component/fridgeTruck.c:86 | `truck.cmd.stopFan` routes to StopFan |
| Routing.OpenDoorPathRoutes | truck_component/fridgeTruck.c:89 | `truck.cmd.openDoor` routes to OpenDoor |
| Routing.CloseDoorPathRoutes | truck_component/fridgeTruck.c:90 | `truck.cmd.closeDoor` routes to CloseDoor |
| TruckModel.Inv | truck_component/fridgeTruck.c:237-240 | what holds between callbacks: the fan duration is a non-negative multiple of 5 and is 0 while the fan is off, and an open record holds fewer than 6 samples (lines 428-455) |
| TruckModel.Saved | truck_component/fridgeTruck.c:111-120 | the four values SaveConfig writes: both intervals, the outside and the target temperature |
| TruckModel.MissingKey | truck_component/fridgeTruck.c:127-176 | the final `save` flag of LoadConfig: some int key read back negative or the target read back as missing |
| TruckModel.Initial | truck_component/fridgeTruck.c:59-81 | the static initial state keeps the invariant `Inv`, with the fan on, the door closed and no record open |
| TruckModel.Converge | truck_component/fridgeTruck.c:461-471 | below the target the value rises by one step, otherwise (equal included) it falls by one step; a value at least a step away comes exactly one step closer, one within a step stays within a step |
| TruckModel.SwitchFan | truck_component/fridgeTruck.c:222-241 | only the fan flag changes, plus the duration, which is zeroed when switching off and kept when switching on; the last effect drives the motor; the flag is pushed exactly when asked; the invariant is kept |
| TruckModel.SwitchDoor | truck_component/fridgeTruck.c:244-258 | only the door flag changes; the last effect drives the LED; the flag is pushed exactly when asked; the invariant is kept |
| TruckModel.PushData | truck_component/fridgeTruck.c:204-219 | nothing changes; the fan flag is pushed first and the door flag last, two effects in all |
| TruckModel.Simulate | truck_component/fridgeTruck.c:476-500 | fan on and door closed: converge toward the target; otherwise toward 10 × outside; the fan ends on exactly when it was on and this was not a cooling tick that reached the target; a running fan gains exactly 5, a fan switched off this tick ends at 0; only fan, duration and temperature change; a fan stopped at the target is pushed and the motor driven; the invariant is kept |
| TruckModel.Accumulate | truck_component/fridgeTruck.c:403-458 | a record is started, with count 0, only when none is open; the count rises exactly on an OK append; the record stays open exactly when the count has not reached 6 and the outcome was not NoMemory or Overflow; nothing else changes; an open record holds fewer than 6 samples |
| TruckModel.AccumulateEffects | truck_component/fridgeTruck.c:411-456 | both values are recorded with the given timestamp; the location is pushed and a record created exactly when none was open; the record is pushed and then deleted, as the last two effects, exactly when it ends closed, whatever the push reports |
| TruckModel.Emulate | truck_component/fridgeTruck.c:474-506 | the state is that of accumulating the simulated state, so fan, duration, temperature and door move as the simulation prescribes regardless of the buffer; the new temperature and duration are published and recorded; the invariant is kept |
| TruckModel.OnWriteSetting | truck_component/fridgeTruck.c:261-346 | no token: nothing happens; an interval equal to the current one: nothing happens; a new interval is adopted, the config saved, then its own timer stopped, re-intervalled and started; target, outside and board type are adopted and saved with no change check, the board type is also handed to the GPIO library; the invariant is kept |
| TruckModel.Actuate | truck_component/fridgeTruck.c:359-378 | start/stop fan and open/close door each set their flag (stop also zeroes the duration), push it at once and drive the output, and never reply to AirVantage |
| TruckModel.OnCommand | truck_component/fridgeTruck.c:349-381 | success is replied exactly once, as the last effect, also when no token matches (then nothing else happens); each command sets its flag (stop also zeroes the duration), and its effects are exactly push of the new flag, drive of the output, reply; the invariant is kept |
| TruckModel.OnDoorSwitch | truck_component/fridgeTruck.c:509-516 | the door flag is toggled and the new flag pushed |
| TruckModel.LoadConfig | truck_component/fridgeTruck.c:124-181 | each interval and the outside temperature is adopted only when the stored value is non-negative, the target only when present; a stored outside temperature also resets the temperature to 5.2 C; nothing else changes; all four settings are saved exactly when some key was missing |
| TruckModel.Boot | truck_component/fridgeTruck.c:562-589 | after loading the configuration: the intervals, outside and target temperature are the loaded or default ones and the board type is the one reported; the fan is on with duration 0, the door closed, and the temperature 5.2 C when an outside temperature was stored, else 4.2 C; no record is open; the first effect is the save of all four settings exactly when some key was missing, otherwise the motor drive; the invariant holds |
| TruckModel.StartTimers | truck_component/fridgeTruck.c:630-660 | the state is that of one emulate tick (simulate, then accumulate); settings are unchanged; the first effect sets the data-generation interval, and the last three push the fan flag, push the door flag and start the data-push timer; the invariant is kept |
| TruckModel.Startup | truck_component/fridgeTruck.c:552-662 | the settings after start-up are those booted; the physical state is one simulation step from the booted state; the invariant holds |
| TruckModel.StartupEffects | truck_component/fridgeTruck.c:633-660 | after start-up the record holds the startup sample exactly when its append succeeded, and is open unless the append ran out of room; start-up ends by pushing the fan flag, the door flag and starting the data-push timer |
| TruckProperties.SimulateIgnoresBuffer | truck_component/fridgeTruck.c:476-500 | the simulation neither reads nor writes the record handle or count |
| TruckProperties.RunFollowsSimulation | truck_component/fridgeTruck.c:474-506 | after any number of emulate callbacks, with any append outcomes and timestamps, the state is that many simulation steps from the start, apart from the record fields, and no setting has changed |
| TruckProperties.RunKeepsInv | truck_component/fridgeTruck.c:474-506 | any sequence of emulate callbacks keeps the invariant |
| TruckProperties.CoolDown | truck_component/fridgeTruck.c:476-500 | while cooling above the target, each tick lowers the temperature by 0.4 C, and the fan runs and accrues 5 per tick until the tick that reaches the target, which leaves it off with duration 0 |
| TruckProperties.ReachesTarget | truck_component/fridgeTruck.c:476-487 | a cooling truck ends with the fan off, less than one step below or at the target |
| TruckProperties.Drift | truck_component/fridgeTruck.c:489-500 | with the fan off or the door open, the temperature rises 0.4 C per tick toward the outside temperature, fan and door stay as they are, and a running fan keeps accruing |
| TruckProperties.DriftDown | truck_component/fridgeTruck.c:489-500 | with the fan off or the door open and the truck warmer than outside, the temperature falls 0.4 C per tick toward the outside temperature, fan and door stay as they are, and a running fan keeps accruing |
| TruckProperties.StaysNearOutside | truck_component/fridgeTruck.c:489-495 | once within a step of the outside temperature and not cooling, the truck stays within a step of it |
| TruckProperties.InitialCoolDown | truck_component/fridgeTruck.c:59-81 | in exact tenths, from the static values the fan still runs after four ticks with duration 20 and is off at exactly the target 2.2 C after the fifth |
| TruckProperties.ReloadedCoolDown | truck_component/fridgeTruck.c:152-161 | after a stored outside temperature restarts the simulation at 5.2 C, the fan runs for seven ticks (duration 35) and is off at 2.0 C after the eighth |
| TruckProperties.BatchState | truck_component/fridgeTruck.c:411-456 | with successful appends from a closed buffer, after 6q+j samples the record is open exactly when j is not 0 and then holds j samples; nothing else changes |
| TruckProperties.BatchEffects | truck_component/fridgeTruck.c:411-456 | the append starting a batch of six pushes the location and creates the record, and the sixth pushes and deletes it, and no other append of the batch does either |
| TruckProperties.BatchesOfSix | truck_component/fridgeTruck.c:411-456 | after k successful samples the record is open exactly when k mod 6 is not 0 and holds k mod 6 samples; the next append pushes the location exactly when k mod 6 is 0 and pushes the record exactly when it is 5 |
| TruckProperties.RunBatchesOfSix | truck_component/fridgeTruck.c:474-506 | through emulate callbacks whose appends all succeed, starting with no open record, after n ticks the record is open exactly when n mod 6 is not 0 and then holds n mod 6 samples |
| TruckProperties.AccumulateOk | truck_component/fridgeTruck.c:424-431 | a successful append adds one sample to the open or a new record and closes it exactly when it reaches 6 |
| TruckProperties.WriteSettingTwice | truck_component/fridgeTruck.c:261-346 | writing the same value twice leaves the state of one write; a repeated interval write has no effect at all |
| TruckProperties.WriteSettingSaves | truck_component/fridgeTruck.c:261-346 | a setting write leaves fan, door, temperature and buffer alone, and any changed persisted value is saved |
| TruckProperties.WriteSettingTimers | truck_component/fridgeTruck.c:284-310 | a timer is stopped, given an interval and started exactly when the path routes to that timer's interval and the value differs, and the interval given is the new value; the other timer gets no stop, interval or start |
| TruckProperties.CommandTwice | truck_component/fridgeTruck.c:349-381 | executing a command twice leaves the state of executing it once |
| TruckProperties.DoorSwitchTwice | truck_component/fridgeTruck.c:509-516 | two door-button presses restore the state |
| TruckProperties.LoadAfterSave | truck_component/fridgeTruck.c:111-181 | in the fixed-point model, with non-negative values, what is saved loads back unchanged, and the load saves nothing |
| TruckProperties.NegativeOutsideNotRestored | truck_component/fridgeTruck.c:152-156 | a negative outside temperature written by AirVantage is saved, but on reload it counts as missing: the old value stays and the defaults are saved again |
| TruckProperties.StartupWithEmptyConfig | truck_component/fridgeTruck.c:552-643 | when every key reads back as missing (-1 for each int, no target), the first effect saves the defaults 5 s, 20 s, 27 C, 2.2 C, and the startup tick leaves the fan on at 3.8 C |
| FridgeTruck.Truck.constructor | truck_component/fridgeTruck.c:59-105 | the fields start at the static initial values, with an empty effect log |
| FridgeTruck.Truck.SaveConfig | truck_component/fridgeTruck.c:111-120 | no field changes; one save of the two intervals, outside and target is logged |
| FridgeTruck.Truck.LoadConfig | truck_component/fridgeTruck.c:124-181 | the `save` flag built up step by step equals "some key missing"; fields and log end as `TruckModel.LoadConfig` prescribes |
| FridgeTruck.Truck.PushData | truck_component/fridgeTruck.c:204-219 | no field changes; the two pushes of `TruckModel.PushData` are logged |
| FridgeTruck.Truck.SwitchFan | truck_component/fridgeTruck.c:222-241 | fields and log end as `TruckModel.SwitchFan` prescribes; the invariant is kept |
| FridgeTruck.Truck.SwitchDoor | truck_component/fridgeTruck.c:244-258 | fields and log end as `TruckModel.SwitchDoor` prescribes; the invariant is kept |
| FridgeTruck.Truck.RestartTimer | truck_component/fridgeTruck.c:284-287 | no field changes; the stop, interval and start of one timer are logged |
| FridgeTruck.Truck.OnWriteSetting | truck_component/fridgeTruck.c:261-346 | fields and log end as `TruckModel.OnWriteSetting` prescribes; the invariant is kept |
| FridgeTruck.Truck.OnCommand | truck_component/fridgeTruck.c:349-381 | fields and log end as `TruckModel.OnCommand` prescribes; the invariant is kept |
| FridgeTruck.Truck.Accumulate | truck_component/fridgeTruck.c:403-458 | fields and log end as `TruckModel.Accumulate` prescribes; the invariant is kept |
| FridgeTruck.Truck.Simulate | truck_component/fridgeTruck.c:476-500 | fields and log end as `TruckModel.Simulate` prescribes; the invariant is kept |
| FridgeTruck.Truck.Emulate | truck_component/fridgeTruck.c:474-506 | fields and log end as `TruckModel.Emulate` prescribes; the invariant is kept |
| FridgeTruck.Truck.OnDoorSwitchChange | truck_component/fridgeTruck.c:509-516 | fields and log end as `TruckModel.OnDoorSwitch` prescribes; the invariant is kept |
| FridgeTruck.Truck.Boot | truck_component/fridgeTruck.c:562-589 | starting from the static values, fields and log end as `TruckModel.Boot` prescribes |
| FridgeTruck.Truck.StartTimers | truck_component/fridgeTruck.c:630-660 | fields and log end as `TruckModel.StartTimers` prescribes; the invariant is kept |
| FridgeTruck.Truck.Start | truck_component/fridgeTruck.c:552-662 | starting from the static values, fields and log end as `TruckModel.Startup` prescribes, so the invariant holds |

## Left out

- Floating point: temperatures are exact tenths of a degree. Rounding of the 0.4 C step and target values that are not whole tenths are not modelled.
- TruckProperties.InitialCoolDown: in `double` arithmetic 4.2 - 5 x 0.4 lands just above 2.2. So where the model lands exactly on the target, the C program's switch-off can come one tick later.
- TruckProperties.LoadAfterSave: the C program reads the target back through a `float`, so a reloaded target is float-rounded rather than identical.
- The target sentinel: the C code reads the target into a `float` and compares it with the `double` literal 0.05. The model represents "key missing" as `None` and claims nothing about when that float comparison matches.
- TruckProperties.StartupWithEmptyConfig: a truly empty configuration tree probably does not trip the target sentinel in C. The float 0.05 differs from the double 0.05, so the target would become about 0.05 C. The lemma is about every key reading back as missing, target `None` included.
- Integer width: `int` overflow of the fan duration, the sample count and the intervals is not modelled; the model's integers are unbounded.
- Reads from AirVantage: what `le_avdata_GetInt`/`le_avdata_GetFloat` do when they fail is not modelled; the value is a parameter that always arrives.
- Record appends: the temperature append's result is overwritten by the fan-duration append in the C code, so only the latter's outcome is a parameter (Ok, NoMemory, Overflow, any other fault).
- The push result of `le_avdata_PushRecord` is not a parameter, because the record is deleted whatever it reports.
- Board-type persistence: the GPIO helper library stores the board type, not `SaveConfig`. It is not modelled, and the board type read at start-up is a parameter.
- The door LED read-back in `OnDoorSwitchChangeCallback`: the LED is taken to mirror the door flag, because `SwitchDoor` always drives it to that flag.
- Hardware and services: the GPIO set-up and pin I/O, the position service start/stop, and the session request/release are foreign calls. The motor and LED outputs and the location push appear only as effects in the log.
- Transport: resource creation, handler registration, the namespace setting, the push-status callbacks and the initial setting values published at start-up only do I/O or logging, so they are not modelled.
- Timers: creation, repeat mode, the handler binding and the passage of time are not modelled. Only the interval values and the stop, interval and start effects are.
- The clock: `gettimeofday` supplies the timestamp, which is a parameter in milliseconds.
- Termination and logging: the SIGTERM handler and all `LE_INFO` logging are not modelled.
- TruckModel.Boot, TruckModel.StartTimers, FridgeTruck.Truck.Boot, FridgeTruck.Truck.StartTimers and FridgeTruck.Truck.Simulate: these are helpers that split `COMPONENT_INIT` and `emulate` into parts. They are not single functions of the C code.
- FridgeTruck.Truck.Boot and FridgeTruck.Truck.Start: these require the fields to hold the static initial values, as they do when the program is loaded. This stands in for C's static initialisation.
