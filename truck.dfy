/**
 * The truck as the C program keeps it: one object whose fields are the
 * file-scope statics of fridgeTruck.c, updated in place by the callbacks.
 * A ghost log collects the external effects in order. Each method is
 * proved to leave exactly the state, and append exactly the effects, that
 * the value model in TruckModel prescribes for the same inputs.
 */
module FridgeTruck {
  import opened Routing
  import M = TruckModel

  class Truck {
    var fanIsOn: bool
    var fanDuration: int
    var temperature: int
    var doorIsOpen: bool
    var temperatureTarget: int
    var temperatureOutside: int
    var dataGenInterval: int
    var dataPushInterval: int
    var mangohBoardType: int
    var recordOpen: bool
    var recordCount: int
    ghost var log: seq<M.Event>

    /** The fields as a model state. */
    function Snapshot(): M.State
      reads this
    {
      M.State(fanIsOn, fanDuration, temperature, doorIsOpen, temperatureTarget, temperatureOutside,
              dataGenInterval, dataPushInterval, mangohBoardType, recordOpen, recordCount)
    }

    ghost predicate Valid()
      reads this
    {
      M.Inv(Snapshot())
    }

    /** The static initialisers; the board type is zero until the GPIO library reports it. */
    constructor ()
      ensures Snapshot() == M.Initial() && log == [] && Valid()
    {
      fanIsOn := true;
      fanDuration := 0;
      temperature := 42;
      doorIsOpen := false;
      temperatureTarget := 22;
      temperatureOutside := 27;
      dataGenInterval := 5;
      dataPushInterval := 20;
      mangohBoardType := 0;
      recordOpen := false;
      recordCount := 0;
      log := [];
    }

    /** SaveConfig: write both intervals, the outside and the target temperature. */
    method SaveConfig()
      modifies this
      ensures Snapshot() == old(Snapshot())
      ensures log == old(log) + [M.WriteConfig(M.Saved(Snapshot()))]
    {
      log := log + [M.WriteConfig(M.Persisted(dataGenInterval, dataPushInterval, temperatureOutside, temperatureTarget))];
    }

    /**
     * LoadConfig, given what the config tree answers for each key (-1 for a
     * missing int key, None for a missing target).
     */
    method LoadConfig(dataGen: int, dataPush: int, outside: int, target: Option<int>)
      requires Valid()
      modifies this
      ensures Valid()
      ensures var r := M.LoadConfig(old(Snapshot()), dataGen, dataPush, outside, target);
        Snapshot() == r.state && log == old(log) + r.events
    {
      var save := false;
      if dataGen < 0 {
        save := true;
      } else {
        dataGenInterval := dataGen;
      }
      if dataPush < 0 {
        save := true;
      } else {
        dataPushInterval := dataPush;
      }
      if outside < 0 {
        save := true;
      } else {
        temperatureOutside := outside;
        temperature := M.DefaultStartTemp;
      }
      match target {
        case None =>
          save := true;
        case Some(t) =>
          temperatureTarget := t;
      }
      assert save == M.MissingKey(dataGen, dataPush, outside, target);
      if save {
        SaveConfig();
      }
    }

    /** pushData: publish the fan and the door flags. */
    method PushData()
      modifies this
      ensures Snapshot() == old(Snapshot())
      ensures log == old(log) + M.PushData(old(Snapshot())).events
    {
      log := log + [M.PushFanState(fanIsOn), M.PushDoorState(doorIsOpen)];
    }

    /** SwitchFan. */
    method SwitchFan(on: bool, publish: bool)
      requires Valid()
      modifies this
      ensures Valid()
      ensures var r := M.SwitchFan(old(Snapshot()), on, publish);
        Snapshot() == r.state && log == old(log) + r.events
    {
      fanIsOn := on;
      if publish {
        log := log + [M.PushFanState(fanIsOn)];
      }
      log := log + [M.DriveFanMotor(fanIsOn)];
      if !fanIsOn {
        fanDuration := 0;
      }
    }

    /** SwitchDoor. */
    method SwitchDoor(open: bool, publish: bool)
      requires Valid()
      modifies this
      ensures Valid()
      ensures var r := M.SwitchDoor(old(Snapshot()), open, publish);
        Snapshot() == r.state && log == old(log) + r.events
    {
      doorIsOpen := open;
      if publish {
        log := log + [M.PushDoorState(doorIsOpen)];
      }
      log := log + [M.DriveDoorLed(doorIsOpen)];
    }

    /** Stop, re-interval and restart a timer. */
    method RestartTimer(t: M.Timer, seconds: int)
      modifies this
      ensures Snapshot() == old(Snapshot())
      ensures log == old(log) + M.Restart(t, seconds)
    {
      log := log + [M.StopTimer(t), M.SetTimerInterval(t, seconds), M.StartTimer(t)];
    }

    /** OnWriteSetting, given the resource path and the value AirVantage holds for it. */
    method OnWriteSetting(path: string, value: int)
      requires Valid()
      modifies this
      ensures Valid()
      ensures var r := M.OnWriteSetting(old(Snapshot()), path, value);
        Snapshot() == r.state && log == old(log) + r.events
    {
      if Contains(path, "datagen") {
        var newSetting := value;
        if newSetting != dataGenInterval {
          dataGenInterval := newSetting;
          ghost var log0 := log;
          SaveConfig();
          RestartTimer(M.DataGenTimer, dataGenInterval);
          M.AppendAssoc(log0, [M.WriteConfig(M.Saved(Snapshot()))], M.Restart(M.DataGenTimer, dataGenInterval));
        }
      } else if Contains(path, "datapush") {
        var newSetting := value;
        if newSetting != dataPushInterval {
          dataPushInterval := newSetting;
          ghost var log0 := log;
          SaveConfig();
          RestartTimer(M.DataPushTimer, dataPushInterval);
          M.AppendAssoc(log0, [M.WriteConfig(M.Saved(Snapshot()))], M.Restart(M.DataPushTimer, dataPushInterval));
        }
      } else if Contains(path, "target") {
        temperatureTarget := value;
        SaveConfig();
      } else if Contains(path, "outside") {
        temperatureOutside := value;
        SaveConfig();
      } else if Contains(path, "mangohType") {
        mangohBoardType := value;
        log := log + [M.SetBoardType(mangohBoardType)];
        SaveConfig();
      }
    }

    /** OnCommand: actuate for the first command token in the path, then reply success. */
    method OnCommand(path: string)
      requires Valid()
      modifies this
      ensures Valid()
      ensures var r := M.OnCommand(old(Snapshot()), path);
        Snapshot() == r.state && log == old(log) + r.events
    {
      ghost var s0 := Snapshot();
      ghost var log0 := log;
      if Contains(path, "startFan") {
        SwitchFan(true, true);
      } else if Contains(path, "stopFan") {
        SwitchFan(false, true);
      } else if Contains(path, "openDoor") {
        SwitchDoor(true, true);
      } else if Contains(path, "closeDoor") {
        SwitchDoor(false, true);
      }
      ghost var acted := match CommandOf(path)
        case Some(c) => M.Actuate(s0, c)
        case None => M.Step(s0, []);
      assert Snapshot() == acted.state && log == log0 + acted.events;
      log := log + [M.ReplyExecOk];
      M.AppendAssoc(log0, acted.events, [M.ReplyExecOk]);
    }

    /** Accumulate, given what the fan-duration append reports and the clock reading `now`. */
    method Accumulate(outcome: M.RecordResult, now: nat)
      requires Valid()
      modifies this
      ensures Valid()
      ensures var r := M.Accumulate(old(Snapshot()), outcome, now);
        Snapshot() == r.state && log == old(log) + r.events
    {
      var pushNow := false;
      if !recordOpen {
        log := log + [M.PushLocation, M.CreateRecord];
        recordOpen := true;
        recordCount := 0;
      }
      log := log + [M.RecordTemperature(temperature, now), M.RecordFanDuration(fanDuration, now)];
      if outcome == M.Ok {
        recordCount := recordCount + 1;
        if recordCount >= M.MaxRecords {
          pushNow := true;
        }
      } else if outcome == M.NoMemory || outcome == M.Overflow {
        pushNow := true;
      }
      if pushNow {
        log := log + [M.PushRecord, M.DeleteRecord];
        recordOpen := false;
      }
    }

    /** The simulation half of emulate: move the temperature, stop the fan at the target, accrue fan duration. */
    method Simulate()
      requires Valid()
      modifies this
      ensures Valid()
      ensures var r := M.Simulate(old(Snapshot()));
        Snapshot() == r.state && log == old(log) + r.events
    {
      if fanIsOn && !doorIsOpen {
        temperature := M.Converge(temperatureTarget, M.TemperatureStep, temperature);
        if temperature <= temperatureTarget {
          SwitchFan(false, true);
        }
      } else {
        temperature := M.Converge(10 * temperatureOutside, M.TemperatureStep, temperature);
      }
      if fanIsOn {
        fanDuration := fanDuration + M.FanDurationStep;
      }
    }

    /** emulate, the data-generation timer callback. */
    method Emulate(outcome: M.RecordResult, now: nat)
      requires Valid()
      modifies this
      ensures Valid()
      ensures var r := M.Emulate(old(Snapshot()), outcome, now);
        Snapshot() == r.state && log == old(log) + r.events
    {
      ghost var log0 := log;
      ghost var sim := M.Simulate(Snapshot());
      Simulate();
      ghost var published := [M.SetTemperatureVar(temperature), M.SetFanDurationVar(fanDuration)];
      log := log + published;
      M.AppendAssoc(log0, sim.events, published);
      ghost var acc := M.Accumulate(Snapshot(), outcome, now);
      Accumulate(outcome, now);
      M.AppendAssoc(log0, sim.events + published, acc.events);
    }

    /** OnDoorSwitchChangeCallback: toggle the door, with push. */
    method OnDoorSwitchChange()
      requires Valid()
      modifies this
      ensures Valid()
      ensures var r := M.OnDoorSwitch(old(Snapshot()));
        Snapshot() == r.state && log == old(log) + r.events
    {
      SwitchDoor(!doorIsOpen, true);
    }

    /** The first part of COMPONENT_INIT, up to the timers. */
    method Boot(dataGen: int, dataPush: int, outside: int, target: Option<int>, boardType: int)
      requires Snapshot() == M.Initial()
      modifies this
      ensures Valid()
      ensures var r := M.Boot(dataGen, dataPush, outside, target, boardType);
        Snapshot() == r.state && log == old(log) + r.events
    {
      LoadConfig(dataGen, dataPush, outside, target);
      mangohBoardType := boardType;
      SwitchFan(fanIsOn, false);
      log := log + [M.SetFanDurationVar(fanDuration), M.SetTemperatureVar(temperature)];
      SwitchDoor(doorIsOpen, false);
    }

    /** The second part of COMPONENT_INIT: timers, with one emulate tick and one push. */
    method StartTimers(outcome: M.RecordResult, now: nat)
      requires Valid()
      modifies this
      ensures Valid()
      ensures var r := M.StartTimers(old(Snapshot()), outcome, now);
        Snapshot() == r.state && log == old(log) + r.events
    {
      ghost var log0 := log;
      ghost var tick := M.Emulate(Snapshot(), outcome, now);
      log := log + [M.SetTimerInterval(M.DataGenTimer, dataGenInterval)];
      ghost var added := [M.SetTimerInterval(M.DataGenTimer, dataGenInterval)];
      Emulate(outcome, now);
      M.AppendAssoc(log0, added, tick.events);
      added := added + tick.events;
      log := log + [M.StartTimer(M.DataGenTimer)];
      M.AppendAssoc(log0, added, [M.StartTimer(M.DataGenTimer)]);
      added := added + [M.StartTimer(M.DataGenTimer)];
      log := log + [M.SetTimerInterval(M.DataPushTimer, dataPushInterval)];
      M.AppendAssoc(log0, added, [M.SetTimerInterval(M.DataPushTimer, dataPushInterval)]);
      added := added + [M.SetTimerInterval(M.DataPushTimer, dataPushInterval)];
      ghost var push := M.PushData(Snapshot());
      PushData();
      M.AppendAssoc(log0, added, push.events);
      added := added + push.events;
      log := log + [M.StartTimer(M.DataPushTimer)];
      M.AppendAssoc(log0, added, [M.StartTimer(M.DataPushTimer)]);
      added := added + [M.StartTimer(M.DataPushTimer)];
      assert log == log0 + added;
    }

    /** COMPONENT_INIT on a freshly loaded program. */
    method Start(dataGen: int, dataPush: int, outside: int, target: Option<int>,
                 boardType: int, outcome: M.RecordResult, now: nat)
      requires Snapshot() == M.Initial()
      modifies this
      ensures Valid()
      ensures var r := M.Startup(dataGen, dataPush, outside, target, boardType, outcome, now);
        Snapshot() == r.state && log == old(log) + r.events
    {
      ghost var log0 := log;
      ghost var boot := M.Boot(dataGen, dataPush, outside, target, boardType);
      Boot(dataGen, dataPush, outside, target, boardType);
      ghost var timers := M.StartTimers(boot.state, outcome, now);
      StartTimers(outcome, now);
      M.AppendAssoc(log0, boot.events, timers.events);
    }
  }
}
