/**
 * Properties of the truck across several callbacks: how the simulated
 * temperature evolves tick after tick, how samples are batched into
 * records, and how settings, commands and the saved configuration behave
 * when repeated or reloaded.
 */
module TruckProperties {
  import opened Routing
  import opened TruckModel

  /** The simulation state after `n` data-generation ticks. */
  function Ticks(s: State, n: nat): State
  {
    if n == 0 then s else Simulate(Ticks(s, n - 1)).state
  }

  /** One data-generation tick: the append outcome and the clock reading it sees. */
  datatype Sample = Sample(outcome: RecordResult, now: nat)

  /** Successive emulate callbacks, one per sample, with their effects concatenated. */
  function Run(s: State, samples: seq<Sample>): Step
  {
    if samples == [] then Step(s, [])
    else
      var before := Run(s, samples[..|samples| - 1]);
      var x := samples[|samples| - 1];
      var tick := Emulate(before.state, x.outcome, x.now);
      Step(tick.state, before.events + tick.events)
  }

  /** The simulation reads neither the record handle nor the sample count, and leaves them alone. */
  lemma SimulateIgnoresBuffer(a: State, b: State)
    requires a == b.(recordOpen := a.recordOpen, recordCount := a.recordCount)
    ensures Simulate(a).state == Simulate(b).state.(recordOpen := a.recordOpen, recordCount := a.recordCount)
  {
  }

  /**
   * Whatever the record buffer does, emulate callbacks move temperature,
   * fan and door exactly as the simulation does, and touch no setting.
   */
  lemma {:induction false} RunFollowsSimulation(s: State, samples: seq<Sample>)
    ensures var r := Run(s, samples).state;
      r == Ticks(s, |samples|).(recordOpen := r.recordOpen, recordCount := r.recordCount)
    ensures Settings(Run(s, samples).state) == Settings(s)
  {
    if samples != [] {
      var prefix := samples[..|samples| - 1];
      var x := samples[|samples| - 1];
      RunFollowsSimulation(s, prefix);
      SimulateIgnoresBuffer(Run(s, prefix).state, Ticks(s, |prefix|));
    }
  }

  /** Emulate callbacks keep the truck's invariant. */
  lemma {:induction false} RunKeepsInv(s: State, samples: seq<Sample>)
    requires Inv(s)
    ensures Inv(Run(s, samples).state)
  {
    if samples != [] {
      RunKeepsInv(s, samples[..|samples| - 1]);
    }
  }

  /** Ticks until a cooling truck at `s` first reaches its target: the distance in steps, rounded up. */
  function CoolingTicks(s: State): nat
    requires s.temperature > s.temperatureTarget
  {
    (s.temperature - s.temperatureTarget + TemperatureStep - 1) / TemperatureStep
  }

  /**
   * With the fan on and the door closed, the temperature falls one step
   * per tick; the fan keeps running and accruing duration until the tick
   * that reaches the target, which switches it off and clears the duration.
   */
  lemma {:induction false} CoolDown(s: State, k: nat)
    requires Cooling(s) && s.temperature > s.temperatureTarget
    requires k <= CoolingTicks(s)
    ensures Ticks(s, k).temperature == s.temperature - TemperatureStep * k
    ensures Ticks(s, k).fanIsOn <==> k < CoolingTicks(s)
    ensures Ticks(s, k).fanDuration == if k < CoolingTicks(s) then s.fanDuration + FanDurationStep * k else 0
    ensures Ticks(s, k) == s.(fanIsOn := Ticks(s, k).fanIsOn, fanDuration := Ticks(s, k).fanDuration,
                              temperature := Ticks(s, k).temperature)
  {
    if k > 0 {
      CoolDown(s, k - 1);
    }
  }

  /** Once the target is reached the fan is off and the temperature at or below the target. */
  lemma ReachesTarget(s: State)
    requires Cooling(s) && s.temperature > s.temperatureTarget
    ensures !Ticks(s, CoolingTicks(s)).fanIsOn
    ensures s.temperatureTarget - TemperatureStep < Ticks(s, CoolingTicks(s)).temperature <= s.temperatureTarget
  {
    CoolDown(s, CoolingTicks(s));
  }

  /**
   * When the fan is off or the door is open the truck warms toward the
   * outside temperature one step per tick; fan and door stay as they are,
   * and a running fan keeps accruing duration.
   */
  lemma {:induction false} Drift(s: State, k: nat)
    requires !Cooling(s)
    requires s.temperature + TemperatureStep * k <= 10 * s.temperatureOutside
    ensures Ticks(s, k).temperature == s.temperature + TemperatureStep * k
    ensures Ticks(s, k).fanDuration == if s.fanIsOn then s.fanDuration + FanDurationStep * k else s.fanDuration
    ensures Ticks(s, k) == s.(fanDuration := Ticks(s, k).fanDuration, temperature := Ticks(s, k).temperature)
  {
    if k > 0 {
      Drift(s, k - 1);
    }
  }

  /**
   * When the fan is off or the door is open and the truck is warmer than
   * outside, it cools toward the outside temperature one step per tick;
   * fan and door stay as they are, and a running fan keeps accruing.
   */
  lemma {:induction false} DriftDown(s: State, k: nat)
    requires !Cooling(s)
    requires 10 * s.temperatureOutside + TemperatureStep * k <= s.temperature
    ensures Ticks(s, k).temperature == s.temperature - TemperatureStep * k
    ensures Ticks(s, k).fanDuration == if s.fanIsOn then s.fanDuration + FanDurationStep * k else s.fanDuration
    ensures Ticks(s, k) == s.(fanDuration := Ticks(s, k).fanDuration, temperature := Ticks(s, k).temperature)
  {
    if k > 0 {
      DriftDown(s, k - 1);
    }
  }

  /** Not cooling and within one step of the outside temperature, the truck stays within one step of it. */
  lemma {:induction false} StaysNearOutside(s: State, k: nat)
    requires !Cooling(s)
    requires Dist(s.temperature, 10 * s.temperatureOutside) <= TemperatureStep
    ensures Dist(Ticks(s, k).temperature, 10 * s.temperatureOutside) <= TemperatureStep
    ensures !Cooling(Ticks(s, k)) && Ticks(s, k).temperatureOutside == s.temperatureOutside
  {
    if k > 0 {
      StaysNearOutside(s, k - 1);
    }
  }

  /**
   * In tenths of a degree, from the static initial values the fan cools
   * 42 to exactly the target 22 and switches off on the fifth tick.
   */
  lemma InitialCoolDown()
    ensures Ticks(Initial(), 4).fanIsOn && Ticks(Initial(), 4).fanDuration == 20
    ensures !Ticks(Initial(), 5).fanIsOn && Ticks(Initial(), 5).temperature == 22
  {
    assert CoolingTicks(Initial()) == 5;
    CoolDown(Initial(), 4);
    CoolDown(Initial(), 5);
  }

  /**
   * A stored outside temperature restarts the simulation at 5.2 C; with the
   * default target 2.2 C the fan then runs for seven ticks and switches off
   * on the eighth, at 2.0 C.
   */
  lemma ReloadedCoolDown(dataGen: int, dataPush: int, outside: int)
    requires outside >= 0
    ensures var s := LoadConfig(Initial(), dataGen, dataPush, outside, None).state;
      && Ticks(s, 7).fanIsOn && Ticks(s, 7).fanDuration == 35
      && !Ticks(s, 8).fanIsOn && Ticks(s, 8).temperature == 20
  {
    var s := LoadConfig(Initial(), dataGen, dataPush, outside, None).state;
    assert CoolingTicks(s) == 8;
    CoolDown(s, 7);
    CoolDown(s, 8);
  }

  /** Successive Accumulate calls whose appends all succeed. */
  function Appends(s: State, k: nat, now: nat): Step
  {
    if k == 0 then Step(s, [])
    else
      var before := Appends(s, k - 1, now);
      var acc := Accumulate(before.state, Ok, now);
      Step(acc.state, before.events + acc.events)
  }

  /**
   * Starting without an open record, successful samples are batched by six:
   * after q full batches and j more samples the record is open exactly when
   * j is not 0, and then holds those j samples.
   */
  lemma {:induction false} BatchState(s: State, q: nat, j: nat, now: nat)
    requires !s.recordOpen && j < 6
    ensures var r := Appends(s, 6 * q + j, now).state;
      && (r.recordOpen <==> j != 0)
      && (r.recordOpen ==> r.recordCount == j)
      && r == s.(recordOpen := r.recordOpen, recordCount := r.recordCount)
    decreases 6 * q + j
  {
    if j > 0 {
      BatchState(s, q, j - 1, now);
      AccumulateOk(Appends(s, 6 * q + j - 1, now).state, now);
    } else if q > 0 {
      BatchState(s, q - 1, 5, now);
      AccumulateOk(Appends(s, 6 * q - 1, now).state, now);
    }
  }

  /**
   * Within the batching by six, the append that begins a batch (j = 0) is
   * the one that pushes the location and creates the record, and the sixth
   * (j = 5) is the one that pushes and then deletes it.
   */
  lemma BatchEffects(s: State, q: nat, j: nat, now: nat)
    requires !s.recordOpen && j < 6
    ensures var r := Accumulate(Appends(s, 6 * q + j, now).state, Ok, now);
      && (PushLocation in r.events <==> j == 0)
      && (CreateRecord in r.events <==> j == 0)
      && (PushRecord in r.events <==> j == 5)
      && (DeleteRecord in r.events <==> j == 5)
  {
    var before := Appends(s, 6 * q + j, now).state;
    BatchState(s, q, j, now);
    AccumulateOk(before, now);
    AccumulateEffects(before, Ok, now);
  }

  /** The batching by six stated for any number k of earlier successful samples. */
  lemma BatchesOfSix(s: State, k: nat, now: nat)
    requires !s.recordOpen
    ensures var r := Appends(s, k, now).state;
      && (r.recordOpen <==> k % 6 != 0)
      && (r.recordOpen ==> r.recordCount == k % 6)
    ensures var next := Accumulate(Appends(s, k, now).state, Ok, now);
      && (PushLocation in next.events <==> k % 6 == 0)
      && (PushRecord in next.events <==> k % 6 == 5)
  {
    var q, j := k / 6, k % 6;
    assert k == 6 * q + j;
    BatchState(s, q, j, now);
    BatchEffects(s, q, j, now);
  }

  /** Every sample of the sequence sees a successful append. */
  predicate AllOk(samples: seq<Sample>)
  {
    forall i :: 0 <= i < |samples| ==> samples[i].outcome == Ok
  }

  lemma ModSixStep(n: nat)
    ensures (n + 1) % 6 == if n % 6 == 5 then 0 else n % 6 + 1
  {
    var q := n / 6;
    assert n == 6 * q + n % 6;
    if n % 6 == 5 {
      assert n + 1 == 6 * (q + 1);
    } else {
      assert n + 1 == 6 * q + (n % 6 + 1);
    }
  }

  /**
   * The batching by six through emulate callbacks: starting without an open
   * record, after n ticks whose appends all succeed the record is open
   * exactly when n mod 6 is not 0, and then holds n mod 6 samples.
   */
  lemma {:induction false} RunBatchesOfSix(s: State, samples: seq<Sample>)
    requires !s.recordOpen && AllOk(samples)
    ensures var r := Run(s, samples).state;
      && (r.recordOpen <==> |samples| % 6 != 0)
      && (r.recordOpen ==> r.recordCount == |samples| % 6)
  {
    if samples != [] {
      var prefix := samples[..|samples| - 1];
      assert AllOk(prefix) by {
        forall i | 0 <= i < |prefix| ensures prefix[i].outcome == Ok {
          assert prefix[i] == samples[i];
        }
      }
      RunBatchesOfSix(s, prefix);
      ModSixStep(|prefix|);
      assert samples[|samples| - 1].outcome == Ok;
    }
  }

  /** A successful append adds one sample to the open (or a new) record and closes it when it fills. */
  lemma AccumulateOk(s: State, now: nat)
    ensures var c := if s.recordOpen then s.recordCount else 0;
      var r := Accumulate(s, Ok, now).state;
      && r.recordCount == c + 1
      && (r.recordOpen <==> c + 1 < 6)
      && r == s.(recordOpen := r.recordOpen, recordCount := r.recordCount)
  {
  }

  /** Writing the same value to the same setting twice has the effect of writing it once; an interval write repeated does nothing. */
  lemma WriteSettingTwice(s: State, path: string, value: int)
    ensures var once := OnWriteSetting(s, path, value);
      && OnWriteSetting(once.state, path, value).state == once.state
      && (SettingOf(path) == Some(DataGen) || SettingOf(path) == Some(DataPush) ==>
            OnWriteSetting(once.state, path, value).events == [])
  {
  }

  /** A setting write saves the configuration the truck then holds, and leaves fan, door, temperature and buffer alone. */
  lemma WriteSettingSaves(s: State, path: string, value: int)
    ensures var r := OnWriteSetting(s, path, value);
      && Physics(r.state) == Physics(s)
      && r.state.recordOpen == s.recordOpen && r.state.recordCount == s.recordCount
      && (Saved(r.state) != Saved(s) ==> WriteConfig(Saved(r.state)) in r.events)
  {
  }

  /**
   * Only the interval settings touch the timers, and each only its own:
   * a timer is stopped, given the new interval and started exactly when
   * the path routes to its interval and the value changes it.
   */
  /** The effects of a changed interval touch the timer `u` only, with the new interval `v`. */
  lemma RestartEvents(p: Persisted, u: Timer, v: int, t: Timer)
    ensures var e := [WriteConfig(p)] + Restart(u, v);
      && (StopTimer(t) in e <==> t == u)
      && (SetTimerInterval(t, v) in e <==> t == u)
      && (StartTimer(t) in e <==> t == u)
      && (forall n :: SetTimerInterval(t, n) in e ==> t == u && n == v)
  {
    assert [WriteConfig(p)] + Restart(u, v) == [WriteConfig(p), StopTimer(u), SetTimerInterval(u, v), StartTimer(u)];
  }

  lemma WriteSettingTimers(s: State, path: string, value: int, t: Timer)
    ensures var r := OnWriteSetting(s, path, value);
      var restarted := (exists f :: SettingOf(path) == Some(f) && TimerOf(f) == Some(t)) && Saved(r.state) != Saved(s);
      && (StopTimer(t) in r.events <==> restarted)
      && (SetTimerInterval(t, value) in r.events <==> restarted)
      && (StartTimer(t) in r.events <==> restarted)
      && (forall n :: SetTimerInterval(t, n) in r.events ==> restarted && n == value)
  {
    var r := OnWriteSetting(s, path, value);
    match SettingOf(path) {
      case Some(DataGen) =>
        if value != s.dataGenInterval {
          RestartEvents(Saved(r.state), DataGenTimer, value, t);
          assert SettingOf(path) == Some(DataGen) && TimerOf(DataGen) == Some(DataGenTimer);
        }
      case Some(DataPush) =>
        if value != s.dataPushInterval {
          RestartEvents(Saved(r.state), DataPushTimer, value, t);
          assert SettingOf(path) == Some(DataPush) && TimerOf(DataPush) == Some(DataPushTimer);
        }
      case _ =>
    }
  }

  /** Executing the same command twice leaves the truck as executing it once. */
  lemma CommandTwice(s: State, path: string)
    ensures OnCommand(OnCommand(s, path).state, path).state == OnCommand(s, path).state
  {
  }

  /** Two presses of the door switch restore the door. */
  lemma DoorSwitchTwice(s: State)
    ensures OnDoorSwitch(OnDoorSwitch(s).state).state == s
  {
  }

  /**
   * In the fixed-point model, what the truck saves it loads back unchanged,
   * without saving again, as long as every value is non-negative.
   */
  lemma LoadAfterSave(s: State, t: State)
    requires s.dataGenInterval >= 0 && s.dataPushInterval >= 0 && s.temperatureOutside >= 0
    ensures var p := Saved(s);
      var r := LoadConfig(t, p.dataGenInterval, p.dataPushInterval, p.temperatureOutside, Some(p.temperatureTarget));
      Saved(r.state) == p && r.events == []
  {
  }

  /**
   * A negative outside temperature is saved like any other but reads back
   * as a missing key: the next LoadConfig keeps the previous value and
   * saves again.
   */
  lemma NegativeOutsideNotRestored(s: State, t: State)
    requires s.temperatureOutside < 0 && t.temperatureOutside != s.temperatureOutside
    ensures var p := Saved(s);
      var r := LoadConfig(t, p.dataGenInterval, p.dataPushInterval, p.temperatureOutside, Some(p.temperatureTarget));
      r.state.temperatureOutside == t.temperatureOutside && r.events == [WriteConfig(Saved(r.state))]
  {
  }

  /**
   * When every key reads back as missing (-1 for each int, no target), the
   * truck saves its built-in defaults first thing.
   */
  lemma StartupWithEmptyConfig(boardType: int, outcome: RecordResult, now: nat)
    ensures var r := Startup(-1, -1, -1, None, boardType, outcome, now);
      && r.events[0] == WriteConfig(Persisted(5, 20, 27, 22))
      && r.state.temperature == 38 && r.state.fanIsOn
  {
  }
}
