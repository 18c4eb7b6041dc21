/** The thermostat (examples/thermostat): a heater, a cooler and a fan are
    switched from the target heating/cooling state, the measured temperature,
    the target temperature and the two auto-mode thresholds. Temperatures are
    only compared, so they are modelled as reals. Target states: 0 off, 1 heat,
    2 cool, 3 auto; current states: 0 off, 1 heating, 2 cooling. The output pins
    are active low; the model records whether each output is on. */
module Thermostat {

  const Off: int := 0
  const Heating: int := 1
  const Cooling: int := 2

  const TargetHeat: int := 1
  const TargetCool: int := 2
  const TargetAuto: int := 3

  /** Milliseconds between entering heating and starting the fan. */
  const HeaterFanDelay: int := 30000
  /** Milliseconds between entering cooling and starting the fan. */
  const CoolerFanDelay: int := 0

  /** What `update_state` reads. */
  datatype Inputs = Inputs(
    targetState: int,
    temperature: real,
    targetTemperature: real,
    heatingThreshold: real,
    coolingThreshold: real)

  /** Heat is wanted: heat mode below the target, or auto mode below the
      heating threshold. */
  predicate HeatDemand(i: Inputs)
  {
    || (i.targetState == TargetHeat && i.temperature < i.targetTemperature)
    || (i.targetState == TargetAuto && i.temperature < i.heatingThreshold)
  }

  /** Cooling is wanted: cool mode above the target, or auto mode above the
      cooling threshold. */
  predicate CoolDemand(i: Inputs)
  {
    || (i.targetState == TargetCool && i.temperature > i.targetTemperature)
    || (i.targetState == TargetAuto && i.temperature > i.coolingThreshold)
  }

  /** The current state `update_state` settles on: heating whenever heat is
      wanted, otherwise cooling whenever cooling is wanted, otherwise off. */
  function Decide(i: Inputs): (s: int)
    ensures s in {Off, Heating, Cooling}
    ensures s == Heating <==> HeatDemand(i)
    ensures s == Cooling <==> !HeatDemand(i) && CoolDemand(i)
    ensures s == Off <==> !HeatDemand(i) && !CoolDemand(i)
  {
    if HeatDemand(i) then Heating
    else if CoolDemand(i) then Cooling
    else Off
  }

  /** Auto mode with ordered thresholds: below the heating threshold heat, above
      the cooling threshold cool, in between (inclusive) off. */
  lemma AutoModeBands(i: Inputs)
    requires i.targetState == TargetAuto && i.heatingThreshold <= i.coolingThreshold
    ensures i.temperature < i.heatingThreshold ==> Decide(i) == Heating
    ensures i.temperature > i.coolingThreshold ==> Decide(i) == Cooling
    ensures i.heatingThreshold <= i.temperature <= i.coolingThreshold ==> Decide(i) == Off
  {
  }

  /** The thresholds are not validated: with the heating threshold above the
      cooling threshold, a temperature between them heats, because the heating
      test comes first. */
  lemma AutoModeMisorderedThresholdsHeat(i: Inputs)
    requires i.targetState == TargetAuto
    requires i.coolingThreshold < i.temperature < i.heatingThreshold
    ensures CoolDemand(i) && Decide(i) == Heating
  {
  }

  /** Heat mode never cools, cool mode never heats, and off or an unknown target
      state keeps everything off. */
  lemma ModesRestrictOutputs(i: Inputs)
    ensures i.targetState == TargetHeat ==> Decide(i) != Cooling
    ensures i.targetState == TargetCool ==> Decide(i) != Heating
    ensures i.targetState !in {TargetHeat, TargetCool, TargetAuto} ==> Decide(i) == Off
  {
  }

  /** The outputs and the fan timer. */
  datatype Outputs = Outputs(heater: bool, cooler: bool, fan: bool, fanTimerArmed: bool, fanTimerDelay: int)

  /** What entering state `s` leaves behind: heating turns the heater on and the
      fan off with the fan timer armed for the heater delay; cooling turns the
      cooler and (the cooler delay being 0) the fan on at once; off turns all
      three off and disarms the fan timer. */
  predicate EnteredOutputs(s: int, o: Outputs)
  {
    && o.heater == (s == Heating)
    && o.cooler == (s == Cooling)
    && (s == Heating ==> !o.fan && o.fanTimerArmed && o.fanTimerDelay == HeaterFanDelay)
    && (s == Cooling ==> o.fan && !o.fanTimerArmed)
    && (s == Off ==> !o.fan && !o.fanTimerArmed)
  }

  /** The outputs agree with the current state: heater and cooler follow it,
      and while heating the fan is either still waiting for its timer or
      already running. Heater and cooler are therefore never both on. */
  predicate Consistent(s: int, o: Outputs)
  {
    && s in {Off, Heating, Cooling}
    && o.heater == (s == Heating)
    && o.cooler == (s == Cooling)
    && (s == Heating ==> (o.fanTimerArmed && o.fanTimerDelay == HeaterFanDelay && !o.fan) || (!o.fanTimerArmed && o.fan))
    && (s == Cooling ==> o.fan && !o.fanTimerArmed)
    && (s == Off ==> !o.fan && !o.fanTimerArmed)
  }

  lemma ConsistentOutputsExclusive(s: int, o: Outputs)
    requires Consistent(s, o)
    ensures !(o.heater && o.cooler)
    ensures o.fanTimerArmed ==> s == Heating
  {
  }

  datatype Event =
    | CurrentStateNotified(state: int)
    | TemperatureNotified(temperature: real)
    | HumidityNotified(humidity: real)

  /** One result of the DHT sensor read. */
  datatype SensorReading = ReadOk(temperature: real, humidity: real) | ReadFailed

  /** A write of one of the characteristics whose change callback runs
      `update_state`. */
  datatype Write =
    | TargetStateWrite(targetState: int)
    | TargetTemperatureWrite(targetTemperature: real)
    | HeatingThresholdWrite(heatingThreshold: real)
    | CoolingThresholdWrite(coolingThreshold: real)

  class Controller {
    var targetState: int
    var temperature: real
    var humidity: real
    var targetTemperature: real
    var heatingThreshold: real
    var coolingThreshold: real
    var current: int
    var heater: bool
    var cooler: bool
    var fan: bool
    var fanTimerArmed: bool
    var fanTimerDelay: int
    /** Notifications, oldest first. */
    ghost var events: seq<Event>

    function CurrentInputs(): Inputs
      reads this
    {
      Inputs(targetState, temperature, targetTemperature, heatingThreshold, coolingThreshold)
    }

    function CurrentOutputs(): Outputs
      reads this
    {
      Outputs(heater, cooler, fan, fanTimerArmed, fanTimerDelay)
    }

    ghost predicate Valid()
      reads this
    {
      Consistent(current, CurrentOutputs())
    }

    /** Power-up: the characteristics' initial values (target temperature 22,
        thresholds 15 and 25, everything else 0) and the start of
        `temperature_sensor_task`, which turns fan, heater and cooler off. */
    constructor ()
      ensures Valid() && current == Off && targetState == 0
      ensures targetTemperature == 22.0 && heatingThreshold == 15.0 && coolingThreshold == 25.0
      ensures !heater && !cooler && !fan && !fanTimerArmed && events == []
    {
      targetState, current := 0, Off;
      temperature, humidity := 0.0, 0.0;
      targetTemperature, heatingThreshold, coolingThreshold := 22.0, 15.0, 25.0;
      fanTimerArmed, fanTimerDelay := false, 0;
      fan := false;
      heater := false;
      cooler := false;
      events := [];
    }

    method HeaterOn() modifies this`heater ensures heater { heater := true; }
    method HeaterOff() modifies this`heater ensures !heater { heater := false; }
    method CoolerOn() modifies this`cooler ensures cooler { cooler := true; }
    method CoolerOff() modifies this`cooler ensures !cooler { cooler := false; }

    /** `fanOn`: a positive delay arms the one-shot fan timer, otherwise the fan
        starts at once. */
    method FanOn(delay: int)
      modifies this`fan, this`fanTimerArmed, this`fanTimerDelay
      ensures delay > 0 ==> fanTimerArmed && fanTimerDelay == delay && fan == old(fan)
      ensures delay <= 0 ==> fan && fanTimerArmed == old(fanTimerArmed) && fanTimerDelay == old(fanTimerDelay)
    {
      if delay > 0 {
        fanTimerArmed, fanTimerDelay := true, delay;
      } else {
        fan := true;
      }
    }

    /** `fanOff`: disarm the fan timer and stop the fan. */
    method FanOff()
      modifies this`fan, this`fanTimerArmed
      ensures !fan && !fanTimerArmed
    {
      fanTimerArmed := false;
      fan := false;
    }

    /** The fan timer expires (`fan_alarm`): a one-shot fires once, while armed,
        and starts the fan. */
    method FanTimerFires()
      requires Valid() && fanTimerArmed
      modifies this`fan, this`fanTimerArmed
      ensures Valid() && fan && !fanTimerArmed && current == Heating
    {
      fanTimerArmed := false;
      fan := true;
    }

    /** `update_state`: settle on the decided state; the outputs are switched,
        and the new state notified, only when the state changes. */
    method UpdateState()
      requires Valid()
      modifies this`current, this`events, this`heater, this`cooler, this`fan, this`fanTimerArmed, this`fanTimerDelay
      ensures Valid()
      ensures current == Decide(CurrentInputs())
      ensures old(current) == current ==> CurrentOutputs() == old(CurrentOutputs())
      ensures old(current) != current ==> EnteredOutputs(current, CurrentOutputs())
      ensures events == old(events) + (if old(current) != current then [CurrentStateNotified(current)] else [])
    {
      var state := targetState;
      if (state == 1 && temperature < targetTemperature) || (state == 3 && temperature < heatingThreshold) {
        if current != Heating {
          current := Heating;
          events := events + [CurrentStateNotified(current)];
          HeaterOn();
          CoolerOff();
          FanOff();
          FanOn(HeaterFanDelay);
        }
      } else if (state == 2 && temperature > targetTemperature) || (state == 3 && temperature > coolingThreshold) {
        if current != Cooling {
          current := Cooling;
          events := events + [CurrentStateNotified(current)];
          CoolerOn();
          HeaterOff();
          FanOff();
          FanOn(CoolerFanDelay);
        }
      } else {
        if current != Off {
          current := Off;
          events := events + [CurrentStateNotified(current)];
          CoolerOff();
          HeaterOff();
          FanOff();
        }
      }
    }

    /** A write from the controller app: the value is stored and the change
        callback `on_update` runs `update_state`. */
    method TargetWrite(w: Write)
      requires Valid()
      modifies this
      ensures Valid()
      ensures temperature == old(temperature) && humidity == old(humidity)
      ensures targetState == (if w.TargetStateWrite? then w.targetState else old(targetState))
      ensures targetTemperature == (if w.TargetTemperatureWrite? then w.targetTemperature else old(targetTemperature))
      ensures heatingThreshold == (if w.HeatingThresholdWrite? then w.heatingThreshold else old(heatingThreshold))
      ensures coolingThreshold == (if w.CoolingThresholdWrite? then w.coolingThreshold else old(coolingThreshold))
      ensures current == Decide(CurrentInputs())
      ensures old(current) == current ==> CurrentOutputs() == old(CurrentOutputs())
      ensures old(current) != current ==> EnteredOutputs(current, CurrentOutputs())
      ensures events == old(events) + (if old(current) != current then [CurrentStateNotified(current)] else [])
    {
      match w {
        case TargetStateWrite(v) => targetState := v;
        case TargetTemperatureWrite(v) => targetTemperature := v;
        case HeatingThresholdWrite(v) => heatingThreshold := v;
        case CoolingThresholdWrite(v) => coolingThreshold := v;
      }
      UpdateState();
    }

    /** One pass of `temperature_sensor_task`: a successful read stores and
        notifies temperature and humidity and runs `update_state`; a failed read
        changes nothing. */
    method SensorPoll(r: SensorReading)
      requires Valid()
      modifies this`temperature, this`humidity, this`events, this`current
      modifies this`heater, this`cooler, this`fan, this`fanTimerArmed, this`fanTimerDelay
      ensures Valid()
      ensures targetState == old(targetState) && targetTemperature == old(targetTemperature)
      ensures heatingThreshold == old(heatingThreshold) && coolingThreshold == old(coolingThreshold)
      ensures r.ReadFailed? ==> unchanged(this)
      ensures r.ReadOk? ==> temperature == r.temperature && humidity == r.humidity
      ensures r.ReadOk? ==> current == Decide(CurrentInputs())
      ensures r.ReadOk? && old(current) == current ==> CurrentOutputs() == old(CurrentOutputs())
      ensures r.ReadOk? && old(current) != current ==> EnteredOutputs(current, CurrentOutputs())
      ensures r.ReadOk? ==>
        events == old(events) + [TemperatureNotified(r.temperature), HumidityNotified(r.humidity)]
                  + (if old(current) != current then [CurrentStateNotified(current)] else [])
    {
      if r.ReadOk? {
        temperature := r.temperature;
        humidity := r.humidity;
        events := events + [TemperatureNotified(temperature), HumidityNotified(humidity)];
        UpdateState();
      }
    }
  }

  /** Once the state agrees with the inputs (as after any `update_state`),
      another `update_state` switches no output and notifies nothing. */
  method UpdateStateIdempotent(t: Controller)
    requires t.Valid() && t.current == Decide(t.CurrentInputs())
    modifies t
    ensures t.Valid()
    ensures t.current == old(t.current) && t.CurrentOutputs() == old(t.CurrentOutputs())
    ensures t.events == old(t.events)
  {
    t.UpdateState();
  }
}
