# HomeKit accessory controllers for the ESP32, modelled in Dafny

The repository is a set of example firmwares. Each one turns an ESP32 into a
HomeKit accessory. This project models the per-accessory control logic of nine
of them, and proves what that logic guarantees. The logic turns characteristic
writes, timer expiries, sensor readings and button events into new
characteristic values, notifications and output-pin levels.

One module per firmware, one file per module:

- `blinds.dfy` (`Blinds`): two window blinds. A target write becomes a travel
  time. A poll loop drives the open or close motor, counts the timer down and
  derives the current position from the time left. The wired remote nudges the
  target by one percent, or drives the motor past a limit. Proved:
  - the two motor outputs are never both on;
  - the blind never overshoots its target;
  - the travel time converts back to the position gap, within one percent;
  - a blind left to the loop reaches its target within a bound given by its
    timer, and one pass later its motor stops.
- `thermostat.dfy` (`Thermostat`): heating, cooling and off decided from the
  target mode, the temperature and the thresholds. The heater, cooler and fan
  are switched, and the fan's timer armed, only when the state changes.
- `lock.dfy` (`Lock`): the relay-driven lock. Unlocking arms a five-second
  relock timer. The relay level, the LED and the pending deadline stay
  consistent with the reported state.
- `alarm.dfy` (`Alarm`): the security system. Its guarded chain moves the
  current state to the target. Entering night arm also draws on the MAX7219
  display.
- `battery.dfy` (`Battery`): the ADC reading becomes a percentage, with the
  uint32_t and uint8_t arithmetic written out. The charger's STAT1, STAT2 and
  PG pins are decoded into a charging state and a low-battery status.
- `button_toggle.dfy` (`ButtonToggle`): a relay switch, flipped from HomeKit,
  a push button or a toggle switch.
- `led_strip.dfy` (`LedStrip`): the per-channel colour fade of the WS2812
  strip, with the uint8_t wrap-around and C's truncating division written out.
  The wrap-around is proved never to occur from power-up on, and a channel is
  proved to settle on its target within 255 steps. The strip fill loop and the
  button are modelled too.
- `button.dfy` (`Button`): a programmable-switch button event becomes a
  notified value.
- `lightbulb.dfy` (`Lightbulb`): the on characteristic of a single LED, with
  its format-checked setter.
- `common.dfy` (`Common`): shared types: `Option`, the button library's events,
  and C's truncating division.

Conventions used throughout:

- The outputs of the firmware become class fields, changed by methods.
- Notifications are appended to a ghost `events` log.
- A HomeKit write of a characteristic that has a change callback means two
  steps: the value is stored, then the callback runs. Its method is named
  `TargetWrite` or `OnWrite`.
- One-shot timers are an armed flag plus a period. Firing is a separate method,
  callable only while the timer is armed.
- The scheduler tick `portTICK_PERIOD_MS` is 10 ms.

Behaviour of the code worth knowing, stated by the model:

- The thermostat never checks that the heating threshold is below the cooling
  threshold. With them reversed, a temperature between them heats
  (`Thermostat.AutoModeMisorderedThresholdsHeat`).
- Of the modelled setters, only the lightbulb's `led_on_set` checks a value's
  format. The lock's target setter stores whatever arrives, and so do the
  alarm's and the blinds' characteristic writes.
- A failed sensor read in the thermostat skips the pass. The last temperature
  is kept and nothing marks it as old (`Thermostat.Controller.SensorPoll`).
- In the alarm's chain, the tests for disarm (3) and trigger (4) compare the
  current state with 2, not with 3 or 4. So from night arm, a request to
  disarm or trigger is ignored (`Alarm.NightArmIgnoresDisarmAndTrigger`). A
  repeated disarm or trigger is notified again on every pass
  (`Alarm.RepeatedPass`).

## Model

| member | source | states |
|---|---|---|
| Blinds.TimerToPct | examples/blinds/main/main.c:95-98 | for a non-negative timer the percentage is the largest p with p·full ≤ 100·timer; it is 0 exactly when the timer covers less than one percent |
| Blinds.TravelTime | examples/blinds/main/main.c:365-387 | the travel time is never negative, is 0 when current equals target, and is the gap times the open time (opening) or the close time (closing), divided by 100 and rounded down |
| Blinds.TravelTimeRoundTrip | examples/blinds/main/main.c:365-387 | for full-travel times of at least 100 ticks, converting a gap's travel time back to a percentage gives the gap or the gap minus one |
| Blinds.TravelStep | examples/blinds/main/main.c:181-283 | one poll pass: the target is kept; the outputs are never both on; opening drives only the open output and never passes the target, and closing likewise; at the target both outputs go off; a spent timer is reloaded with the poll time and the position kept; otherwise the timer drops by the poll time, clamped at 0; the remaining gap is the percentage the remaining time covers; a timer reaching 0 puts the blind exactly at its target |
| Blinds.NudgeStep | examples/blinds/main/main.c:288-355 | the target changes exactly when it equals the current position and a press (close tested first) finds it strictly inside 0..100; it then moves one percent and the timer grows by one nudge; the target stays in 0..100; the outputs change only on a press at a limit, which drives that direction alone; exclusive outputs stay exclusive; no press changes nothing |
| Blinds.RunAtRest | examples/blinds/main/main.c:227-231 | a blind at its target with both outputs off stays exactly so for any number of passes |
| Blinds.PollsDecrease | examples/blinds/main/main.c:185-202 | every pass of a blind away from its target lowers the bound on the passes still needed |
| Blinds.RunReachesTarget | examples/blinds/main/main.c:181-231 | with no write and no press, a blind is at its target after `PollsToTarget` passes, and with both outputs off one pass later |
| Blinds.PollsToTargetBound | examples/blinds/main/main.c:185-202 | the passes needed are at most timer / poll time + 2 |
| Blinds.LeftFullOpen | examples/blinds/main/main.c:88-98 | a full opening of the left blind ordered from HomeKit reaches 100 after 86 passes (4.3 s) and the open output is off on pass 87 |
| Blinds.Blind.constructor | examples/blinds/main/main.c:137-161 | both positions and the timer start at 0 with both outputs low |
| Blinds.Blind.OnUpdate | examples/blinds/main/main.c:377-387 | the timer becomes the travel time of the current gap |
| Blinds.Blind.TargetWrite | examples/blinds/main/main.c:157-160 | the target is stored and the timer recomputed from the new gap |
| Blinds.Blind.Travel | examples/blinds/main/main.c:233-283 | the new state is one poll pass of the blind; the current position is notified exactly when it changes |
| Blinds.Blind.Nudge | examples/blinds/main/main.c:288-321 | the new state is the remote step; the target is notified exactly when it changes |
| Blinds.WindowCovering.constructor | examples/blinds/main/main.c:163-175 | two distinct blinds with their calibrations, at rest |
| Blinds.WindowCovering.Tick | examples/blinds/main/main.c:177-360 | each blind undergoes its poll pass and then its remote step; the LED is lit exactly when a position was notified; each blind's log gains its current-position notification exactly when the position changed, then its target notification exactly when the target changed; after the pass neither blind has both outputs on, and a settled blind with no press has both outputs off |
| Thermostat.Decide | examples/thermostat/main/main.c:197-230 | heating exactly under heat demand (heat mode below the target or auto below the heating threshold); cooling exactly under cool demand without heat demand; off otherwise |
| Thermostat.AutoModeBands | examples/thermostat/main/main.c:199-211 | in auto with ordered thresholds: heat below the heating threshold, cool above the cooling threshold, off in between |
| Thermostat.AutoModeMisorderedThresholdsHeat | examples/thermostat/main/main.c:199-211 | with the thresholds reversed, a temperature between them shows cool demand yet heats |
| Thermostat.ModesRestrictOutputs | examples/thermostat/main/main.c:197-230 | heat mode never cools, cool mode never heats, and off or an unknown mode is always off |
| Thermostat.ConsistentOutputsExclusive | examples/thermostat/main/main.c:138-169 | outputs consistent with the state never have heater and cooler both on, and the fan timer is armed only while heating |
| Thermostat.Controller.constructor | examples/thermostat/main/main.c:188-194 | target temperature 22, thresholds 15 and 25, state off, all outputs off |
| Thermostat.Controller.HeaterOn | examples/thermostat/main/main.c:138-140 | the heater is on |
| Thermostat.Controller.HeaterOff | examples/thermostat/main/main.c:142-144 | the heater is off |
| Thermostat.Controller.CoolerOn | examples/thermostat/main/main.c:146-148 | the cooler is on |
| Thermostat.Controller.CoolerOff | examples/thermostat/main/main.c:150-152 | the cooler is off |
| Thermostat.Controller.FanOn | examples/thermostat/main/main.c:158-164 | a positive delay arms the fan timer with that delay and leaves the fan; otherwise the fan starts now |
| Thermostat.Controller.FanOff | examples/thermostat/main/main.c:166-169 | the fan timer is disarmed and the fan off |
| Thermostat.Controller.FanTimerFires | examples/thermostat/main/main.c:154-156 | the armed fan timer fires once while heating and starts the fan |
| Thermostat.Controller.UpdateState | examples/thermostat/main/main.c:197-231 | the state becomes the decided state; if it is unchanged, no output changes and nothing is notified; if it changes, the outputs are those of the entered state and the new state is notified once; outputs stay consistent |
| Thermostat.Controller.TargetWrite | examples/thermostat/main/main.c:173-175 | the written setting takes the value and the other three settings, temperature and humidity are kept; the state is re-decided as by `update_state` |
| Thermostat.Controller.SensorPoll | examples/thermostat/main/main.c:247-261 | a failed read changes nothing; a good read stores and notifies temperature and humidity, keeps the target state, target temperature and both thresholds, then re-decides the state |
| Thermostat.UpdateStateIdempotent | examples/thermostat/main/main.c:197-231 | once the state agrees with the inputs, `update_state` changes neither the state nor any output and notifies nothing |
| Lock.LockMechanism.constructor | examples/lock/main/main.c:160-171 | current unknown, target secured, relay closed, LED off, no deadline pending |
| Lock.LockMechanism.LockInit | examples/lock/main/main.c:211-217 | reports secured, notified, with no deadline; relay and state stay consistent exactly when the lock was not open |
| Lock.LockMechanism.Lock | examples/lock/main/main.c:190-200 | relay closed, LED off, deadline cancelled, state secured, notified only when it changed |
| Lock.LockMechanism.Unlock | examples/lock/main/main.c:219-230 | relay open, LED on, state unsecured and always notified, relock deadline of 5000 ms pending |
| Lock.LockMechanism.Timeout | examples/lock/main/main.c:202-209 | target and current become secured, each notified only if it changed, with the relay closed |
| Lock.LockMechanism.TimerFires | examples/lock/main/main.c:216 | the pending relock deadline fires once and leaves the lock secured with no deadline |
| Lock.LockMechanism.TargetStateSetter | examples/lock/main/main.c:173-181 | the target is stored; 0 unlocks with a deadline, any other value locks |
| Lock.LockMechanism.ButtonCallback | examples/lock/main/main.c:107-125 | a single press unlocks without touching the target; any other event changes nothing |
| Lock.LockWhenSecuredIsSilent | examples/lock/main/main.c:190-200 | locking a secured lock notifies nothing |
| Lock.UnlockThenRelock | examples/lock/main/main.c:219-230 | a press then the deadline: notified unsecured then secured, ending secured with no deadline |
| Alarm.Transition | examples/alarm/main/main.c:147-174 | a pass fires exactly when away or stay arm is requested and not current, night arm is requested and not current, or disarm/trigger is requested outside night arm; the new state is the target |
| Alarm.NextState | examples/alarm/main/main.c:147-174 | the state after a pass is the old state or the target |
| Alarm.Emitted | examples/alarm/main/main.c:147-174 | a pass emits at most two events, and some exactly when it fires |
| Alarm.NightArmIgnoresDisarmAndTrigger | examples/alarm/main/main.c:159-168 | from night arm, disarm and trigger requests leave the state as it is |
| Alarm.OneNotificationPerPass | examples/alarm/main/main.c:147-174 | a firing pass notifies the target state once, followed by the night display exactly when it is night arm |
| Alarm.RepeatedPass | examples/alarm/main/main.c:147-174 | repeating a pass for targets 0 to 2 does nothing; for 3 or 4 outside night arm it notifies the same state again |
| Alarm.UnknownTargetIgnored | examples/alarm/main/main.c:147-174 | a target outside 0..4 never fires |
| Alarm.SecuritySystem.constructor | examples/alarm/main/main.c:138-139 | both states start at stay arm |
| Alarm.SecuritySystem.UpdateState | examples/alarm/main/main.c:147-174 | the state becomes the next state and the pass's events are appended |
| Alarm.SecuritySystem.TargetWrite | examples/alarm/main/main.c:135-139 | the target is stored and `update_state` runs |
| Alarm.RedundantWriteSuppressed | examples/alarm/main/main.c:148-152 | writing away arm twice yields one notification |
| Battery.Percentage | examples/battery/main/main.c:142-148 | always a uint8_t; for a 12-bit reading no wrap-around occurs, the result is 100·raw/4095 rounded down, at most 100, and 100 at full scale |
| Battery.BatteryLevelNotification | examples/battery/main/main.c:148-156 | a level is published exactly when the percentage is positive, and it is that percentage, 1..100 for a 12-bit reading |
| Battery.PercentageMonotone | examples/battery/main/main.c:148 | a higher 12-bit reading never gives a lower percentage |
| Battery.LevelPublishedFromReading41 | examples/battery/main/main.c:148-156 | over 0..4095 a level is published exactly for readings of at least 41 |
| Battery.AdcFailurePublishesNothing | examples/battery/main/main.c:142-156 | the failure value -1, wrapped to uint32_t, gives percentage 0 and no publication |
| Battery.ChargingState | examples/battery/main/main.c:176-187 | (STAT1, STAT2, PG) = (0,1,1) gives 0, (1,0,1) gives 1, (0,0,1) gives 2, each in both directions; nothing is published when PG is low or both STAT pins are high |
| Battery.LowBatteryStatus | examples/battery/main/main.c:206-213 | (0,1,1) gives 0 and (1,0,0) gives 1, both directions; every other pattern publishes nothing |
| Battery.DecodersAgree | examples/battery/main/main.c:176-213 | charge complete is reported as not charging exactly when the battery is reported normal, and the low-battery pattern has no charging state |
| Button.SwitchEventValue | examples/button/main/main.c:116-133 | single press gives 0, double press 1, long press 2, each in both directions; a triple press or an unknown event notifies nothing |
| ButtonToggle.Switch.constructor | examples/button_toggle/main/main.c:124 | the switch starts off and notifies nothing |
| ButtonToggle.Switch.RelayInit | examples/button_toggle/main/main.c:126-131 | the relay shows the switch state |
| ButtonToggle.Switch.SwitchOnCallback | examples/button_toggle/main/main.c:133-135 | the relay shows the switch state, which is unchanged |
| ButtonToggle.Switch.OnWrite | examples/button_toggle/main/main.c:124 | the written value is stored and the relay follows it, with no notification |
| ButtonToggle.Switch.ToggleCallback | examples/button_toggle/main/main.c:153-157 | the switch flips, the relay follows and the new value is notified |
| ButtonToggle.Switch.ButtonCallback | examples/button_toggle/main/main.c:137-151 | a single press flips and notifies like the toggle; anything else changes nothing |
| ButtonToggle.TwoFlipsRestore | examples/button_toggle/main/main.c:137-157 | two flips by either input restore switch and relay and notify the flipped then the original value |
| Lightbulb.Led.constructor | examples/5.lightbulb/led/main/main.c:77 | `led_on` starts false |
| Lightbulb.Led.LedInit | examples/5.lightbulb/led/main/main.c:83-86 | the pin shows `led_on` |
| Lightbulb.Led.LedOnGet | examples/5.lightbulb/led/main/main.c:110-112 | returns `led_on` as a bool value |
| Lightbulb.Led.LedOnSet | examples/5.lightbulb/led/main/main.c:114-122 | a non-bool value changes nothing; a bool value is stored and shown on the pin |
| Lightbulb.SetThenGet | examples/5.lightbulb/led/main/main.c:110-122 | an accepted value reads back unchanged; after a rejected one the old value reads back |
| LedStrip.FadeChannel | examples/led_strip/main/main.c:250-297 | a channel settled on its target is untouched; a rising step never leaves the shown level above the target and a falling one never below; the channel settles exactly when the shown level reaches the target; the settled level is either kept or becomes the target |
| LedStrip.FadeIsIdeal | examples/led_strip/main/main.c:250-264 | on an anchored channel the uint8_t step equals the wrap-free step (settle within 1, else move by max(1, distance/20)) and keeps it anchored |
| LedStrip.FadeSettles | examples/led_strip/main/main.c:250-297 | with a fixed target, an anchored channel has settled on it, showing it exactly, after `Remaining` steps |
| LedStrip.FadeStaysSettled | examples/led_strip/main/main.c:250-258 | a settled channel is never changed again |
| LedStrip.FadeSettlesWithin255 | examples/led_strip/main/main.c:250-297 | 255 steps always suffice for an anchored channel |
| LedStrip.StepChannel | examples/led_strip/main/main.c:250-264 | the statement-level fade of one channel computes the fade step |
| LedStrip.TargetColor | examples/led_strip/main/main.c:235-249 | the target's white byte is always 0 (the conversion writes 0 at main.c:133); while on, red, green and blue are the converted colour's; while off, the target is black |
| LedStrip.FadeReachesTargetColor | examples/led_strip/main/main.c:235-297 | with the on flag and the converted colour held, every colour channel settles within 255 steps on the converted colour while on and on 0 while off |
| LedStrip.Strip.constructor | examples/led_strip/main/main.c:231-232 | all colours and all pixels black, the lightbulb off |
| LedStrip.Strip.Fill | examples/led_strip/main/main.c:136-141 | every pixel of the strip holds the given colour |
| LedStrip.Strip.FadeStep | examples/led_strip/main/main.c:234-298 | target and indicator follow the on flag; red, green and blue each take one fade step; the white channel stays dark; every pixel shows the new colour; the channels stay anchored |
| LedStrip.Strip.ButtonCallback | examples/led_strip/main/main.c:212-228 | a single press negates the on characteristic and notifies it; other presses change nothing |

## Left out

- Wi-Fi and NVS start-up, the HomeKit server configuration, the identify
  tasks, the `dual_core` example and the event handlers: set-up code with no
  control logic.
- I/O happens at the boundary. Button classification and debouncing are done
  by external libraries, so their events are inputs. The remote pins, charger
  pins, ADC readings and DHT readings are inputs too. Each sample of a pin is
  taken as one value for the whole pass.
- Task delays and scheduling are left out. Each loop body is one method call,
  and the calls never interleave.
- The HomeKit library's own routing of a notification to a characteristic's
  change callback is not modelled. That library is not part of this model. If
  it does route them, a remote nudge would also re-run the blinds' `on_update`.
- The floating-point parts of `led_strip` are left out: `hsi2rgb` and the hue,
  saturation and brightness setters. The converted colour's red, green and
  blue bytes are an input of `LedStrip.Strip.FadeStep`. Its white byte is always
  0. The task reads a global `on` that
  `switch_on_callback` never writes (the callback assigns its own parameter).
  So `on` is an input too. As written, the file also declares `x` as `intx`.
  The model takes `x` as `int`.
- Temperatures and humidity are modelled as reals. The firmware's floats are
  only compared and stored.
- The voltage conversion in the battery task is left out. The
  `esp_adc_cal_raw_to_voltage` value is only printed.
- Printing, the blinds' `led_on` lightbulb characteristic and its getters and
  setters, and the blinds' `position_state` characteristics are left out. The
  control logic never reads or writes them.
- Blinds.TravelTimeRoundTrip: holds only for full-travel times of at least 100
  ticks. All four calibrations are 430 ticks or more.
- Blinds.Blind.Nudge: the C `int` timer could in principle overflow after
  hundreds of millions of nudges. This wrap-around is not modelled.
- Lock.LockMechanism.LockInit: the relay invariant holds after it only when the
  lock was not open. It runs once, at start-up, before any unlock.
