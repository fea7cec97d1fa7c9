# AppDaemon home-automation apps, modelled in Dafny

This project models the behavioural core of a set of AppDaemon apps for Home
Assistant:

- **The sunrise wake-up routine** (`conf/apps/sunrise_wakeup.py`). A start trigger
  stores the device lists, derives a deadline and three step sizes from the trigger's
  configuration and resets the ramp to its starting values. Only then does it check
  that no light is already on and no media player already playing. It registers one
  readiness listener per device, then puts every device into a dim, quiet initial
  state, and starts a playlist on the first media player. Once every device has
  reported "on" or "playing", the readiness listeners are cancelled, one drop-out
  listener is registered per device, and a tick is scheduled. Each tick raises
  brightness, RGB helper and volume by their steps, capped at their maxima, sends the
  new values to every device and schedules the next tick one second later. Ticks
  end at the deadline or on an abort. A stop trigger, or a device going "off" or
  "paused", cancels the drop-out listeners and turns every device off or pauses it.
- **The OpenDTU relay** (`conf/apps/open_dtu_client.py`). An MQTT message whose topic
  has at least four `/`-separated segments, the second and third made of digits and
  the fourth not "name" (the first is not looked at), becomes one InfluxDB point, published as an
  event for org "home" and bucket "solar".
- **The InfluxDB writer's JSON object hook** (`conf/apps/influx_writer.py`). Inside a
  decoded dict, it turns string values that spell an unsigned decimal back into an int
  or a float, in place.
- **The `InfluxWriteEvent` record** (`conf/apps/model/influx_write_event.py`) and its
  conversions from and to a dict.

Modules:

| file | module | contents |
|---|---|---|
| `wrappers.dfy` | `Wrappers` | `Option`, `Result` |
| `text.dfy` | `Text` | ASCII digit strings, `str.split`, `str.replace(c, "", 1)`, integer rendering |
| `json.dfy` | `Json` | decoded JSON values; a dict as a list of key/value pairs in insertion order; `dict.get`; truthiness; `str()` |
| `influx_write_event.dfy` | `InfluxWriteEvents` | the event record, `from_dict`, `to_dict` |
| `open_dtu_client.dfy` | `OpenDtuClient` | the topic guard and the record built from a message |
| `influx_writer.dfy` | `InfluxWriter` | the numeric-string test, the value conversion, the in-place hook over a dict object |
| `sunrise_wakeup.dfy` | `SunriseWakeup` | the configuration, the app's state as a value, and one function per handler giving the next state |
| `sunrise_wakeup_app.dfy` | `SunriseApp` | the app as a class whose handlers update its fields in loops, each proved to reach the state its function gives |
| `sunrise_wakeup_properties.dfy` | `SunriseWakeupProperties` | what the handlers promise, as lemmas over those functions |

How the sunrise routine is modelled:

- Everything the app asks of Home Assistant is appended to a trace of effects:
  - a service call on an entity;
  - a state listener registered under a handle;
  - a listener cancelled;
  - a callback scheduled after a delay.
- `listen_state` hands out handles from a counter.
- `datetime.now()` becomes a `now: real` parameter, in seconds.
- `get_state` becomes a map from entity to state.
- The app's invariant `Inv` says three things. Every handle the app holds was handed
  out before. No handle is held twice, in one list or across both. No device is
  counted ready twice. Every handler keeps it. It is a safety property of its own;
  the one consequence drawn from it is that a stop cancels distinct handles that were
  handed out earlier and are not readiness handles (`StopCancelsHeldHandlesOnce`).

Quirks of the code that the model keeps:

- **Stop is not idempotent.** `stop_sunrise_routine` has no guard, so a second stop issues
  the off and pause commands again (`StopTwice`).
- **Stop does not cancel the readiness listeners.** Only `state_change_handles` are
  cancelled. A readiness listener left from an aborted start can still run the handoff
  after a stop (`ReadinessAfterStop`).
- **Stop does not cancel a pending tick.** The `run_in(wakeup_routine, 1)` already
  scheduled survives the stop. A start within that second sets `abort` back to false, so
  the stale tick ramps the new session before its devices are ready and keeps
  rescheduling itself; the later handoff then starts a second chain of ticks
  (`StaleTickAfterRestart`).
- **The deadline exit does not reset the routine.** `sunrise_wakeup_running` stays
  true, and every later start is ignored until a stop (`DeadlineKeepsRunning`).
- **The deadline test is strict** (`now > end_time`). A tick exactly at the deadline still
  ramps (`TickAtDeadline`).
- **Readiness does not depend on the device kind.** A light reporting "playing" counts
  as ready, and so does a media player reporting "on".
- **A start over an already active device is not a no-op.** The lists, the new
  configuration and the initial ramp values are already stored. `running` becomes false
  and `abort` becomes true.
- **Nothing is validated.** Empty device lists are accepted. With no media player,
  `media_players[0]` raises after the initial commands, and the routine stays marked as
  running. With no device at all, the start registers no readiness listener, so only
  a readiness listener left over from an earlier, stopped session can trigger the handoff. A zero ramp duration raises `ZeroDivisionError` in `WakeupConfig` after the
  lists were stored (`NewWakeupConfig` returns `Err`).
- **A missing device list raises** in `StartWakeupEvent.from_dict` before the `None` test
  at line 195 is reached. `running` has already been set to true and `abort` to false,
  and nothing else changes.

## Model

| member | source | states |
|---|---|---|
| `Text.Split` | conf/apps/open_dtu_client.py:22 | `str.split` on one separator: at least one part, no part holds the separator, and joining the parts gives the string back |
| `Text.SplitJoin` | conf/apps/open_dtu_client.py:22 | splitting parts joined by the separator (none holding it) gives those parts back |
| `Text.RemoveFirst` | conf/apps/influx_writer.py:53 | `replace(c, "", 1)`: unchanged without `c`; with it, the first occurrence of `c` is removed and the characters before and after it are kept in order |
| `Text.DigitsValueOfNatToString` | conf/apps/influx_writer.py:57 | reading back the decimal digits of a natural number gives that number |
| `Json.Get` | conf/apps/model/influx_write_event.py:19-21 | `dict.get`: `None` exactly when no pair has the key, otherwise the value of a pair with that key |
| `InfluxWriteEvents.FromDict` | conf/apps/model/influx_write_event.py:16-22 | data is passed through; a missing org or bucket becomes the string "None"; string org and bucket are kept as they are |
| `InfluxWriteEvents.ToDict` | conf/apps/model/influx_write_event.py:24-27 | exactly the keys org, bucket, data, in that order and without repeats, holding the event's three fields |
| `InfluxWriteEvents.FromDictToDict` | conf/apps/model/influx_write_event.py:16-27 | `from_dict(e.to_dict()) == e` for every event |
| `InfluxWriteEvents.ToDictFromDict` | conf/apps/model/influx_write_event.py:16-27 | a dict with string org and bucket keeps org, bucket and data through `from_dict` then `to_dict` |
| `OpenDtuClient.TopicGuard` | conf/apps/open_dtu_client.py:24 | the guard holds iff there are at least four segments, segments 1 and 2 are digit strings and segment 3 is not "name"; it raises exactly when an index it evaluates is out of range |
| `OpenDtuClient.MessageReceived` | conf/apps/open_dtu_client.py:12-32 | a missing or empty topic gives no output; whatever is published goes to org "home", bucket "solar" |
| `OpenDtuClient.PublishedIff` | conf/apps/open_dtu_client.py:15-28 | a string topic is published iff it is non-empty, has at least four segments, segments 1 and 2 are digit strings and segment 3 is not "name"; the event then holds exactly one point: measurement segment 2, no tags, field segment 3 set to the payload |
| `OpenDtuClient.ShortTopicFails` | conf/apps/open_dtu_client.py:22-32 | a topic too short for an index the guard evaluates raises, the exception is caught, and nothing is published |
| `InfluxWriter.NumericStringIff` | conf/apps/influx_writer.py:53 | the test on `replace(".", "", 1).isdigit()` accepts exactly the strings of digits and at most one dot that hold at least one digit |
| `InfluxWriter.ConvertValue` | conf/apps/influx_writer.py:53-57 | non-strings are left alone; a string changes iff it passes the test; a converted value is a float iff it holds a dot, an int otherwise, and such an int is never negative; the converted numbers themselves are stated by `ConvertDigitString` and `ConvertDecimalString` |
| `InfluxWriter.ConvertedIff` | conf/apps/influx_writer.py:53 | a string value is converted iff it is an unsigned decimal |
| `InfluxWriter.ConvertNatString` | conf/apps/influx_writer.py:53-57 | the decimal rendering of any natural number converts to that number as an int |
| `InfluxWriter.ConvertDigitString` | conf/apps/influx_writer.py:53-57 | a digit string, with any number of leading zeros, converts to the int it spells ("007" to 7) |
| `InfluxWriter.DecimalStringValue` | conf/apps/influx_writer.py:53-57 | digits, one dot, then digits pass the numeric test, and `float()` of them is the integer part plus the fraction digits over the matching power of ten |
| `InfluxWriter.ConvertDecimalString` | conf/apps/influx_writer.py:53-57 | a string "<digits>.<digits>" converts to the float whose integer part is the digits before the dot and whose fraction is the digits after it over the matching power of ten |
| `InfluxWriter.SignOrExponentStaysString` | conf/apps/influx_writer.py:53 | a string holding a sign or an exponent letter stays a string |
| `InfluxWriter.TwoDotsStayString` | conf/apps/influx_writer.py:53 | a string holding two dots stays a string |
| `InfluxWriter.NoDigitStaysString` | conf/apps/influx_writer.py:53 | a string without a digit ("" and "." among them) stays a string |
| `InfluxWriter.HookItems` | conf/apps/influx_writer.py:52-57 | the dict after the hook has the same keys in the same order, with each value converted |
| `InfluxWriter.JsonObjectHook` | conf/apps/influx_writer.py:50-58 | the loop overwrites the dict's values in place so that it ends as `HookItems` of the old dict, keys stay unique, and the same dict object is returned |
| `SunriseWakeup.NewWakeupConfig` | conf/apps/sunrise_wakeup.py:85-111 | defined iff both ramp durations are non-zero; then the deadline is the start time plus the runtime in seconds; the brightness step times the brightness ramp's seconds is the maximum brightness; the RGB step times half those seconds is 100; the volume step times the volume ramp's seconds is the maximum volume; the initial values are 1, 0.02 and colour [240, 0, 40] |
| `SunriseWakeup.Readied` | conf/apps/sunrise_wakeup.py:164-165 | the ready list grows by the entity exactly when it reports "on" or "playing" and is not yet in it, and it stays duplicate-free |
| `SunriseWakeup.Advance` | conf/apps/sunrise_wakeup.py:297-309 | one ramp step never exceeds the maximum nor the value plus the step, and is one of the two |
| `SunriseWakeup.StartPreservesInv` | conf/apps/sunrise_wakeup.py:182-244 | a start keeps the handle invariant |
| `SunriseWakeup.ReadyPreservesInv` | conf/apps/sunrise_wakeup.py:160-180 | a readiness notification, with or without the handoff, keeps the handle invariant |
| `SunriseWakeup.StopPreservesInv` | conf/apps/sunrise_wakeup.py:254-267 | a stop keeps the handle invariant |
| `SunriseWakeup.StateChangedPreservesInv` | conf/apps/sunrise_wakeup.py:275-282 | a drop-out notification keeps the handle invariant |
| `SunriseWakeup.TickPreservesInv` | conf/apps/sunrise_wakeup.py:292-335 | a tick keeps the handle invariant |
| `SunriseApp.DevicesAlreadyActive` | conf/apps/sunrise_wakeup.py:209-224 | the two loops find an active device iff some light reports "on" or some media player reports "playing" |
| `SunriseApp.SunriseWakeupApp.constructor` | conf/apps/sunrise_wakeup.py:116-128 | the app starts not running, not aborted, with no devices, handles or effects, and satisfies the invariant |
| `SunriseApp.SunriseWakeupApp.CallEach` | conf/apps/sunrise_wakeup.py:143-156 | a loop over entities appends one call per entity, in order, and changes nothing else |
| `SunriseApp.SunriseWakeupApp.ListenEach` | conf/apps/sunrise_wakeup.py:227-230 | a loop over entities registers one listener per entity under consecutive fresh handles and returns them in order |
| `SunriseApp.SunriseWakeupApp.CancelEach` | conf/apps/sunrise_wakeup.py:258-259 | a loop over handles cancels each one, in order |
| `SunriseApp.SunriseWakeupApp.ListenDevices` | conf/apps/sunrise_wakeup.py:174-177 | the lights' loop then the media players' loop register one listener per device of `lights + players` |
| `SunriseApp.SunriseWakeupApp.SetInitialDevicesState` | conf/apps/sunrise_wakeup.py:136-158 | the initial brightness is raised to at least 1, then every light gets one `turn_on` with it and every media player one `volume_set` |
| `SunriseApp.SunriseWakeupApp.LoadConfig` | conf/apps/sunrise_wakeup.py:193-204 | the new configuration and the ramp's starting values are stored |
| `SunriseApp.SunriseWakeupApp.RegisterReadiness` | conf/apps/sunrise_wakeup.py:226-230 | one readiness listener per device, the handles appended to the readiness handles |
| `SunriseApp.SunriseWakeupApp.Play` | conf/apps/sunrise_wakeup.py:234-244 | the playlist is started and played on the first media player only, and nothing happens without one |
| `SunriseApp.SunriseWakeupApp.BeginRoutine` | conf/apps/sunrise_wakeup.py:226-244 | readiness listeners, then the initial device state, then the playlist |
| `SunriseApp.SunriseWakeupApp.StartEventSunriseWakeup` | conf/apps/sunrise_wakeup.py:182-244 | the start handler reaches `StartSpec` of the old state and keeps the invariant |
| `SunriseApp.SunriseWakeupApp.Handoff` | conf/apps/sunrise_wakeup.py:168-180 | the handoff reaches `HandoffSpec` of the old state |
| `SunriseApp.SunriseWakeupApp.DevicesReadyToStart` | conf/apps/sunrise_wakeup.py:160-180 | the readiness handler reaches `ReadySpec` of the old state and keeps the invariant |
| `SunriseApp.SunriseWakeupApp.TurnOffDevices` | conf/apps/sunrise_wakeup.py:246-252 | one `turn_off` per light, then one `media_pause` per media player |
| `SunriseApp.SunriseWakeupApp.StopSunriseRoutine` | conf/apps/sunrise_wakeup.py:254-267 | the stop reaches `StopSpec` of the old state and keeps the invariant |
| `SunriseApp.SunriseWakeupApp.StopEventSunriseWakeup` | conf/apps/sunrise_wakeup.py:269-273 | the stop trigger is exactly a stop |
| `SunriseApp.SunriseWakeupApp.DeviceStateChanged` | conf/apps/sunrise_wakeup.py:275-282 | the drop-out handler reaches `StateChangedSpec` of the old state and keeps the invariant |
| `SunriseApp.SunriseWakeupApp.WakeupRoutine` | conf/apps/sunrise_wakeup.py:292-335 | the tick handler reaches `TickSpec` of the old state and keeps the invariant |
| `SunriseWakeupProperties.StartRejected` | conf/apps/sunrise_wakeup.py:187-224 | a start while running changes nothing; a missing list only marks the routine running; a zero ramp duration stores the lists and nothing of the configuration; an active device leaves the routine not running and aborted, with no effect and no handle |
| `SunriseWakeupProperties.StartAccepted` | conf/apps/sunrise_wakeup.py:182-244 | an accepted start stores the device lists and the configuration `WakeupConfig` derives from the trigger (deadline and step sizes) and runs with brightness 1, helper 0 and volume 0.02; it registers one readiness listener per light and then per media player; it sends one `turn_on(1, [240, 0, 40], transition 0)` per light and `volume_set(0.02)` per media player; it plays the playlist on the first media player only |
| `SunriseWakeupProperties.ReadyBeforeHandoff` | conf/apps/sunrise_wakeup.py:164-167 | short of every device, a notification changes only the ready list |
| `SunriseWakeupProperties.Handoff` | conf/apps/sunrise_wakeup.py:167-180 | once the ready list counts every device, it is emptied; every readiness handle is cancelled and forgotten; one drop-out listener is registered per device under fresh handles; one tick is scheduled after 4 s; ramp values and flags stay as they were |
| `SunriseWakeupProperties.HandoffHandlesMatchListeners` | conf/apps/sunrise_wakeup.py:174-177 | each drop-out handle kept is the handle of the listener registered on the matching device |
| `SunriseWakeupProperties.TickStopped` | conf/apps/sunrise_wakeup.py:284-295 | a tick strictly past the deadline or after an abort changes nothing and schedules nothing |
| `SunriseWakeupProperties.DeadlineKeepsRunning` | conf/apps/sunrise_wakeup.py:187-189 | after the deadline exit the routine is still marked running, so a new start is ignored |
| `SunriseWakeupProperties.TickAtDeadline` | conf/apps/sunrise_wakeup.py:287 | a tick exactly at the deadline still issues effects |
| `SunriseWakeupProperties.TickRamps` | conf/apps/sunrise_wakeup.py:295-333 | a tick before the deadline keeps each value at or below its maximum; a value that started at or below its maximum with a non-negative step does not decrease; every light gets the new brightness and colour with transition 1; every media player gets the new volume; exactly one tick is scheduled, after 1 s |
| `SunriseWakeupProperties.RampClosedForm` | conf/apps/sunrise_wakeup.py:297-309 | k capped steps from a value at or below the maximum give `min(x + k * step, max)` |
| `SunriseWakeupProperties.RampFromAbove` | conf/apps/sunrise_wakeup.py:297-299 | a value above its maximum is capped to it by the first step and stays there |
| `SunriseWakeupProperties.RampReachesMax` | conf/apps/sunrise_wakeup.py:297-309 | with a non-negative step, one or more steps whose sum reaches the maximum end exactly at it |
| `SunriseWakeupProperties.TicksFollowRamp` | conf/apps/sunrise_wakeup.py:292-335 | ticks before the deadline move brightness, helper and volume exactly as k capped steps |
| `SunriseWakeupProperties.RampsReachMaxima` | conf/apps/sunrise_wakeup.py:101-109 | from the start values, the helper stands at 100 after `after * 30` ticks, the brightness at its maximum after `after * 60` ticks, and the volume at its maximum after `volume_after * 60` ticks (reached by then, possibly earlier) |
| `SunriseWakeupProperties.StopEffects` | conf/apps/sunrise_wakeup.py:246-267 | a stop cancels every drop-out handle and forgets them, is not running and is aborted, sends one `turn_off` per light and one `media_pause` per media player, and keeps the readiness handles and the ready list |
| `SunriseWakeupProperties.StopTwice` | conf/apps/sunrise_wakeup.py:254-267 | a second stop issues the off and pause commands again, so with any device it changes the state |
| `SunriseWakeupProperties.DropOut` | conf/apps/sunrise_wakeup.py:275-282 | a drop-out notification changes the state exactly when the routine is not aborted and the new state is "off" or "paused"; a change leaves the routine stopped and aborted, with no drop-out handle held and the readiness handles kept |
| `SunriseWakeupProperties.StopCancelsHeldHandlesOnce` | conf/apps/sunrise_wakeup.py:254-259 | under the handle invariant, every handle a stop cancels was handed out earlier, none is cancelled twice, and none is a readiness handle still held |
| `SunriseWakeupProperties.DropOutAfterStop` | conf/apps/sunrise_wakeup.py:275-282 | after a stop, drop-out notifications change nothing |
| `SunriseWakeupProperties.StaleTickAfterRestart` | conf/apps/sunrise_wakeup.py:284-335 | a tick that was pending before a stop and fires after a new start, before the deadline, ramps brightness and volume and schedules the next tick, though no drop-out listener is registered |
| `SunriseWakeupProperties.ReadinessAfterStop` | conf/apps/sunrise_wakeup.py:160-180 | a readiness listener that outlives a stop can still register drop-out listeners and schedule a tick, though that tick does nothing |

## Left out

- Home Assistant and AppDaemon plumbing is not executed. `call_service`, `listen_state`,
  `cancel_listen_state`, `run_in` and `mqtt_publish` are recorded as effects or outcomes;
  `listen_event`, `initialize` and `log` are left out.
- `datetime.now()` is a parameter. The 4-second and 1-second delays are recorded values;
  no scheduler runs them.
- Floating-point arithmetic is modelled on `real`. IEEE rounding of the step sizes and of
  the ramp is not modelled, nor the `int` annotations on float fields.
- The `from_dict` parsers of `EventConfig`, `Context`, `Metadata` and `StartWakeupEvent`
  are not modelled. The start trigger arrives parsed, with a missing device list as
  `None`; metadata is dropped.
- The class-level lists of `SunriseWakeupApp` are per-instance fields. Sharing between
  instances is not modelled.
- A stop before any start raises `AttributeError` in `turn_off_devices`, once everything
  else is done. The model gives the same state, with no device call.
- `conf/apps/solix_client.py` is not part of this model. It only copies fields and
  publishes over MQTT.
- In `conf/apps/influx_writer.py`, only `_json_object_hook` is modelled. The InfluxDB
  client, bucket creation over HTTP, environment loading and the MQTT handler are left
  out. So is `json.loads` calling the hook on every nested object.
- `json.dumps`, `json.loads` and `to_json` are library serialisation and are left out.
- OpenDtuClient.MessageReceived: the published event's data is the list of point records that `json.dumps` would serialise, not the serialised string.
- Python's `str.isdigit` is ASCII-only here. Unicode digits are not modelled.
- A dict is a list of key/value pairs in insertion order, with unique keys where
  `dict` guarantees them.
- `str()` is exact for `None`, booleans, integers and strings. For a float, a list or a
  dict it gives a fixed placeholder text.
- InfluxWriter.ConvertDecimalString: a numeric string with an empty integer part, such as ".5", is converted by the model, but no lemma states its value.
- InfluxWriter.JsonObjectHook: `float(value)` is the exact decimal value as a `real`, not the nearest binary double.
