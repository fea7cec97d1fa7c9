/**
 * The sunrise wake-up app as the object Home Assistant drives: its fields are
 * updated in place by the event handlers, which issue their commands in loops
 * over the device lists. Each handler is proved to take the app from its state
 * `s` to the state its function in `SunriseWakeup` gives, and to keep `Inv`.
 */
module SunriseApp {
  import opened Wrappers
  import opened SunriseWakeup

  /**
   * Finds whether a light already reports "on" or a media player "playing",
   * checking the lights first and stopping at the first hit.
   */
  method DevicesAlreadyActive(lights: seq<DeviceId>, players: seq<DeviceId>, states: map<DeviceId, string>)
    returns (active: bool)
    ensures active == AnyDeviceActive(lights, players, states)
  {
    for i := 0 to |lights|
      invariant forall j :: 0 <= j < i ==> StateOf(states, lights[j]) != "on"
    {
      if StateOf(states, lights[i]) == "on" {
        return true;
      }
    }
    for i := 0 to |players|
      invariant forall j :: 0 <= j < i ==> StateOf(states, players[j]) != "playing"
    {
      if StateOf(states, players[i]) == "playing" {
        return true;
      }
    }
    return false;
  }

  class SunriseWakeupApp {
    var running: bool
    var abort: bool
    var lights: seq<DeviceId>
    var players: seq<DeviceId>
    var config: WakeupConfig
    var brightness: real
    var rgbHelper: real
    var rgbColor: seq<real>
    var volume: real
    var ready: seq<DeviceId>
    var readyHandles: seq<Handle>
    var stateHandles: seq<Handle>
    // the outside world: the next handle `listen_state` returns, and every effect so far
    var nextHandle: Handle
    var trace: seq<Effect>

    function State(): AppState
      reads this
    {
      AppState(running, abort, lights, players, config, brightness, rgbHelper, rgbColor, volume,
               ready, readyHandles, stateHandles, nextHandle, trace)
    }

    ghost predicate Valid()
      reads this
    {
      Inv(State())
    }

    /** The app as loaded, before any trigger. */
    constructor ()
      ensures Valid() && State() == InitialState
    {
      running, abort := false, false;
      lights, players := [], [];
      config := UnsetConfig;
      brightness, rgbHelper, rgbColor, volume := 0.0, 0.0, [], 0.0;
      ready, readyHandles, stateHandles := [], [], [];
      nextHandle, trace := 0, [];
    }

    // ---- the Home Assistant calls the app makes, as recorded effects ----

    method CallService(entity: DeviceId, cmd: Command)
      modifies this
      ensures State() == old(State()).(trace := old(trace) + [Call(entity, cmd)])
    {
      trace := trace + [Call(entity, cmd)];
    }

    method ListenState(cb: Callback, entity: DeviceId) returns (h: Handle)
      modifies this
      ensures h == old(nextHandle)
      ensures State() == old(State()).(nextHandle := h + 1, trace := old(trace) + [Listen(h, entity, cb)])
    {
      h := nextHandle;
      nextHandle := nextHandle + 1;
      trace := trace + [Listen(h, entity, cb)];
    }

    method CancelListenState(h: Handle)
      modifies this
      ensures State() == old(State()).(trace := old(trace) + [CancelListen(h)])
    {
      trace := trace + [CancelListen(h)];
    }

    method RunIn(cb: Callback, delaySeconds: nat)
      modifies this
      ensures State() == old(State()).(trace := old(trace) + [Effect.RunIn(cb, delaySeconds)])
    {
      trace := trace + [Effect.RunIn(cb, delaySeconds)];
    }

    // ---- loops shared by the handlers ----

    /** Calls `cmd` on every entity of `ids`, in order. */
    method CallEach(ids: seq<DeviceId>, cmd: Command)
      modifies this
      ensures State() == old(State()).(trace := old(trace) + CallAll(ids, cmd))
    {
      ghost var s0 := State();
      for i := 0 to |ids|
        invariant State() == s0.(trace := trace)
        invariant trace == s0.trace + CallAll(ids[..i], cmd)
      {
        CallAllSnoc(ids, i, cmd);
        CallService(ids[i], cmd);
      }
      assert ids[..|ids|] == ids;
    }

    /** Registers `cb` on every entity of `ids` and returns the new handles, in order. */
    method ListenEach(cb: Callback, ids: seq<DeviceId>) returns (hs: seq<Handle>)
      modifies this
      ensures hs == HandleRange(old(nextHandle), |ids|)
      ensures State() == old(State()).(nextHandle := old(nextHandle) + |ids|,
                                       trace := old(trace) + ListenAll(ids, old(nextHandle), cb))
    {
      ghost var s0 := State();
      hs := [];
      for i := 0 to |ids|
        invariant hs == HandleRange(s0.nextHandle, i)
        invariant State() == s0.(nextHandle := nextHandle, trace := trace)
        invariant nextHandle == s0.nextHandle + i
        invariant trace == s0.trace + ListenAll(ids[..i], s0.nextHandle, cb)
      {
        ListenAllSnoc(ids, i, s0.nextHandle, cb);
        var h := ListenState(cb, ids[i]);
        hs := hs + [h];
      }
      assert ids[..|ids|] == ids;
    }

    /** Cancels every listener of `hs`, in order. */
    method CancelEach(hs: seq<Handle>)
      modifies this
      ensures State() == old(State()).(trace := old(trace) + CancelAll(hs))
    {
      ghost var s0 := State();
      for i := 0 to |hs|
        invariant State() == s0.(trace := trace)
        invariant trace == s0.trace + CancelAll(hs[..i])
      {
        CancelAllSnoc(hs, i);
        CancelListenState(hs[i]);
      }
      assert hs[..|hs|] == hs;
    }

    // ---- the handlers ----

    /** `set_initial_devices_state`. */
    method SetInitialDevicesState()
      modifies this
      ensures State() == SetInitialDevicesStateSpec(old(State()))
    {
      if config.brightnessInitial < 1.0 {
        config := config.(brightnessInitial := 1.0);
      }
      CallEach(lights, LightTurnOn(config.brightnessInitial, config.rgbColorInitial, 0));
      CallEach(players, VolumeSet(config.volumeInitial));
    }

    /** `start_event_sunrise_wakeup`: `now` is the clock, `states` what `get_state` reports. */
    method StartEventSunriseWakeup(t: StartTrigger, now: real, states: map<DeviceId, string>)
      requires Valid()
      modifies this
      ensures Valid()
      ensures State() == StartSpec(old(State()), t, now, states)
    {
      StartPreservesInv(State(), t, now, states);
      if running {
        return;
      }
      running := true;
      abort := false;
      if t.lightIds.None? || t.mediaPlayers.None? {
        return;
      }
      lights := t.lightIds.value;
      players := t.mediaPlayers.value;
      var c := NewWakeupConfig(t.config, now);
      if c.Err? {
        return;
      }
      LoadConfig(c.value);
      var active := DevicesAlreadyActive(lights, players, states);
      if active {
        running := false;
        abort := true;
        return;
      }
      BeginRoutine();
    }

    /** Stores the new event's configuration and the ramp's starting values. */
    method LoadConfig(c: WakeupConfig)
      modifies this
      ensures State() == old(State()).(config := c, brightness := c.brightnessInitial, rgbHelper := c.rgbHelper,
                                       rgbColor := c.rgbColor, volume := c.volumeInitial)
    {
      config := c;
      brightness := c.brightnessInitial;
      rgbHelper := c.rgbHelper;
      rgbColor := c.rgbColor;
      volume := c.volumeInitial;
    }

    /** An accepted start: readiness listeners, the devices' initial state, the playlist. */
    method BeginRoutine()
      modifies this
      ensures State() == PlaySpec(SetInitialDevicesStateSpec(RegisterReadinessSpec(old(State()))))
    {
      RegisterReadiness();
      SetInitialDevicesState();
      Play();
    }

    /** The readiness listeners of `start_event_sunrise_wakeup`, one per light and media player. */
    method RegisterReadiness()
      modifies this
      ensures State() == RegisterReadinessSpec(old(State()))
    {
      var hs := ListenDevices(Callback.DevicesReadyToStart);
      readyHandles := readyHandles + hs;
    }

    /** The playlist is started on the first media player only. */
    method Play()
      modifies this
      ensures State() == PlaySpec(old(State()))
    {
      if |players| == 0 {
        // media_players[0] raises IndexError: the handler ends here
        return;
      }
      CallService(players[0], PlayMedia(config.playlist, "playlist"));
      CallService(players[0], MediaPlay);
    }

    /** Registers `cb` on every light and then every media player, returning the handles in that order. */
    method ListenDevices(cb: Callback) returns (hs: seq<Handle>)
      modifies this
      ensures hs == HandleRange(old(nextHandle), |lights + players|)
      ensures State() == old(State()).(nextHandle := old(nextHandle) + |lights + players|,
                                       trace := old(trace) + ListenAll(lights + players, old(nextHandle), cb))
    {
      ghost var n := nextHandle;
      var hl := ListenEach(cb, lights);
      var hp := ListenEach(cb, players);
      hs := hl + hp;
      HandleRangeAppend(n, |lights|, |players|);
      ListenAllAppend(lights, players, n, cb);
    }

    /**
     * The second half of `devices_ready_to_start`, once every device is ready:
     * readiness listeners cancelled, drop-out listeners registered, first tick in 4 s.
     */
    method Handoff()
      modifies this
      ensures State() == HandoffSpec(old(State()))
    {
      ready := [];
      CancelEach(readyHandles);
      readyHandles := [];
      var hs := ListenDevices(Callback.DeviceStateChanged);
      stateHandles := stateHandles + hs;
      RunIn(Callback.WakeupRoutine, 4);
    }

    /** `devices_ready_to_start(entity, newState)`. */
    method DevicesReadyToStart(entity: DeviceId, newState: string)
      requires Valid()
      modifies this
      ensures Valid()
      ensures State() == ReadySpec(old(State()), entity, newState)
    {
      ReadyPreservesInv(State(), entity, newState);
      if (newState == "on" || newState == "playing") && entity !in ready {
        ready := ready + [entity];
      }
      if |ready| == |lights + players| {
        Handoff();
      }
    }

    /** `turn_off_devices`. */
    method TurnOffDevices()
      modifies this
      ensures State() == TurnOffDevicesSpec(old(State()))
    {
      CallEach(lights, LightTurnOff);
      CallEach(players, MediaPause);
    }

    /** `stop_sunrise_routine`. */
    method StopSunriseRoutine()
      requires Valid()
      modifies this
      ensures Valid()
      ensures State() == StopSpec(old(State()))
    {
      StopPreservesInv(State());
      CancelEach(stateHandles);
      stateHandles := [];
      running := false;
      abort := true;
      TurnOffDevices();
    }

    /** `stop_event_sunrise_wakeup`: the stop trigger. */
    method StopEventSunriseWakeup()
      requires Valid()
      modifies this
      ensures Valid()
      ensures State() == StopSpec(old(State()))
    {
      StopSunriseRoutine();
    }

    /** `device_state_changed(entity, newState)`. */
    method DeviceStateChanged(entity: DeviceId, newState: string)
      requires Valid()
      modifies this
      ensures Valid()
      ensures State() == StateChangedSpec(old(State()), entity, newState)
    {
      if !abort && (newState == "off" || newState == "paused") {
        StopSunriseRoutine();
      }
    }

    /** `wakeup_routine` at time `now`. */
    method WakeupRoutine(now: real)
      requires Valid()
      modifies this
      ensures Valid()
      ensures State() == TickSpec(old(State()), now)
    {
      TickPreservesInv(State(), now);
      ghost var s0 := State();
      if !MaxWakeupTimeReached(config, now) && !abort {
        brightness := brightness + config.brightnessStep;
        if brightness >= config.maxBrightness {
          brightness := config.maxBrightness;
        }
        rgbHelper := rgbHelper + config.rgbStep;
        if rgbHelper >= config.rgbHelperMax {
          rgbHelper := config.rgbHelperMax;
        }
        rgbColor := RgbColor(rgbHelper);
        volume := volume + config.volumeStep;
        if volume >= config.maxVolume {
          volume := config.maxVolume;
        }
        assert State() == s0.(brightness := brightness, rgbHelper := rgbHelper, rgbColor := rgbColor, volume := volume);
        assert brightness == Advance(s0.brightness, config.brightnessStep, config.maxBrightness);
        assert rgbHelper == Advance(s0.rgbHelper, config.rgbStep, config.rgbHelperMax);
        assert volume == Advance(s0.volume, config.volumeStep, config.maxVolume);
        CallEach(lights, LightTurnOn(brightness, rgbColor, 1));
        CallEach(players, VolumeSet(volume));
        RunIn(Callback.WakeupRoutine, 1);
      }
    }
  }
}
