/**
 * The sunrise wake-up routine as a state machine over values. Each handler of
 * the app is a function from the app's state (and the event's inputs) to its
 * next state; everything the app asks of Home Assistant is appended to a
 * trace of effects: service calls, state listeners registered or cancelled,
 * and callbacks scheduled after a delay.
 */
module SunriseWakeup {
  import opened Wrappers

  type DeviceId = string

  /** What `listen_state` returns; this model hands them out from a counter. */
  type Handle = nat

  /** The app's methods that Home Assistant calls back. */
  datatype Callback = DevicesReadyToStart | DeviceStateChanged | WakeupRoutine

  /** The services the app calls on one entity. */
  datatype Command =
    | LightTurnOn(brightness: real, rgbColor: seq<real>, transition: nat)
    | LightTurnOff
    | VolumeSet(level: real)
    | PlayMedia(contentId: string, contentType: string)
    | MediaPlay
    | MediaPause

  datatype Effect =
    | Call(entity: DeviceId, command: Command)
    | Listen(handle: Handle, entity: DeviceId, callback: Callback)
    | CancelListen(handle: Handle)
    | RunIn(callback: Callback, delaySeconds: nat)

  /** The `config` part of the start trigger, already parsed. Durations are in minutes. */
  datatype EventConfig = EventConfig(
    maxSunriseWakeupRuntime: int,
    lightsMaxBrightness: int,
    mediaPlayersMaxVolume: real,
    lightsMaxBrightnessAfter: int,
    mediaPlayersMaxVolumeAfter: int)

  /** The start trigger; a missing device list is `None`. */
  datatype StartTrigger = StartTrigger(
    lightIds: Option<seq<DeviceId>>,
    mediaPlayers: Option<seq<DeviceId>>,
    config: EventConfig)

  /** The per-session configuration derived from the trigger. Times are in seconds. */
  datatype WakeupConfig = WakeupConfig(
    startTime: real,
    endTime: real,
    rgbHelper: real,
    rgbHelperMax: real,
    rgbColor: seq<real>,
    brightnessInitial: real,
    rgbColorInitial: seq<real>,
    volumeInitial: real,
    maxRuntimeSeconds: int,
    maxBrightness: real,
    brightnessAfterSeconds: int,
    maxVolume: real,
    volumeAfterSeconds: int,
    brightnessStep: real,
    rgbStep: real,
    volumeStep: real,
    playlist: string)

  /** Deriving the configuration divides by a ramp duration; a zero one raises ZeroDivisionError. */
  datatype ConfigError = ZeroDivision

  const Playlist := "spotify://88b68d2d78123f3a3850a0703d6729a2/spotify:playlist:43Q9LvUErcQvo4YzG2wd5k"

  /** The colour sent to the lights for a given value of the RGB helper. */
  function RgbColor(helper: real): seq<real> {
    [240.0, helper, 40.0]
  }

  /**
   * `WakeupConfig(event_config)` at time `now`: the deadline lies the maximum
   * runtime after `now`, and each step size is the target divided by the
   * number of one-second ticks of its ramp (the RGB helper ramps over half
   * the brightness ramp). A zero ramp duration is a division by zero.
   */
  function NewWakeupConfig(ec: EventConfig, now: real): (r: Result<WakeupConfig, ConfigError>)
    ensures r.Ok? <==> ec.lightsMaxBrightnessAfter != 0 && ec.mediaPlayersMaxVolumeAfter != 0
    ensures r.Ok? ==>
      var c := r.value;
      && c.startTime == now
      && c.endTime == now + (ec.maxSunriseWakeupRuntime * 60) as real
      && c.maxBrightness == ec.lightsMaxBrightness as real
      && c.maxVolume == ec.mediaPlayersMaxVolume
      && c.brightnessStep * (ec.lightsMaxBrightnessAfter * 60) as real == c.maxBrightness
      && c.rgbStep * (ec.lightsMaxBrightnessAfter * 30) as real == c.rgbHelperMax == 100.0
      && c.volumeStep * (ec.mediaPlayersMaxVolumeAfter * 60) as real == c.maxVolume
      && c.rgbHelper == 0.0 && c.rgbColor == c.rgbColorInitial == RgbColor(0.0)
      && c.brightnessInitial == 1.0 && c.volumeInitial == 0.02
  {
    var brightnessAfter := ec.lightsMaxBrightnessAfter * 60;
    var volumeAfter := ec.mediaPlayersMaxVolumeAfter * 60;
    if brightnessAfter == 0 || volumeAfter == 0 then Err(ZeroDivision)
    else
      var maxBrightness := ec.lightsMaxBrightness as real;
      Ok(WakeupConfig(
        now, now + (ec.maxSunriseWakeupRuntime * 60) as real,
        0.0, 100.0, RgbColor(0.0),
        1.0, RgbColor(0.0), 0.02,
        ec.maxSunriseWakeupRuntime * 60,
        maxBrightness, brightnessAfter,
        ec.mediaPlayersMaxVolume, volumeAfter,
        maxBrightness / brightnessAfter as real,
        100.0 / (brightnessAfter as real * 0.5),
        ec.mediaPlayersMaxVolume / volumeAfter as real,
        Playlist))
  }

  /** The configuration the app holds before its first start. */
  const UnsetConfig := WakeupConfig(0.0, 0.0, 0.0, 100.0, [], 1.0, [], 0.02, 0, 0.0, 0, 0.0, 0, 0.0, 0.0, 0.0, Playlist)

  /** The app's fields (the stored start event reduced to its two device lists) and the trace. */
  datatype AppState = AppState(
    running: bool,
    abort: bool,
    lights: seq<DeviceId>,
    players: seq<DeviceId>,
    config: WakeupConfig,
    brightness: real,
    rgbHelper: real,
    rgbColor: seq<real>,
    volume: real,
    ready: seq<DeviceId>,
    readyHandles: seq<Handle>,
    stateHandles: seq<Handle>,
    nextHandle: Handle,
    trace: seq<Effect>)

  const InitialState := AppState(false, false, [], [], UnsetConfig, 0.0, 0.0, [], 0.0, [], [], [], 0, [])

  // ---- effects of the for-loops over device and handle lists ----

  /** One call of `cmd` per entity, in list order. */
  function CallAll(ids: seq<DeviceId>, cmd: Command): (r: seq<Effect>)
    ensures |r| == |ids|
  {
    if ids == [] then [] else CallAll(ids[..|ids| - 1], cmd) + [Call(ids[|ids| - 1], cmd)]
  }

  /** The `k`-th effect of `CallAll` is the call to the `k`-th entity. */
  lemma {:induction false} CallAllAt(ids: seq<DeviceId>, cmd: Command)
    ensures forall k :: 0 <= k < |ids| ==> CallAll(ids, cmd)[k] == Call(ids[k], cmd)
  {
    if ids != [] {
      var p := ids[..|ids| - 1];
      CallAllAt(p, cmd);
      assert forall k :: 0 <= k < |p| ==> ids[k] == p[k];
    }
  }

  lemma CallAllSnoc(ids: seq<DeviceId>, i: nat, cmd: Command)
    requires i < |ids|
    ensures CallAll(ids[..i + 1], cmd) == CallAll(ids[..i], cmd) + [Call(ids[i], cmd)]
  {
    assert ids[..i + 1][..i] == ids[..i];
  }

  /** One listener per entity, handles numbered from `first`. */
  function ListenAll(ids: seq<DeviceId>, first: Handle, cb: Callback): (r: seq<Effect>)
    ensures |r| == |ids|
  {
    if ids == [] then [] else ListenAll(ids[..|ids| - 1], first, cb) + [Listen(first + |ids| - 1, ids[|ids| - 1], cb)]
  }

  /** The `k`-th effect of `ListenAll` registers the `k`-th entity under handle `first + k`. */
  lemma {:induction false} ListenAllAt(ids: seq<DeviceId>, first: Handle, cb: Callback)
    ensures forall k :: 0 <= k < |ids| ==> ListenAll(ids, first, cb)[k] == Listen(first + k, ids[k], cb)
  {
    if ids != [] {
      var p := ids[..|ids| - 1];
      ListenAllAt(p, first, cb);
      assert forall k :: 0 <= k < |p| ==> ids[k] == p[k];
    }
  }

  lemma ListenAllSnoc(ids: seq<DeviceId>, i: nat, first: Handle, cb: Callback)
    requires i < |ids|
    ensures ListenAll(ids[..i + 1], first, cb) == ListenAll(ids[..i], first, cb) + [Listen(first + i, ids[i], cb)]
  {
    assert ids[..i + 1][..i] == ids[..i];
  }

  /** One cancellation per handle, in list order. */
  function CancelAll(hs: seq<Handle>): (r: seq<Effect>)
    ensures |r| == |hs|
  {
    if hs == [] then [] else CancelAll(hs[..|hs| - 1]) + [CancelListen(hs[|hs| - 1])]
  }

  /** The `k`-th effect of `CancelAll` cancels the `k`-th handle. */
  lemma {:induction false} CancelAllAt(hs: seq<Handle>)
    ensures forall k :: 0 <= k < |hs| ==> CancelAll(hs)[k] == CancelListen(hs[k])
  {
    if hs != [] {
      var p := hs[..|hs| - 1];
      CancelAllAt(p);
      assert forall k :: 0 <= k < |p| ==> hs[k] == p[k];
    }
  }

  lemma CancelAllSnoc(hs: seq<Handle>, i: nat)
    requires i < |hs|
    ensures CancelAll(hs[..i + 1]) == CancelAll(hs[..i]) + [CancelListen(hs[i])]
  {
    assert hs[..i + 1][..i] == hs[..i];
  }

  /** The handles `first`, `first + 1`, ..., `first + n - 1`. */
  function HandleRange(first: Handle, n: nat): (r: seq<Handle>)
    ensures |r| == n
  {
    if n == 0 then [] else HandleRange(first, n - 1) + [first + n - 1]
  }

  /** The `k`-th handle of `HandleRange(first, n)` is `first + k`. */
  lemma {:induction false} HandleRangeAt(first: Handle, n: nat)
    ensures forall k :: 0 <= k < n ==> HandleRange(first, n)[k] == first + k
  {
    if n > 0 {
      HandleRangeAt(first, n - 1);
    }
  }

  /** Consecutive ranges join into one. */
  lemma {:induction false} HandleRangeAppend(first: Handle, a: nat, b: nat)
    ensures HandleRange(first, a) + HandleRange(first + a, b) == HandleRange(first, a + b)
  {
    if b == 0 {
      assert HandleRange(first, a) + [] == HandleRange(first, a);
    } else {
      HandleRangeAppend(first, a, b - 1);
      assert HandleRange(first, a) + (HandleRange(first + a, b - 1) + [first + a + b - 1])
          == (HandleRange(first, a) + HandleRange(first + a, b - 1)) + [first + a + b - 1];
    }
  }

  /** Listening on `xs` and then on `ys` is listening on `xs + ys`, handles continuing from `xs`'s. */
  lemma {:induction false} ListenAllAppend(xs: seq<DeviceId>, ys: seq<DeviceId>, first: Handle, cb: Callback)
    ensures ListenAll(xs, first, cb) + ListenAll(ys, first + |xs|, cb) == ListenAll(xs + ys, first, cb)
  {
    if ys == [] {
      assert xs + ys == xs;
      assert ListenAll(xs, first, cb) + [] == ListenAll(xs, first, cb);
    } else {
      var p := ys[..|ys| - 1];
      var y := ys[|ys| - 1];
      ListenAllAppend(xs, p, first, cb);
      assert (xs + ys)[..|xs + ys| - 1] == xs + p;
      assert (xs + ys)[|xs + ys| - 1] == y;
      assert ListenAll(xs, first, cb) + (ListenAll(p, first + |xs|, cb) + [Listen(first + |xs| + |ys| - 1, y, cb)])
          == (ListenAll(xs, first, cb) + ListenAll(p, first + |xs|, cb)) + [Listen(first + |xs| + |ys| - 1, y, cb)];
    }
  }

  function StateOf(states: map<DeviceId, string>, id: DeviceId): string {
    if id in states then states[id] else ""
  }

  /** Some light is already on or some media player already playing. */
  predicate AnyDeviceActive(lights: seq<DeviceId>, players: seq<DeviceId>, states: map<DeviceId, string>) {
    || (exists i :: 0 <= i < |lights| && StateOf(states, lights[i]) == "on")
    || (exists i :: 0 <= i < |players| && StateOf(states, players[i]) == "playing")
  }

  // ---- the handlers ----

  /** Registering a readiness listener on every light, then on every media player. */
  function RegisterReadinessSpec(s: AppState): AppState {
    var devices := s.lights + s.players;
    s.(readyHandles := s.readyHandles + HandleRange(s.nextHandle, |devices|),
       nextHandle := s.nextHandle + |devices|,
       trace := s.trace + ListenAll(devices, s.nextHandle, DevicesReadyToStart))
  }

  /** `set_initial_devices_state`. */
  function SetInitialDevicesStateSpec(s: AppState): AppState {
    var c := if s.config.brightnessInitial < 1.0 then s.config.(brightnessInitial := 1.0) else s.config;
    s.(config := c,
       trace := s.trace
         + CallAll(s.lights, LightTurnOn(c.brightnessInitial, c.rgbColorInitial, 0))
         + CallAll(s.players, VolumeSet(c.volumeInitial)))
  }

  /** Starting the playlist on the first media player; with none, indexing raises and nothing is called. */
  function PlaySpec(s: AppState): AppState {
    if |s.players| == 0 then s
    else s.(trace := s.trace + [Call(s.players[0], PlayMedia(s.config.playlist, "playlist")), Call(s.players[0], MediaPlay)])
  }

  /** `start_event_sunrise_wakeup` at time `now`, with `states` what `get_state` reports. */
  function StartSpec(s: AppState, t: StartTrigger, now: real, states: map<DeviceId, string>): AppState {
    if s.running then s
    else
      var s1 := s.(running := true, abort := false);
      // StartWakeupEvent.from_dict raises on a missing list, before anything else is stored
      if t.lightIds.None? || t.mediaPlayers.None? then s1
      else
        var s2 := s1.(lights := t.lightIds.value, players := t.mediaPlayers.value);
        match NewWakeupConfig(t.config, now)
        case Err(_) => s2
        case Ok(c) =>
          var s3 := s2.(config := c, brightness := c.brightnessInitial, rgbHelper := c.rgbHelper,
                        rgbColor := c.rgbColor, volume := c.volumeInitial);
          if AnyDeviceActive(s3.lights, s3.players, states) then s3.(running := false, abort := true)
          else PlaySpec(SetInitialDevicesStateSpec(RegisterReadinessSpec(s3)))
  }

  /** The handoff once every device is ready: readiness listeners out, drop-out listeners in, first tick in 4 s. */
  function HandoffSpec(s: AppState): AppState {
    var devices := s.lights + s.players;
    s.(ready := [],
       readyHandles := [],
       stateHandles := s.stateHandles + HandleRange(s.nextHandle, |devices|),
       nextHandle := s.nextHandle + |devices|,
       trace := s.trace + CancelAll(s.readyHandles) + ListenAll(devices, s.nextHandle, DeviceStateChanged)
         + [RunIn(WakeupRoutine, 4)])
  }

  /**
   * The ready list after a readiness notification: the entity joins it when it
   * reports "on" or "playing", whatever kind of device it is, and is never counted twice.
   */
  function Readied(ready: seq<DeviceId>, entity: DeviceId, newState: string): (r: seq<DeviceId>)
    ensures r == ready || r == ready + [entity]
    ensures r != ready <==> (newState == "on" || newState == "playing") && entity !in ready
    ensures Distinct(ready) ==> Distinct(r)
  {
    if (newState == "on" || newState == "playing") && entity !in ready then ready + [entity] else ready
  }

  /** `devices_ready_to_start(entity, new)`. */
  function ReadySpec(s: AppState, entity: DeviceId, newState: string): AppState {
    var ready := Readied(s.ready, entity, newState);
    var s1 := s.(ready := ready);
    if |ready| == |s.lights + s.players| then HandoffSpec(s1) else s1
  }

  /** `turn_off_devices`. */
  function TurnOffDevicesSpec(s: AppState): AppState {
    s.(trace := s.trace + CallAll(s.lights, LightTurnOff) + CallAll(s.players, MediaPause))
  }

  /** `stop_sunrise_routine`. */
  function StopSpec(s: AppState): AppState {
    TurnOffDevicesSpec(s.(trace := s.trace + CancelAll(s.stateHandles), stateHandles := [], running := false, abort := true))
  }

  /** `device_state_changed(entity, new)`: a drop-out stops the routine unless it was aborted already. */
  function StateChangedSpec(s: AppState, entity: DeviceId, newState: string): AppState {
    if !s.abort && (newState == "off" || newState == "paused") then StopSpec(s) else s
  }

  /** `max_wakeup_time_reached` at time `now`: strictly past the deadline. */
  predicate MaxWakeupTimeReached(c: WakeupConfig, now: real) {
    now > c.endTime
  }

  /** One ramp step: add the step, and take the maximum instead once it is reached or passed. */
  function Advance(x: real, step: real, max: real): (r: real)
    ensures r <= max && r <= x + step
    ensures r == max || r == x + step
  {
    if x + step >= max then max else x + step
  }

  /** `wakeup_routine` at time `now`. */
  function TickSpec(s: AppState, now: real): AppState {
    if !MaxWakeupTimeReached(s.config, now) && !s.abort then
      var b := Advance(s.brightness, s.config.brightnessStep, s.config.maxBrightness);
      var h := Advance(s.rgbHelper, s.config.rgbStep, s.config.rgbHelperMax);
      var v := Advance(s.volume, s.config.volumeStep, s.config.maxVolume);
      s.(brightness := b, rgbHelper := h, rgbColor := RgbColor(h), volume := v,
         trace := s.trace + CallAll(s.lights, LightTurnOn(b, RgbColor(h), 1)) + CallAll(s.players, VolumeSet(v))
           + [RunIn(WakeupRoutine, 1)])
    else s
  }

  // ---- the app's invariant: listener handles are never reused ----

  predicate Distinct<T(==)>(xs: seq<T>) {
    forall i, j :: 0 <= i < j < |xs| ==> xs[i] != xs[j]
  }

  /**
   * Every handle the app holds was handed out before, no handle is held twice
   * (in either list or across them), and no device is counted ready twice.
   */
  predicate Inv(s: AppState) {
    && (forall i :: 0 <= i < |s.readyHandles| ==> s.readyHandles[i] < s.nextHandle)
    && (forall i :: 0 <= i < |s.stateHandles| ==> s.stateHandles[i] < s.nextHandle)
    && Distinct(s.readyHandles)
    && Distinct(s.stateHandles)
    && (forall i, j :: 0 <= i < |s.readyHandles| && 0 <= j < |s.stateHandles| ==> s.readyHandles[i] != s.stateHandles[j])
    && Distinct(s.ready)
  }

  /** Appending fresh handles keeps a handle list duplicate-free and below the new counter. */
  lemma AppendFreshHandles(hs: seq<Handle>, n: Handle, c: nat)
    requires Distinct(hs) && forall i :: 0 <= i < |hs| ==> hs[i] < n
    ensures var r := hs + HandleRange(n, c);
      && Distinct(r)
      && (forall i :: 0 <= i < |r| ==> r[i] < n + c)
      && (forall i :: |hs| <= i < |r| ==> r[i] >= n)
  {
    var r := hs + HandleRange(n, c);
    HandleRangeAt(n, c);
    assert forall i :: |hs| <= i < |r| ==> r[i] == HandleRange(n, c)[i - |hs|];
  }

  /** `c` fresh handles appended to one list keep the invariant, whatever else the handler changes. */
  lemma FreshHandlesKeepInv(s: AppState, r: AppState, c: nat, toReady: bool)
    requires Inv(s) && Distinct(r.ready)
    requires r.nextHandle == s.nextHandle + c
    requires toReady ==> r.readyHandles == s.readyHandles + HandleRange(s.nextHandle, c)
    requires toReady ==> r.stateHandles == s.stateHandles
    requires !toReady ==> r.readyHandles == []
    requires !toReady ==> r.stateHandles == s.stateHandles + HandleRange(s.nextHandle, c)
    ensures Inv(r)
  {
    if toReady {
      AppendFreshHandles(s.readyHandles, s.nextHandle, c);
      forall i, j | 0 <= i < |r.readyHandles| && 0 <= j < |r.stateHandles|
        ensures r.readyHandles[i] != r.stateHandles[j]
      {
        if i >= |s.readyHandles| {
          assert r.stateHandles[j] < s.nextHandle <= r.readyHandles[i];
        } else {
          assert r.readyHandles[i] == s.readyHandles[i];
        }
      }
    } else {
      AppendFreshHandles(s.stateHandles, s.nextHandle, c);
    }
  }

  lemma StartPreservesInv(s: AppState, t: StartTrigger, now: real, states: map<DeviceId, string>)
    requires Inv(s)
    ensures Inv(StartSpec(s, t, now, states))
  {
    var r := StartSpec(s, t, now, states);
    if !s.running && t.lightIds.Some? && t.mediaPlayers.Some? && NewWakeupConfig(t.config, now).Ok?
      && !AnyDeviceActive(t.lightIds.value, t.mediaPlayers.value, states)
    {
      var c := |t.lightIds.value + t.mediaPlayers.value|;
      assert r.readyHandles == s.readyHandles + HandleRange(s.nextHandle, c);
      assert r.stateHandles == s.stateHandles && r.ready == s.ready;
      assert r.nextHandle == s.nextHandle + c;
      FreshHandlesKeepInv(s, r, c, true);
    }
  }

  lemma ReadyPreservesInv(s: AppState, entity: DeviceId, newState: string)
    requires Inv(s)
    ensures Inv(ReadySpec(s, entity, newState))
  {
    var ready := Readied(s.ready, entity, newState);
    var r := ReadySpec(s, entity, newState);
    if |ready| == |s.lights + s.players| {
      var c := |s.lights + s.players|;
      assert r.ready == [] && r.readyHandles == [];
      assert r.stateHandles == s.stateHandles + HandleRange(s.nextHandle, c);
      assert r.nextHandle == s.nextHandle + c;
      FreshHandlesKeepInv(s, r, c, false);
    } else {
      assert r == s.(ready := ready);
    }
  }

  lemma StopPreservesInv(s: AppState)
    requires Inv(s)
    ensures Inv(StopSpec(s))
  {
  }

  lemma StateChangedPreservesInv(s: AppState, entity: DeviceId, newState: string)
    requires Inv(s)
    ensures Inv(StateChangedSpec(s, entity, newState))
  {
  }

  lemma TickPreservesInv(s: AppState, now: real)
    requires Inv(s)
    ensures Inv(TickSpec(s, now))
  {
  }
}
