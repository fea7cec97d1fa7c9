/**
 * What the sunrise wake-up handlers promise, stated over the state functions
 * of `SunriseWakeup`: which effects each handler adds to the trace, in what
 * order, how the three ramps move tick by tick, and the quirks of the app
 * (a stop is not idempotent, readiness listeners survive a stop, a start
 * without device lists leaves the routine marked as running).
 */
module SunriseWakeupProperties {
  import opened Wrappers
  import opened SunriseWakeup

  // ---- the effect lists, described index by index ----

  /** `es` holds exactly one call of `cmd` per entity of `ids`, in order. */
  predicate CallsEach(es: seq<Effect>, ids: seq<DeviceId>, cmd: Command) {
    |es| == |ids| && forall k :: 0 <= k < |ids| ==> es[k] == Call(ids[k], cmd)
  }

  /** `es` registers `cb` once on every entity of `ids`, with handles `first`, `first + 1`, ... */
  predicate ListensEach(es: seq<Effect>, ids: seq<DeviceId>, first: Handle, cb: Callback) {
    |es| == |ids| && forall k :: 0 <= k < |ids| ==> es[k] == Listen(first + k, ids[k], cb)
  }

  /** `es` cancels every handle of `hs` once, in order. */
  predicate CancelsEach(es: seq<Effect>, hs: seq<Handle>) {
    |es| == |hs| && forall k :: 0 <= k < |hs| ==> es[k] == CancelListen(hs[k])
  }

  lemma CallAllCallsEach(ids: seq<DeviceId>, cmd: Command)
    ensures CallsEach(CallAll(ids, cmd), ids, cmd)
  {
    CallAllAt(ids, cmd);
  }

  lemma ListenAllListensEach(ids: seq<DeviceId>, first: Handle, cb: Callback)
    ensures ListensEach(ListenAll(ids, first, cb), ids, first, cb)
  {
    ListenAllAt(ids, first, cb);
  }

  lemma CancelAllCancelsEach(hs: seq<Handle>)
    ensures CancelsEach(CancelAll(hs), hs)
  {
    CancelAllAt(hs);
  }

  /** The five consecutive pieces of a concatenation, recovered by slicing. */
  lemma Slices<T>(p: seq<T>, a: seq<T>, b: seq<T>, c: seq<T>, e: seq<T>)
    ensures var x := p + a + b + c + e;
      var i, j, k := |p| + |a|, |p| + |a| + |b|, |p| + |a| + |b| + |c|;
      && x[..|p|] == p && x[|p|..i] == a && x[i..j] == b && x[j..k] == c && x[k..] == e
  {
    var x := p + a + b + c + e;
    var i, j, k := |p| + |a|, |p| + |a| + |b|, |p| + |a| + |b| + |c|;
    assert x[..|p|] == p;
    assert x[|p|..i] == a;
    assert x[i..j] == b;
    assert x[j..k] == c;
    assert x[k..] == e;
  }

  // ---- start_event_sunrise_wakeup ----

  /**
   * The four ways a start can end short of the routine: already running (no
   * change at all), a missing device list (marked running, nothing else), a
   * zero ramp duration (the lists are stored, the configuration is not), or a
   * device already on or playing (aborted, with no listener and no command).
   */
  lemma StartRejected(s: AppState, t: StartTrigger, now: real, states: map<DeviceId, string>)
    ensures var r := StartSpec(s, t, now, states);
      && (s.running ==> r == s)
      && (!s.running && (t.lightIds.None? || t.mediaPlayers.None?) ==> r == s.(running := true, abort := false))
      && (!s.running && t.lightIds.Some? && t.mediaPlayers.Some?
          && (t.config.lightsMaxBrightnessAfter == 0 || t.config.mediaPlayersMaxVolumeAfter == 0)
          ==> r == s.(running := true, abort := false, lights := t.lightIds.value, players := t.mediaPlayers.value))
      && (!s.running && t.lightIds.Some? && t.mediaPlayers.Some? && NewWakeupConfig(t.config, now).Ok?
          && AnyDeviceActive(t.lightIds.value, t.mediaPlayers.value, states)
          ==> !r.running && r.abort && r.trace == s.trace && r.readyHandles == s.readyHandles
              && r.nextHandle == s.nextHandle && r.stateHandles == s.stateHandles)
  {
  }

  /**
   * An accepted start: one readiness listener per light and then per media
   * player, one `turn_on` per light at brightness 1 in the initial colour
   * without transition, volume 0.02 on every media player, and the playlist
   * started on the first media player only (none when there is none).
   */
  lemma {:induction false} StartAccepted(s: AppState, t: StartTrigger, now: real, states: map<DeviceId, string>)
    requires !s.running && t.lightIds.Some? && t.mediaPlayers.Some?
    requires t.config.lightsMaxBrightnessAfter != 0 && t.config.mediaPlayersMaxVolumeAfter != 0
    requires !AnyDeviceActive(t.lightIds.value, t.mediaPlayers.value, states)
    ensures var r := StartSpec(s, t, now, states);
      var lights, players := t.lightIds.value, t.mediaPlayers.value;
      var n, m := |s.trace|, |lights + players|;
      && r.running && !r.abort
      && r.lights == lights && r.players == players
      && r.config == NewWakeupConfig(t.config, now).value
      && r.brightness == 1.0 && r.rgbHelper == 0.0 && r.rgbColor == RgbColor(0.0) && r.volume == 0.02
      && r.ready == s.ready && r.stateHandles == s.stateHandles
      && r.readyHandles == s.readyHandles + HandleRange(s.nextHandle, m)
      && r.nextHandle == s.nextHandle + m
      && |r.trace| == n + m + m + (if |players| == 0 then 0 else 2)
      && r.trace[..n] == s.trace
      && ListensEach(r.trace[n..n + m], lights + players, s.nextHandle, DevicesReadyToStart)
      && CallsEach(r.trace[n + m..n + m + |lights|], lights, LightTurnOn(1.0, RgbColor(0.0), 0))
      && CallsEach(r.trace[n + m + |lights|..n + m + m], players, VolumeSet(0.02))
      && (|players| > 0 ==>
            r.trace[n + m + m..] == [Call(players[0], PlayMedia(Playlist, "playlist")), Call(players[0], MediaPlay)])
  {
    var lights, players := t.lightIds.value, t.mediaPlayers.value;
    var c := NewWakeupConfig(t.config, now).value;
    var s3 := s.(running := true, abort := false, lights := lights, players := players,
                 config := c, brightness := c.brightnessInitial, rgbHelper := c.rgbHelper,
                 rgbColor := c.rgbColor, volume := c.volumeInitial);
    var s4 := RegisterReadinessSpec(s3);
    var s5 := SetInitialDevicesStateSpec(s4);
    var r := StartSpec(s, t, now, states);
    assert r == PlaySpec(s5);
    var l := ListenAll(lights + players, s.nextHandle, DevicesReadyToStart);
    var a := CallAll(lights, LightTurnOn(1.0, RgbColor(0.0), 0));
    var b := CallAll(players, VolumeSet(0.02));
    var e: seq<Effect> :=
      if |players| == 0 then [] else [Call(players[0], PlayMedia(Playlist, "playlist")), Call(players[0], MediaPlay)];
    assert r.trace == s.trace + l + a + b + e;
    Slices(s.trace, l, a, b, e);
    ListenAllListensEach(lights + players, s.nextHandle, DevicesReadyToStart);
    CallAllCallsEach(lights, LightTurnOn(1.0, RgbColor(0.0), 0));
    CallAllCallsEach(players, VolumeSet(0.02));
  }

  // ---- devices_ready_to_start ----

  /** Without the handoff, a readiness notification changes the ready list only, as `Readied` says. */
  lemma ReadyBeforeHandoff(s: AppState, entity: DeviceId, newState: string)
    requires |Readied(s.ready, entity, newState)| != |s.lights + s.players|
    ensures ReadySpec(s, entity, newState) == s.(ready := Readied(s.ready, entity, newState))
  {
  }

  /**
   * The handoff, once the ready list counts every light and media player:
   * the ready list is emptied, every readiness listener is cancelled and
   * forgotten, one drop-out listener is registered per device, and one tick
   * is scheduled after 4 seconds; nothing else is called.
   */
  lemma {:induction false} Handoff(s: AppState, entity: DeviceId, newState: string)
    requires |Readied(s.ready, entity, newState)| == |s.lights + s.players|
    ensures var r := ReadySpec(s, entity, newState);
      var n, h, m := |s.trace|, |s.readyHandles|, |s.lights + s.players|;
      && r.ready == [] && r.readyHandles == []
      && r.stateHandles == s.stateHandles + HandleRange(s.nextHandle, m)
      && r.nextHandle == s.nextHandle + m
      && r.running == s.running && r.abort == s.abort && r.config == s.config
      && r.brightness == s.brightness && r.rgbHelper == s.rgbHelper && r.volume == s.volume
      && |r.trace| == n + h + m + 1
      && r.trace[..n] == s.trace
      && CancelsEach(r.trace[n..n + h], s.readyHandles)
      && ListensEach(r.trace[n + h..n + h + m], s.lights + s.players, s.nextHandle, DeviceStateChanged)
      && r.trace[n + h + m] == RunIn(WakeupRoutine, 4)
  {
    var s1 := s.(ready := Readied(s.ready, entity, newState));
    var r := ReadySpec(s, entity, newState);
    assert r == HandoffSpec(s1);
    var n, h, m := |s.trace|, |s.readyHandles|, |s.lights + s.players|;
    var c := CancelAll(s.readyHandles);
    var l := ListenAll(s.lights + s.players, s.nextHandle, DeviceStateChanged);
    assert r.trace == s.trace + c + l + [RunIn(WakeupRoutine, 4)];
    CancelAllCancelsEach(s.readyHandles);
    ListenAllListensEach(s.lights + s.players, s.nextHandle, DeviceStateChanged);
    assert r.trace[n..n + h] == c;
    assert r.trace[n + h..n + h + m] == l;
  }

  /** Each drop-out handle the handoff keeps belongs to the listener registered on the matching device. */
  lemma {:induction false} HandoffHandlesMatchListeners(s: AppState, entity: DeviceId, newState: string, k: nat)
    requires |Readied(s.ready, entity, newState)| == |s.lights + s.players|
    requires k < |s.lights + s.players|
    ensures var r := ReadySpec(s, entity, newState);
      var i := |s.trace| + |s.readyHandles| + k;
      && i < |r.trace|
      && r.trace[i] == Listen(r.stateHandles[|s.stateHandles| + k], (s.lights + s.players)[k], DeviceStateChanged)
  {
    Handoff(s, entity, newState);
    HandleRangeAt(s.nextHandle, |s.lights + s.players|);
    var r := ReadySpec(s, entity, newState);
    var n, h, m := |s.trace|, |s.readyHandles|, |s.lights + s.players|;
    assert r.trace[n + h + k] == r.trace[n + h..n + h + m][k];
  }

  // ---- wakeup_routine ----

  /** A tick strictly after the deadline, or once aborted, changes nothing and schedules nothing. */
  lemma TickStopped(s: AppState, now: real)
    requires MaxWakeupTimeReached(s.config, now) || s.abort
    ensures TickSpec(s, now) == s
  {
  }

  /**
   * The deadline exit leaves the routine marked as running, so every later
   * start trigger is ignored until a stop arrives.
   */
  lemma DeadlineKeepsRunning(s: AppState, now: real, t: StartTrigger, later: real, states: map<DeviceId, string>)
    requires s.running && MaxWakeupTimeReached(s.config, now)
    ensures var r := TickSpec(s, now);
      r.running && StartSpec(r, t, later, states) == r
  {
  }

  /** The deadline test is strict: a tick exactly at the deadline still ramps and reschedules. */
  lemma TickAtDeadline(s: AppState)
    requires !s.abort
    ensures TickSpec(s, s.config.endTime).trace[|s.trace|..] != []
  {
  }

  /**
   * A tick before the deadline: each ramp value goes up by its step and is
   * capped at its maximum, every light is set to the new brightness and
   * colour with a one-second transition, every media player to the new
   * volume, and exactly one further tick is scheduled, one second later.
   */
  lemma {:induction false} TickRamps(s: AppState, now: real)
    requires !MaxWakeupTimeReached(s.config, now) && !s.abort
    ensures var r := TickSpec(s, now);
      var c := s.config;
      var n, nl, np := |s.trace|, |s.lights|, |s.players|;
      && r.brightness <= c.maxBrightness && r.rgbHelper <= c.rgbHelperMax && r.volume <= c.maxVolume
      && (s.brightness <= c.maxBrightness && c.brightnessStep >= 0.0 ==> s.brightness <= r.brightness)
      && (s.rgbHelper <= c.rgbHelperMax && c.rgbStep >= 0.0 ==> s.rgbHelper <= r.rgbHelper)
      && (s.volume <= c.maxVolume && c.volumeStep >= 0.0 ==> s.volume <= r.volume)
      && r.rgbColor == RgbColor(r.rgbHelper)
      && |r.trace| == n + nl + np + 1
      && r.trace[..n] == s.trace
      && CallsEach(r.trace[n..n + nl], s.lights, LightTurnOn(r.brightness, r.rgbColor, 1))
      && CallsEach(r.trace[n + nl..n + nl + np], s.players, VolumeSet(r.volume))
      && r.trace[n + nl + np] == RunIn(WakeupRoutine, 1)
      && (forall k :: n <= k < n + nl + np ==> r.trace[k].Call?)
      && r.running == s.running && r.abort == s.abort && r.readyHandles == s.readyHandles
      && r.stateHandles == s.stateHandles && r.nextHandle == s.nextHandle
  {
    var r := TickSpec(s, now);
    var n, nl, np := |s.trace|, |s.lights|, |s.players|;
    var a := CallAll(s.lights, LightTurnOn(r.brightness, r.rgbColor, 1));
    var b := CallAll(s.players, VolumeSet(r.volume));
    assert r.trace == s.trace + a + b + [RunIn(WakeupRoutine, 1)];
    CallAllCallsEach(s.lights, LightTurnOn(r.brightness, r.rgbColor, 1));
    CallAllCallsEach(s.players, VolumeSet(r.volume));
    assert r.trace[n..n + nl] == a;
    assert r.trace[n + nl..n + nl + np] == b;
    forall k | n <= k < n + nl + np
      ensures r.trace[k].Call?
    {
      if k < n + nl {
        assert r.trace[k] == a[k - n];
      } else {
        assert r.trace[k] == b[k - n - nl];
      }
    }
  }

  /** From `x`, `k` ramp steps of size `step` capped at `max`. */
  function Ramp(x: real, step: real, max: real, k: nat): real {
    if k == 0 then x else Advance(Ramp(x, step, max, k - 1), step, max)
  }

  function Min(a: real, b: real): real {
    if a <= b then a else b
  }

  /** A ramp that starts at or below its maximum with a non-negative step stands at `min(x + k * step, max)`. */
  lemma {:induction false} RampClosedForm(x: real, step: real, max: real, k: nat)
    requires x <= max && step >= 0.0
    ensures Ramp(x, step, max, k) == Min(x + k as real * step, max)
  {
    if k > 0 {
      RampClosedForm(x, step, max, k - 1);
    }
  }

  /** A ramp that starts at or above its maximum sits at the maximum from the first step on. */
  lemma {:induction false} RampFromAbove(x: real, step: real, max: real, k: nat)
    requires x >= max && step >= 0.0 && k >= 1
    ensures Ramp(x, step, max, k) == max
  {
    if k > 1 {
      RampFromAbove(x, step, max, k - 1);
    }
  }

  /** With a non-negative step, `k >= 1` steps that add up to the maximum reach it. */
  lemma RampReachesMax(x: real, step: real, max: real, k: nat)
    requires step >= 0.0 && k >= 1 && x + k as real * step >= max
    ensures Ramp(x, step, max, k) == max
  {
    if x <= max {
      RampClosedForm(x, step, max, k);
    } else {
      RampFromAbove(x, step, max, k);
    }
  }

  /** The state after ticks at the given times, in order. */
  function Ticks(s: AppState, times: seq<real>): AppState {
    if times == [] then s else TickSpec(Ticks(s, times[..|times| - 1]), times[|times| - 1])
  }

  /** Ticks before the deadline and without an abort move each ramp value exactly as `Ramp` does. */
  lemma {:induction false} TicksFollowRamp(s: AppState, times: seq<real>)
    requires !s.abort && forall i :: 0 <= i < |times| ==> times[i] <= s.config.endTime
    ensures var r := Ticks(s, times);
      var c := s.config;
      && r.config == c && !r.abort && r.running == s.running
      && r.brightness == Ramp(s.brightness, c.brightnessStep, c.maxBrightness, |times|)
      && r.rgbHelper == Ramp(s.rgbHelper, c.rgbStep, c.rgbHelperMax, |times|)
      && r.volume == Ramp(s.volume, c.volumeStep, c.maxVolume, |times|)
  {
    if times != [] {
      TicksFollowRamp(s, times[..|times| - 1]);
    }
  }

  /**
   * From the values a start sets, the ramps stand at their maxima by the end
   * of their schedule: the RGB helper after `after * 30` ticks, the brightness
   * after `after * 60` and the volume after `volume_after * 60` (for positive
   * durations and non-negative maxima), as long as no abort or deadline intervenes.
   */
  lemma {:induction false} RampsReachMaxima(ec: EventConfig, now: real)
    requires ec.lightsMaxBrightnessAfter > 0 && ec.mediaPlayersMaxVolumeAfter > 0
    requires ec.lightsMaxBrightness >= 0 && ec.mediaPlayersMaxVolume >= 0.0
    ensures var c := NewWakeupConfig(ec, now).value;
      && Ramp(c.rgbHelper, c.rgbStep, c.rgbHelperMax, ec.lightsMaxBrightnessAfter * 30) == 100.0
      && Ramp(c.brightnessInitial, c.brightnessStep, c.maxBrightness, ec.lightsMaxBrightnessAfter * 60) == c.maxBrightness
      && Ramp(c.volumeInitial, c.volumeStep, c.maxVolume, ec.mediaPlayersMaxVolumeAfter * 60) == c.maxVolume
  {
    var c := NewWakeupConfig(ec, now).value;
    var kb, kv := ec.lightsMaxBrightnessAfter * 60, ec.mediaPlayersMaxVolumeAfter * 60;
    var kr := ec.lightsMaxBrightnessAfter * 30;
    assert c.brightnessStep >= 0.0 by {
      assert c.brightnessStep * kb as real == c.maxBrightness;
    }
    assert c.rgbStep >= 0.0 by {
      assert c.rgbStep * kr as real == 100.0;
    }
    assert c.volumeStep >= 0.0 by {
      assert c.volumeStep * kv as real == c.maxVolume;
    }
    RampReachesMax(c.rgbHelper, c.rgbStep, c.rgbHelperMax, kr);
    RampReachesMax(c.brightnessInitial, c.brightnessStep, c.maxBrightness, kb);
    RampReachesMax(c.volumeInitial, c.volumeStep, c.maxVolume, kv);
  }

  // ---- stop and drop-out ----

  /**
   * A stop cancels every drop-out listener and forgets them, marks the routine
   * stopped and aborted, turns every light off and pauses every media player,
   * and keeps the readiness listeners and the ready list as they were.
   */
  lemma {:induction false} StopEffects(s: AppState)
    ensures var r := StopSpec(s);
      var n, h, nl, np := |s.trace|, |s.stateHandles|, |s.lights|, |s.players|;
      && !r.running && r.abort && r.stateHandles == []
      && r.readyHandles == s.readyHandles && r.ready == s.ready && r.nextHandle == s.nextHandle
      && r.brightness == s.brightness && r.rgbHelper == s.rgbHelper && r.volume == s.volume
      && |r.trace| == n + h + nl + np
      && r.trace[..n] == s.trace
      && CancelsEach(r.trace[n..n + h], s.stateHandles)
      && CallsEach(r.trace[n + h..n + h + nl], s.lights, LightTurnOff)
      && CallsEach(r.trace[n + h + nl..], s.players, MediaPause)
  {
    var r := StopSpec(s);
    var n, h, nl := |s.trace|, |s.stateHandles|, |s.lights|;
    var c := CancelAll(s.stateHandles);
    var a := CallAll(s.lights, LightTurnOff);
    var b := CallAll(s.players, MediaPause);
    assert r.trace == s.trace + c + a + b;
    CancelAllCancelsEach(s.stateHandles);
    CallAllCallsEach(s.lights, LightTurnOff);
    CallAllCallsEach(s.players, MediaPause);
    assert r.trace[n..n + h] == c;
    assert r.trace[n + h..n + h + nl] == a;
    assert r.trace[n + h + nl..] == b;
  }

  /** A second stop issues the off and pause commands again: stopping is not idempotent when there are devices. */
  lemma {:induction false} StopTwice(s: AppState)
    ensures StopSpec(StopSpec(s)).trace
         == StopSpec(s).trace + CallAll(s.lights, LightTurnOff) + CallAll(s.players, MediaPause)
    ensures |s.lights + s.players| > 0 ==> StopSpec(StopSpec(s)) != StopSpec(s)
  {
    var r := StopSpec(s);
    assert CancelAll(r.stateHandles) == [];
    assert r.trace + [] == r.trace;
  }

  /**
   * A drop-out notification changes the state exactly when the routine is not
   * aborted and the device went "off" or "paused"; when it does, the routine
   * ends up stopped and aborted with every drop-out listener forgotten.
   */
  lemma DropOut(s: AppState, entity: DeviceId, newState: string)
    ensures var r := StateChangedSpec(s, entity, newState);
      && (r != s <==> !s.abort && (newState == "off" || newState == "paused"))
      && (r != s ==> !r.running && r.abort && r.stateHandles == [] && r.readyHandles == s.readyHandles)
  {
  }

  /**
   * With the invariant, the cancels a stop issues name distinct handles, each
   * handed out earlier by `listen_state`, and none of them a readiness
   * listener the app still holds.
   */
  lemma {:induction false} StopCancelsHeldHandlesOnce(s: AppState)
    requires Inv(s)
    ensures var r := StopSpec(s);
      var n, h := |s.trace|, |s.stateHandles|;
      && (forall i :: n <= i < n + h ==>
            r.trace[i].CancelListen? && r.trace[i].handle < s.nextHandle && r.trace[i].handle !in r.readyHandles)
      && (forall i, j :: n <= i < j < n + h ==> r.trace[i] != r.trace[j])
  {
    var r := StopSpec(s);
    var n, h := |s.trace|, |s.stateHandles|;
    StopEffects(s);
    forall i | n <= i < n + h
      ensures r.trace[i] == CancelListen(s.stateHandles[i - n])
    {
      assert r.trace[n..n + h][i - n] == r.trace[i];
    }
    forall i | n <= i < n + h
      ensures r.trace[i].handle !in r.readyHandles
    {
      assert forall k :: 0 <= k < |s.readyHandles| ==> s.readyHandles[k] != s.stateHandles[i - n];
    }
  }

  /** After a stop, drop-out notifications change nothing. */
  lemma DropOutAfterStop(s: AppState, entity: DeviceId, newState: string)
    ensures StateChangedSpec(StopSpec(s), entity, newState) == StopSpec(s)
  {
  }

  /**
   * A stop does not cancel a pending tick. When a start follows the stop
   * before that tick fires, the tick finds the routine no longer aborted: it
   * ramps the new session and schedules the next tick, although no device has
   * reported ready and no drop-out listener is registered.
   */
  lemma StaleTickAfterRestart(s: AppState, t: StartTrigger, now: real, later: real, states: map<DeviceId, string>)
    requires t.lightIds.Some? && t.mediaPlayers.Some?
    requires NewWakeupConfig(t.config, now).Ok? && later <= NewWakeupConfig(t.config, now).value.endTime
    requires !AnyDeviceActive(t.lightIds.value, t.mediaPlayers.value, states)
    ensures var r := StartSpec(StopSpec(s), t, now, states);
      var k := TickSpec(r, later);
      && r.stateHandles == [] && !r.abort
      && k.brightness == Advance(r.brightness, r.config.brightnessStep, r.config.maxBrightness)
      && k.volume == Advance(r.volume, r.config.volumeStep, r.config.maxVolume)
      && k.trace[|k.trace| - 1] == RunIn(WakeupRoutine, 1)
  {
  }

  /**
   * A readiness listener left over from before a stop can still run the
   * handoff: drop-out listeners are registered and a tick is scheduled again,
   * though the tick then does nothing because the routine is aborted.
   */
  lemma {:induction false} ReadinessAfterStop(s: AppState, entity: DeviceId, newState: string, now: real)
    requires |Readied(s.ready, entity, newState)| == |s.lights + s.players|
    ensures var r := ReadySpec(StopSpec(s), entity, newState);
      && !r.running && r.abort
      && |r.stateHandles| == |s.lights + s.players|
      && r.trace[|r.trace| - 1] == RunIn(WakeupRoutine, 4)
      && TickSpec(r, now) == r
  {
    var s1 := StopSpec(s);
    assert s1.ready == s.ready && s1.lights == s.lights && s1.players == s.players;
    Handoff(s1, entity, newState);
  }
}
