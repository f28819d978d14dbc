/**
 * VolumeController: the system master volume (0-100) and mute flag behind the audio
 * endpoint, stepped up and down under a shared cooldown, plus the media play/pause key.
 * The endpoint is abstract state: `available` says whether it could be opened,
 * `level` and `muted` are what it holds.
 */
module VolumeController {
  import opened Numeric

  const VOLUME_COOLDOWN: real := 0.1

  /** `max(0, min(100, p))`. */
  function ClampPercent(p: int): (r: int)
    ensures 0 <= r <= 100
    ensures 0 <= p <= 100 ==> r == p
    ensures p < 0 ==> r == 0
    ensures p > 100 ==> r == 100
  {
    MaxInt(0, MinInt(100, p))
  }

  /** The level `volume_up` sets: `min(100, current + step)`, clamped again by `set_volume`. */
  function RaisedLevel(current: int, step: int): int
  {
    ClampPercent(MinInt(100, current + step))
  }

  /** The level `volume_down` sets: `max(0, current - step)`, clamped again by `set_volume`. */
  function LoweredLevel(current: int, step: int): int
  {
    ClampPercent(MaxInt(0, current - step))
  }

  /** Raising and lowering move by exactly `step` unless they hit an end of the scale. */
  lemma StepLevels(current: int, step: int)
    requires 0 <= current <= 100 && 0 <= step
    ensures RaisedLevel(current, step) == MinInt(100, current + step)
    ensures LoweredLevel(current, step) == MaxInt(0, current - step)
    ensures current <= RaisedLevel(current, step) && LoweredLevel(current, step) <= current
  {
  }

  /** A step down undoes a step up that did not hit 100, and vice versa. */
  lemma StepRoundTrip(current: int, step: int)
    requires 0 <= current <= 100 && 0 <= step
    ensures current + step <= 100 ==> LoweredLevel(RaisedLevel(current, step), step) == current
    ensures current - step >= 0 ==> RaisedLevel(LoweredLevel(current, step), step) == current
  {
  }

  /** The three ways the hand changes the mute flag. */
  datatype MuteRequest = Toggle | MuteOn | MuteOff

  /** The mute flag after an operation; an unavailable endpoint keeps its flag. */
  function MuteAfter(available: bool, muted: bool, op: MuteRequest): bool
  {
    if !available then muted
    else match op
      case Toggle => !muted
      case MuteOn => true
      case MuteOff => false
  }

  /** Toggling twice restores the flag; mute and unmute are idempotent; they win over any earlier state. */
  lemma MuteAlgebra(available: bool, muted: bool)
    ensures MuteAfter(available, MuteAfter(available, muted, Toggle), Toggle) == muted
    ensures MuteAfter(available, MuteAfter(available, muted, MuteOn), MuteOn) == MuteAfter(available, muted, MuteOn)
    ensures MuteAfter(available, MuteAfter(available, muted, MuteOff), MuteOff) == MuteAfter(available, muted, MuteOff)
    ensures available ==> MuteAfter(available, muted, MuteOn) && !MuteAfter(available, muted, MuteOff)
    ensures available ==> MuteAfter(available, muted, Toggle) != muted
  {
  }

  class Volume {
    /** Whether the audio endpoint interface was obtained (`volume_interface is not None`). */
    const available: bool
    /** Whether the media key injector is installed. */
    const mediaAvailable: bool
    const volumeCooldown: real
    /** `Config.VOLUME_STEP` as copied at construction (the step methods read the live value). */
    const volumeStep: int
    var level: int
    var muted: bool
    var lastVolumeChange: real
    /** Number of play/pause key presses sent. */
    var mediaPresses: nat

    /** The endpoint reports levels on the 0-100 scale. */
    ghost predicate Valid()
      reads this
    {
      0 <= level <= 100
    }

    constructor (available: bool, mediaAvailable: bool, volumeStep: int, level: int, muted: bool)
      requires 0 <= level <= 100
      ensures Valid()
      ensures this.available == available && this.mediaAvailable == mediaAvailable
      ensures this.volumeStep == volumeStep && this.level == level && this.muted == muted
      ensures volumeCooldown == VOLUME_COOLDOWN && lastVolumeChange == 0.0 && mediaPresses == 0
    {
      this.available := available;
      this.mediaAvailable := mediaAvailable;
      this.volumeStep := volumeStep;
      this.level := level;
      this.muted := muted;
      volumeCooldown := VOLUME_COOLDOWN;
      lastVolumeChange := 0.0;
      mediaPresses := 0;
    }

    /** `is_available`. */
    predicate IsAvailable()
    {
      available
    }

    /** `get_volume`: 0 when unavailable. */
    function GetVolume(): (v: int)
      reads this
      requires Valid()
      ensures 0 <= v <= 100
      ensures !available ==> v == 0
    {
      if !available then 0 else level
    }

    /** `is_muted`: False when unavailable. */
    function IsMuted(): (m: bool)
      reads this
      ensures m ==> available
    {
      available && muted
    }

    /** `set_volume`: clamps into [0, 100]; unavailable means False and nothing set. */
    method SetVolume(percent: int) returns (ok: bool)
      requires Valid()
      modifies this`level
      ensures Valid()
      ensures ok == available
      ensures level == (if ok then ClampPercent(percent) else old(level))
    {
      if !available {
        return false;
      }
      level := MaxInt(0, MinInt(100, percent));
      return true;
    }

    /**
     * `volume_up(step)`: refused inside the cooldown; `step` None means the live
     * `Config.VOLUME_STEP` (`configStep`); the cooldown restarts only on success.
     */
    method VolumeUp(now: real, step: Option<int>, configStep: int) returns (ok: bool)
      requires Valid()
      modifies this`level, this`lastVolumeChange
      ensures Valid()
      ensures ok == (now - old(lastVolumeChange) >= volumeCooldown && available)
      ensures var s := if step.Some? then step.value else configStep;
        level == (if ok then RaisedLevel(old(level), s) else old(level))
      ensures lastVolumeChange == (if ok then now else old(lastVolumeChange))
    {
      if now - lastVolumeChange < volumeCooldown {
        return false;
      }
      var s := if step.Some? then step.value else configStep;
      var current := GetVolume();
      var newVolume := MinInt(100, current + s);
      ok := SetVolume(newVolume);
      if ok {
        lastVolumeChange := now;
      }
    }

    /** `volume_down(step)`: the mirror image of `volume_up`, sharing its cooldown. */
    method VolumeDown(now: real, step: Option<int>, configStep: int) returns (ok: bool)
      requires Valid()
      modifies this`level, this`lastVolumeChange
      ensures Valid()
      ensures ok == (now - old(lastVolumeChange) >= volumeCooldown && available)
      ensures var s := if step.Some? then step.value else configStep;
        level == (if ok then LoweredLevel(old(level), s) else old(level))
      ensures lastVolumeChange == (if ok then now else old(lastVolumeChange))
    {
      if now - lastVolumeChange < volumeCooldown {
        return false;
      }
      var s := if step.Some? then step.value else configStep;
      var current := GetVolume();
      var newVolume := MaxInt(0, current - s);
      ok := SetVolume(newVolume);
      if ok {
        lastVolumeChange := now;
      }
    }

    /** `toggle_mute`. */
    method ToggleMute() returns (ok: bool)
      modifies this`muted
      ensures ok == available
      ensures muted == MuteAfter(available, old(muted), Toggle)
    {
      if !available {
        return false;
      }
      var current := IsMuted();
      muted := !current;
      return true;
    }

    /** `mute`: sets the flag only when it is clear. */
    method Mute() returns (ok: bool)
      modifies this`muted
      ensures ok == available
      ensures muted == MuteAfter(available, old(muted), MuteOn)
    {
      if !available {
        return false;
      }
      if !IsMuted() {
        muted := true;
      }
      return true;
    }

    /** `unmute`: clears the flag only when it is set. */
    method Unmute() returns (ok: bool)
      modifies this`muted
      ensures ok == available
      ensures muted == MuteAfter(available, old(muted), MuteOff)
    {
      if !available {
        return false;
      }
      if IsMuted() {
        muted := false;
      }
      return true;
    }

    /** `media_play_pause`: one play/pause key press when the injector exists. */
    method MediaPlayPause() returns (ok: bool)
      modifies this`mediaPresses
      ensures ok == mediaAvailable
      ensures mediaPresses == old(mediaPresses) + (if ok then 1 else 0)
    {
      if !mediaAvailable {
        return false;
      }
      mediaPresses := mediaPresses + 1;
      return true;
    }
  }
}
