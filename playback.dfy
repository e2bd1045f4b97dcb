/**
 * The playback state machine behind the audio player (frontend/src/hooks/usePlayback.ts):
 * five statuses, a per-status allow-list, a seek counter and a loop flag; the
 * hook clamps seek targets and volumes before dispatching.
 */
module Playback {
  import opened Wrappers
  import opened Strings
  import opened Playables
  import opened JsValues

  datatype PlaybackStatus = Idle | Loading | Playing | Paused | Error

  datatype PlaybackState = PlaybackState(
    status: PlaybackStatus,
    playable: Option<Playable>,
    duration: int,
    seekTarget: int,
    seekRequestId: int,
    volume: int,
    isMuted: bool,
    isLooping: bool,
    errorMessage: string)

  const InitialState := PlaybackState(Idle, None, 0, 0, 0, 75, false, false, "")

  datatype PlaybackAction =
    | Loaded(loadedDuration: int)
    | Load(toLoad: Playable)
    | Play
    | Pause
    | Seek(target: int)
    | VolumeChange(newVolume: int)
    | Mute
    | Unmute
    | Loop
    | Unloop
    | SetError(message: string)

  /** The actions every status with a loaded playable accepts, whichever of PLAY/PAUSE applies. */
  predicate LoadedAction(a: PlaybackAction) {
    a.Load? || a.Seek? || a.VolumeChange? || a.Mute? || a.Unmute? || a.Loop? || a.Unloop? || a.SetError?
  }

  /** `allowedActions[status].includes(action.type)` */
  predicate Allowed(status: PlaybackStatus, a: PlaybackAction) {
    match status
    case Idle => a.Load?
    case Loading => a.Load? || a.Loaded? || a.SetError?
    case Playing => a.Pause? || LoadedAction(a)
    case Paused => a.Play? || LoadedAction(a)
    case Error => a.Load?
  }

  /** `playbackReducer`: a disallowed action returns the state itself. */
  function Reduce(s: PlaybackState, a: PlaybackAction): (r: PlaybackState)
    ensures !Allowed(s.status, a) ==> r == s
  {
    if !Allowed(s.status, a) then s
    else match a
      case Load(p) =>
        if IsSamePlayable(s.playable, Some(p)) then s
        else InitialState.(status := Loading, playable := Some(p))
      case Loaded(d) => s.(status := Paused, duration := d)
      case Play => s.(status := Playing)
      case Pause => s.(status := Paused)
      case Seek(t) => s.(seekTarget := t, seekRequestId := s.seekRequestId + 1)
      case VolumeChange(v) => s.(volume := v)
      case Mute => s.(isMuted := true)
      case Unmute => s.(isMuted := false)
      case Loop => s.(isLooping := true)
      case Unloop => s.(isLooping := false)
      case SetError(m) => s.(status := Error, errorMessage := m)
  }

  /** Idle and Error accept LOAD and nothing else. */
  lemma IdleAndErrorOnlyLoad(s: PlaybackState, a: PlaybackAction)
    requires s.status == Idle || s.status == Error
    requires !a.Load?
    ensures Reduce(s, a) == s
  {
  }

  /** LOAD of the same playable (kind and id) changes nothing; any other LOAD restarts from the initial state. */
  lemma LoadRule(s: PlaybackState, p: Playable)
    ensures IsSamePlayable(s.playable, Some(p)) ==> Reduce(s, Load(p)) == s
    ensures !IsSamePlayable(s.playable, Some(p)) ==>
      Reduce(s, Load(p)) == InitialState.(status := Loading, playable := Some(p))
  {
  }

  /** LOADED moves Loading to Paused and records the duration, nothing else. */
  lemma LoadedRule(s: PlaybackState, d: int)
    requires s.status == Loading
    ensures Reduce(s, Loaded(d)) == s.(status := Paused, duration := d)
  {
  }

  /** SEEK bumps the request counter by one, so repeating a seek to the same target is still a new state. */
  lemma SeekAlwaysObservable(s: PlaybackState, t: int)
    requires s.status == Playing || s.status == Paused
    ensures Reduce(s, Seek(t)).seekRequestId == s.seekRequestId + 1
    ensures Reduce(s, Seek(t)).seekTarget == t
    ensures Reduce(Reduce(s, Seek(t)), Seek(t)) != Reduce(s, Seek(t))
  {
  }

  /** MUTE/UNMUTE and LOOP/UNLOOP set their flag, change nothing else, and repeating them changes nothing more. */
  lemma FlagActions(s: PlaybackState, a: PlaybackAction)
    requires s.status == Playing || s.status == Paused
    requires a.Mute? || a.Unmute? || a.Loop? || a.Unloop?
    ensures var r := Reduce(s, a);
      Reduce(r, a) == r
      && r.(isMuted := s.isMuted, isLooping := s.isLooping) == s
      && (a.Mute? ==> r.isMuted) && (a.Unmute? ==> !r.isMuted)
      && (a.Loop? ==> r.isLooping) && (a.Unloop? ==> !r.isLooping)
  {
  }

  /** The `seek` action's clamp, `Math.max(0, Math.min(duration, raw))`. */
  function SeekTarget(raw: int, duration: int): (t: int)
    ensures 0 <= t
    ensures 0 <= duration ==> t <= duration
    ensures 0 <= raw <= duration ==> t == raw
    ensures raw < 0 ==> t == 0
    ensures 0 <= duration < raw ==> t == duration
  {
    if raw <= duration then (if raw >= 0 then raw else 0) else (if duration >= 0 then duration else 0)
  }

  /** The `setVolume` action's clamp into [0, 100]. */
  function NextVolume(raw: int): (v: int)
    ensures 0 <= v <= 100
    ensures 0 <= raw <= 100 ==> v == raw
    ensures raw < 0 ==> v == 0
    ensures raw > 100 ==> v == 100
  {
    SeekTarget(raw, 100)
  }

  /** `getAudioErrorMessage`: media error codes 1, 2 and 3 or 4 have their own text; anything else gets the default. */
  function AudioErrorMessage(error: JsValue): (m: string)
    ensures error == Primitive(Number(1.0)) ==> m == "The audio stopped loading before it could play."
    ensures error == Primitive(Number(2.0)) ==> m == "A network error occured. Please check your connection."
    ensures error == Primitive(Number(3.0)) || error == Primitive(Number(4.0)) ==> m == "The audio can't be played."
    ensures !(error.Primitive? && error.p.Number? && error.p.n in {1.0, 2.0, 3.0, 4.0}) ==>
      m == "The audio can't be played right now."
  {
    if error.Primitive? && error.p.Number? then
      var n := error.p.n;
      if n == 1.0 then "The audio stopped loading before it could play."
      else if n == 2.0 then "A network error occured. Please check your connection."
      else if n == 3.0 || n == 4.0 then "The audio can't be played."
      else "The audio can't be played right now."
    else "The audio can't be played right now."
  }

  const LOCK_PHRASE := "playback was not within a user interaction"

  /** `isPlaybackLockedByBrowser`: only strings, and only when they contain the phrase in lower case. */
  function IsPlaybackLockedByBrowser(error: JsValue): (locked: bool)
    ensures locked ==> error.Primitive? && error.p.Str?
  {
    if error.Primitive? && error.p.Str? then Contains(Lower(error.p.s), LOCK_PHRASE) else false
  }

  /** A string reports a browser lock exactly when its lower-cased form contains the phrase somewhere. */
  lemma LockedIffPhraseOccurs(s: string)
    ensures IsPlaybackLockedByBrowser(Primitive(Str(s))) <==> exists i: nat :: OccursAt(Lower(s), LOCK_PHRASE, i)
  {
    ContainsIff(Lower(s), LOCK_PHRASE);
    assert Contains(Lower(s), LOCK_PHRASE) <==> exists i: nat :: OccursAt(Lower(s), LOCK_PHRASE, i);
    assert IsPlaybackLockedByBrowser(Primitive(Str(s))) == Contains(Lower(s), LOCK_PHRASE);
  }

  /** Lower-casing twice is lower-casing once. */
  lemma LowerIdempotent(s: string)
    ensures Lower(Lower(s)) == Lower(s)
  {
    assert forall i :: 0 <= i < |s| ==> LowerChar(LowerChar(s[i])) == LowerChar(s[i]);
  }

  /** The lock check ignores letter case: a string and its lower-cased form are judged alike. */
  lemma LockCheckIgnoresCase(s: string)
    ensures IsPlaybackLockedByBrowser(Primitive(Str(s))) == IsPlaybackLockedByBrowser(Primitive(Str(Lower(s))))
  {
    LowerIdempotent(s);
  }

  /** Every state the hook can reach has a volume in [0, 100] and a seek target in [0, duration], and no seek before loading completes. */
  predicate Inv(s: PlaybackState) {
    0 <= s.volume <= 100 && 0 <= s.seekTarget <= s.duration
    && (s.status == Idle || s.status == Loading ==> s.seekTarget == 0)
  }

  /**
   * The `usePlayback` hook: the reducer state plus the set of subscribed callbacks
   * (identified by number).  Howler events arrive as method calls.
   */
  /** A second PLAY is refused: PLAY is allowed only while Paused and leads to Playing. */
  lemma PlayTwice(s: PlaybackState)
    ensures Reduce(Reduce(s, Play), Play) == Reduce(s, Play)
  {
  }

  /** A browser lock pauses a playing track and the unlock retry resumes it with nothing else changed. */
  lemma LockThenUnlockResumes(s: PlaybackState)
    requires s.status == Playing
    ensures Reduce(s, Pause).status == Paused
    ensures Reduce(Reduce(s, Pause), Play) == s
  {
  }

  class PlaybackHook {
    var state: PlaybackState
    var subscribers: set<nat>
    /** A `once("unlock")` PLAY retry is registered on the current Howl and has not fired yet. */
    var unlockRetry: bool

    predicate Valid()
      reads this
    {
      Inv(state)
    }

    constructor ()
      ensures Valid() && state == InitialState && subscribers == {} && !unlockRetry
    {
      state := InitialState;
      subscribers := {};
      unlockRetry := false;
    }

    /** `subscribe`: adds the callback; the returned unsubscribe is `Unsubscribe`. */
    method Subscribe(callback: nat)
      modifies this`subscribers
      ensures subscribers == old(subscribers) + {callback}
    {
      subscribers := subscribers + {callback};
    }

    method Unsubscribe(callback: nat)
      modifies this`subscribers
      ensures subscribers == old(subscribers) - {callback}
    {
      subscribers := subscribers - {callback};
    }

    /**
     * `load`, `play`, `pause`, `mute`, `unmute`, `loop`, `unloop`: dispatch
     * their action unchanged.  A new playable unloads the old Howl, and with it
     * any pending unlock retry.
     */
    method Dispatch(a: PlaybackAction)
      requires Valid()
      requires !a.Seek? && !a.VolumeChange? && !a.Loaded?
      modifies this`state, this`unlockRetry
      ensures Valid()
      ensures state == Reduce(old(state), a)
      ensures unlockRetry == (old(unlockRetry) && state.playable == old(state.playable))
    {
      var before := state.playable;
      state := Reduce(state, a);
      if state.playable != before {
        unlockRetry := false;
      }
    }

    /** `seek`: clamps the target into [0, duration] and dispatches SEEK. */
    method SeekTo(rawTarget: int)
      requires Valid()
      modifies this`state
      ensures Valid()
      ensures state == Reduce(old(state), Seek(SeekTarget(rawTarget, old(state.duration))))
      ensures old(state.status) == Playing || old(state.status) == Paused ==>
        state.seekTarget == SeekTarget(rawTarget, old(state.duration))
        && state.seekRequestId == old(state.seekRequestId) + 1
    {
      state := Reduce(state, Seek(SeekTarget(rawTarget, state.duration)));
    }

    /** `setVolume`: clamps into [0, 100] and dispatches VOLUME_CHANGE. */
    method SetVolume(rawVolume: int)
      requires Valid()
      modifies this`state
      ensures Valid()
      ensures state == Reduce(old(state), VolumeChange(NextVolume(rawVolume)))
    {
      state := Reduce(state, VolumeChange(NextVolume(rawVolume)));
    }

    /** Howler's `onload`: LOADED with the track's duration, then PLAY. */
    method OnLoad(durationMs: nat)
      requires Valid()
      modifies this`state
      ensures Valid()
      ensures state == Reduce(Reduce(old(state), Loaded(durationMs)), Play)
      ensures old(state.status) == Loading ==> state.status == Playing && state.duration == durationMs
    {
      state := Reduce(state, Loaded(durationMs));
      state := Reduce(state, Play);
    }

    /** Howler's `onloaderror`: SET_ERROR with the mapped message. */
    method OnLoadError(error: JsValue)
      requires Valid()
      modifies this`state
      ensures Valid()
      ensures state == Reduce(old(state), SetError(AudioErrorMessage(error)))
    {
      state := Reduce(state, SetError(AudioErrorMessage(error)));
    }

    /**
     * Howler's `onplayerror`: a browser autoplay lock pauses and registers a
     * PLAY for when the browser unlocks audio; any other error is SET_ERROR.
     */
    method OnPlayError(error: JsValue)
      requires Valid()
      modifies this`state, this`unlockRetry
      ensures Valid()
      ensures IsPlaybackLockedByBrowser(error) ==> state == Reduce(old(state), Pause) && unlockRetry
      ensures !IsPlaybackLockedByBrowser(error) ==>
        state == Reduce(old(state), SetError(AudioErrorMessage(error))) && unlockRetry == old(unlockRetry)
    {
      if IsPlaybackLockedByBrowser(error) {
        state := Reduce(state, Pause);
        unlockRetry := true;
        return;
      }
      state := Reduce(state, SetError(AudioErrorMessage(error)));
    }

    /**
     * Howler's `unlock` event: a registered retry dispatches PLAY once and is
     * removed.  Several retries registered on the same Howl all fire here, and
     * by `PlayTwice` they act as one PLAY.
     */
    method OnUnlock()
      requires Valid()
      modifies this`state, this`unlockRetry
      ensures Valid()
      ensures old(unlockRetry) ==> state == Reduce(old(state), Play)
      ensures !old(unlockRetry) ==> state == old(state)
      ensures !unlockRetry
    {
      if unlockRetry {
        state := Reduce(state, Play);
        unlockRetry := false;
      }
    }

    /** Howler's `onend`: unless Howler is looping, playback is marked paused. */
    method OnEnd(howlLooping: bool)
      requires Valid()
      modifies this`state
      ensures Valid()
      ensures state == if howlLooping then old(state) else Reduce(old(state), Pause)
    {
      if !howlLooping {
        state := Reduce(state, Pause);
      }
    }
  }
}
