/**
 * The earlier playback machine (frontend/src/contexts/playback/PlaybackProvider.tsx):
 * the same five statuses, no seek counter and no loop flag, and LOAD compares
 * playable ids only.  Its `seek`/`setVolume` clamps and `getAudioErrorMessage`
 * are textually those of usePlayback, so `Playback.SeekTarget`,
 * `Playback.NextVolume` and `Playback.AudioErrorMessage` model them.
 */
module PlaybackProvider {
  import opened Wrappers
  import opened Playables
  import opened JsValues
  import Playback

  type PlaybackStatus = Playback.PlaybackStatus

  datatype ProviderState = ProviderState(
    status: PlaybackStatus,
    playable: Option<Playable>,
    duration: int,
    seekTarget: int,
    volume: int,
    isMuted: bool,
    errorMessage: string)

  const InitialState := ProviderState(Playback.Idle, None, 0, 0, 75, false, "")

  datatype ProviderAction =
    | Loaded(loadedDuration: int)
    | Load(toLoad: Playable)
    | Play
    | Pause
    | Seek(target: int)
    | VolumeChange(newVolume: int)
    | Mute
    | Unmute
    | SetError(message: string)

  predicate Allowed(status: PlaybackStatus, a: ProviderAction) {
    match status
    case Idle => a.Load?
    case Loading => a.Load? || a.Loaded? || a.SetError?
    case Playing => a.Load? || a.Pause? || a.Seek? || a.VolumeChange? || a.Mute? || a.Unmute? || a.SetError?
    case Paused => a.Load? || a.Play? || a.Seek? || a.VolumeChange? || a.Mute? || a.Unmute? || a.SetError?
    case Error => a.Load?
  }

  /** `state.playable?.id === action.playable.id`: ids only, and never true without a current playable. */
  predicate SameId(current: Option<Playable>, p: Playable) {
    current.Some? && current.value.id == p.id
  }

  /** `playbackReducer` of the provider: a disallowed action returns the state itself. */
  function Reduce(s: ProviderState, a: ProviderAction): (r: ProviderState)
    ensures !Allowed(s.status, a) ==> r == s
  {
    if !Allowed(s.status, a) then s
    else match a
      case Load(p) => if SameId(s.playable, p) then s else InitialState.(status := Playback.Loading, playable := Some(p))
      case Loaded(d) => s.(status := Playback.Paused, duration := d)
      case Play => s.(status := Playback.Playing)
      case Pause => s.(status := Playback.Paused)
      case Seek(t) => s.(seekTarget := t)
      case VolumeChange(v) => s.(volume := v)
      case Mute => s.(isMuted := true)
      case Unmute => s.(isMuted := false)
      case SetError(m) => s.(status := Playback.Error, errorMessage := m)
  }

  /** Idle and Error accept LOAD and nothing else. */
  lemma IdleAndErrorOnlyLoad(s: ProviderState, a: ProviderAction)
    requires s.status == Playback.Idle || s.status == Playback.Error
    requires !a.Load?
    ensures Reduce(s, a) == s
  {
  }

  /**
   * LOAD is a no-op exactly when the ids match, whatever the kinds: a clip and a track
   * sharing an id count as the same, unlike usePlayback's rule.
   */
  lemma LoadRule(s: ProviderState, p: Playable)
    ensures SameId(s.playable, p) ==> Reduce(s, Load(p)) == s
    ensures !SameId(s.playable, p) ==>
      Reduce(s, Load(p)) == InitialState.(status := Playback.Loading, playable := Some(p))
  {
  }

  /** LOADED, PLAY, PAUSE, SEEK and SET_ERROR each change only their own fields. */
  lemma TransitionRules(s: ProviderState, d: int, t: int, m: string)
    ensures s.status == Playback.Loading ==> Reduce(s, Loaded(d)) == s.(status := Playback.Paused, duration := d)
    ensures s.status == Playback.Paused ==> Reduce(s, Play) == s.(status := Playback.Playing)
    ensures s.status == Playback.Playing ==> Reduce(s, Pause) == s.(status := Playback.Paused)
    ensures s.status == Playback.Playing || s.status == Playback.Paused ==>
      Reduce(s, Seek(t)) == s.(seekTarget := t) && Reduce(s, SetError(m)) == s.(status := Playback.Error, errorMessage := m)
  {
  }

  /** The provider's `seek` and `setVolume` send clamped values, which keep the player within range. */
  predicate Inv(s: ProviderState) {
    0 <= s.volume <= 100 && 0 <= s.seekTarget <= s.duration
    && (s.status == Playback.Idle || s.status == Playback.Loading ==> s.seekTarget == 0)
  }

  /** What the provider's action creators dispatch: clamped SEEK and VOLUME_CHANGE, and non-negative durations. */
  predicate Dispatchable(s: ProviderState, a: ProviderAction) {
    match a
    case Seek(t) => t == Playback.SeekTarget(t, s.duration)
    case VolumeChange(v) => v == Playback.NextVolume(v)
    case Loaded(d) => d >= 0
    case _ => true
  }

  /** `seek` and `setVolume` clamp, so what they dispatch is always dispatchable. */
  lemma ClampsAreDispatchable(s: ProviderState, raw: int)
    requires 0 <= s.duration
    ensures Dispatchable(s, Seek(Playback.SeekTarget(raw, s.duration)))
    ensures Dispatchable(s, VolumeChange(Playback.NextVolume(raw)))
  {
  }

  /** The reducer keeps the range invariant for every dispatchable action. */
  lemma ReduceKeepsInv(s: ProviderState, a: ProviderAction)
    requires Inv(s) && Dispatchable(s, a)
    ensures Inv(Reduce(s, a))
  {
  }
}
