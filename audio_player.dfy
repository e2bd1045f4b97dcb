/**
 * The stand-alone audio player hook (frontend/src/hooks/useAudioPlayer.ts): the
 * five-status machine with a synced position and a mute toggle, and the hook
 * actions that dispatch into it.
 */
module AudioPlayer {
  import opened Wrappers
  import opened Playables
  import Playback

  type PlaybackStatus = Playback.PlaybackStatus

  datatype PlayerState = PlayerState(
    status: PlaybackStatus,
    playable: Option<Playable>,
    duration: int,
    position: int,
    seekTarget: int,
    volume: int,
    isMuted: bool,
    errorMessage: string)

  const InitialState := PlayerState(Playback.Idle, None, 0, 0, 0, 75, false, "")

  datatype PlayerAction =
    | Loaded(loadedDuration: int)
    | Load(toLoad: Playable)
    | Play
    | Pause
    | SyncPosition(newPosition: int)
    | Seek(target: int)
    | VolumeChange(newVolume: int)
    | ToggleMute
    | SetError(message: string)

  predicate Allowed(status: PlaybackStatus, a: PlayerAction) {
    match status
    case Idle => a.Load?
    case Loading => a.Load? || a.Loaded? || a.SetError?
    case Playing => a.Load? || a.Pause? || a.SyncPosition? || a.Seek? || a.VolumeChange? || a.ToggleMute? || a.SetError?
    case Paused => a.Load? || a.Play? || a.SyncPosition? || a.Seek? || a.VolumeChange? || a.ToggleMute? || a.SetError?
    case Error => a.Load?
  }

  /** `audioPlayerReducer`: a disallowed action returns the state itself. */
  function Reduce(s: PlayerState, a: PlayerAction): (r: PlayerState)
    ensures !Allowed(s.status, a) ==> r == s
  {
    if !Allowed(s.status, a) then s
    else match a
      case Load(p) =>
        if s.playable.Some? && s.playable.value.id == p.id then s
        else InitialState.(status := Playback.Loading, playable := Some(p))
      case Loaded(d) => s.(status := Playback.Paused, position := 0, duration := d)
      case Play => s.(status := Playback.Playing)
      case Pause => s.(status := Playback.Paused)
      case SyncPosition(p) => s.(position := p)
      case Seek(t) => s.(seekTarget := t)
      case VolumeChange(v) => s.(volume := v)
      case ToggleMute => s.(isMuted := !s.isMuted)
      case SetError(m) => s.(status := Playback.Error, errorMessage := m)
  }

  /** TOGGLE_MUTE negates the flag and touches nothing else, so two toggles restore the state. */
  lemma ToggleMuteTwice(s: PlayerState)
    ensures Reduce(Reduce(s, ToggleMute), ToggleMute) == s
    ensures Allowed(s.status, ToggleMute) ==> Reduce(s, ToggleMute) == s.(isMuted := !s.isMuted)
  {
  }

  /** LOADED pauses at position 0 with the duration; SYNC_POSITION is accepted only while playing or paused and moves only the position. */
  lemma LoadedAndSyncRules(s: PlayerState, d: int, p: int)
    ensures s.status == Playback.Loading ==>
      Reduce(s, Loaded(d)) == s.(status := Playback.Paused, position := 0, duration := d)
    ensures Reduce(s, SyncPosition(p)) ==
      if s.status == Playback.Playing || s.status == Playback.Paused then s.(position := p) else s
  {
  }

  /** LOAD of the current id is a no-op; anything else restarts from the initial state. */
  lemma LoadRule(s: PlayerState, p: Playable)
    ensures s.playable.Some? && s.playable.value.id == p.id ==> Reduce(s, Load(p)) == s
    ensures !(s.playable.Some? && s.playable.value.id == p.id) ==>
      Reduce(s, Load(p)) == InitialState.(status := Playback.Loading, playable := Some(p))
  {
  }

  /** The hook: the reducer state that its actions dispatch into. */
  class AudioPlayerHook {
    var state: PlayerState

    constructor ()
      ensures state == InitialState
    {
      state := InitialState;
    }

    /** `togglePlay`: PAUSE while playing, PLAY while paused, nothing otherwise. */
    method TogglePlay()
      modifies this
      ensures old(state.status) == Playback.Playing ==> state == old(state).(status := Playback.Paused)
      ensures old(state.status) == Playback.Paused ==> state == old(state).(status := Playback.Playing)
      ensures old(state.status) != Playback.Playing && old(state.status) != Playback.Paused ==> state == old(state)
    {
      match state.status {
        case Playing => state := Reduce(state, Pause);
        case Paused => state := Reduce(state, Play);
        case _ =>
      }
    }

    /** `seek`: SEEK and then SYNC_POSITION, both with the target clamped into [0, duration]. */
    method SeekTo(rawTarget: int)
      modifies this
      ensures var t := Playback.SeekTarget(rawTarget, old(state.duration));
        state == Reduce(Reduce(old(state), Seek(t)), SyncPosition(t))
      ensures old(state.status) == Playback.Playing || old(state.status) == Playback.Paused ==>
        state == old(state).(seekTarget := Playback.SeekTarget(rawTarget, old(state.duration)),
                             position := Playback.SeekTarget(rawTarget, old(state.duration)))
      ensures 0 <= old(state.duration) && (old(state.status) == Playback.Playing || old(state.status) == Playback.Paused) ==>
        0 <= state.position == state.seekTarget <= state.duration
    {
      var target := Playback.SeekTarget(rawTarget, state.duration);
      state := Reduce(state, Seek(target));
      state := Reduce(state, SyncPosition(target));
    }

    /** `setVolume`: VOLUME_CHANGE with the volume clamped into [0, 100]. */
    method SetVolume(rawVolume: int)
      modifies this
      ensures state == Reduce(old(state), VolumeChange(Playback.NextVolume(rawVolume)))
      ensures 0 <= old(state.volume) <= 100 ==> 0 <= state.volume <= 100
    {
      state := Reduce(state, VolumeChange(Playback.NextVolume(rawVolume)));
    }

    /** `toggleMute` */
    method ToggleMuteAction()
      modifies this
      ensures state == Reduce(old(state), ToggleMute)
    {
      state := Reduce(state, ToggleMute);
    }

    /** `load` */
    method LoadPlayable(p: Playable)
      modifies this
      ensures state == Reduce(old(state), Load(p))
    {
      state := Reduce(state, Load(p));
    }
  }

  /** Toggling play twice from Playing or Paused returns to the same state. */
  lemma TogglePlayTwice(s: PlayerState)
    requires s.status == Playback.Playing || s.status == Playback.Paused
    ensures var pause := if s.status == Playback.Playing then Pause else Play;
      var back := if s.status == Playback.Playing then Play else Pause;
      Reduce(Reduce(s, pause), back) == s
  {
  }
}
