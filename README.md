# JamFlow core, modelled in Dafny

JamFlow records rehearsals: a FastAPI backend stores uploaded tracks in S3,
cuts clips from them and reports failures as typed JSON errors, and a React
frontend plays tracks and clips, lets the user mark a clip window on a
timeline and maps API failures to user-facing text. This project models that
core and proves its properties:

- **playback state machines** — the reducers of `usePlayback`, the playback
  provider and `useAudioPlayer`, and the playable identity helpers they use;
- **the clipper** — the clip-window arithmetic, the title validation, the
  Idle/Active/Submitting reducer and the hook around it, the thumbs' drag
  state, the visible window and the ruler's markers;
- **frontend utilities** — duration formatting, error-message mapping, the
  logger registry, the URL builders, the upload form and the autoload effect;
- **backend** — the exception handlers and their status/code tables, the
  audio helpers, the S3 storage service over a simulated S3 endpoint, storage
  path generation, the form validators, and the `track_create` and
  `clip_create` services over a simulated database session.

Each source file becomes one module in one `.dfy` file. Shared helpers live in
`wrappers.dfy` (Option/Result), `strings.dfy` (JavaScript `trim`, lower-casing,
decimal rendering, join/split), `jsvalues.dfy` (the shapes of unknown JavaScript
values) and `streams.dfy` (a Python binary file).

- **Pure code** becomes functions with lemmas: reducers, clamps, formatting,
  mappers and validators.
- **Stateful code** becomes classes whose methods state the whole new state:
  hooks holding refs or state, the S3 service, the registry, the form, and the
  drag and view state.

Times are integer milliseconds throughout.

## Model

| member | source | states |
|---|---|---|
| Clipper.Clamp | frontend/src/hooks/useClipper.ts:411-413 | the result lies in [min, max] when that interval is non-empty, and is max otherwise |
| Clipper.ClampStart | frontend/src/hooks/useClipper.ts:388-392 | the new start lies in [max(0, end - 180000), end - 15000] whenever that interval is non-empty |
| Clipper.ClampEnd | frontend/src/hooks/useClipper.ts:394-398 | the new end lies in [start + 15000, min(duration, start + 180000)] whenever that interval is non-empty |
| Clipper.ClampStartKeepsBounds | frontend/src/hooks/useClipper.ts:379-392 | moving the start with clampStart keeps all five documented window invariants |
| Clipper.ClampEndKeepsBounds | frontend/src/hooks/useClipper.ts:379-398 | moving the end with clampEnd keeps all five documented window invariants |
| Clipper.ClampsIdempotent | frontend/src/hooks/useClipper.ts:388-398 | clamping an already clamped start or end changes nothing |
| Clipper.InitialBoundsAsWritten | frontend/src/hooks/useClipper.ts:400-409 | getInitialBounds as written: start ≥ 0 and ≥ position - 5000, end ≤ duration, width ≤ 180000; the window is valid only when start + 15000 fits in the track |
| Clipper.InitialBoundsAsWrittenBreaksMinimum | frontend/src/hooks/useClipper.ts:379-409 | at position 200000 of a 200000 ms track the window is [195000, 200000], shorter than the 15000 minimum |
| Clipper.InitialBoundsValid | frontend/src/hooks/useClipper.ts:379-409 | the corrected initial window satisfies every invariant wherever the position lies, and contains the position when it lies within the track |
| Clipper.InitialBoundsAgreeAwayFromEnd | frontend/src/hooks/useClipper.ts:400-409 | away from the track's end the corrected window equals the one the code computes |
| Clipper.SanitizeTitle | frontend/src/hooks/useClipper.ts:415-417 | the trimmed title is empty exactly when the title is all whitespace |
| Clipper.ValidateTitle | frontend/src/hooks/useClipper.ts:419-423 | empty gives "Title cannot be empty", more than 255 UTF-16 units gives "Title is too long", otherwise no error |
| Clipper.TitleValidation | frontend/src/hooks/useClipper.ts:415-423 | a title is rejected as empty iff it is all whitespace, otherwise iff its trimmed form is over 255 units; a short title with content always passes |
| Clipper.TitleErrors | frontend/src/hooks/useClipper.ts:141-151 | SET_TITLE keeps every other field's errors, and "title" is present iff the error is truthy, holding exactly that error |
| Clipper.Reduce | frontend/src/hooks/useClipper.ts:104-181 | an action not allowed in the current status returns the state unchanged; a non-idle state always holds its track |
| Clipper.Lifecycle | frontend/src/hooks/useClipper.ts:92-181 | every status change is one of the five edges start, submit, cancel, success and failure, with the fields each edge sets |
| Clipper.ErrorUpdates | frontend/src/hooks/useClipper.ts:141-160 | title edits touch only the "title" key; merged validation errors let incoming keys win and keep the others |
| Clipper.ReduceKeepsInv | frontend/src/hooks/useClipper.ts:104-181 | every action the hook sends keeps the window invariants in every non-idle state |
| Clipper.IsClippable | frontend/src/hooks/useClipper.ts:199-205 | clippable iff the playable is a track longer than 180000 ms and playback is playing or paused |
| Clipper.ClipperHook.constructor | frontend/src/hooks/useClipper.ts:191 | the hook starts in the initial state, which satisfies the invariants |
| Clipper.ClipperHook.StartClippingAt | frontend/src/hooks/useClipper.ts:207-216 | nothing happens unless the playable is clippable and the clipper is idle; otherwise the state becomes Active with a valid window for the track, containing the position when it lies in the track |
| Clipper.ClipperHook.Cancel | frontend/src/hooks/useClipper.ts:218-220 | an active clipper returns to the initial state; otherwise nothing changes |
| Clipper.ClipperHook.SetStart | frontend/src/hooks/useClipper.ts:284-289 | the start becomes the clamped value, the end is kept, playback seeks to the new start, and the invariants hold |
| Clipper.ClipperHook.SetEnd | frontend/src/hooks/useClipper.ts:291-296 | the end becomes the value clamped against the playback duration, which it never exceeds, and playback seeks one second before it; the invariants hold when that duration is the track's |
| Clipper.ClipperHook.PlayStart | frontend/src/hooks/useClipper.ts:276-278 | seeks to the window's start, which lies before its end while clipping |
| Clipper.ClipperHook.PlayEnd | frontend/src/hooks/useClipper.ts:280-282 | seeks one second before the end, which lies strictly inside the window while clipping |
| Clipper.ClipperHook.SetTitleTo | frontend/src/hooks/useClipper.ts:298-302 | stores the raw title with the validation error of its trimmed form |
| Clipper.ClipperHook.Validate | frontend/src/hooks/useClipper.ts:222-233 | true while submitting; otherwise true iff the trimmed title has no error, recording the error when there is one |
| Clipper.ClipperHook.BeginSubmit | frontend/src/hooks/useClipper.ts:235-250 | refused with "Can't clip" outside Active; otherwise moves to Submitting and sends the track id, the trimmed title and the window |
| Clipper.SettledResult | frontend/src/hooks/useClipper.ts:251-273 | success iff the clip was created; a rejection reports the other fields' messages joined by the vertical-bar separator iff there are any; any other failure reports its message |
| Clipper.SubmitErrorShowsEveryMessage | frontend/src/hooks/useClipper.ts:263-267 | every message for a field other than the title occurs in the returned error text |
| Clipper.RejectedStateAsWritten | frontend/src/hooks/useClipper.ts:254-262 | as written, a rejection only moves back to Active: the title errors are dispatched while Submitting and refused |
| Clipper.RejectedState | frontend/src/hooks/useClipper.ts:254-262 | a rejection moves back to Active, keeps the window and title, puts the server's title messages under "title" and keeps the other errors |
| Clipper.RejectedTitleErrorsLost | frontend/src/hooks/useClipper.ts:254-262 | a server title message is absent from the form as written and present after the correction |
| Clipper.RejectedStatesAgree | frontend/src/hooks/useClipper.ts:254-262 | the corrected and as-written rejections differ only in the form's errors, and not at all without title messages |
| Clipper.ClipperHook.SettleSubmit | frontend/src/hooks/useClipper.ts:251-273 | success goes Idle with the created clip, a rejection follows RejectedState, a failure goes back to Active; the result is SettledResult |
| Clipper.ClipperHook.OnTrackChange | frontend/src/hooks/useClipper.ts:304-309 | an Active clipper is cancelled exactly when the playing track is no longer its track; an idle or submitting clipper is left alone |
| Clipper.ClipperHook.OnProgress | frontend/src/hooks/useClipper.ts:311-324 | while clipping, progress past the end seeks back to the start; nothing else seeks |
| Clipper.ClipperHook.OnSeek | frontend/src/hooks/useClipper.ts:326-341 | while Active, a seek outside the window re-centres it on the target within the playback duration, containing the target; any other seek changes nothing; the invariants hold when that duration is the track's |
| ClipperControls.TimeToPositionPercent | frontend/src/components/clipper/ClipperControls.tsx:386-394 | 0 before the window, 100 after it, proportional and within [0, 100] inside it; NaN (None) exactly for 0/0 |
| ClipperControls.TimeToPositionPercentMonotone | frontend/src/components/clipper/ClipperControls.tsx:386-394 | a later time is never placed to the left of an earlier one |
| ClipperControls.BarWidthNonNegative | frontend/src/components/clipper/ClipperControls.tsx:298-306 | the clip bar's width is never negative for an ordered clip |
| ClipperControls.ThumbDrag.constructor | frontend/src/components/clipper/ClipperControls.tsx:71-75 | no thumb held, targets at the committed bounds |
| ClipperControls.ThumbDrag.StartDisplay | frontend/src/components/clipper/ClipperControls.tsx:77 | the start thumb is drawn away from the committed start only while it is held |
| ClipperControls.ThumbDrag.EndDisplay | frontend/src/components/clipper/ClipperControls.tsx:78 | the end thumb is drawn away from the committed end only while it is held |
| ClipperControls.ThumbDrag.PointerDown | frontend/src/components/clipper/ClipperControls.tsx:153-159 | the pressed thumb becomes the held one |
| ClipperControls.ThumbDrag.PointerMove | frontend/src/components/clipper/ClipperControls.tsx:161-173 | without a held thumb nothing changes; otherwise only the held thumb's target moves, clamped against the other thumb as displayed |
| ClipperControls.ThumbDrag.PointerUp | frontend/src/components/clipper/ClipperControls.tsx:175-183 | commits the held thumb's clamped target iff it differs from the committed bound, and always releases the thumb |
| ClipperControls.CommitKeepsBounds | frontend/src/components/clipper/ClipperControls.tsx:175-183 | a committed start or end keeps a valid clip valid |
| ViewBounds.GetViewBounds | frontend/src/hooks/useClipperViewBounds.tsx:23-28 | the start is 0 or position - 30000, whichever is larger; the end is the duration or start + 240000, whichever is smaller |
| ViewBounds.PositionInView | frontend/src/hooks/useClipperViewBounds.tsx:23-28 | a position inside the track lies inside the window computed from it |
| ViewBounds.ViewWindow.constructor | frontend/src/hooks/useClipperViewBounds.tsx:30 | the window starts as the one computed from the position |
| ViewBounds.ViewWindow.OnEvent | frontend/src/hooks/useClipperViewBounds.tsx:33-46 | only a seek landing outside the window recomputes it; progress and inside seeks leave it unchanged |
| ViewBounds.SeekSettles | frontend/src/hooks/useClipperViewBounds.tsx:33-46 | after a seek into the track the window contains the target, so the same seek again changes nothing |
| ClipperRuler.CeilDiv | frontend/src/components/clipper/ClipperRuler.tsx:16 | the least quotient whose multiple reaches the dividend |
| ClipperRuler.FloorDiv | frontend/src/components/clipper/ClipperRuler.tsx:17 | the greatest quotient whose multiple stays at or below the dividend |
| ClipperRuler.FirstMarker | frontend/src/components/clipper/ClipperRuler.tsx:16 | the first multiple of the step not before the window's start |
| ClipperRuler.LastMarker | frontend/src/components/clipper/ClipperRuler.tsx:17 | the last multiple of the step not after the window's end |
| ClipperRuler.MarkerTimes | frontend/src/components/clipper/ClipperRuler.tsx:15-21 | exactly the multiples of half the marker distance inside the window, increasing by one step each |
| ClipperRuler.MajorAlternates | frontend/src/components/clipper/ClipperRuler.tsx:27 | consecutive markers alternate between major and minor |
| Playables.TrackClipExclusive | frontend/src/contexts/playback/utils.ts:4-14 | a playable is never both a track and a clip |
| Playables.AsTrack | frontend/src/contexts/playback/utils.ts:16-18 | the playable itself iff it is a track, else null |
| Playables.AsClip | frontend/src/contexts/playback/utils.ts:20-22 | the playable itself iff it is a clip, else null |
| Playables.SameById | frontend/src/contexts/playback/utils.ts:24-40 | both missing is same, one missing is different, otherwise equal ids |
| Playables.IsSameTrack | frontend/src/contexts/playback/utils.ts:24-31 | null rules, then id equality only |
| Playables.IsSameClip | frontend/src/contexts/playback/utils.ts:33-40 | null rules, then id equality only |
| Playables.IsSamePlayable | frontend/src/contexts/playback/utils.ts:42-49 | null rules, then kind and id equality |
| Playables.SamePlayableEquivalence | frontend/src/contexts/playback/utils.ts:42-49 | isSamePlayable is reflexive, symmetric and transitive |
| Playables.SamePlayableVersusSameId | frontend/src/contexts/playback/utils.ts:24-49 | the same playable means the same id; the converse holds only when the kinds agree |
| Playback.Reduce | frontend/src/hooks/usePlayback.ts:72-158 | an action not allowed in the current status returns the state unchanged |
| Playback.IdleAndErrorOnlyLoad | frontend/src/hooks/usePlayback.ts:44-70 | Idle and Error accept LOAD and nothing else |
| Playback.LoadRule | frontend/src/hooks/usePlayback.ts:84-93 | LOAD of the same kind and id changes nothing; any other LOAD restarts Loading from the initial state |
| Playback.LoadedRule | frontend/src/hooks/usePlayback.ts:94-100 | LOADED moves Loading to Paused and records the duration only |
| Playback.SeekAlwaysObservable | frontend/src/hooks/usePlayback.ts:113-119 | every SEEK bumps the request counter, so a repeated seek is still a new state |
| Playback.FlagActions | frontend/src/hooks/usePlayback.ts:126-149 | MUTE/UNMUTE and LOOP/UNLOOP set their flag, change nothing else, and are idempotent |
| Playback.SeekTarget | frontend/src/hooks/usePlayback.ts:206-212 | the seek target lies in [0, duration] and equals the raw target when that is in range |
| Playback.NextVolume | frontend/src/hooks/usePlayback.ts:214-217 | the volume lies in [0, 100] and equals the raw value when that is in range |
| Playback.AudioErrorMessage | frontend/src/hooks/usePlayback.ts:390-403 | media error codes 1, 2 and 3/4 have their own text; anything else gets the default |
| Playback.IsPlaybackLockedByBrowser | frontend/src/hooks/usePlayback.ts:405-412 | only strings can report a browser lock |
| Playback.LockedIffPhraseOccurs | frontend/src/hooks/usePlayback.ts:405-412 | a string reports a lock iff its lower-cased form contains the phrase at some index |
| Playback.LockCheckIgnoresCase | frontend/src/hooks/usePlayback.ts:405-412 | a string and its lower-cased form are judged alike |
| Playback.PlaybackHook.constructor | frontend/src/hooks/usePlayback.ts:167-171 | initial state, no subscribers, invariant holds |
| Playback.PlaybackHook.Subscribe | frontend/src/hooks/usePlayback.ts:179-182 | adds exactly that callback to the subscribers |
| Playback.PlaybackHook.Unsubscribe | frontend/src/hooks/usePlayback.ts:179-182 | removes exactly that callback |
| Playback.PlaybackHook.Dispatch | frontend/src/hooks/usePlayback.ts:188-234 | the plain action creators dispatch their action unchanged and keep the invariant; a new playable drops a pending unlock retry |
| Playback.PlaybackHook.SeekTo | frontend/src/hooks/usePlayback.ts:206-212 | dispatches SEEK with the clamped target |
| Playback.PlaybackHook.SetVolume | frontend/src/hooks/usePlayback.ts:214-217 | dispatches VOLUME_CHANGE with the clamped volume |
| Playback.PlaybackHook.OnLoad | frontend/src/hooks/usePlayback.ts:242-249 | LOADED with the duration, then PLAY |
| Playback.PlaybackHook.OnLoadError | frontend/src/hooks/usePlayback.ts:250-254 | SET_ERROR with the mapped message |
| Playback.PlaybackHook.OnPlayError | frontend/src/hooks/usePlayback.ts:255-271 | a browser lock pauses and registers the unlock retry; any other error is SET_ERROR with the mapped message |
| Playback.PlaybackHook.OnUnlock | frontend/src/hooks/usePlayback.ts:261-266 | a registered retry dispatches PLAY once and is removed; without one nothing changes |
| Playback.PlayTwice | frontend/src/hooks/usePlayback.ts:44-70 | a second PLAY is refused, so several retries act as one |
| Playback.LockThenUnlockResumes | frontend/src/hooks/usePlayback.ts:101-112 | a lock then an unlock brings a playing track back to exactly the state it was in |
| Playback.PlaybackHook.OnEnd | frontend/src/hooks/usePlayback.ts:272-281 | pauses unless Howler is looping |
| PlaybackProvider.Reduce | frontend/src/contexts/playback/PlaybackProvider.tsx:69-142 | an action not allowed in the current status returns the state unchanged |
| PlaybackProvider.IdleAndErrorOnlyLoad | frontend/src/contexts/playback/PlaybackProvider.tsx:45-67 | Idle and Error accept LOAD and nothing else |
| PlaybackProvider.LoadRule | frontend/src/contexts/playback/PlaybackProvider.tsx:81-90 | LOAD is a no-op iff the ids match, whatever the kinds |
| PlaybackProvider.TransitionRules | frontend/src/contexts/playback/PlaybackProvider.tsx:91-140 | LOADED, PLAY, PAUSE, SEEK and SET_ERROR each change only their own fields |
| PlaybackProvider.ClampsAreDispatchable | frontend/src/contexts/playback/PlaybackProvider.tsx:173-185 | seek and setVolume always dispatch in-range values |
| PlaybackProvider.ReduceKeepsInv | frontend/src/contexts/playback/PlaybackProvider.tsx:69-142 | every dispatchable action keeps volume and seek target in range |
| AudioPlayer.Reduce | frontend/src/hooks/useAudioPlayer.ts:88-164 | an action not allowed in the current status returns the state unchanged |
| AudioPlayer.ToggleMuteTwice | frontend/src/hooks/useAudioPlayer.ts:150-155 | TOGGLE_MUTE negates only the flag, so two toggles restore the state |
| AudioPlayer.LoadedAndSyncRules | frontend/src/hooks/useAudioPlayer.ts:112-137 | LOADED pauses at 0 with the duration; SYNC_POSITION moves only the position, and only while playing or paused |
| AudioPlayer.LoadRule | frontend/src/hooks/useAudioPlayer.ts:102-111 | LOAD of the current id is a no-op; any other LOAD restarts |
| AudioPlayer.AudioPlayerHook.constructor | frontend/src/hooks/useAudioPlayer.ts:173-175 | the hook starts in the initial state |
| AudioPlayer.AudioPlayerHook.TogglePlay | frontend/src/hooks/useAudioPlayer.ts:181-192 | PAUSE while playing, PLAY while paused, nothing otherwise |
| AudioPlayer.TogglePlayTwice | frontend/src/hooks/useAudioPlayer.ts:181-192 | toggling play twice from Playing or Paused returns the same state |
| AudioPlayer.AudioPlayerHook.SeekTo | frontend/src/hooks/useAudioPlayer.ts:194-201 | SEEK then SYNC_POSITION with the target clamped into [0, duration] |
| AudioPlayer.AudioPlayerHook.ToggleMuteAction | frontend/src/hooks/useAudioPlayer.ts:203-205 | dispatches TOGGLE_MUTE |
| AudioPlayer.AudioPlayerHook.SetVolume | frontend/src/hooks/useAudioPlayer.ts:207-211 | VOLUME_CHANGE with the volume clamped into [0, 100] |
| AudioPlayer.AudioPlayerHook.LoadPlayable | frontend/src/hooks/useAudioPlayer.ts:177-179 | dispatches LOAD of the playable |
| Time.Fields | frontend/src/lib/time.ts:11-14 | seconds and minutes below 60, and hours, minutes and seconds add back up to the whole seconds |
| Time.FieldsSum | frontend/src/lib/time.ts:11-14 | 3600·h + 60·m + s is the whole seconds of the duration |
| Time.PadTwoDigits | frontend/src/lib/time.ts:16 | a field below 100 pads to two digits that read back as the field |
| Time.Parts | frontend/src/lib/time.ts:18-23 | the hours appear iff there are any, then the padded minutes and seconds |
| Time.ClockParts | frontend/src/lib/time.ts:18-23 | two or three fields, the hours one only when nonzero |
| Time.SplitClockParts | frontend/src/lib/time.ts:18-25 | splitting the joined string at ':' gives the fields back |
| Time.ClockRoundTrip | frontend/src/lib/time.ts:10-26 | reading the joined fields back gives the clock's whole seconds |
| Time.ReadClockParts | frontend/src/lib/time.ts:10-26 | reading a clock's fields gives its whole seconds |
| Time.FormatDurationShape | frontend/src/lib/time.ts:18-25 | three fields iff at least an hour; unpadded hours, two-digit minutes and seconds |
| Time.FormatDurationRoundTrip | frontend/src/lib/time.ts:10-26 | parsing the formatted duration gives its whole seconds |
| Time.ParseClockParts | frontend/src/lib/time.ts:16-23 | each field is all digits and reads back as its value |
| Time.SubSecondIgnored | frontend/src/lib/time.ts:11 | durations with the same whole seconds format alike |
| Time.FormatUnderOneSecond | frontend/src/lib/time.ts:10-26 | every duration below one second formats as "00:00" |
| Time.FormatExamples | frontend/src/lib/time.ts:1-26 | 0 gives "00:00", 61000 gives "01:01", 3600000 gives "1:00:00" |
| ErrorUtils.ApplicationErrorMessage | frontend/src/lib/errorUtils.ts:21-44 | ClientError and ExternalServiceError get the shared server text, the plain application error the generic text |
| ErrorUtils.ApplicationErrorMessagesDistinct | frontend/src/lib/errorUtils.ts:21-44 | two classes get the same text exactly when they are the same class or both share the server text |
| ErrorUtils.FallbackErrorMessage | frontend/src/lib/errorUtils.ts:59-80 | the result is never blank and is already trimmed |
| ErrorUtils.ObjectMessage | frontend/src/lib/errorUtils.ts:65-77 | a usable statusText, else a usable message, else "Unknown error" |
| ErrorUtils.GetErrorMessage | frontend/src/lib/errorUtils.ts:14-19 | application errors by class, anything else by the fallback |
| ErrorUtils.FallbackCases | frontend/src/lib/errorUtils.ts:59-80 | a non-blank string gives its trimmed self; nothing usable gives the default |
| ErrorUtils.StatusTextWins | frontend/src/lib/errorUtils.ts:65-77 | a usable statusText wins over any message; a non-string statusText is skipped |
| ErrorHandler.InternalField | frontend/src/api/errorHandler.ts:97-117 | the three known server fields are renamed, all others keep their name |
| ErrorHandler.KeyOf | frontend/src/api/errorHandler.ts:107-117 | a missing or empty field files under nonField, otherwise under the mapped field |
| ErrorHandler.Push | frontend/src/api/errorHandler.ts:109-121 | appends one message to its key's list and leaves every other key alone |
| ErrorHandler.MessagesFor | frontend/src/api/errorHandler.ts:103-124 | the messages filed under a key, in input order (reference definition) |
| ErrorHandler.GroupedIsFilter | frontend/src/api/errorHandler.ts:103-124 | a key is present iff some detail files under it, and its list is exactly those messages in order |
| ErrorHandler.EveryDetailFiled | frontend/src/api/errorHandler.ts:103-124 | every detail's message is filed under its key, and no list is longer than the input |
| ErrorHandler.OnlyMappedKeys | frontend/src/api/errorHandler.ts:103-124 | a key no detail maps to is absent |
| ErrorHandler.FileDetail | frontend/src/api/errorHandler.ts:107-121 | one loop step: the detail's message is pushed under its key, onto a new empty list when the key is missing |
| ErrorHandler.MapValidationErrorDetails | frontend/src/api/errorHandler.ts:103-124 | the loop builds exactly the per-key grouping |
| ErrorHandler.MapAxiosError | frontend/src/api/errorHandler.ts:18-70 | non-axios errors and unmapped statuses are base ApplicationErrors; other failures get their class and message |
| ErrorHandler.NoResponseMessages | frontend/src/api/errorHandler.ts:24-34 | timeouts, a lost network and other transport failures get their NetworkError messages |
| ErrorHandler.FixedStatuses | frontend/src/api/errorHandler.ts:36-67 | 400/422, 401, 403, 404, 405 and 409 get their classes, other 4xx ClientError, 5xx ExternalServiceError |
| ErrorHandler.UserFriendlyErrorMessage | frontend/src/api/errorHandler.ts:72-95 | the class text for application errors, the generic text otherwise |
| ErrorHandler.UserFriendlyAgreesWithErrorUtils | frontend/src/api/errorHandler.ts:72-95 | for application errors it is errorUtils' text; otherwise the generic one |
| ErrorHandler.MappedFailuresHaveSpecificText | frontend/src/api/errorHandler.ts:18-95 | every mappable request failure has a non-generic user text |
| Logging.LevelValue | frontend/src/lib/logging.ts:3-8 | Debug is 1 and Error is 4, every level within [1, 4] |
| Logging.LevelFromName | frontend/src/lib/logging.ts:10-15 | each of the four level names maps to its own level, and only that name does |
| Logging.ConfigValue | frontend/src/config/app.ts:17-24 | only API_BASE_URL and LOG_LEVEL have a value in the parsed configuration |
| Logging.ThresholdFrom | frontend/src/lib/logging.ts:17 | the threshold read from LOG_LEVEL is the configured level; every other property gives undefined unless it holds a level name |
| Logging.NothingLoggedAsWritten | frontend/src/lib/logging.ts:17 | as written, the threshold is undefined and no level ever reaches the console |
| Logging.ConfiguredThreshold | frontend/src/lib/logging.ts:17 | read from LOG_LEVEL, errors are always logged and a message is logged iff its level is at least the configured one |
| Logging.EmitsMonotone | frontend/src/lib/logging.ts:35-55 | errors always emit, everything emits under Debug, and a message that emits means every higher level emits too |
| Logging.Prefix | frontend/src/lib/logging.ts:29-32 | the prefix is three characters longer than the timestamp and module name together |
| Logging.PrefixParts | frontend/src/lib/logging.ts:29-32 | the prefix starts with the timestamp, and the module name sits between the brackets |
| Logging.PrefixInjective | frontend/src/lib/logging.ts:29-32 | timestamp and module are recoverable from the prefix |
| Logging.Logger.constructor | frontend/src/lib/logging.ts:28 | a logger for that module with the configured level |
| Logging.Logger.Log | frontend/src/lib/logging.ts:34-56 | appends exactly one prefixed entry iff the configured level is at most the message's level, else the console is unchanged |
| Logging.Registry.constructor | frontend/src/lib/logging.ts:26 | the cache starts empty |
| Logging.Registry.GetLogger | frontend/src/lib/logging.ts:59-68 | returns the cached instance when present; otherwise caches a fresh one for that name; the cache only grows, and no entry is replaced |
| Logging.Registry.DistinctNamesDistinctLoggers | frontend/src/lib/logging.ts:59-68 | different names are cached with different instances |
| UrlGenerators.AppendQueryString | frontend/src/routing/urlGenerators.ts:43-46 | the url unchanged for an empty query, otherwise one character longer than the url and query together |
| UrlGenerators.AppendQueryStringRoundTrip | frontend/src/routing/urlGenerators.ts:43-46 | splitting at the first "?" gives back the url and the query |
| UrlGenerators.GenerateUrl | frontend/src/routing/urlGenerators.ts:36-41 | the origin is prefixed iff absolute is set |
| UrlGenerators.Root | frontend/src/routing/urlGenerators.ts:13 | "/" when relative; always ends in "/" |
| UrlGenerators.TrackList | frontend/src/routing/urlGenerators.ts:15-23 | an absolute URL starts with the origin |
| UrlGenerators.TrackListParts | frontend/src/routing/urlGenerators.ts:15-23 | the relative part splits into "/tracks" and the query |
| UrlGenerators.TrackDetail | frontend/src/routing/urlGenerators.ts:25-34 | an absolute URL starts with the origin |
| UrlGenerators.TrackDetailParts | frontend/src/routing/urlGenerators.ts:25-34 | the relative part splits into "/tracks/" + id and the query |
| UploadForm.CheckSubmit | frontend/src/hooks/useUploadForm.ts:35-43 | no file comes first, then a title blank after trimming; otherwise the request holds the current fields |
| UploadForm.SentRequestsAreComplete | frontend/src/hooks/useUploadForm.ts:35-47 | a request is sent iff a file is selected and the title has a non-whitespace character |
| UploadForm.UploadFormState.constructor | frontend/src/hooks/useUploadForm.ts:17-21 | no file, empty title and date, not submitting |
| UploadForm.UploadFormState.Submit | frontend/src/hooks/useUploadForm.ts:23-47 | a failed guard changes nothing; otherwise isSubmitting is set and exactly one request is sent |
| UploadForm.UploadFormState.Settle | frontend/src/hooks/useUploadForm.ts:45-59 | success resets file, title and date, after which the form refuses to submit for lack of a file; failure keeps them; isSubmitting ends false |
| UploadForm.UploadFormState.HandleSubmit | frontend/src/hooks/useUploadForm.ts:23-60 | the whole submission: guards send nothing and change nothing; a sent request ends not submitting, reset on success, unchanged on failure |
| Autoload.RequestedIds | frontend/src/hooks/useAutoloadPlayable.ts:23-24 | the id goes only to the fetcher of the requested kind |
| Autoload.Chosen | frontend/src/hooks/useAutoloadPlayable.ts:29-30 | the playable and error are the requested kind's fetcher's |
| Autoload.ShouldLoadExcludes | frontend/src/hooks/useAutoloadPlayable.ts:34-37 | no load without a playable, of the current playable, or of the last loaded id |
| Autoload.AutoloadEffect.constructor | frontend/src/hooks/useAutoloadPlayable.ts:32 | no id loaded yet |
| Autoload.AutoloadEffect.Run | frontend/src/hooks/useAutoloadPlayable.ts:34-41 | loads iff the three guards pass, then records its id; keeps "no two consecutive loads share an id" |
| ExceptionHandlers.CodeName | backend/jamflow/schemas/error.py:9-17 | each code serialises as its own distinct name |
| ExceptionHandlers.HttpStatus | backend/jamflow/api/exception_handlers.py:160-166 | the table's status for each subclass; the base class is missing (KeyError) |
| ExceptionHandlers.ErrorCodeFor | backend/jamflow/api/exception_handlers.py:169-175 | the table's code for the eight statuses; any other status is missing |
| ExceptionHandlers.ErrorCodeInverse | backend/jamflow/api/exception_handlers.py:39-48 | each code is found exactly at its own status |
| ExceptionHandlers.EverySubclassHasCode | backend/jamflow/api/exception_handlers.py:25-48 | every subclass has a status, and that status has a code |
| ExceptionHandlers.InternalFailures | backend/jamflow/api/exception_handlers.py:25-37 | exactly the four infrastructure failures map to 500 |
| ExceptionHandlers.ApplicationHandler | backend/jamflow/api/exception_handlers.py:51-74 | status from the class, code from the status, the message as the only detail, 500s logged; the base class fails |
| ExceptionHandlers.DetailOf | backend/jamflow/api/exception_handlers.py:76-96 | the error's message or the default, with the last location element as the field; no detail exactly when that element is a position, which `ErrorDetailDto` refuses |
| ExceptionHandlers.ValidationDetails | backend/jamflow/api/exception_handlers.py:76-96 | one detail per request error, in order; none exactly when some error's location ends in a position |
| ExceptionHandlers.ValidationResponse | backend/jamflow/api/exception_handlers.py:93-100 | 400 / VALIDATION_ERROR carrying exactly the validation details; no response exactly when some location ends in a position |
| ExceptionHandlers.BuildValidationDetails | backend/jamflow/api/exception_handlers.py:76-96 | the loop builds exactly ValidationDetails, stopping at the first detail that cannot be built |
| ExceptionHandlers.ValidationHandler | backend/jamflow/api/exception_handlers.py:76-102 | 400 / VALIDATION_ERROR with one detail per error exactly when no error's location ends in a position; otherwise the handler raises |
| ExceptionHandlers.HttpExceptionHandler | backend/jamflow/api/exception_handlers.py:105-120 | the status is kept and its code looked up; a status outside the table fails |
| ExceptionHandlers.ExternalHandler | backend/jamflow/api/exception_handlers.py:122-140 | always 500 / INTERNAL_ERROR with one fixed message, logged |
| ExceptionHandlers.NotFoundHandler | backend/jamflow/api/exception_handlers.py:142-158 | always 404 / NOT_FOUND with one fixed message |
| ExceptionHandlers.Handle | backend/jamflow/core/app.py:31-35 | every response's code matches its status; an HTTP 404 gets the not-found response, other HTTP errors keep their status and detail, request-validation failures get 400 with their details unless a location ends in a position, where the validation handler raises and the external handler answers 500; base application errors and other exceptions reach the external handler |
| ExceptionHandlers.MalformedJsonBodyIsInternalError | backend/jamflow/api/exception_handlers.py:86-91 | a body that is not valid JSON, reported at ("body", offset), gets the external handler's 500 and no 400 |
| ExceptionHandlers.HandledFiveHundredsAreLogged | backend/jamflow/api/exception_handlers.py:51-140 | a 500 outside the HTTP path is always logged; a tabled application error keeps its own message |
| ExceptionHandlers.RaisedByStorageAsWritten | backend/jamflow/services/storage/s3.py:56-62 | as written a storage failure never raises an application error |
| ExceptionHandlers.RaisedByStorage | backend/jamflow/core/exceptions.py:91-99 | a StorageError becomes an application error of the storage class with its message; an uncaught provider error stays external |
| ExceptionHandlers.StorageFailureAsWrittenIsGeneric | backend/jamflow/core/exceptions.py:1-6 | as written every wrapped storage failure reaches the client as the generic internal error, without its own message |
| ExceptionHandlers.StorageFailureKeepsMessage | backend/jamflow/api/exception_handlers.py:51-74 | a wrapped storage failure reaches the client as 500 / INTERNAL_ERROR with its own message, and is logged |
| Audio.FormatValue | backend/jamflow/services/audio.py:40-43 | the three formats have distinct lower-case values |
| Audio.ParseFormat | backend/jamflow/services/audio.py:40-43 | a string parses to a format iff it is that format's value |
| Audio.GetAudioMimeType | backend/jamflow/services/audio.py:122-131 | each format's MIME type; other values are errors |
| Audio.GetAudioFileFormat | backend/jamflow/services/audio.py:29-43 | no guess is "Cannot guess file type", an unsupported extension names itself, a supported one gives its format |
| Audio.GetAudioDuration | backend/jamflow/services/audio.py:46-77 | the reader's length, or "Failed to read metadata" / "No metadata found" |
| Audio.GetFileSize | backend/jamflow/services/audio.py:112-119 | the stream's length, with the position back at 0 and the bytes unchanged |
| Audio.ClipError | backend/jamflow/services/audio.py:90-101 | the four checks in order: negative start, empty range, unknown format, empty file |
| Audio.ClipAudioFile | backend/jamflow/services/audio.py:80-109 | fails with ClipError when it is set; otherwise a fresh stream at position 0 holding the sliced audio |
| Storage.ErrorContext | backend/jamflow/services/storage/s3.py:166-175 | the provider's code and message iff its response carries an Error part |
| Storage.NothingStoredHolds | backend/jamflow/services/storage/s3.py:42-62 | when no object was put, exactly the objects held before are held after |
| Storage.StoreOmittingContentType | backend/jamflow/services/storage/s3.py:42-48 | a `store_file` call without `content_type` makes no `put_object` call and stores nothing |
| Storage.Wrapped | backend/jamflow/services/storage/s3.py:56-62 | a StorageError with the message and the base context merged with the error context |
| Storage.ClientWrapped | backend/jamflow/services/storage/s3.py:143-163 | only client errors are wrapped; a core error escapes unwrapped |
| Storage.S3StorageService.constructor | backend/jamflow/services/storage/s3.py:39-40 | remembers the bucket name, no client yet |
| Storage.S3StorageService.Enter | backend/jamflow/services/storage/s3.py:124-131 | connects, then creates the bucket exactly when head_bucket reports 404; other failures create nothing |
| Storage.S3StorageService.Exit | backend/jamflow/services/storage/s3.py:133-141 | closes the client when one is set, leaving the buckets alone |
| Storage.S3StorageService.StoreFile | backend/jamflow/services/storage/s3.py:42-62 | one put_object of the bytes under the path; on success the bucket holds exactly that object |
| Storage.S3StorageService.GetFile | backend/jamflow/services/storage/s3.py:64-78 | the chunked copy yields a stream at position 0 with exactly the object's bytes |
| Storage.S3StorageService.Purge | backend/jamflow/services/storage/s3.py:80-104 | lists once and deletes exactly the listed keys, or nothing when the listing is empty |
| Storage.PurgeLeavesLaterPages | backend/jamflow/services/storage/s3.py:80-99 | with more than 1000 objects, an object after the first page survives purge |
| Storage.S3StorageService.PurgeAll | backend/jamflow/services/storage/s3.py:80-99 | deleting page by page until the listing is empty leaves the bucket empty |
| Storage.S3StorageService.GenerateExpiringUrl | backend/jamflow/services/storage/s3.py:106-122 | the presigned URL for the bucket, path and expiration, or the wrapped failure |
| Paths.TwoDigits | backend/jamflow/services/utils.py:18-19 | two decimal digits, no "/" |
| Paths.TwoDigitsValue | backend/jamflow/services/utils.py:18-19 | the two digits read back as the number |
| Paths.FourDigitYear | backend/jamflow/services/utils.py:18 | a four-digit year renders as four characters |
| Paths.TimestampShape | backend/jamflow/services/utils.py:13 | the timestamp is all digits, 14 long for a four-digit year, and starts with year and month |
| Paths.AssembledEnding | backend/jamflow/services/utils.py:14-22 | the joined path ends with "." and the extension |
| Paths.GenerateFilePathEnding | backend/jamflow/services/utils.py:6-24 | the generated path ends with "." and the extension |
| Paths.SplitAssemble | backend/jamflow/services/utils.py:16-22 | three "/"-free segments split back into themselves |
| Paths.PathSegments | backend/jamflow/services/utils.py:6-24 | the path splits at "/" into exactly the year, the month and the file name |
| Paths.FileNameStartsWithDate | backend/jamflow/services/utils.py:13-22 | the file name begins with the year and month of its directories |
| Validators.EmptyStringToNone | backend/jamflow/schemas/validators.py:10-17 | None iff the value is None or "", otherwise the value itself |
| Validators.EmptyStringToNoneIdempotent | backend/jamflow/schemas/validators.py:10-17 | a second pass changes nothing |
| Validators.FileSizeValidator | backend/jamflow/schemas/validators.py:35-49 | an empty size fails first, then one above the limit; accepts iff the size is truthy and at most the limit, returning the upload |
| Validators.FileSizeValidatorMonotone | backend/jamflow/schemas/validators.py:35-49 | a size accepted under a limit is accepted under every larger one |
| Validators.TooLargeMessageExample | backend/jamflow/schemas/validators.py:44-45 | the limit prints in whole megabytes, rounded down |
| Validators.SupportedFormats | backend/jamflow/schemas/validators.py:29 | the joined formats are "mp3, ogg, wav" |
| Validators.ValidateAudioFileFormatAsWritten | backend/jamflow/schemas/validators.py:20-31 | as written: accepts iff the format is detected; a detector failure escapes with its own message |
| Validators.DetectionFailureEscapes | backend/jamflow/schemas/validators.py:20-31 | an unguessable upload escapes as "Cannot guess file type", where the intended ValueError is the supported-formats message |
| Validators.ValidateAudioFileFormat | backend/jamflow/schemas/validators.py:20-31 | accepts iff the guessed type is a supported format, else the ValueError listing the formats |
| Validators.ValidateAudioFileFormatAgrees | backend/jamflow/schemas/validators.py:20-31 | the corrected validator accepts exactly what the one as written accepts |
| TrackService.GeneratePath | backend/jamflow/services/track.py:61-75 | `_generate_path` is the shared path generator |
| TrackService.StorageExtension | backend/jamflow/services/track.py:25-27 | the lower-cased format value gives the same path, ending in that extension |
| TrackService.StoreInBucket | backend/jamflow/services/track.py:28-31 | on success the bucket holds the bytes under the path |
| TrackService.TrackCreateAsWritten | backend/jamflow/services/track.py:20-31 | as written: every call fails, a format error first, then the failing store; no object is stored and no row is added or committed |
| TrackService.TrackCreate | backend/jamflow/services/track.py:20-58 | a format error touches nothing; a duration error after storing is the upload_file ValidationException; success stores the bytes and adds and commits exactly the row |
| ClipService.FetchFromBucket | backend/jamflow/services/clip.py:23-24 | on success a fresh stream at position 0 with the stored bytes |
| ClipService.StoreAndSign | backend/jamflow/services/clip.py:35-38 | on success the bucket holds the clip and the URL is the one signed for its path |
| ClipService.ClipCreateAsWritten | backend/jamflow/services/clip.py:16-38 | as written: every call fails, a missing track with no storage call; no object is stored and no row is added or committed |
| ClipService.ClipCreate | backend/jamflow/services/clip.py:16-56 | a missing track is NotFound with no storage call; errors write no row; success reads the track bucket, stores the slice in the clip bucket under a path with the track's format, adds and commits one row with size 0 and returns the signed URL |

## Left out

- Howler and the browser: creating and unloading the Howl, the `requestAnimationFrame` progress ticks, the position-sync intervals and the effects that push volume, mute and loop into Howler. Howler's callbacks are methods of the hooks instead.
- Pointer geometry: `getBoundingClientRect`, pointer capture and the conversion of a pointer position into a time in `ClipperControls`. `ClipperControls.ThumbDrag.PointerMove` takes the time already rounded to a whole millisecond. Clamping between integer bounds commutes with `Math.round`, so nothing is lost.
- React rendering: every view component, and the re-render timing of state updates. Stale closures are not modelled; each hook method reads the current state.
- Floating point: `secondsToMs`, `msToSeconds`, `percentToFactor` and the metadata length conversion. Durations are whole milliseconds, and `Math.round` is the identity on them.
- Foreign libraries, each an input:
  - `filetype.guess`: its guessed extension;
  - mutagen: the metadata read;
  - pydub: the slice function;
  - `createSearchParams`: the encoded query string;
  - the clock and `uuid4`: an instant and 32 hex digits;
  - `window.location.origin`;
  - the ISO timestamp of the logger;
  - the fetch hooks `useTrack` and `useClip`: their results.
- S3 and the database are simulated: a `Backend` class with buckets and injectable faults, and a `Session` class with rows and a commit counter. Network failures and S3 pagination beyond the 1000-key first page are not modelled. `session.refresh` and DTO validation are not modelled either.
- Structured logging in the backend (`log.ainfo`, bind/unbind of the log context) is not modelled. Only the "500s are logged" decision of the exception handlers is recorded.
- Concurrency: the `await` points of the async services and hooks are not interleaved with other work. `UploadForm.UploadFormState.HandleSubmit` assumes nothing is typed while the upload is in flight. `Submit` and `Settle` model the two halves separately.
- `console.*` formatting of the logged data. `Logging.Logger.Log` is one method for the four level methods.
- ClipperRuler.MarkerTimes: requires a positive even marker distance. The source passes 60000; an odd distance (fractional step) and a non-positive one (an endless loop) are not modelled.
- Validators.FileSizeValidator: the limit is a natural number; a negative `max_size` is not modelled.
- Clipper.ClipperHook.BeginSubmit: the "No track available" branch is not modelled, because an Active clipper always holds its track (`Clipper.Wf`).
- Clipper.Reduce: START_CLIPPING computes the corrected window `Clipper.InitialBounds` of Findings row 1, not `getInitialBounds` as written. The two agree unless the position is within 10000 ms of the track's end (`Clipper.InitialBoundsAgreeAwayFromEnd`). There, the code's window is shorter than 15000 ms.
- Clipper.ReduceKeepsInv: holds of the corrected reducer. As written, START_CLIPPING near the end of a track breaks the 15000 ms minimum (`Clipper.InitialBoundsAsWrittenBreaksMinimum`).
- Clipper.ClipperHook.StartClippingAt: the START_CLIPPING it dispatches is reduced with the corrected window of Findings row 1.
- Clipper.ClipperHook.OnSeek: an out-of-window seek moves the window to the corrected `Clipper.InitialBounds` of Findings row 1, not to `getInitialBounds` as written.
- Clipper.ClipperHook.SettleSubmit: a rejection follows the corrected order `Clipper.RejectedState` of Findings row 2. As written (`Clipper.RejectedStateAsWritten`), the server's title messages never reach the form.
- Playback.IsPlaybackLockedByBrowser: lower-cases ASCII letters only. `toLocaleLowerCase` folds all of Unicode; for example, KELVIN SIGN (U+212A) becomes "k". A message that matches the phrase only after such folding is a lock in the source and not in the model.
- Logging.Registry.constructor: the registry's level is the one configured under LOG_LEVEL, which is the corrected reading of Findings row 6. As written, no logger prints anything (`Logging.NothingLoggedAsWritten`).
- TrackService.StoreInBucket: passes the format's MIME type as `content_type`, the corrected half of Findings row 7. As written, the call leaves it out and raises `TypeError` (`Storage.StoreOmittingContentType`).
- TrackService.TrackCreate: the corrected half of Findings row 7, with the stale imports repaired: the missing storage factory is a bucket parameter, and `ValidationException` exists although services/exceptions/base.py imports an `ApplicationException` that is not defined. As written, the module does not import, and a call never stores and never writes a row (`TrackService.TrackCreateAsWritten`).
- ClipService.StoreAndSign: passes the format's MIME type as `content_type`, the corrected half of Findings row 8. As written, the call leaves it out and raises `TypeError` before any URL is signed.
- ClipService.ClipCreate: the corrected half of Findings row 8, with the stale imports repaired as for `TrackService.TrackCreate`: the two missing storage factories are bucket parameters. As written, the module does not import, and a call never stores and never writes a row (`ClipService.ClipCreateAsWritten`).
- ErrorHandler.InternalField: treats the field map as having exactly its three own keys. In the source, `field in apiToInternalFieldMap` and `key in details` also see members inherited from `Object.prototype`, so a server field named "constructor" or "toString" would be filed under an inherited member, or make the push fail. This backend's field names never take those values.
- Storage.Wrapped: the gateway's failures are `StorageError`s with a merged context, the corrected half of Findings row 5. As written, building one raises `TypeError` (`ExceptionHandlers.StorageFailureAsWrittenIsGeneric`).
- backend/jamflow/models/enums.py is not part of this model. `AudioFileFormat` is taken to have the members mp3, ogg and wav, in that order.
- `PlaybackProvider`'s own Howler effects, its `getAudioErrorMessage` copy and its `getPosition` are not modelled. The copy is identical to `Playback.AudioErrorMessage`.

## Notes on the source

- **Duration format.** The doc comment of `formatDuration` (frontend/src/lib/time.ts:7-8) promises "1:01" for 61 s. The code pads minutes, giving "01:01"; the model follows the code.
- **Clip end.** `clip_create` does not check the clip's end against the track's duration, and the model does not either.
- **Content type.**
  - `track_create` and `clip_create` call `store_file` without the required `content_type` (Findings rows 7 and 8). The corrected services pass the format's MIME type.
  - The services import `get_track_storage_service` and `get_clip_storage_service`, which the storage package no longer defines. Both are modelled as sessions on a bucket whose name is a parameter; `ClipService.ClipCreate` reads from one and writes to the other.
- **Missing base exception.** backend/jamflow/services/exceptions/base.py:1 imports `ApplicationException`, but backend/jamflow/core/exceptions.py defines `ApplicationError`. As written, the service exceptions, and the services that import them, fail to import. The model's `ServiceFailure` stands for the intended classes.
- **Positions in validation locations.** FastAPI puts integers into an error's location: a list item's index, or the offset of a JSON decode error. The validation handler passes the last element to `ErrorDetailDto.field`, typed `str | None`, and pydantic does not turn an `int` into a `str`. So building the detail raises, and the external handler answers 500 (`ExceptionHandlers.MalformedJsonBodyIsInternalError`). The model follows the code.
- **Clip URL.** `clip_create` merges a `url` into `ClipReadDto`, which declares no such field. `ClipService.ClipRead` carries it.
- **Stale import.** frontend/src/components/clipper/ClipperRuler.tsx imports a `timeToPositionPercent` that frontend/src/lib/time.ts does not export. The function modelled is the one in `ClipperControls.tsx`.
- **Missing handler name.** backend/jamflow/core/app.py:10 imports `page_not_found_handler`, which backend/jamflow/api/exception_handlers.py does not define; it defines `http_404_handler` (line 142). As written, importing the app module fails. `ExceptionHandlers.Handle` registers `http_404_handler` for status 404.
- **Playback durations.** The clipper's `setEnd` and seek effect clamp against the playback context's duration (Howler's reading, 0 before LOADED). `START_CLIPPING` uses the track's stored duration. `Clipper.ClipperHook.SetEnd` and `OnSeek` take the playback duration as given. They keep the window invariants when it equals the track's.
- **Two window computations.** The view window of `useClipperViewBounds` and the `getWindowBounds` of `ClipperControls.tsx` compute the same thing. `ViewBounds` models both.

## Findings

| source | as written | input that shows it | evidently intended | confidence | as-written member | corrected member |
|---|---|---|---|---|---|---|
| frontend/src/hooks/useClipper.ts:400-409 | the start is `max(0, position - 5000)` even when fewer than 15000 ms remain after it | a 200000 ms track clipped at position 200000 gives [195000, 200000], 5000 ms long | the window always satisfies MIN_CLIP_DURATION ≤ end - start (lines 379-387) | high, not executed | Clipper.InitialBoundsAsWrittenBreaksMinimum | Clipper.InitialBoundsValid |
| frontend/src/hooks/useClipper.ts:254-262 | the server's title errors are dispatched while the status is still Submitting, where SET_VALIDATION_ERRORS is refused | postClip rejects with details {title: ["Title is too long"]}: the form shows no title error | SUBMIT_FAILURE first, then the title errors | high, not executed | Clipper.RejectedTitleErrorsLost | Clipper.RejectedState |
| backend/jamflow/services/storage/s3.py:80-99 | purge lists once and deletes only the returned page (at most 1000 keys) | a bucket with 1001 objects with distinct keys keeps its 1001st object | every object is deleted | high, not executed | Storage.PurgeLeavesLaterPages | Storage.S3StorageService.PurgeAll |
| backend/jamflow/schemas/validators.py:20-31 | catches ValidationError, but the detector raises AudioServiceException, which escapes | an upload whose type cannot be guessed | the ValueError listing the supported formats | medium, not executed | Validators.DetectionFailureEscapes | Validators.ValidateAudioFileFormat |
| backend/jamflow/services/storage/s3.py:56-62 | `StorageError("...", context=...)`, but `StorageError` inherits `ApplicationError.__init__(self, message)` (backend/jamflow/core/exceptions.py:4), which takes no `context`, so the call raises `TypeError`; the same holds at lines 27, 78, 104 and 120 | a `put_object` that fails with a `ClientError` | a `StorageError` with its message and context, answered by the application handler with that message | high, not executed | ExceptionHandlers.StorageFailureAsWrittenIsGeneric | ExceptionHandlers.StorageFailureKeepsMessage |
| frontend/src/lib/logging.ts:17 | the threshold is `LogLevelNameToInt[appConfig.logLevel]`, but the parsed configuration has `LOG_LEVEL` and no `logLevel` (frontend/src/config/app.ts:17-24), so the threshold is `undefined` and every `logLevel <= LogLevel.X` test is false | any valid configuration, e.g. LOG_LEVEL "debug": `logger.error(...)` prints nothing | the threshold is the level configured under LOG_LEVEL | high, not executed | Logging.NothingLoggedAsWritten | Logging.ConfiguredThreshold |
| backend/jamflow/services/track.py:28-31 | `store_file(path=..., file=...)` leaves out the keyword-only `content_type` of backend/jamflow/services/storage/s3.py:42-48, so the call raises `TypeError` | any upload whose format is detected: nothing is stored and no track row is written | the bytes stored with the format's MIME type, then the row committed | high, not executed | TrackService.TrackCreateAsWritten | TrackService.TrackCreate |
| backend/jamflow/services/clip.py:35-38 | `store_file(path=path, file=clip_file)` leaves out the keyword-only `content_type`, so the call raises `TypeError` before the URL is signed | any clip of an existing track whose range is valid: nothing is stored and no clip row is written | the clip stored with its format's MIME type, signed, then the row committed | high, not executed | ClipService.ClipCreateAsWritten | ClipService.ClipCreate |
