/**
 * The clipper (frontend/src/hooks/useClipper.ts): clip-window arithmetic,
 * title validation and the Idle/Active/Submitting state machine, plus the
 * hook that feeds it clamped bounds.  Times are integer milliseconds, so
 * `Math.round` is the identity here.
 */
module Clipper {
  import opened Wrappers
  import opened Strings
  import opened Playables

  const START_OFFSET := 5000
  const END_OFFSET := 60000
  const SEEK_END_OFFSET := 1000
  const MIN_CLIP_DURATION := 15000
  const MAX_CLIP_DURATION := 180000
  const MAX_TITLE_LENGTH := 255

  function Min(a: int, b: int): int { if a <= b then a else b }
  function Max(a: int, b: int): int { if a >= b then a else b }

  /** `Math.min(Math.max(value, min), max)`: lands in [min, max] when that is non-empty, and is `max` otherwise. */
  function Clamp(value: int, lo: int, hi: int): (r: int)
    ensures lo <= hi ==> lo <= r <= hi
    ensures lo <= value <= hi ==> r == value
    ensures lo > hi ==> r == hi
    ensures r <= hi
  {
    Min(Max(value, lo), hi)
  }

  /** The clip-window invariants the source states for START and END against the track's DURATION. */
  predicate ValidBounds(start: int, end: int, duration: int) {
    0 <= start && end <= duration && start < end
    && MIN_CLIP_DURATION <= end - start <= MAX_CLIP_DURATION
  }

  /** `clampStart`: keeps a new start within [max(0, end - MAX), end - MIN]. */
  function ClampStart(rawStart: int, end: int): (r: int)
    ensures r <= end - MIN_CLIP_DURATION
    ensures end >= MIN_CLIP_DURATION ==> Max(0, end - MAX_CLIP_DURATION) <= r
  {
    Clamp(rawStart, Max(0, end - MAX_CLIP_DURATION), end - MIN_CLIP_DURATION)
  }

  /** `clampEnd`: keeps a new end within [start + MIN, min(duration, start + MAX)]. */
  function ClampEnd(rawEnd: int, start: int, duration: int): (r: int)
    ensures r <= duration && r - start <= MAX_CLIP_DURATION
    ensures start + MIN_CLIP_DURATION <= duration ==> start + MIN_CLIP_DURATION <= r
  {
    Clamp(rawEnd, start + MIN_CLIP_DURATION, Min(duration, start + MAX_CLIP_DURATION))
  }

  /** Moving the start with `clampStart` keeps valid bounds valid. */
  lemma ClampStartKeepsBounds(rawStart: int, start: int, end: int, duration: int)
    requires ValidBounds(start, end, duration)
    ensures ValidBounds(ClampStart(rawStart, end), end, duration)
  {
  }

  /** Moving the end with `clampEnd` keeps valid bounds valid. */
  lemma ClampEndKeepsBounds(rawEnd: int, start: int, end: int, duration: int)
    requires ValidBounds(start, end, duration)
    ensures ValidBounds(start, ClampEnd(rawEnd, start, duration), duration)
  {
  }

  /** Clamping an already clamped value changes nothing, for both bounds. */
  lemma ClampsIdempotent(raw: int, start: int, end: int, duration: int)
    ensures ClampStart(ClampStart(raw, end), end) == ClampStart(raw, end)
    ensures ClampEnd(ClampEnd(raw, start, duration), start, duration) == ClampEnd(raw, start, duration)
  {
  }

  datatype Bounds = Bounds(start: int, end: int)

  /**
   * `getInitialBounds` exactly as written: the start is `max(0, position - START_OFFSET)`
   * and the end is `clampEnd(position + END_OFFSET, start, duration)`.
   */
  function InitialBoundsAsWritten(position: int, duration: int): (b: Bounds)
    ensures b.start >= 0 && b.start >= position - START_OFFSET
    ensures b.end <= duration && b.end - b.start <= MAX_CLIP_DURATION
    ensures b.start + MIN_CLIP_DURATION <= duration ==> ValidBounds(b.start, b.end, duration)
  {
    var start := Max(0, position - START_OFFSET);
    Bounds(start, ClampEnd(position + END_OFFSET, start, duration))
  }

  /**
   * Starting a clip at the very end of a long enough track yields a window shorter
   * than MIN_CLIP_DURATION: the interval `clampEnd` is asked to clamp into is empty.
   */
  lemma InitialBoundsAsWrittenBreaksMinimum()
    ensures var b := InitialBoundsAsWritten(200000, 200000);
      b == Bounds(195000, 200000) && b.end - b.start < MIN_CLIP_DURATION
      && !ValidBounds(b.start, b.end, 200000)
  {
  }

  /**
   * `getInitialBounds` with the start pulled back so that a MIN_CLIP_DURATION window
   * still fits before the end of the track.
   */
  function InitialBounds(position: int, duration: int): (b: Bounds)
  {
    var start := Max(0, Min(position - START_OFFSET, duration - MIN_CLIP_DURATION));
    Bounds(start, ClampEnd(position + END_OFFSET, start, duration))
  }

  /**
   * The corrected initial window always satisfies the invariants, wherever the
   * position lies, and contains the position when it lies within the track.
   */
  lemma InitialBoundsValid(position: int, duration: int)
    requires MIN_CLIP_DURATION <= duration
    ensures var b := InitialBounds(position, duration); ValidBounds(b.start, b.end, duration)
    ensures 0 <= position <= duration ==>
      var b := InitialBounds(position, duration); b.start <= position <= b.end
  {
  }

  /** Away from the end of the track the corrected window is the one the code computes. */
  lemma InitialBoundsAgreeAwayFromEnd(position: int, duration: int)
    requires position - START_OFFSET + MIN_CLIP_DURATION <= duration
    ensures InitialBounds(position, duration) == InitialBoundsAsWritten(position, duration)
  {
  }

  /** `sanitizeTitle`: `trim()`. */
  function SanitizeTitle(v: string): (r: string)
    ensures r == [] <==> AllWhitespace(v)
  {
    TrimEmptyIff(v);
    Trim(v)
  }

  const EMPTY_TITLE := "Title cannot be empty"
  const LONG_TITLE := "Title is too long"

  /** `validateTitle`: empty, then too long (in UTF-16 units), else no error. */
  function ValidateTitle(v: string): (r: Option<string>)
    ensures v == [] <==> r == Some(EMPTY_TITLE)
    ensures v != [] && Utf16Length(v) > MAX_TITLE_LENGTH <==> r == Some(LONG_TITLE)
    ensures r.None? <==> v != [] && Utf16Length(v) <= MAX_TITLE_LENGTH
  {
    if v == [] then Some(EMPTY_TITLE)
    else if Utf16Length(v) > MAX_TITLE_LENGTH then Some(LONG_TITLE)
    else None
  }

  /** A title is rejected as empty exactly when it is all whitespace, and otherwise by the length of its trimmed form. */
  lemma TitleValidation(title: string)
    ensures ValidateTitle(SanitizeTitle(title)) == Some(EMPTY_TITLE) <==> AllWhitespace(title)
    ensures !AllWhitespace(title) ==>
      (ValidateTitle(SanitizeTitle(title)).None? <==> Utf16Length(Trim(title)) <= MAX_TITLE_LENGTH)
    ensures Utf16Length(title) <= MAX_TITLE_LENGTH && !AllWhitespace(title) ==> ValidateTitle(SanitizeTitle(title)).None?
  {
    TrimmedNoLonger(title);
  }

  /** Trimming never makes a string longer in UTF-16 units. */
  lemma TrimmedNoLonger(s: string)
    ensures Utf16Length(Trim(s)) <= Utf16Length(s)
  {
    var t := TrimStart(s);
    Utf16LengthSuffix(s, |s| - |t|);
    Utf16LengthPrefix(t, |TrimEnd(t)|);
  }

  /** Dropping characters from the front never adds UTF-16 units. */
  lemma {:induction false} Utf16LengthSuffix(s: string, k: nat)
    requires k <= |s|
    ensures Utf16Length(s[k..]) <= Utf16Length(s)
  {
    if k > 0 {
      assert s[k..] == s[1..][k - 1..];
      Utf16LengthSuffix(s[1..], k - 1);
    }
  }

  /** Dropping characters from the back never adds UTF-16 units. */
  lemma {:induction false} Utf16LengthPrefix(s: string, k: nat)
    requires k <= |s|
    ensures Utf16Length(s[..k]) <= Utf16Length(s)
  {
    if k > 0 {
      assert s[..k][1..] == s[1..][..k - 1];
      Utf16LengthPrefix(s[1..], k - 1);
    }
  }

  datatype ClipperStatus = Idle | Active | Submitting

  /** Server-side validation messages per field, as the form shows them. */
  type FieldErrors = map<string, seq<string>>

  datatype ClipperState = ClipperState(
    status: ClipperStatus,
    start: int,
    end: int,
    title: string,
    track: Option<Playable>,
    createdClip: Option<Playable>,
    validationErrors: FieldErrors)

  const InitialState := ClipperState(Idle, 0, 0, "", None, None, map[])

  datatype ClipperAction =
    | StartClipping(position: int, startTrack: Playable)
    | CancelClipping
    | SetBounds(newStart: int, newEnd: int)
    | SetTitle(newTitle: string, error: Option<string>)
    | SetValidationErrors(errors: FieldErrors)
    | SubmitStart
    | SubmitSuccess(clip: Playable)
    | SubmitFailure

  /** The per-status allow-list (`allowAction`). */
  predicate Allowed(status: ClipperStatus, a: ClipperAction) {
    match status
    case Idle => a.StartClipping?
    case Active => a.CancelClipping? || a.SetBounds? || a.SetTitle? || a.SetValidationErrors? || a.SubmitStart?
    case Submitting => a.SubmitSuccess? || a.SubmitFailure?
  }

  /** An error string counts only when it is truthy: present and not "". */
  predicate Truthy(e: Option<string>) {
    e.Some? && e.value != ""
  }

  /** The validation errors after SET_TITLE: the "title" entry is dropped, then set to `[error]` if the error is truthy. */
  function TitleErrors(errors: FieldErrors, error: Option<string>): (r: FieldErrors)
    ensures forall k :: k != "title" ==> (k in r <==> k in errors) && (k in r ==> r[k] == errors[k])
    ensures "title" in r <==> Truthy(error)
    ensures "title" in r ==> r["title"] == [error.value]
  {
    var rest := errors - {"title"};
    if Truthy(error) then rest["title" := [error.value]] else rest
  }

  /** `clipperReducer`: a disallowed action returns the state itself. */
  function Reduce(s: ClipperState, a: ClipperAction): (r: ClipperState)
    ensures !Allowed(s.status, a) ==> r == s
    ensures Wf(s) ==> Wf(r)
  {
    if !Allowed(s.status, a) then s
    else match a
      case StartClipping(position, track) =>
        var b := InitialBounds(position, track.duration);
        s.(status := Active, start := b.start, end := b.end, title := "", track := Some(track))
      case CancelClipping => InitialState
      case SetBounds(start, end) => s.(start := start, end := end)
      case SetTitle(title, error) => s.(title := title, validationErrors := TitleErrors(s.validationErrors, error))
      case SetValidationErrors(errors) => s.(validationErrors := s.validationErrors + errors)
      case SubmitStart => s.(status := Submitting)
      case SubmitSuccess(clip) => s.(status := Idle, createdClip := Some(clip))
      case SubmitFailure => s.(status := Active)
  }

  /** The lifecycle: every status change is one of the five edges of the machine. */
  lemma Lifecycle(s: ClipperState, a: ClipperAction)
    ensures var r := Reduce(s, a);
      r.status != s.status ==>
        (s.status == Idle && a.StartClipping? && r.status == Active) ||
        (s.status == Active && a.SubmitStart? && r.status == Submitting) ||
        (s.status == Active && a.CancelClipping? && r.status == Idle) ||
        (s.status == Submitting && a.SubmitSuccess? && r.status == Idle) ||
        (s.status == Submitting && a.SubmitFailure? && r.status == Active)
    ensures s.status == Idle && a.StartClipping? ==>
      var r := Reduce(s, a); r.status == Active && r.title == "" && r.track == Some(a.startTrack)
    ensures s.status == Submitting && a.SubmitSuccess? ==>
      var r := Reduce(s, a); r.status == Idle && r.createdClip == Some(a.clip)
    ensures s.status == Active && a.CancelClipping? ==> Reduce(s, a) == InitialState
  {
  }

  /** Title edits touch only the "title" entry of the errors; merging lets incoming keys win and keeps the rest. */
  lemma ErrorUpdates(s: ClipperState, title: string, error: Option<string>, errors: FieldErrors)
    requires s.status == Active
    ensures var r := Reduce(s, SetTitle(title, error));
      r.title == title
      && (forall k :: k != "title" ==> (k in r.validationErrors <==> k in s.validationErrors))
      && ("title" in r.validationErrors <==> Truthy(error))
    ensures var r := Reduce(s, SetValidationErrors(errors));
      (forall k :: k in errors ==> k in r.validationErrors && r.validationErrors[k] == errors[k])
      && (forall k :: k in s.validationErrors && k !in errors ==>
            k in r.validationErrors && r.validationErrors[k] == s.validationErrors[k])
      && r.validationErrors.Keys == s.validationErrors.Keys + errors.Keys
  {
  }

  /** A non-idle clipper always holds the track it clips. */
  predicate Wf(s: ClipperState) {
    s.status != Idle ==> s.track.Some?
  }

  /** The clip-window invariants hold in every non-idle state, against the clipped track's duration. */
  predicate Inv(s: ClipperState) {
    s.status != Idle ==> s.track.Some? && ValidBounds(s.start, s.end, s.track.value.duration)
  }

  /** The actions the hook can send: a START_CLIPPING the `isClippable` rule let through, and SET_BOUNDS with valid bounds. */
  predicate Sendable(s: ClipperState, a: ClipperAction) {
    match a
    case StartClipping(_, track) => MIN_CLIP_DURATION <= track.duration
    case SetBounds(start, end) =>
      s.status != Idle && s.track.Some? ==> ValidBounds(start, end, s.track.value.duration)
    case _ => true
  }

  /** The reducer preserves the clip-window invariants for every action the hook sends. */
  lemma ReduceKeepsInv(s: ClipperState, a: ClipperAction)
    requires Inv(s) && Sendable(s, a)
    ensures Inv(Reduce(s, a))
  {
    if Allowed(s.status, a) && a.StartClipping? {
      InitialBoundsValid(a.position, a.startTrack.duration);
    }
  }

  /** The `isClippable` rule: a track longer than MAX_CLIP_DURATION that is playing or paused. */
  function IsClippable(playable: Option<Playable>, isPlaying: bool, isPaused: bool): (ok: bool)
    ensures ok <==> IsTrack(playable) && playable.value.duration > MAX_CLIP_DURATION && (isPlaying || isPaused)
  {
    var track := AsTrack(playable);
    track.Some? && track.value.duration > MAX_CLIP_DURATION && (isPlaying || isPaused)
  }

  /** `SubmitResult`: whether the clip was created and the message to show, if any. */
  datatype SubmitResult = SubmitResult(success: bool, error: Option<string>)

  /** The `postClip` request `submitClip` sends. */
  datatype ClipRequest = ClipRequest(trackId: string, title: string, start: int, end: int)

  /**
   * How `postClip` settled: the created clip; a `ValidationError` whose details
   * hold the "title" messages, if any, and the other fields' messages
   * flattened in the order the server sent them; or any other error, already
   * turned into its message by `getErrorMessage`.
   */
  datatype PostOutcome =
    | Created(clip: Playable)
    | Invalid(titleErrors: Option<seq<string>>, otherErrors: seq<string>)
    | Failed(message: string)

  /** What `submitClip` resolves to once `postClip` has settled. */
  function SettledResult(outcome: PostOutcome): (r: SubmitResult)
    ensures r.success <==> outcome.Created?
    ensures outcome.Created? ==> r.error.None?
    ensures outcome.Invalid? ==> (r.error.Some? <==> outcome.otherErrors != [])
    ensures outcome.Invalid? && |outcome.otherErrors| == 1 ==> r.error == Some(outcome.otherErrors[0])
    ensures outcome.Invalid? && outcome.otherErrors != [] ==> r.error == Some(Join(outcome.otherErrors, " | "))
    ensures outcome.Failed? ==> r.error == Some(outcome.message)
  {
    match outcome
    case Created(_) => SubmitResult(true, None)
    case Invalid(_, others) =>
      if |others| > 0 then SubmitResult(false, Some(Join(others, " | "))) else SubmitResult(false, None)
    case Failed(message) => SubmitResult(false, Some(message))
  }

  /**
   * The state after a rejected submission as written: SET_VALIDATION_ERRORS
   * is dispatched while the status is still Submitting, where the reducer
   * refuses it, and only then SUBMIT_FAILURE.
   */
  function RejectedStateAsWritten(s: ClipperState, titleErrors: Option<seq<string>>): (r: ClipperState)
    requires s.status == Submitting
    ensures r == s.(status := Active)
  {
    var s1 := if titleErrors.Some? then Reduce(s, SetValidationErrors(map["title" := titleErrors.value])) else s;
    Reduce(s1, SubmitFailure)
  }

  /**
   * The state after a rejected submission with the two dispatches in the
   * order that lets the reducer accept both: back to Active, then the
   * server's "title" messages, if any, replace the form's.
   */
  function RejectedState(s: ClipperState, titleErrors: Option<seq<string>>): (r: ClipperState)
    requires s.status == Submitting
    ensures r.status == Active && r.start == s.start && r.end == s.end && r.title == s.title && r.track == s.track
    ensures titleErrors.Some? ==> "title" in r.validationErrors && r.validationErrors["title"] == titleErrors.value
    ensures forall k | k in s.validationErrors && k != "title" :: k in r.validationErrors && r.validationErrors[k] == s.validationErrors[k]
    ensures titleErrors.None? ==> r.validationErrors == s.validationErrors
  {
    var s1 := Reduce(s, SubmitFailure);
    if titleErrors.Some? then Reduce(s1, SetValidationErrors(map["title" := titleErrors.value])) else s1
  }

  /** A server-side title message is lost as written and shown once the dispatches are reordered. */
  lemma RejectedTitleErrorsLost(s: ClipperState, message: string)
    requires s.status == Submitting && "title" !in s.validationErrors
    ensures "title" !in RejectedStateAsWritten(s, Some([message])).validationErrors
    ensures RejectedState(s, Some([message])).validationErrors["title"] == [message]
  {
  }

  /** The corrected rejection differs from the one as written only in the form's errors. */
  lemma RejectedStatesAgree(s: ClipperState, titleErrors: Option<seq<string>>)
    requires s.status == Submitting
    ensures RejectedState(s, titleErrors).(validationErrors := s.validationErrors) == RejectedStateAsWritten(s, titleErrors)
    ensures titleErrors.None? ==> RejectedState(s, titleErrors) == RejectedStateAsWritten(s, titleErrors)
  {
  }

  /** Every message the server sent for a field other than the title shows up in the returned error text. */
  lemma SubmitErrorShowsEveryMessage(outcome: PostOutcome, i: nat)
    requires outcome.Invalid? && i < |outcome.otherErrors|
    ensures SettledResult(outcome).error.Some?
    ensures exists k: nat :: OccursAt(SettledResult(outcome).error.value, outcome.otherErrors[i], k)
  {
    JoinShowsEveryPart(outcome.otherErrors, " | ", i);
  }

  /**
   * The hook around the reducer.  `state` is the reducer state; the playback
   * context (playable, duration, status, position) is passed to each action.
   * The playback `duration` is Howler's reading of the loaded audio, which
   * need not be the clipped track's stored duration; the clip-window
   * invariants `Inv` are kept whenever the two agree.
   */
  class ClipperHook {
    var state: ClipperState

    constructor ()
      ensures state == InitialState && Inv(state)
    {
      state := InitialState;
    }

    /** `startClipping`: does nothing unless the playable is clippable and the status allows it. */
    method StartClippingAt(playable: Option<Playable>, isPlaying: bool, isPaused: bool, position: int)
      requires Wf(state)
      modifies this
      ensures Wf(state) && (Inv(old(state)) ==> Inv(state))
      ensures !IsClippable(playable, isPlaying, isPaused) || old(state.status) != Idle ==> state == old(state)
      ensures IsClippable(playable, isPlaying, isPaused) && old(state.status) == Idle ==>
        state == Reduce(old(state), StartClipping(position, playable.value)) && state.status == Active
        && ValidBounds(state.start, state.end, playable.value.duration)
        && (0 <= position <= playable.value.duration ==> state.start <= position <= state.end)
    {
      if !IsClippable(playable, isPlaying, isPaused) { return; }
      if !Allowed(state.status, StartClipping(position, playable.value)) { return; }
      InitialBoundsValid(position, playable.value.duration);
      ReduceKeepsInv(state, StartClipping(position, playable.value));
      state := Reduce(state, StartClipping(position, playable.value));
    }

    /** `setStart`: clamps the new start against the current end, stores it, and returns where playback seeks. */
    method SetStart(rawStart: int) returns (seekTo: int)
      requires Wf(state)
      modifies this
      ensures Wf(state) && (Inv(old(state)) ==> Inv(state))
      ensures seekTo == ClampStart(rawStart, old(state.end))
      ensures state == Reduce(old(state), SetBounds(seekTo, old(state.end)))
    {
      var end := state.end;
      var start := ClampStart(rawStart, end);
      if Inv(state) {
        if state.status != Idle {
          ClampStartKeepsBounds(rawStart, state.start, end, state.track.value.duration);
        }
        ReduceKeepsInv(state, SetBounds(start, end));
      }
      state := Reduce(state, SetBounds(start, end));
      seekTo := start;
    }

    /**
     * `setEnd`: clamps the new end against the current start and the playback
     * duration; playback seeks one second before it.
     */
    method SetEnd(rawEnd: int, duration: int) returns (seekTo: int)
      requires Wf(state)
      modifies this
      ensures Wf(state)
      ensures Inv(old(state)) && (old(state.track).Some? ==> duration == old(state.track).value.duration) ==> Inv(state)
      ensures seekTo == ClampEnd(rawEnd, old(state.start), duration) - SEEK_END_OFFSET
      ensures state == Reduce(old(state), SetBounds(old(state.start), seekTo + SEEK_END_OFFSET))
      ensures old(state.status) == Active ==>
        state.end <= duration && state.end - state.start <= MAX_CLIP_DURATION
        && (state.start + MIN_CLIP_DURATION <= duration ==> MIN_CLIP_DURATION <= state.end - state.start)
    {
      var start := state.start;
      var end := ClampEnd(rawEnd, start, duration);
      if Inv(state) && (state.track.Some? ==> duration == state.track.value.duration) {
        if state.status != Idle {
          ClampEndKeepsBounds(rawEnd, start, state.end, duration);
        }
        ReduceKeepsInv(state, SetBounds(start, end));
      }
      state := Reduce(state, SetBounds(start, end));
      seekTo := end - SEEK_END_OFFSET;
    }

    /** `setTitle`: stores the raw title with the error of its trimmed form. */
    method SetTitleTo(title: string)
      requires Wf(state)
      modifies this
      ensures Wf(state) && (Inv(old(state)) ==> Inv(state))
      ensures state == Reduce(old(state), SetTitle(title, ValidateTitle(SanitizeTitle(title))))
    {
      var error := ValidateTitle(SanitizeTitle(title));
      state := Reduce(state, SetTitle(title, error));
    }

    /** `validate`: true while submitting; otherwise records the title error, if any, and reports whether there was none. */
    method Validate() returns (ok: bool)
      requires Wf(state)
      modifies this
      ensures Wf(state) && (Inv(old(state)) ==> Inv(state))
      ensures old(state.status) == Submitting ==> ok && state == old(state)
      ensures old(state.status) != Submitting ==>
        var e := ValidateTitle(SanitizeTitle(old(state.title)));
        (ok <==> !Truthy(e))
        && state == (if Truthy(e) then Reduce(old(state), SetValidationErrors(map["title" := [e.value]])) else old(state))
    {
      if state.status == Submitting { return true; }
      var titleError := ValidateTitle(SanitizeTitle(state.title));
      if Truthy(titleError) {
        state := Reduce(state, SetValidationErrors(map["title" := [titleError.value]]));
        return false;
      }
      return true;
    }

    /**
     * The cancel-on-track-change effect: an Active clipper whose track is no
     * longer the playing one is cancelled; while Submitting the reducer
     * refuses CANCEL_CLIPPING and nothing changes.
     */
    method OnTrackChange(playable: Option<Playable>)
      requires Wf(state)
      modifies this
      ensures Wf(state) && (Inv(old(state)) ==> Inv(state))
      ensures old(state.status) == Idle || IsSameTrack(old(state.track), AsTrack(playable)) ==> state == old(state)
      ensures old(state.status) == Active && !IsSameTrack(old(state.track), AsTrack(playable)) ==> state == InitialState
      ensures old(state.status) == Submitting ==> state == old(state)
    {
      if state.status == Idle { return; }
      if IsSameTrack(state.track, AsTrack(playable)) { return; }
      state := Reduce(state, CancelClipping);
    }

    /**
     * The move-window effect: while Active, a seek outside [start, end]
     * re-centres the window on the seek target within the playback duration.
     */
    method OnSeek(target: int, duration: int)
      requires Wf(state)
      modifies this
      ensures Wf(state)
      ensures Inv(old(state)) && (old(state.track).Some? ==> duration == old(state.track).value.duration) ==> Inv(state)
      ensures old(state.status) != Active || old(state.start) <= target <= old(state.end) ==> state == old(state)
      ensures old(state.status) == Active && !(old(state.start) <= target <= old(state.end)) ==>
        state == Reduce(old(state), SetBounds(InitialBounds(target, duration).start, InitialBounds(target, duration).end))
        && (MIN_CLIP_DURATION <= duration ==> ValidBounds(state.start, state.end, duration))
        && (MIN_CLIP_DURATION <= duration && 0 <= target <= duration ==> state.start <= target <= state.end)
    {
      if state.status == Idle { return; }
      if state.start <= target && target <= state.end { return; }
      var b := InitialBounds(target, duration);
      if MIN_CLIP_DURATION <= duration {
        InitialBoundsValid(target, duration);
      }
      if Inv(state) && (state.track.Some? ==> duration == state.track.value.duration) {
        ReduceKeepsInv(state, SetBounds(b.start, b.end));
      }
      state := Reduce(state, SetBounds(b.start, b.end));
    }

    /** `cancelClipping` */
    method Cancel()
      requires Wf(state)
      modifies this
      ensures Wf(state) && (Inv(old(state)) ==> Inv(state))
      ensures old(state.status) == Active ==> state == InitialState
      ensures old(state.status) != Active ==> state == old(state)
    {
      state := Reduce(state, CancelClipping);
    }

    /** `playStart`: where playback seeks; while clipping that is the window's start. */
    method PlayStart() returns (seekTo: int)
      ensures seekTo == state.start
      ensures Inv(state) && state.status != Idle ==> 0 <= seekTo < state.end
    {
      seekTo := state.start;
    }

    /** `playEnd`: one second before the end, which while clipping still lies inside the window. */
    method PlayEnd() returns (seekTo: int)
      ensures seekTo == state.end - SEEK_END_OFFSET
      ensures Inv(state) && state.status != Idle ==> state.start < seekTo < state.end
    {
      seekTo := state.end - SEEK_END_OFFSET;
    }

    /** The loop-window effect: progress past the end while clipping seeks back to the start. */
    method OnProgress(position: int) returns (seekTo: Option<int>)
      ensures state.status == Idle || position <= state.end ==> seekTo == None
      ensures state.status != Idle && position > state.end ==> seekTo == Some(state.start)
      ensures Inv(state) && seekTo.Some? ==> seekTo.value < position
    {
      if state.status == Idle { return None; }
      if position > state.end {
        return Some(state.start);
      }
      return None;
    }

    /**
     * `submitClip` up to the `await`: refused outside Active; otherwise the
     * status becomes Submitting and the request carries the trimmed title and
     * the window. (The "No track available" branch cannot be taken: an
     * Active clipper always has its track.)
     */
    method BeginSubmit() returns (request: Result<ClipRequest, SubmitResult>)
      requires Wf(state)
      modifies this
      ensures Wf(state) && (Inv(old(state)) ==> Inv(state))
      ensures old(state.status) != Active ==> request == Err(SubmitResult(false, Some("Can't clip"))) && state == old(state)
      ensures old(state.status) == Active ==>
        request == Ok(ClipRequest(old(state.track).value.id, SanitizeTitle(old(state.title)), old(state.start), old(state.end)))
        && state == old(state).(status := Submitting)
    {
      if state.status != Active {
        return Err(SubmitResult(false, Some("Can't clip")));
      }
      request := Ok(ClipRequest(state.track.value.id, SanitizeTitle(state.title), state.start, state.end));
      state := Reduce(state, SubmitStart);
    }

    /**
     * The rest of `submitClip` once `postClip` settles: success leaves the
     * clipper Idle with the created clip; a rejection returns to Active and
     * shows the server's title messages; any other failure returns to Active.
     */
    method SettleSubmit(outcome: PostOutcome) returns (result: SubmitResult)
      requires Wf(state) && state.status == Submitting
      modifies this
      ensures Wf(state) && (Inv(old(state)) ==> Inv(state))
      ensures result == SettledResult(outcome)
      ensures outcome.Created? ==> state == old(state).(status := Idle, createdClip := Some(outcome.clip))
      ensures outcome.Invalid? ==> state == RejectedState(old(state), outcome.titleErrors)
      ensures outcome.Failed? ==> state == old(state).(status := Active)
    {
      result := SettledResult(outcome);
      match outcome
      case Created(clip) =>
        state := Reduce(state, SubmitSuccess(clip));
      case Invalid(titleErrors, _) =>
        state := RejectedState(state, titleErrors);
      case Failed(_) =>
        state := Reduce(state, SubmitFailure);
    }
  }
}
