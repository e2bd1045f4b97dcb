/**
 * The database session the track and clip services use, reduced to what they
 * do with it: look up a track by id, add a row, commit.
 */
module Sessions {
  import opened Wrappers
  import opened Audio
  import opened Storage

  /** The row `track_create` persists (the column names set in backend/jamflow/services/track.py). */
  datatype TrackRow = TrackRow(title: string, recordedDate: Option<string>, duration: nat,
                               format: AudioFormat, size: Option<int>, path: string)

  /** The row `clip_create` persists. */
  datatype ClipRow = ClipRow(title: string, trackId: string, start: int, end: int,
                             format: AudioFormat, size: int, path: string)

  /**
   * What a service call raises: an `AudioServiceException`, a storage
   * failure, a `ValidationException` with its field, a
   * `ResourceNotFoundException`, or the `TypeError` of a call that omits a
   * required keyword-only argument.
   */
  datatype ServiceFailure =
    | AudioFailure(message: string)
    | StorageFailed(failure: StorageFailure)
    | ValidationFailure(message: string, field: Option<string>)
    | NotFound(message: string)
    | MissingArgument(name: string)

  datatype Row = TrackEntry(track: TrackRow) | ClipEntry(clip: ClipRow)

  class Session {
    /** The committed tracks, by id. */
    var tracks: map<string, TrackRow>
    /** The rows passed to `add`, in order. */
    var added: seq<Row>
    /** How many times `commit` was awaited. */
    var commits: nat

    constructor (tracks0: map<string, TrackRow>)
      ensures tracks == tracks0 && added == [] && commits == 0
    {
      tracks := tracks0;
      added := [];
      commits := 0;
    }

    /** `session.get(Track, id)`: the track, or `None` when no row has that id. */
    method Get(id: string) returns (r: Option<TrackRow>)
      ensures r.Some? <==> id in tracks
      ensures r.Some? ==> r.value == tracks[id]
    {
      r := if id in tracks then Some(tracks[id]) else None;
    }

    /** `session.add(row)` */
    method Add(row: Row)
      modifies this`added
      ensures added == old(added) + [row]
    {
      added := added + [row];
    }

    /** `await session.commit()` */
    method Commit()
      modifies this`commits
      ensures commits == old(commits) + 1
    {
      commits := commits + 1;
    }
  }
}
