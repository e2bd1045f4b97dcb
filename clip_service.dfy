/**
 * `clip_create` (backend/jamflow/services/clip.py) as an ordered sequence of
 * effects: look the track up, fetch its bytes, cut the clip, store it under a
 * fresh path, sign a URL for it, then add and commit one row. The clock, the
 * UUID and the decoder/encoder are parameters. The track is read from the
 * track storage's bucket and the clip is written to the clip storage's bucket;
 * both bucket names are parameters, since the factories that choose them are
 * not part of this model.
 */
module ClipService {
  import opened Wrappers
  import opened Strings
  import opened Streams
  import opened Audio
  import opened Paths
  import opened Storage
  import opened Sessions

  /** `ClipCreateDto` */
  datatype ClipCreateDto = ClipCreateDto(title: string, trackId: string, start: int, end: int)

  /** The returned DTO: the persisted clip and the URL signed for its path. */
  datatype ClipRead = ClipRead(clip: ClipRow, url: string)

  const TRACK_NOT_FOUND := "Track not found"

  /**
   * `async with <audio storage> as storage: file = await storage.get_file(path)`:
   * on success the stream holds the bytes the object held before the session
   * was opened (opening only ever creates a missing, hence empty, bucket).
   */
  method FetchFromBucket(backend: Backend, bucket: string, path: string) returns (r: Result<ByteStream, StorageFailure>)
    modifies backend
    ensures r.Ok? ==> (fresh(r.value) && r.value.Valid() && r.value.pos == 0
      && old(backend.GetResult(bucket, path)).Ok? && r.value.data == old(backend.GetResult(bucket, path)).value)
    ensures NothingStored(old(backend.buckets), backend.buckets)
  {
    var storage := new S3StorageService(bucket);
    var entered := storage.Enter(backend);
    if entered.Some? {
      return Err(entered.value);
    }
    r := storage.GetFile(path);
    storage.Exit();
  }

  /**
   * `async with <audio storage> as storage:` storing the clip and signing a URL
   * for it with the default expiration.
   */
  method StoreAndSign(backend: Backend, bucket: string, path: string, body: seq<bv8>, contentType: string)
    returns (r: Result<string, StorageFailure>)
    modifies backend
    ensures r.Ok? ==> (Holds(backend.buckets, bucket, StoredObject(path, body, contentType))
      && r.value == backend.sign(bucket, path, DEFAULT_EXPIRATION))
  {
    var storage := new S3StorageService(bucket);
    var entered := storage.Enter(backend);
    if entered.Some? {
      return Err(entered.value);
    }
    var stored := storage.StoreFile(body, path, contentType);
    if stored.Some? {
      storage.Exit();
      return Err(stored.value);
    }
    r := storage.GenerateExpiringUrl(path);
    storage.Exit();
  }

  /**
   * `clip_create` as written: the track is looked up, fetched and cut as in
   * `ClipCreate`, but the store raises `TypeError`
   * (`StoreOmittingContentType`), so no URL is signed, no object is stored
   * and no row is added or committed.
   */
  method ClipCreateAsWritten(session: Session, backend: Backend, trackBucket: string, clipBucket: string, dto: ClipCreateDto,
                             slice: (seq<bv8>, AudioFormat, nat, nat) -> seq<bv8>, now: Instant, hex: string)
    returns (r: Result<ClipRead, ServiceFailure>)
    requires ValidInstant(now)
    modifies backend
    ensures r.Err?
    ensures session.added == old(session.added) && session.commits == old(session.commits)
    ensures NothingStored(old(backend.buckets), backend.buckets)
    ensures dto.trackId !in session.tracks ==>
      r == Err(NotFound(TRACK_NOT_FOUND)) && backend.calls == old(backend.calls)
    ensures dto.trackId in session.tracks && (dto.start < 0 || dto.end <= dto.start) ==> r.error.AudioFailure? || r.error.StorageFailed?
  {
    var found := session.Get(dto.trackId);
    if found.None? {
      return Err(NotFound(TRACK_NOT_FOUND));
    }
    var track := found.value;

    var fetched := FetchFromBucket(backend, trackBucket, track.path);
    if fetched.Err? {
      return Err(StorageFailed(fetched.error));
    }
    var clipped := ClipAudioFile(fetched.value, FormatValue(track.format), dto.start, dto.end, slice);
    if clipped.Err? {
      return Err(AudioFailure(clipped.error));
    }
    var path := GenerateFilePath(now, hex, Lower(FormatValue(track.format)));
    var failure := StoreOmittingContentType(backend, clipBucket);
    if failure.Some? {
      return Err(StorageFailed(failure.value));
    }
    r := Err(MissingArgument(CONTENT_TYPE_PARAMETER));
  }

  /**
   * `clip_create`. A missing track fails before any storage call or row
   * write; the clip is cut from the track's bytes with the track's format and
   * the requested range, stored in `clipBucket` under a path with that
   * format's extension, and persisted with size 0 together with the URL signed for its own path.
   */
  method ClipCreate(session: Session, backend: Backend, trackBucket: string, clipBucket: string, dto: ClipCreateDto,
                    slice: (seq<bv8>, AudioFormat, nat, nat) -> seq<bv8>, now: Instant, hex: string)
    returns (r: Result<ClipRead, ServiceFailure>)
    requires ValidInstant(now)
    modifies session, backend
    ensures session.tracks == old(session.tracks)
    ensures dto.trackId !in session.tracks ==>
      r == Err(NotFound(TRACK_NOT_FOUND))
      && backend.calls == old(backend.calls) && backend.buckets == old(backend.buckets)
    ensures r.Err? ==> session.added == old(session.added) && session.commits == old(session.commits)
    ensures dto.trackId in session.tracks && (dto.start < 0 || dto.end <= dto.start) ==> r.Err?
    ensures r.Ok? ==> (dto.trackId in session.tracks && 0 <= dto.start < dto.end
      && var track := session.tracks[dto.trackId];
          var path := GenerateFilePath(now, hex, FormatValue(track.format));
          old(backend.GetResult(trackBucket, track.path)).Ok?
          && r.value == ClipRead(ClipRow(dto.title, dto.trackId, dto.start, dto.end, track.format, 0, path),
                                 backend.sign(clipBucket, path, DEFAULT_EXPIRATION))
          && Holds(backend.buckets, clipBucket,
                   StoredObject(path, slice(old(backend.GetResult(trackBucket, track.path)).value, track.format, dto.start, dto.end),
                                MimeType(track.format))))
    ensures r.Ok? ==> session.added == old(session.added) + [ClipEntry(r.value.clip)] && session.commits == old(session.commits) + 1
  {
    var found := session.Get(dto.trackId);
    if found.None? {
      return Err(NotFound(TRACK_NOT_FOUND));
    }
    var track := found.value;

    var fetched := FetchFromBucket(backend, trackBucket, track.path);
    if fetched.Err? {
      return Err(StorageFailed(fetched.error));
    }
    var clipped := ClipAudioFile(fetched.value, FormatValue(track.format), dto.start, dto.end, slice);
    if clipped.Err? {
      return Err(AudioFailure(clipped.error));
    }
    var format := track.format;
    var path := GenerateFilePath(now, hex, Lower(FormatValue(format)));

    var url := StoreAndSign(backend, clipBucket, path, clipped.value.data, MimeType(format));
    if url.Err? {
      return Err(StorageFailed(url.error));
    }

    var clip := ClipRow(dto.title, dto.trackId, dto.start, dto.end, format, 0, path);
    session.Add(ClipEntry(clip));
    session.Commit();
    r := Ok(ClipRead(clip, url.value));
  }
}
