/**
 * `track_create` (backend/jamflow/services/track.py) as an ordered sequence of
 * effects: detect the format, derive the storage path, store the bytes, probe
 * the duration, then add and commit one row. The clock, the UUID, the
 * file-type guesser and the metadata reader are parameters; the storage is
 * the audio bucket of `backend`.
 */
module TrackService {
  import opened Wrappers
  import opened Strings
  import opened Audio
  import opened Paths
  import opened Storage
  import opened Sessions

  /** `TrackCreateDto`: the form fields and the uploaded file's bytes and declared size. */
  datatype TrackCreateDto = TrackCreateDto(title: string, recordedDate: Option<string>, body: seq<bv8>, size: Option<int>)

  /**
   * `_generate_path(extension)`: the same shape as `generate_file_path`,
   * written out a second time in the service.
   */
  function GeneratePath(now: Instant, hex: string, extension: string): (path: string)
    requires ValidInstant(now)
    ensures path == GenerateFilePath(now, hex, extension)
  {
    Assemble(Year(now), TwoDigits(now.month), Timestamp(now) + ("_" + hex) + ("." + extension))
  }

  /** The storage extension is the detected format's value, whatever the client called the file. */
  lemma StorageExtension(now: Instant, hex: string, format: AudioFormat)
    requires ValidInstant(now)
    ensures GeneratePath(now, hex, Lower(FormatValue(format))) == GeneratePath(now, hex, FormatValue(format))
    ensures HasExtension(GeneratePath(now, hex, Lower(FormatValue(format))), FormatValue(format))
  {
    GenerateFilePathEnding(now, hex, FormatValue(format));
  }

  /**
   * `async with <audio storage> as storage: await storage.store_file(...)`:
   * opens a session on `bucket`, stores one object, and closes the client
   * whether or not the store failed.
   */
  method StoreInBucket(backend: Backend, bucket: string, path: string, body: seq<bv8>, contentType: string)
    returns (failure: Option<StorageFailure>)
    modifies backend
    ensures failure.None? ==> Holds(backend.buckets, bucket, StoredObject(path, body, contentType))
  {
    var storage := new S3StorageService(bucket);
    failure := storage.Enter(backend);
    if failure.Some? {
      return;
    }
    failure := storage.StoreFile(body, path, contentType);
    storage.Exit();
  }

  /**
   * `track_create` as written: once the format is detected, the store raises
   * `TypeError` (`StoreOmittingContentType`), so the duration is never
   * probed, no object is stored and no row is added or committed.
   */
  method TrackCreateAsWritten(session: Session, backend: Backend, bucket: string, dto: TrackCreateDto,
                              guess: Option<string>, now: Instant, hex: string)
    returns (r: Result<TrackRow, ServiceFailure>)
    requires ValidInstant(now)
    modifies backend
    ensures r.Err?
    ensures session.added == old(session.added) && session.commits == old(session.commits)
    ensures NothingStored(old(backend.buckets), backend.buckets)
    ensures GetAudioFileFormat(guess).Err? ==>
      r == Err(AudioFailure(GetAudioFileFormat(guess).error)) && backend.calls == old(backend.calls)
    ensures GetAudioFileFormat(guess).Ok? ==> r.error == MissingArgument(CONTENT_TYPE_PARAMETER) || r.error.StorageFailed?
  {
    var detected := GetAudioFileFormat(guess);
    if detected.Err? {
      return Err(AudioFailure(detected.error));
    }
    var path := GeneratePath(now, hex, Lower(FormatValue(detected.value)));
    var failure := StoreOmittingContentType(backend, bucket);
    if failure.Some? {
      return Err(StorageFailed(failure.value));
    }
    r := Err(MissingArgument(CONTENT_TYPE_PARAMETER));
  }

  /**
   * `track_create`. `guess` is the file-type guesser's answer for the upload
   * and `read` what the metadata reader reports; `bucket` is the audio
   * storage's bucket name. The format error is raised as is, the bytes are
   * stored (with the format's MIME type) before the duration is probed, a
   * probing error becomes a validation error on "upload_file", and only a
   * complete run adds and commits its one row.
   */
  method TrackCreate(session: Session, backend: Backend, bucket: string, dto: TrackCreateDto,
                     guess: Option<string>, read: MetadataRead, now: Instant, hex: string)
    returns (r: Result<TrackRow, ServiceFailure>)
    requires ValidInstant(now)
    modifies session, backend
    ensures GetAudioFileFormat(guess).Err? ==>
      r == Err(AudioFailure(GetAudioFileFormat(guess).error))
      && backend.calls == old(backend.calls) && backend.buckets == old(backend.buckets)
    ensures r.Err? ==> session.added == old(session.added) && session.commits == old(session.commits)
    ensures r == Err(ValidationFailure("Failed to get audio duration", Some("upload_file"))) ==>
      (GetAudioDuration(read).Err? && GetAudioFileFormat(guess).Ok?
       && (var format := GetAudioFileFormat(guess).value;
           var path := GenerateFilePath(now, hex, FormatValue(format));
           Holds(backend.buckets, bucket, StoredObject(path, dto.body, MimeType(format)))))
    ensures r.Ok? ==>
      GetAudioFileFormat(guess).Ok? && GetAudioDuration(read).Ok?
      && (var format := GetAudioFileFormat(guess).value;
          var path := GenerateFilePath(now, hex, FormatValue(format));
          r.value == TrackRow(dto.title, dto.recordedDate, GetAudioDuration(read).value, format, dto.size, path)
          && Holds(backend.buckets, bucket, StoredObject(path, dto.body, MimeType(format))))
    ensures r.Ok? ==> session.added == old(session.added) + [TrackEntry(r.value)] && session.commits == old(session.commits) + 1
    ensures GetAudioFileFormat(guess).Ok? && GetAudioDuration(read).Err? ==> r.Err?
  {
    var detected := GetAudioFileFormat(guess);
    if detected.Err? {
      return Err(AudioFailure(detected.error));
    }
    var format := detected.value;
    var path := GeneratePath(now, hex, Lower(FormatValue(format)));
    assert path == GenerateFilePath(now, hex, FormatValue(format)) by {
      StorageExtension(now, hex, format);
    }

    var stored := StoreInBucket(backend, bucket, path, dto.body, MimeType(format));
    if stored.Some? {
      return Err(StorageFailed(stored.value));
    }

    var duration := GetAudioDuration(read);
    if duration.Err? {
      return Err(ValidationFailure("Failed to get audio duration", Some("upload_file")));
    }

    var track := TrackRow(dto.title, dto.recordedDate, duration.value, format, dto.size, path);
    session.Add(TrackEntry(track));
    session.Commit();
    r := Ok(track);
  }
}
