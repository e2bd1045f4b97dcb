/**
 * The audio service (backend/jamflow/services/audio.py): format detection and
 * mapping, duration reading, clipping and size measurement. The file-type
 * guesser, the metadata readers and the decoder/encoder are foreign libraries:
 * their outcomes are parameters.
 */
module Audio {
  import opened Wrappers
  import opened Strings
  import opened Streams

  /** `AudioFileFormat`, a string enum whose values are the lower-case extensions. */
  datatype AudioFormat = Mp3 | Ogg | Wav

  function FormatValue(f: AudioFormat): (v: string)
    ensures |v| == 3 && Lower(v) == v
  {
    match f
    case Mp3 => "mp3"
    case Ogg => "ogg"
    case Wav => "wav"
  }

  /** `AudioFileFormat(value)` for a value of the enum, `None` for any other string. */
  function ParseFormat(value: string): (r: Option<AudioFormat>)
    ensures forall f :: r == Some(f) <==> FormatValue(f) == value
  {
    if value == "mp3" then Some(Mp3)
    else if value == "ogg" then Some(Ogg)
    else if value == "wav" then Some(Wav)
    else None
  }

  /** `AudioMimeType` */
  function MimeType(f: AudioFormat): string
  {
    match f
    case Mp3 => "audio/mpeg"
    case Ogg => "audio/ogg"
    case Wav => "audio/wav"
  }

  /** `get_audio_mime_type`: the MIME type of a member of the enum; any other value is an error. */
  function GetAudioMimeType(value: string): (r: Result<string, string>)
    ensures r.Ok? <==> ParseFormat(value).Some?
    ensures r.Ok? ==> r.value == MimeType(ParseFormat(value).value)
    ensures r.Err? ==> r.error == "Unsupported file format: " + value
  {
    match ParseFormat(value)
    case Some(f) => Ok(MimeType(f))
    case None => Err("Unsupported file format: " + value)
  }

  /**
   * `get_audio_file_format`: `guess` is the extension the file-type guesser
   * reports, `None` when it cannot tell.
   */
  function GetAudioFileFormat(guess: Option<string>): (r: Result<AudioFormat, string>)
    ensures guess.None? ==> r == Err("Cannot guess file type")
    ensures guess.Some? && ParseFormat(guess.value).None? ==> r == Err("Unsupported file type: " + guess.value)
    ensures r.Ok? <==> guess.Some? && ParseFormat(guess.value).Some?
    ensures r.Ok? ==> FormatValue(r.value) == guess.value
  {
    match guess
    case None => Err("Cannot guess file type")
    case Some(extension) =>
      match ParseFormat(extension)
      case None => Err("Unsupported file type: " + extension)
      case Some(f) => Ok(f)
  }

  /** What the metadata reader for the format produced. */
  datatype MetadataRead =
    | ReaderFailed
    | NoMetadata
    | NoInfo
    | Length(milliseconds: nat)

  /** `get_audio_duration`: the reader's length in milliseconds, or the error it maps each failure to. */
  function GetAudioDuration(read: MetadataRead): (r: Result<nat, string>)
    ensures read.ReaderFailed? <==> r == Err("Failed to read metadata")
    ensures read.NoMetadata? || read.NoInfo? <==> r == Err("No metadata found")
    ensures read.Length? ==> r == Ok(read.milliseconds)
    ensures r.Ok? <==> read.Length?
  {
    match read
    case ReaderFailed => Err("Failed to read metadata")
    case NoMetadata => Err("No metadata found")
    case NoInfo => Err("No metadata found")
    case Length(ms) => Ok(ms)
  }

  /** `get_file_size`: the stream's length, with the position back at the start whatever it was. */
  method GetFileSize(file: ByteStream) returns (size: nat)
    requires file.Valid()
    modifies file`pos
    ensures file.Valid() && file.pos == 0
    ensures size == |file.data|
  {
    file.SeekEnd();
    size := file.Tell();
    file.Rewind();
  }

  /**
   * The error `clip_audio_file` raises before decoding, checked in this order:
   * a negative start, an empty or inverted range, a value outside the format
   * enum, an empty file.
   */
  function ClipError(start: int, end: int, format: string, size: nat): (e: Option<string>)
    ensures start < 0 ==> e == Some("Start cannot be negative")
    ensures 0 <= start && end <= start ==> e == Some("Start must be less than end")
    ensures 0 <= start < end && ParseFormat(format).None? ==> e == Some("Unsupported file format: " + format)
    ensures 0 <= start < end && ParseFormat(format).Some? && size == 0 ==> e == Some("Cannot clip an empty file")
    ensures e.None? <==> 0 <= start < end && ParseFormat(format).Some? && size > 0
  {
    if start < 0 then Some("Start cannot be negative")
    else if end <= start then Some("Start must be less than end")
    else if ParseFormat(format).None? then Some("Unsupported file format: " + format)
    else if size == 0 then Some("Cannot clip an empty file")
    else None
  }

  /**
   * `clip_audio_file`: after the checks, decodes the whole file, keeps the
   * milliseconds [start, end) and encodes them into a new stream positioned at
   * its start. `slice` stands for decode, slice and re-encode.
   */
  method ClipAudioFile(file: ByteStream, format: string, start: int, end: int,
                       slice: (seq<bv8>, AudioFormat, nat, nat) -> seq<bv8>)
    returns (r: Result<ByteStream, string>)
    requires file.Valid()
    modifies file`pos
    ensures file.Valid() && file.data == old(file.data)
    ensures r.Err? <==> ClipError(start, end, format, |file.data|).Some?
    ensures r.Err? ==> r.error == ClipError(start, end, format, |file.data|).value
    ensures start < 0 || end <= start || ParseFormat(format).None? ==> file.pos == old(file.pos)
    ensures r.Ok? ==> (file.pos == 0 && fresh(r.value) && r.value.Valid() && r.value.pos == 0
      && r.value.data == slice(file.data, ParseFormat(format).value, start, end))
  {
    if start < 0 {
      return Err("Start cannot be negative");
    }
    if end <= start {
      return Err("Start must be less than end");
    }
    var f := ParseFormat(format);
    if f.None? {
      return Err("Unsupported file format: " + format);
    }
    file.SeekEnd();
    var size := file.Tell();
    if size == 0 {
      return Err("Cannot clip an empty file");
    }
    file.Rewind();
    var clipped := new ByteStream([]);
    clipped.Write(slice(file.data, f.value, start, end));
    clipped.Rewind();
    r := Ok(clipped);
  }
}
