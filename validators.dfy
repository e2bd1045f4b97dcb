/**
 * Form-field validators (backend/jamflow/schemas/validators.py): the empty
 * string of an omitted multipart field becomes `None`, the upload size is
 * checked against a limit, and the upload's format is detected.
 */
module Validators {
  import opened Wrappers
  import opened Strings
  import opened Audio

  /** `empty_string_to_none`: only the empty string changes, and it becomes `None`. */
  function EmptyStringToNone(value: Option<string>): (r: Option<string>)
    ensures r.None? <==> value.None? || value == Some("")
    ensures r.Some? ==> r == value
  {
    if value == Some("") then None else value
  }

  /** The converter is idempotent: a second pass changes nothing. */
  lemma EmptyStringToNoneIdempotent(value: Option<string>)
    ensures EmptyStringToNone(EmptyStringToNone(value)) == EmptyStringToNone(value)
  {
    if value == Some("") {
      assert EmptyStringToNone(value) == None;
    }
  }

  /** The parts of an `UploadFile` the validators look at: its bytes and its declared size, which may be missing. */
  datatype Upload = Upload(body: seq<bv8>, size: Option<int>)

  /** A pydantic validator's failure: the `ValueError` message, or an exception that escapes the validator unchanged. */
  datatype ValidatorFailure = ValueError(message: string) | Escaped(message: string)

  const MEGABYTE := 1024 * 1024

  /** Python's truth value of `upload_file.size`: `None` and `0` are false. */
  predicate Truthy(size: Option<int>) {
    size.Some? && size.value != 0
  }

  function TooLargeMessage(maxSize: nat): string
  {
    "File is larger than " + NatToString(maxSize / MEGABYTE) + " MB"
  }

  /**
   * `get_file_size_validator(max_size)(upload_file)`: an empty size fails
   * first, then a size above the limit; a size at the limit passes, and a
   * passing upload is returned as it came.
   */
  function FileSizeValidator(maxSize: nat, upload: Upload): (r: Result<Upload, ValidatorFailure>)
    ensures !Truthy(upload.size) ==> r == Err(ValueError("File is empty"))
    ensures Truthy(upload.size) && upload.size.value > maxSize ==> r == Err(ValueError(TooLargeMessage(maxSize)))
    ensures r.Ok? <==> Truthy(upload.size) && upload.size.value <= maxSize
    ensures r.Ok? ==> r.value == upload
  {
    if !Truthy(upload.size) then Err(ValueError("File is empty"))
    else if upload.size.value > maxSize then Err(ValueError(TooLargeMessage(maxSize)))
    else Ok(upload)
  }

  /** A size accepted under one limit is accepted under every larger one. */
  lemma FileSizeValidatorMonotone(maxSize: nat, larger: nat, upload: Upload)
    requires maxSize <= larger
    ensures FileSizeValidator(maxSize, upload).Ok? ==> FileSizeValidator(larger, upload) == Ok(upload)
  {
  }

  /** The limit is printed in whole megabytes, rounded down: a 10 MiB limit reads "10 MB". */
  lemma TooLargeMessageExample()
    ensures TooLargeMessage(10 * MEGABYTE) == "File is larger than 10 MB"
    ensures TooLargeMessage(MEGABYTE + MEGABYTE / 2) == "File is larger than 1 MB"
  {
    assert (10 * MEGABYTE) / MEGABYTE == 10;
    assert NatToString(10) == NatToString(1) + [DigitChar(0)];
    assert (MEGABYTE + MEGABYTE / 2) / MEGABYTE == 1;
  }

  /** `', '.join(AudioFileFormat)`: the enum's values in declaration order. */
  function SupportedFormats(): (s: string)
    ensures s == "mp3, ogg, wav"
  {
    JoinThreeFormats();
    Join([FormatValue(Mp3), FormatValue(Ogg), FormatValue(Wav)], ", ")
  }

  lemma JoinThreeFormats()
    ensures Join([FormatValue(Mp3), FormatValue(Ogg), FormatValue(Wav)], ", ") == "mp3, ogg, wav"
  {
    var parts := ["mp3", "ogg", "wav"];
    assert parts[1..] == ["ogg", "wav"];
    assert parts[1..][1..] == ["wav"];
  }

  const UNSUPPORTED_FORMAT_MESSAGE := "Unsupported file format. Supported formats: " + "mp3, ogg, wav"

  /**
   * `validate_audo_file_format` as written: the detector's failure is an
   * `AudioServiceException`, which is not the `ValidationError` the handler
   * catches, so it escapes unchanged and the `ValueError` is never raised.
   * `guess` is what the file-type guesser reports for the upload's bytes.
   */
  function ValidateAudioFileFormatAsWritten(upload: Upload, guess: Option<string>): (r: Result<Upload, ValidatorFailure>)
    ensures r.Ok? <==> GetAudioFileFormat(guess).Ok?
    ensures r.Ok? ==> r.value == upload
    ensures r.Err? ==> r.error == Escaped(GetAudioFileFormat(guess).error)
  {
    match GetAudioFileFormat(guess)
    case Ok(_) => Ok(upload)
    case Err(message) => Err(Escaped(message))
  }

  /** An upload whose type cannot be guessed: as written the detector's message escapes; as intended it is the `ValueError`. */
  lemma DetectionFailureEscapes(upload: Upload)
    ensures ValidateAudioFileFormatAsWritten(upload, None) == Err(Escaped("Cannot guess file type"))
    ensures ValidateAudioFileFormat(upload, None) == Err(ValueError(UNSUPPORTED_FORMAT_MESSAGE))
  {
  }

  /**
   * `validate_audo_file_format` as its handler intends: the upload is
   * returned unchanged when the format is detected, and any detection failure
   * becomes one `ValueError` listing the supported formats.
   */
  function ValidateAudioFileFormat(upload: Upload, guess: Option<string>): (r: Result<Upload, ValidatorFailure>)
    ensures r.Ok? <==> guess.Some? && ParseFormat(guess.value).Some?
    ensures r.Ok? ==> r.value == upload
    ensures r.Err? ==> r.error == ValueError(UNSUPPORTED_FORMAT_MESSAGE)
  {
    var message := "Unsupported file format. Supported formats: " + SupportedFormats();
    if GetAudioFileFormat(guess).Ok? then Ok(upload) else Err(ValueError(message))
  }

  /** The intended validator accepts exactly what the one as written accepts, and differs only in the failure it reports. */
  lemma ValidateAudioFileFormatAgrees(upload: Upload, guess: Option<string>)
    ensures ValidateAudioFileFormat(upload, guess).Ok? <==> ValidateAudioFileFormatAsWritten(upload, guess).Ok?
    ensures ValidateAudioFileFormat(upload, guess).Ok? ==> ValidateAudioFileFormat(upload, guess) == ValidateAudioFileFormatAsWritten(upload, guess)
  {
  }
}
