/**
 * The upload form's state (frontend/src/hooks/useUploadForm.ts). Submitting
 * checks that a file is selected, then that the title is not blank, then
 * sends one upload request; the request's outcome, which arrives after the
 * `await`, is a separate step whose success resets the fields.
 */
module UploadForm {
  import opened Wrappers
  import opened Strings

  /** The browser `File` the user picked. */
  datatype File = File(name: string, body: seq<bv8>)

  /** The `{ title, recordedDate, uploadFile }` passed to `uploadTrack`. */
  datatype UploadRequest = UploadRequest(title: string, recordedDate: string, uploadFile: File)

  /** How `handleSubmit` left off before the `await`. */
  datatype SubmitOutcome = NoFileSelected | TitleRequired | Uploading(request: UploadRequest)

  /**
   * The two guards in their order: no file first, then a title that is blank
   * after trimming; otherwise the request built from the current fields.
   */
  function CheckSubmit(uploadFile: Option<File>, title: string, recordedDate: string): (o: SubmitOutcome)
    ensures uploadFile.None? <==> o == NoFileSelected
    ensures o == TitleRequired <==> uploadFile.Some? && Trim(title) == []
    ensures o.Uploading? ==> (uploadFile.Some? && !AllWhitespace(title)
      && o.request == UploadRequest(title, recordedDate, uploadFile.value))
  {
    TrimEmptyIff(title);
    if uploadFile.None? then NoFileSelected
    else if Trim(title) == [] then TitleRequired
    else Uploading(UploadRequest(title, recordedDate, uploadFile.value))
  }

  /** Only a selected file with a title that has a non-whitespace character is ever sent. */
  lemma SentRequestsAreComplete(uploadFile: Option<File>, title: string, recordedDate: string)
    ensures CheckSubmit(uploadFile, title, recordedDate).Uploading? <==> uploadFile.Some? && !AllWhitespace(title)
  {
    TrimEmptyIff(title);
  }

  class UploadFormState {
    var uploadFile: Option<File>
    var title: string
    var recordedDate: string
    var isSubmitting: bool
    /** The requests handed to `uploadTrack`, in order. */
    var sent: seq<UploadRequest>

    constructor ()
      ensures uploadFile == None && title == "" && recordedDate == "" && !isSubmitting && sent == []
    {
      uploadFile := None;
      title := "";
      recordedDate := "";
      isSubmitting := false;
      sent := [];
    }

    /**
     * `handleSubmit` up to the `await`: a failed guard changes nothing;
     * otherwise `isSubmitting` is set and the request is sent. The fields
     * are not touched.
     */
    method Submit() returns (o: SubmitOutcome)
      modifies this`isSubmitting, this`sent
      ensures o == old(CheckSubmit(uploadFile, title, recordedDate))
      ensures !o.Uploading? ==> isSubmitting == old(isSubmitting) && sent == old(sent)
      ensures o.Uploading? ==> isSubmitting && sent == old(sent) + [o.request]
    {
      o := CheckSubmit(uploadFile, title, recordedDate);
      if o.Uploading? {
        isSubmitting := true;
        sent := sent + [o.request];
      }
    }

    /**
     * The rest of `handleSubmit` once `uploadTrack` settles: on success the
     * file is cleared and the title and date emptied; on failure the fields
     * stay as they are; either way `isSubmitting` ends false.
     */
    method Settle(succeeded: bool)
      modifies this`uploadFile, this`title, this`recordedDate, this`isSubmitting
      ensures !isSubmitting
      ensures succeeded ==> uploadFile == None && title == "" && recordedDate == ""
      ensures succeeded ==> CheckSubmit(uploadFile, title, recordedDate) == NoFileSelected
      ensures !succeeded ==> uploadFile == old(uploadFile) && title == old(title) && recordedDate == old(recordedDate)
    {
      if succeeded {
        uploadFile := None;
        title := "";
        recordedDate := "";
      }
      isSubmitting := false;
    }

    /**
     * A whole submission with nothing typed during the `await`: the guards
     * send nothing, and a sent request leaves the form not submitting, reset
     * on success and unchanged on failure.
     */
    method HandleSubmit(succeeded: bool) returns (o: SubmitOutcome)
      modifies this
      ensures o == old(CheckSubmit(uploadFile, title, recordedDate))
      ensures !o.Uploading? ==>
        uploadFile == old(uploadFile) && title == old(title) && recordedDate == old(recordedDate)
        && isSubmitting == old(isSubmitting) && sent == old(sent)
      ensures o.Uploading? ==> !isSubmitting && sent == old(sent) + [o.request]
      ensures o.Uploading? && succeeded ==> uploadFile == None && title == "" && recordedDate == ""
      ensures o.Uploading? && !succeeded ==>
        uploadFile == old(uploadFile) && title == old(title) && recordedDate == old(recordedDate)
    {
      o := Submit();
      if o.Uploading? {
        Settle(succeeded);
      }
    }
  }
}
