/** Employee documents: the verification badge and the controls of the documents tab on
    the profile page, and the new-document form of the edit page. */
module EmployeeDocuments {
  import opened Wrappers

  /** The permission that unlocks deleting, approving and rejecting documents. */
  const EditEmployees: string := "edit-employees"

  datatype Badge = Verified | Rejected | Pending

  /** The badge of a document: `verified` and `rejected` have their own, every other
      status (`pending`, or anything unexpected) reads Pending. */
  function BadgeFor(verificationStatus: string): (b: Badge)
    ensures b == Verified <==> verificationStatus == "verified"
    ensures b == Rejected <==> verificationStatus == "rejected"
  {
    if verificationStatus == "verified" then Verified
    else if verificationStatus == "rejected" then Rejected
    else Pending
  }

  /** The delete button. */
  predicate DeleteShown(permissions: set<string>) {
    EditEmployees in permissions
  }

  /** The approve and reject buttons. */
  predicate VerificationControlsShown(permissions: set<string>, verificationStatus: string) {
    EditEmployees in permissions && verificationStatus == "pending"
  }

  /** Approve and reject appear only beside a Pending badge, and only where delete does too. */
  lemma ControlsOnlyForPending(permissions: set<string>, verificationStatus: string)
    ensures VerificationControlsShown(permissions, verificationStatus) ==>
      BadgeFor(verificationStatus) == Pending && DeleteShown(permissions)
    ensures VerificationControlsShown(permissions, verificationStatus) <==>
      DeleteShown(permissions) && verificationStatus == "pending"
  {
  }

  /** An illustration: a Pending badge does not by itself bring the controls: an unexpected status reads
      Pending but cannot be approved or rejected. */
  lemma PendingBadgeWithoutControls(permissions: set<string>)
    ensures BadgeFor("expired") == Pending
    ensures !VerificationControlsShown(permissions, "expired")
  {
  }

  // ---------------------------------------------------------------------------
  // The new-document form of the edit page.

  /** A file chosen in the browser; only its identity matters here. */
  datatype FileRef = FileRef(name: string)

  /** The multipart body posted to the document store route. */
  datatype UploadRequest = UploadRequest(documentTypeId: string, file: FileRef, notes: string)

  /** The upload button is disabled while the type or the file is missing. */
  predicate UploadDisabled(documentTypeId: string, file: Option<FileRef>) {
    documentTypeId == "" || file.None?
  }

  /** What pressing upload posts: nothing while the type or the file is missing. */
  function UploadFor(documentTypeId: string, file: Option<FileRef>, notes: string): (r: Option<UploadRequest>)
    ensures r.Some? ==> r.value.documentTypeId == documentTypeId && Some(r.value.file) == file && r.value.notes == notes
  {
    if documentTypeId == "" || file.None? then None
    else Some(UploadRequest(documentTypeId, file.value, notes))
  }

  /** The handler posts exactly when the button is enabled. */
  lemma UploadIffEnabled(documentTypeId: string, file: Option<FileRef>, notes: string)
    ensures UploadFor(documentTypeId, file, notes).Some? <==> !UploadDisabled(documentTypeId, file)
  {
  }

  class DocumentForm {
    var documentTypeId: string
    var file: Option<FileRef>
    var notes: string

    /** The form holds no type, no file and no notes. */
    predicate IsEmpty()
      reads this
    {
      documentTypeId == "" && file.None? && notes == ""
    }

    constructor ()
      ensures IsEmpty()
    {
      documentTypeId := "";
      file := None;
      notes := "";
    }

    method SetDocumentType(id: string)
      modifies this
      ensures documentTypeId == id && file == old(file) && notes == old(notes)
    {
      documentTypeId := id;
    }

    method SetFile(f: Option<FileRef>)
      modifies this
      ensures file == f && documentTypeId == old(documentTypeId) && notes == old(notes)
    {
      file := f;
    }

    method SetNotes(text: string)
      modifies this
      ensures notes == text && documentTypeId == old(documentTypeId) && file == old(file)
    {
      notes := text;
    }

    /** Pressing upload: the request sent (if any) and, when the server accepts it
        (`succeeded`), the form empties; a refused guard or a failed upload keeps it. */
    method Upload(succeeded: bool) returns (sent: Option<UploadRequest>)
      modifies this
      ensures sent == UploadFor(old(documentTypeId), old(file), old(notes))
      ensures sent.None? <==> UploadDisabled(old(documentTypeId), old(file))
      ensures sent.Some? && succeeded ==> IsEmpty()
      ensures sent.None? || !succeeded ==>
        documentTypeId == old(documentTypeId) && file == old(file) && notes == old(notes)
    {
      UploadIffEnabled(documentTypeId, file, notes);
      if documentTypeId == "" || file.None? {
        return None;
      }
      sent := Some(UploadRequest(documentTypeId, file.value, notes));
      if succeeded {
        documentTypeId := "";
        file := None;
        notes := "";
      }
    }
  }
}
