/** The photo upload component: which picked files it accepts, and how its
    state (selected file, error text, description, uploading and loading
    flags, photo list) moves through picking a file, uploading it, fetching
    the list and deleting a photo. Every network call is a parameter saying
    whether it succeeded. */
module PhotoUpload {
  import opened Wrappers
  import opened Js

  /** 5MB, as 5 * 1024 * 1024 bytes. */
  const MaxFileSize: nat := 5 * 1024 * 1024

  const SizeMessage: string := "File size must be less than 5MB"
  const TypeMessage: string := "File must be an image"
  const NoFileMessage: string := "Please select a file to upload"
  const UploadFailedMessage: string := "Failed to upload photo"
  const FetchFailedMessage: string := "Failed to fetch photos"
  const DeleteFailedMessage: string := "Failed to delete photo"

  /** Every text the error line can show ('' shows nothing). */
  const Messages: set<string> :=
    {"", SizeMessage, TypeMessage, NoFileMessage, UploadFailedMessage, FetchFailedMessage, DeleteFailedMessage}

  datatype File = File(name: string, size: nat, mimeType: string)

  datatype Verdict = TooLarge | NotAnImage | Acceptable

  /** The size check first, then the MIME-type prefix check. */
  function Classify(f: File): Verdict
  {
    if f.size > MaxFileSize then TooLarge
    else if !StartsWith(f.mimeType, "image/") then NotAnImage
    else Acceptable
  }

  /** A file is accepted exactly when it is at most 5 MiB and its type starts
      with "image/"; an oversized file is refused for its size whatever its
      type, and a file of exactly 5 MiB passes the size check. */
  lemma ClassifyRules(f: File)
    ensures Classify(f) == Acceptable <==> f.size <= MaxFileSize && StartsWith(f.mimeType, "image/")
    ensures f.size > MaxFileSize ==> Classify(f) == TooLarge
    ensures f.size == 5242880 ==> Classify(f) != TooLarge
    ensures Classify(f) == NotAnImage <==> f.size <= MaxFileSize && !StartsWith(f.mimeType, "image/")
  {
  }

  datatype Photo = Photo(id: int, url: string, description: string)

  /** The multipart form the upload posts. */
  datatype UploadRequest = UploadRequest(photo: File, contentType: string, objectId: Value, description: string)

  class PhotoUploader {
    const objectType: string
    const objectId: Value
    var show: bool
    var photos: seq<Photo>
    var loading: bool
    var uploading: bool
    var description: string
    var selectedFile: Option<File>
    var error: string

    /** A selected file always passed the acceptance rules, and the error line
        only ever shows one of the component's messages. */
    ghost predicate Valid()
      reads this
    {
      && (selectedFile.Some? ==> Classify(selectedFile.value) == Acceptable)
      && error in Messages
    }

    constructor (objectType: string, objectId: Value)
      ensures Valid()
      ensures this.objectType == objectType && this.objectId == objectId
      ensures !show && photos == [] && !loading && !uploading
      ensures description == "" && selectedFile == None && error == ""
      ensures !UploadEnabled()
    {
      this.objectType := objectType;
      this.objectId := objectId;
      show := false;
      photos := [];
      loading := false;
      uploading := false;
      description := "";
      selectedFile := None;
      error := "";
    }

    /** The upload button is enabled only with a file selected and no upload running. */
    predicate UploadEnabled()
      reads this
    {
      selectedFile.Some? && !uploading
    }

    /** `handleFileSelect`: the first picked file is checked; an oversized one
        or a non-image clears the selection with its message, an acceptable
        one becomes the selection and clears the error. No file picked
        changes nothing. */
    method HandleFileSelect(files: seq<File>)
      requires Valid()
      modifies this
      ensures Valid()
      ensures files == [] ==> selectedFile == old(selectedFile) && error == old(error)
      ensures files != [] && Classify(files[0]) == TooLarge ==> selectedFile == None && error == SizeMessage
      ensures files != [] && Classify(files[0]) == NotAnImage ==> selectedFile == None && error == TypeMessage
      ensures files != [] && Classify(files[0]) == Acceptable ==> selectedFile == Some(files[0]) && error == ""
      ensures files != [] && Classify(files[0]) != Acceptable ==> !UploadEnabled()
      ensures files != [] && Classify(files[0]) == Acceptable && !old(uploading) ==> UploadEnabled()
      ensures show == old(show) && photos == old(photos) && loading == old(loading)
      ensures uploading == old(uploading) && description == old(description)
    {
      if files != [] {
        var file := files[0];
        if file.size > MaxFileSize {
          error := SizeMessage;
          selectedFile := None;
        } else if !StartsWith(file.mimeType, "image/") {
          error := TypeMessage;
          selectedFile := None;
        } else {
          selectedFile := Some(file);
          error := "";
        }
      }
    }

    /** `setDescription` from the description input. */
    method SetDescription(text: string)
      requires Valid()
      modifies this`description
      ensures Valid() && description == text
    {
      description := text;
    }

    /** `handleUpload`. Without a selected file: the no-file message and no
        post. Otherwise `uploading` is raised, the form is posted, and on
        success the description, selection and error are cleared, a refetch
        of the list is started and the callback (if any) is notified; on
        failure the failure message is shown. Either way `uploading` is lowered
        at the end. */
    method HandleUpload(postSucceeds: bool, hasCallback: bool)
      returns (request: Option<UploadRequest>, refetch: bool, notified: bool)
      requires Valid()
      modifies this
      ensures Valid()
      ensures old(selectedFile).None? ==>
        && request == None && !refetch && !notified
        && error == NoFileMessage && uploading == old(uploading)
        && description == old(description) && selectedFile == None
      ensures old(selectedFile).Some? ==>
        && request == Some(UploadRequest(old(selectedFile).value, objectType, objectId, old(description)))
        && !uploading
        && refetch == postSucceeds && notified == (postSucceeds && hasCallback)
        && (postSucceeds ==> description == "" && selectedFile == None && error == "")
        && (!postSucceeds ==>
              description == old(description) && selectedFile == old(selectedFile) && error == UploadFailedMessage)
      ensures old(selectedFile).None? ==> UploadEnabled() == old(UploadEnabled())
      ensures old(selectedFile).Some? ==> UploadEnabled() == !postSucceeds
      ensures show == old(show) && photos == old(photos) && loading == old(loading)
    {
      refetch, notified := false, false;
      if selectedFile.None? {
        error := NoFileMessage;
        request := None;
        return;
      }
      uploading := true;
      request := Some(UploadRequest(selectedFile.value, objectType, objectId, description));
      if postSucceeds {
        description := "";
        selectedFile := None;
        error := "";
        refetch := true;
        notified := hasCallback;
      } else {
        error := UploadFailedMessage;
      }
      uploading := false;
    }

    /** `fetchPhotos`: `loading` is raised while the list is requested; the
        answer replaces the list, a failure shows its message; `loading` is
        lowered at the end either way. */
    method FetchPhotos(response: Option<seq<Photo>>)
      requires Valid()
      modifies this
      ensures Valid()
      ensures !loading
      ensures response.Some? ==> photos == response.value && error == old(error)
      ensures response.None? ==> photos == old(photos) && error == FetchFailedMessage
      ensures show == old(show) && uploading == old(uploading)
      ensures description == old(description) && selectedFile == old(selectedFile)
    {
      loading := true;
      if response.Some? {
        photos := response.value;
      } else {
        error := FetchFailedMessage;
      }
      loading := false;
    }

    /** `handleDelete`: nothing unless the user confirms; then a successful
        delete starts a refetch and a failed one shows its message. */
    method HandleDelete(confirmed: bool, deleteSucceeds: bool) returns (requested: bool, refetch: bool)
      requires Valid()
      modifies this
      ensures Valid()
      ensures requested == confirmed && refetch == (confirmed && deleteSucceeds)
      ensures error == (if confirmed && !deleteSucceeds then DeleteFailedMessage else old(error))
      ensures show == old(show) && photos == old(photos) && loading == old(loading)
      ensures uploading == old(uploading) && description == old(description)
      ensures selectedFile == old(selectedFile)
    {
      requested, refetch := false, false;
      if confirmed {
        requested := true;
        if deleteSucceeds {
          refetch := true;
        } else {
          error := DeleteFailedMessage;
        }
      }
    }

    /** Opening or closing the dialog; the effect on `show` fetches the list
        when the dialog becomes visible. */
    method SetShow(value: bool) returns (fetch: bool)
      requires Valid()
      modifies this`show
      ensures Valid() && show == value
      ensures fetch == (value && !old(show))
    {
      fetch := value && !show;
      show := value;
    }
  }

  /** A picked, accepted file followed by a successful upload posts that very
      file and leaves the form empty and idle. */
  method PickThenUpload(u: PhotoUploader, f: File) returns (request: Option<UploadRequest>)
    requires u.Valid() && Classify(f) == Acceptable
    modifies u
    ensures u.Valid()
    ensures request.Some? && request.value.photo == f
    ensures u.selectedFile == None && u.error == "" && u.description == "" && !u.uploading
    ensures !u.UploadEnabled()
  {
    u.HandleFileSelect([f]);
    var refetch, notified;
    request, refetch, notified := u.HandleUpload(true, false);
  }
}
