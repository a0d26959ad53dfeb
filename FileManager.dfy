/**
 * The file manager dialog (src/components/FileManager.tsx): the chat's
 * attachment list, the ids checked in it, and the loading, error and upload
 * progress flags each handler sets and clears. As in the chat session, a
 * request is appended to `requests` and the backend's answer is a parameter.
 */
module FileManager {
  import opened Wrappers
  import opened Api
  import Urls
  import Lists

  const FetchError: string := "Error fetching attachments. Please try again."
  const UploadError: string := "Error uploading file. Please try again."
  const DeleteError: string := "Error deleting attachment. Please try again."

  class FileManager {
    var chatId: string
    var isOpen: bool
    var attachments: seq<Attachment>
    /** The checked attachment ids, in the order they were checked. */
    var selectedFiles: seq<string>
    var isLoading: bool
    var error: Option<string>
    /** The percentage shown while a file uploads; 0 hides the bar. */
    var uploadProgress: int
    var requests: seq<Request>

    constructor(chatId: string)
      ensures this.chatId == chatId && !isOpen && attachments == [] && selectedFiles == []
      ensures !isLoading && error == None && uploadProgress == 0 && requests == []
    {
      this.chatId := chatId;
      isOpen := false;
      attachments := [];
      selectedFiles := [];
      isLoading := false;
      error := None;
      uploadProgress := 0;
      requests := [];
    }

    /** The "Attach Selected Files" button's `disabled` flag. */
    predicate AttachDisabled()
      reads this
    {
      selectedFiles == [] || isLoading
    }

    /** Fetches the attachments: the error is cleared first and set on failure,
        and the loading flag ends false. */
    method FetchAttachments(response: Option<seq<Attachment>>)
      modifies this`attachments, this`isLoading, this`error, this`requests
      ensures requests == old(requests) + [Get(Urls.Attachments(chatId))]
      ensures !isLoading
      ensures response.Some? ==> attachments == response.value && error == None
      ensures response.None? ==> attachments == old(attachments) && error == Some(FetchError)
    {
      isLoading := true;
      error := None;
      requests := requests + [Get(Urls.Attachments(chatId))];
      match response {
        case Some(list) => attachments := list;
        case None => error := Some(FetchError);
      }
      isLoading := false;
    }

    /** Opening or closing the dialog. The effect on `isOpen` runs when the flag
        changes, and fetches the attachments when the dialog opens. */
    method SetOpen(open: bool, response: Option<seq<Attachment>>)
      modifies this`isOpen, this`attachments, this`isLoading, this`error, this`requests
      ensures isOpen == open
      ensures open && !old(isOpen) ==>
                && requests == old(requests) + [Get(Urls.Attachments(chatId))] && !isLoading
                && attachments == (if response.Some? then response.value else old(attachments))
                && error == (if response.Some? then None else Some(FetchError))
      ensures !(open && !old(isOpen)) ==>
                && requests == old(requests) && attachments == old(attachments)
                && isLoading == old(isLoading) && error == old(error)
    {
      var changed := open != isOpen;
      isOpen := open;
      if changed && open {
        FetchAttachments(response);
      }
    }

    /** A new `chatId` from the chat view; the same effect fetches again when
        the dialog is open. */
    method SetChatId(id: string, response: Option<seq<Attachment>>)
      modifies this`chatId, this`attachments, this`isLoading, this`error, this`requests
      ensures chatId == id
      ensures id != old(chatId) && isOpen ==>
                && requests == old(requests) + [Get(Urls.Attachments(id))] && !isLoading
                && attachments == (if response.Some? then response.value else old(attachments))
                && error == (if response.Some? then None else Some(FetchError))
      ensures !(id != old(chatId) && isOpen) ==>
                && requests == old(requests) && attachments == old(attachments)
                && isLoading == old(isLoading) && error == old(error)
    {
      var changed := id != chatId;
      chatId := id;
      if changed && isOpen {
        FetchAttachments(response);
      }
    }

    /** The file input's change handler. Without a chosen file nothing happens;
        otherwise the file is posted, a successful upload fetches the list again,
        and the loading flag and the progress end reset. */
    method HandleFileUpload(file: Option<string>, uploadOk: bool, listing: Option<seq<Attachment>>)
      modifies this`attachments, this`isLoading, this`error, this`uploadProgress, this`requests
      ensures file.None? ==>
                && attachments == old(attachments) && isLoading == old(isLoading) && error == old(error)
                && uploadProgress == old(uploadProgress) && requests == old(requests)
      ensures file.Some? ==> !isLoading && uploadProgress == 0
      ensures file.Some? && uploadOk ==>
                && requests == old(requests) + [Post(Urls.Upload(chatId), FileBody(file.value)), Get(Urls.Attachments(chatId))]
                && attachments == (if listing.Some? then listing.value else old(attachments))
                && error == (if listing.Some? then None else Some(FetchError))
      ensures file.Some? && !uploadOk ==>
                && requests == old(requests) + [Post(Urls.Upload(chatId), FileBody(file.value))]
                && attachments == old(attachments) && error == Some(UploadError)
    {
      if file.None? {
        return;
      }
      isLoading := true;
      error := None;
      uploadProgress := 0;
      requests := requests + [Post(Urls.Upload(chatId), FileBody(file.value))];
      if uploadOk {
        FetchAttachments(listing);
      } else {
        error := Some(UploadError);
      }
      isLoading := false;
      uploadProgress := 0;
    }

    /** The delete button of one row; a successful delete fetches the list again. */
    method HandleDeleteAttachment(attachmentId: string, deleteOk: bool, listing: Option<seq<Attachment>>)
      modifies this`attachments, this`isLoading, this`error, this`requests
      ensures !isLoading
      ensures deleteOk ==>
                && requests == old(requests) + [Delete(Urls.DeleteAttachment(attachmentId)), Get(Urls.Attachments(chatId))]
                && attachments == (if listing.Some? then listing.value else old(attachments))
                && error == (if listing.Some? then None else Some(FetchError))
      ensures !deleteOk ==>
                && requests == old(requests) + [Delete(Urls.DeleteAttachment(attachmentId))]
                && attachments == old(attachments) && error == Some(DeleteError)
    {
      isLoading := true;
      error := None;
      requests := requests + [Delete(Urls.DeleteAttachment(attachmentId))];
      if deleteOk {
        FetchAttachments(listing);
      } else {
        error := Some(DeleteError);
      }
      isLoading := false;
    }

    /** A row's checkbox: checking appends the id at the end, unchecking removes
        every occurrence of it and keeps the rest in order. */
    method ToggleFile(attachmentId: string, checked: bool)
      modifies this`selectedFiles
      ensures checked ==> selectedFiles == old(selectedFiles) + [attachmentId]
      ensures !checked ==> selectedFiles == Lists.RemoveAll(old(selectedFiles), attachmentId)
      ensures !checked ==> attachmentId !in selectedFiles && Lists.IsSubsequence(selectedFiles, old(selectedFiles))
    {
      if checked {
        selectedFiles := selectedFiles + [attachmentId];
      } else {
        Lists.RemoveAllSpec(selectedFiles, attachmentId);
        selectedFiles := Lists.RemoveAll(selectedFiles, attachmentId);
      }
    }

    /** "Attach Selected Files": hands the selection to the chat, closes the dialog
        and empties the selection. When the button is enabled the selection
        handed over is not empty. */
    method HandleAttach() returns (attached: seq<string>)
      modifies this`isOpen, this`selectedFiles
      ensures attached == old(selectedFiles)
      ensures !isOpen && selectedFiles == []
      ensures !old(AttachDisabled()) ==> attached != []
    {
      attached := selectedFiles;
      isOpen := false;
      selectedFiles := [];
    }
  }
}
