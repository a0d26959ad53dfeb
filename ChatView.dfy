/**
 * The chat screen (src/components/Chat.tsx): the ids of the files attached to
 * the next message, the route's chat id, and how the screen wires the chat
 * session, the file manager and the prompt dialog together.
 */
module ChatView {
  import opened Wrappers
  import opened Api
  import Urls
  import Lists
  import Numbers
  import ChatHook
  import FileManager
  import ConfigDialog
  import opened StreamDecoder

  /** `chatId || "new"`: the route parameter, or `"new"` when it is missing or
      empty (the empty string is falsy). */
  function EffectiveChatId(route: Option<string>): (id: string)
    ensures id != []
    ensures id == ChatHook.NewChat <==> route.None? || route.value == [] || route.value == ChatHook.NewChat
    ensures route.Some? && route.value != [] ==> id == route.value
  {
    if route.Some? && route.value != [] then route.value else ChatHook.NewChat
  }

  class ChatView {
    const session: ChatHook.ChatSession
    const fileManager: FileManager.FileManager
    const dialog: ConfigDialog.ConfigDialog
    /** The ids attached to the next message, in order. */
    var attachedFiles: seq<string>

    /** The screen for a route: the session and the file manager both get the
        effective chat id, and the session runs its load effect from the hook's
        initial state. */
    constructor(route: Option<string>, messagesResponse: Option<ChatData>,
                attachmentsResponse: Option<seq<Attachment>>, promptsResponse: Option<seq<SavedPrompt>>)
      ensures fresh(session) && fresh(fileManager) && fresh(dialog)
      ensures session.chatId == EffectiveChatId(route) && fileManager.chatId == EffectiveChatId(route)
      ensures attachedFiles == []
      ensures !fileManager.isOpen && fileManager.selectedFiles == [] && fileManager.attachments == []
              && fileManager.requests == []
      ensures dialog.selectedPromptId == None && dialog.promptTitle == []
      ensures session.newMessage == [] && !session.isStreaming && session.navigations == []
              && !session.isLoadingAttachments
      ensures var loads := EffectiveChatId(route) != ChatHook.NewChat;
              && session.messages == (if loads && messagesResponse.Some? then messagesResponse.value.messages else [])
              && session.systemPrompt == (if loads && messagesResponse.Some? then messagesResponse.value.systemPrompt else [])
              && session.attachments == (if loads && attachmentsResponse.Some? then attachmentsResponse.value else [])
              && session.savedSystemPrompts == (if promptsResponse.Some? then promptsResponse.value else [])
              && session.requests == (if loads then [Get(Urls.Chat(EffectiveChatId(route))),
                                                     Get(Urls.Attachments(EffectiveChatId(route)))] else [])
                                     + [Get(Urls.SavedSystemPrompts)]
              && session.error == (if promptsResponse.None? then Some(ChatHook.FetchPromptsError)
                                   else if loads && attachmentsResponse.None? then Some(ChatHook.FetchAttachmentsError)
                                   else if loads && messagesResponse.None? then Some(ChatHook.FetchMessagesError)
                                   else None)
    {
      var id := EffectiveChatId(route);
      session := new ChatHook.ChatSession(id);
      fileManager := new FileManager.FileManager(id);
      dialog := new ConfigDialog.ConfigDialog();
      attachedFiles := [];
      new;
      session.LoadChat(id, messagesResponse, attachmentsResponse, promptsResponse);
    }

    /** A new route: a changed chat id reloads the session, and the file manager
        follows (fetching again if it is open). */
    method RouteChanged(route: Option<string>, messagesResponse: Option<ChatData>,
                        attachmentsResponse: Option<seq<Attachment>>, promptsResponse: Option<seq<SavedPrompt>>,
                        listing: Option<seq<Attachment>>)
      modifies session`chatId, session`messages, session`systemPrompt, session`error, session`attachments
      modifies session`isLoadingAttachments, session`savedSystemPrompts, session`requests
      modifies fileManager`chatId, fileManager`attachments, fileManager`isLoading, fileManager`error
      modifies fileManager`requests
      ensures session.chatId == EffectiveChatId(route) && fileManager.chatId == EffectiveChatId(route)
      ensures session.newMessage == old(session.newMessage) && session.isStreaming == old(session.isStreaming)
              && session.navigations == old(session.navigations)
      ensures EffectiveChatId(route) == old(session.chatId) ==>
                && session.messages == old(session.messages) && session.systemPrompt == old(session.systemPrompt)
                && session.attachments == old(session.attachments) && session.error == old(session.error)
                && session.savedSystemPrompts == old(session.savedSystemPrompts)
                && session.isLoadingAttachments == old(session.isLoadingAttachments)
                && session.requests == old(session.requests)
      ensures var id := EffectiveChatId(route);
              var loads := id != ChatHook.NewChat;
              id != old(session.chatId) ==>
                && session.messages == (if !loads then [] else if messagesResponse.Some? then messagesResponse.value.messages
                                        else old(session.messages))
                && session.systemPrompt == (if loads && messagesResponse.Some? then messagesResponse.value.systemPrompt
                                            else old(session.systemPrompt))
                && session.attachments == (if loads && attachmentsResponse.Some? then attachmentsResponse.value
                                           else old(session.attachments))
                && session.isLoadingAttachments == (if loads then false else old(session.isLoadingAttachments))
                && session.savedSystemPrompts == (if promptsResponse.Some? then promptsResponse.value
                                                  else old(session.savedSystemPrompts))
                && session.requests == old(session.requests)
                     + (if loads then [Get(Urls.Chat(id)), Get(Urls.Attachments(id))] else [])
                     + [Get(Urls.SavedSystemPrompts)]
                && session.error == (if promptsResponse.None? then Some(ChatHook.FetchPromptsError)
                                     else if loads && attachmentsResponse.None? then Some(ChatHook.FetchAttachmentsError)
                                     else if loads && messagesResponse.None? then Some(ChatHook.FetchMessagesError)
                                     else old(session.error))
      ensures fileManager.isOpen == old(fileManager.isOpen) && fileManager.selectedFiles == old(fileManager.selectedFiles)
      ensures var id := EffectiveChatId(route);
              && (id != old(fileManager.chatId) && fileManager.isOpen ==>
                    && fileManager.requests == old(fileManager.requests) + [Get(Urls.Attachments(id))]
                    && !fileManager.isLoading
                    && fileManager.attachments == (if listing.Some? then listing.value else old(fileManager.attachments))
                    && fileManager.error == (if listing.Some? then None else Some(FileManager.FetchError)))
              && (!(id != old(fileManager.chatId) && fileManager.isOpen) ==>
                    && fileManager.requests == old(fileManager.requests)
                    && fileManager.attachments == old(fileManager.attachments)
                    && fileManager.isLoading == old(fileManager.isLoading) && fileManager.error == old(fileManager.error))
    {
      var id := EffectiveChatId(route);
      if id != session.chatId {
        session.LoadChat(id, messagesResponse, attachmentsResponse, promptsResponse);
      }
      fileManager.SetChatId(id, listing);
    }

    /** `handleFileAttach`: the attached ids become exactly the given ones. */
    method HandleFileAttach(fileIds: seq<string>)
      modifies this`attachedFiles
      ensures attachedFiles == fileIds
    {
      attachedFiles := fileIds;
    }

    /** `handleRemoveAttachedFile`: every occurrence of the id is dropped, the other
        ids keep their order, and removing an absent id changes nothing. */
    method HandleRemoveAttachedFile(fileId: string)
      modifies this`attachedFiles
      ensures attachedFiles == Lists.RemoveAll(old(attachedFiles), fileId)
      ensures fileId !in attachedFiles && Lists.IsSubsequence(attachedFiles, old(attachedFiles))
      ensures fileId !in old(attachedFiles) ==> attachedFiles == old(attachedFiles)
    {
      Lists.RemoveAllSpec(attachedFiles, fileId);
      if fileId !in attachedFiles {
        Lists.RemoveAbsent(attachedFiles, fileId);
      }
      attachedFiles := Lists.RemoveAll(attachedFiles, fileId);
    }

    /** `handleSendMessage`: submits with the current attached ids, then clears
        them whether or not the submit was sent. The session ends as
        `HandleSubmit` leaves it. */
    method HandleSendMessage(outcome: ChatHook.StreamOutcome, parse: Parser)
      modifies this`attachedFiles
      modifies session`messages, session`newMessage, session`isStreaming, session`error
      modifies session`navigations, session`requests
      ensures attachedFiles == []
      ensures ChatHook.SubmitIgnored(old(session.newMessage), old(attachedFiles)) ==>
                && session.messages == old(session.messages) && session.newMessage == old(session.newMessage)
                && session.isStreaming == old(session.isStreaming) && session.error == old(session.error)
                && session.navigations == old(session.navigations) && session.requests == old(session.requests)
      ensures !ChatHook.SubmitIgnored(old(session.newMessage), old(attachedFiles)) ==>
                var start := Progress(old(session.messages) + [UserMessage(old(session.newMessage))], [],
                                      old(session.navigations));
                && session.newMessage == [] && !session.isStreaming
                && session.requests == old(session.requests)
                     + [Post(Urls.Claude, SendBody(session.chatId, old(session.newMessage), old(attachedFiles)))]
                && match outcome
                   case Refused =>
                     && session.messages == start.messages && session.navigations == start.navigations
                     && session.error == Some(ChatHook.SendError)
                   case Streamed(chunks, readFails) =>
                     var r := ApplyChunks(parse, start, chunks);
                     && session.messages == r.messages && session.navigations == r.navigations
                     && session.error == (if readFails then Some(ChatHook.SendError) else None)
    {
      session.HandleSubmit(attachedFiles, outcome, parse);
      attachedFiles := [];
    }

    /** The file manager's "Attach Selected Files", wired to `handleFileAttach`:
        the selection becomes the attached ids, and the file manager closes with
        an empty selection. */
    method AttachSelectedFiles()
      modifies this`attachedFiles, fileManager`isOpen, fileManager`selectedFiles
      ensures attachedFiles == old(fileManager.selectedFiles)
      ensures !fileManager.isOpen && fileManager.selectedFiles == []
    {
      var ids := fileManager.HandleAttach();
      HandleFileAttach(ids);
    }

    /** The prompt selector: the found entry's prompt becomes the session's system
        prompt (the dialog reports it through both of its prompt callbacks, which
        are the same handler here); an unmatched value changes nothing. */
    method SelectSavedPrompt(value: string)
      modifies dialog`selectedPromptId, dialog`promptTitle, session`systemPrompt
      ensures var found := ConfigDialog.FindPrompt(old(session.savedSystemPrompts), Numbers.ParseInt(value));
              && session.systemPrompt == (if found.Some? then found.value.prompt else old(session.systemPrompt))
              && dialog.selectedPromptId == (if found.Some? then Some(found.value.id) else old(dialog.selectedPromptId))
              && dialog.promptTitle == (if found.Some? then found.value.title else old(dialog.promptTitle))
    {
      var newPrompt := dialog.HandleSelect(value, session.savedSystemPrompts);
      if newPrompt.Some? {
        session.HandleSystemPromptChange(newPrompt.value);
        session.HandleSystemPromptChange(newPrompt.value);
      }
    }

    /** "Save Prompt", wired to the session's save handler. That handler catches
        its own failures, so the dialog always sees success and clears the title. */
    method SavePrompt(saveOk: bool, listing: Option<seq<SavedPrompt>>)
      modifies dialog`isSaving, dialog`promptTitle, session`savedSystemPrompts, session`error, session`requests
      ensures dialog.promptTitle == [] && !dialog.isSaving
      ensures var sent := Post(Urls.SavedSystemPrompts, SavedPromptBody(old(dialog.promptTitle), old(session.systemPrompt)));
              && (saveOk ==>
                    && session.requests == old(session.requests) + [sent, Get(Urls.SavedSystemPrompts)]
                    && session.savedSystemPrompts == (if listing.Some? then listing.value else old(session.savedSystemPrompts))
                    && session.error == (if listing.Some? then old(session.error) else Some(ChatHook.FetchPromptsError)))
              && (!saveOk ==>
                    && session.requests == old(session.requests) + [sent]
                    && session.savedSystemPrompts == old(session.savedSystemPrompts)
                    && session.error == Some(ChatHook.SavePromptError))
    {
      var title, prompt := dialog.HandleSave(session.systemPrompt, false);
      session.HandleSaveSystemPrompt(title, prompt, saveOk, listing);
    }

    /** "Update Prompt", wired to `handleUpdateSystemPrompt`: with a prompt
        selected, the one request sent posts the session's current system prompt
        to the chat's own endpoint. The selected id and title are dropped, and no
        saved prompt's URL is ever requested. */
    method UpdatePrompt(updateOk: bool)
      modifies dialog`isUpdating, session`error, session`requests
      ensures old(dialog.selectedPromptId).None? ==> session.requests == old(session.requests)
      ensures old(dialog.selectedPromptId).Some? ==>
                session.requests == old(session.requests)
                  + [Post(Urls.UpdateSystemPrompt(session.chatId), SystemPromptBody(session.systemPrompt))]
      ensures forall k, n :: |old(session.requests)| <= k < |session.requests| ==>
                session.requests[k].url != Urls.UpdateSavedSystemPrompt(n)
      ensures session.error == (if old(dialog.selectedPromptId).Some? && !updateOk then Some(ChatHook.UpdatePromptError)
                                else old(session.error))
      ensures dialog.isUpdating == (if old(dialog.selectedPromptId).Some? then false else old(dialog.isUpdating))
    {
      var call := dialog.HandleUpdate(session.systemPrompt);
      if call.Some? {
        session.HandleUpdateSystemPrompt(updateOk);
        forall n: int ensures Urls.UpdateSystemPrompt(session.chatId) != Urls.UpdateSavedSystemPrompt(n) {
          Urls.ChatPromptUrlIsNotSavedPromptUrl(session.chatId, n);
        }
      }
    }

    /** The sidebar's delete button, wired to the session's `removeAttachment`. */
    method DeleteAttachment(fileId: string, deleteOk: bool, listing: Option<seq<Attachment>>)
      modifies session`attachments, session`isLoadingAttachments, session`error, session`requests
      ensures deleteOk ==>
                && session.requests == old(session.requests)
                     + [Delete(Urls.DeleteAttachment(fileId)), Get(Urls.Attachments(session.chatId))]
                && session.attachments == (if listing.Some? then listing.value else old(session.attachments))
                && session.error == (if listing.Some? then old(session.error) else Some(ChatHook.FetchAttachmentsError))
                && !session.isLoadingAttachments
      ensures !deleteOk ==>
                && session.requests == old(session.requests) + [Delete(Urls.DeleteAttachment(fileId))]
                && session.attachments == old(session.attachments) && session.error == Some(ChatHook.RemoveError)
                && session.isLoadingAttachments == old(session.isLoadingAttachments)
    {
      session.RemoveAttachment(fileId, deleteOk, listing);
    }
  }
}
