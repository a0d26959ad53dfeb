/**
 * The state of one chat session as the `useChat` hook holds it
 * (src/hooks/useChat.ts), with its handlers as methods. Each handler runs to
 * completion before the next one starts. A request the handler would send is
 * appended to `requests`, and the backend's answer is a parameter: `Some(data)`
 * for a successful response, `None` for a failed one.
 */
module ChatHook {
  import opened Wrappers
  import opened Api
  import Urls
  import Text
  import opened StreamDecoder

  const FetchMessagesError: string := "Failed to fetch messages. Please try again."
  const FetchAttachmentsError: string := "Failed to fetch attachments. Please try again."
  const FetchPromptsError: string := "Failed to fetch saved system prompts. Please try again."
  const SendError: string := "Failed to send message. Please try again."
  const UploadError: string := "Failed to upload file. Please try again."
  const RemoveError: string := "Failed to remove attachment. Please try again."
  const SavePromptError: string := "Failed to save system prompt. Please try again."
  const UpdatePromptError: string := "Failed to update system prompt. Please try again."

  /** The chat id the hook uses for a chat the backend has not created yet. */
  const NewChat: string := "new"

  /** What the send request to the model endpoint yields. */
  datatype StreamOutcome =
    | Refused                                       // `fetch` rejected, or the response is not ok or has no body
    | Streamed(chunks: seq<string>, readFails: bool) // the decoded chunks read, in order; then `done`, or a read that throws

  /** The submit guard: a message that trims to nothing, with no files attached, is not sent. */
  predicate SubmitIgnored(newMessage: string, attachedFileIds: seq<string>) {
    Text.IsBlank(newMessage) && attachedFileIds == []
  }

  /** Whitespace-only text is still sent when files are attached, and any text
      with a non-whitespace character is sent with or without files. */
  lemma SubmitGuardCases(newMessage: string, attachedFileIds: seq<string>)
    ensures SubmitIgnored(newMessage, attachedFileIds) <==> Text.Trim(newMessage) == [] && |attachedFileIds| == 0
  {
  }

  class ChatSession {
    var chatId: string
    var messages: seq<Message>
    var newMessage: string
    var isStreaming: bool
    var error: Option<string>
    var attachments: seq<Attachment>
    var systemPrompt: string
    var savedSystemPrompts: seq<SavedPrompt>
    var isLoadingAttachments: bool
    /** The routes passed to `navigate`, in order. */
    var navigations: seq<string>
    /** The requests sent to the backend, in order. */
    var requests: seq<Request>

    /** The initial state of the hook's state variables. */
    constructor(chatId: string)
      ensures this.chatId == chatId
      ensures messages == [] && newMessage == [] && !isStreaming && error == None
      ensures attachments == [] && systemPrompt == [] && savedSystemPrompts == []
      ensures !isLoadingAttachments && navigations == [] && requests == []
    {
      this.chatId := chatId;
      messages := [];
      newMessage := [];
      isStreaming := false;
      error := None;
      attachments := [];
      systemPrompt := [];
      savedSystemPrompts := [];
      isLoadingAttachments := false;
      navigations := [];
      requests := [];
    }

    /** The load effect, run for a (new) `chatId`: an existing chat loads its
        messages and attachments, the new chat starts with no messages, and the
        saved prompts are loaded in both cases. */
    method LoadChat(id: string, messagesResponse: Option<ChatData>,
                    attachmentsResponse: Option<seq<Attachment>>, promptsResponse: Option<seq<SavedPrompt>>)
      modifies this`chatId, this`messages, this`systemPrompt, this`error, this`attachments
      modifies this`isLoadingAttachments, this`savedSystemPrompts, this`requests
      ensures chatId == id
      ensures id == NewChat ==>
                && messages == [] && systemPrompt == old(systemPrompt) && attachments == old(attachments)
                && isLoadingAttachments == old(isLoadingAttachments)
                && requests == old(requests) + [Get(Urls.SavedSystemPrompts)]
      ensures id != NewChat ==>
                && messages == (if messagesResponse.Some? then messagesResponse.value.messages else old(messages))
                && systemPrompt == (if messagesResponse.Some? then messagesResponse.value.systemPrompt else old(systemPrompt))
                && attachments == (if attachmentsResponse.Some? then attachmentsResponse.value else old(attachments))
                && requests == old(requests) + [Get(Urls.Chat(id)), Get(Urls.Attachments(id)), Get(Urls.SavedSystemPrompts)]
                && !isLoadingAttachments
      ensures savedSystemPrompts == (if promptsResponse.Some? then promptsResponse.value else old(savedSystemPrompts))
      ensures error == (if promptsResponse.None? then Some(FetchPromptsError)
                        else if id != NewChat && attachmentsResponse.None? then Some(FetchAttachmentsError)
                        else if id != NewChat && messagesResponse.None? then Some(FetchMessagesError)
                        else old(error))
    {
      chatId := id;
      if id != NewChat {
        FetchMessages(messagesResponse);
        FetchAttachments(attachmentsResponse);
      } else {
        messages := [];
      }
      FetchSavedSystemPrompts(promptsResponse);
    }

    /** Loads the chat's messages and per-chat system prompt. A failure keeps the
        old ones and sets the error; a success leaves the error as it was. */
    method FetchMessages(response: Option<ChatData>)
      modifies this`messages, this`systemPrompt, this`error, this`requests
      ensures requests == old(requests) + [Get(Urls.Chat(chatId))]
      ensures response.Some? ==> messages == response.value.messages && systemPrompt == response.value.systemPrompt
                                 && error == old(error)
      ensures response.None? ==> messages == old(messages) && systemPrompt == old(systemPrompt)
                                 && error == Some(FetchMessagesError)
    {
      requests := requests + [Get(Urls.Chat(chatId))];
      match response {
        case Some(data) =>
          messages := data.messages;
          systemPrompt := data.systemPrompt;
        case None =>
          error := Some(FetchMessagesError);
      }
    }

    /** Loads the chat's attachments; the loading flag is set for the duration
        and cleared on every exit. */
    method FetchAttachments(response: Option<seq<Attachment>>)
      modifies this`attachments, this`isLoadingAttachments, this`error, this`requests
      ensures requests == old(requests) + [Get(Urls.Attachments(chatId))]
      ensures !isLoadingAttachments
      ensures response.Some? ==> attachments == response.value && error == old(error)
      ensures response.None? ==> attachments == old(attachments) && error == Some(FetchAttachmentsError)
    {
      isLoadingAttachments := true;
      requests := requests + [Get(Urls.Attachments(chatId))];
      match response {
        case Some(list) => attachments := list;
        case None => error := Some(FetchAttachmentsError);
      }
      isLoadingAttachments := false;
    }

    /** `refreshAttachments`: fetches the attachments again, with no guard
        against an earlier fetch still in flight. */
    method RefreshAttachments(response: Option<seq<Attachment>>)
      modifies this`attachments, this`isLoadingAttachments, this`error, this`requests
      ensures requests == old(requests) + [Get(Urls.Attachments(chatId))]
      ensures !isLoadingAttachments
      ensures attachments == (if response.Some? then response.value else old(attachments))
      ensures error == (if response.Some? then old(error) else Some(FetchAttachmentsError))
    {
      FetchAttachments(response);
    }

    /** Loads the saved system prompts, which are shared by all chats. */
    method FetchSavedSystemPrompts(response: Option<seq<SavedPrompt>>)
      modifies this`savedSystemPrompts, this`error, this`requests
      ensures requests == old(requests) + [Get(Urls.SavedSystemPrompts)]
      ensures response.Some? ==> savedSystemPrompts == response.value && error == old(error)
      ensures response.None? ==> savedSystemPrompts == old(savedSystemPrompts) && error == Some(FetchPromptsError)
    {
      requests := requests + [Get(Urls.SavedSystemPrompts)];
      match response {
        case Some(list) => savedSystemPrompts := list;
        case None => error := Some(FetchPromptsError);
      }
    }

    /** The message box's change handler. */
    method SetNewMessage(text: string)
      modifies this`newMessage
      ensures newMessage == text
    {
      newMessage := text;
    }

    /** `handleSubmit`. Unless the guard rejects the submit, it appends the user
        message, clears the message box and the error, sends one request, and then
        applies the chunks of the reply one by one, each split on line feeds, as
        `ApplyChunks` specifies. A refused request or a failing read sets the error
        and keeps whatever was applied; `isStreaming` ends false on every path. */
    method HandleSubmit(attachedFileIds: seq<string>, outcome: StreamOutcome, parse: Parser)
      modifies this`messages, this`newMessage, this`isStreaming, this`error, this`navigations, this`requests
      ensures SubmitIgnored(old(newMessage), attachedFileIds) ==>
                && messages == old(messages) && newMessage == old(newMessage) && isStreaming == old(isStreaming)
                && error == old(error) && navigations == old(navigations) && requests == old(requests)
      ensures !SubmitIgnored(old(newMessage), attachedFileIds) ==>
                var start := Progress(old(messages) + [UserMessage(old(newMessage))], [], old(navigations));
                && newMessage == [] && !isStreaming
                && requests == old(requests) + [Post(Urls.Claude, SendBody(chatId, old(newMessage), attachedFileIds))]
                && match outcome
                   case Refused =>
                     && messages == start.messages && navigations == start.navigations
                     && error == Some(SendError)
                   case Streamed(chunks, readFails) =>
                     var r := ApplyChunks(parse, start, chunks);
                     && messages == r.messages && navigations == r.navigations
                     && error == (if readFails then Some(SendError) else None)
    {
      if Text.IsBlank(newMessage) && |attachedFileIds| == 0 {
        return;
      }
      var sent := newMessage;
      messages := messages + [UserMessage(sent)];
      newMessage := [];
      isStreaming := true;
      error := None;
      requests := requests + [Post(Urls.Claude, SendBody(chatId, sent, attachedFileIds))];
      match outcome {
        case Refused =>
          error := Some(SendError);
        case Streamed(chunks, readFails) =>
          var assistantMessage := ReadChunks(parse, chunks);
          if readFails {
            error := Some(SendError);
          }
      }
      isStreaming := false;
    }

    /** The read loop of `handleSubmit`: each chunk is split on line feeds and its
        lines are handed to the line callback in order, with the accumulator
        starting empty. Its effect is `ApplyChunks` on the chunks read. */
    method ReadChunks(parse: Parser, chunks: seq<string>) returns (assistantMessage: string)
      modifies this`messages, this`navigations
      ensures Progress(messages, assistantMessage, navigations)
              == ApplyChunks(parse, Progress(old(messages), [], old(navigations)), chunks)
    {
      assistantMessage := [];
      var i := 0;
      while i < |chunks|
        invariant 0 <= i <= |chunks|
        invariant Progress(messages, assistantMessage, navigations)
                  == ApplyChunks(parse, Progress(old(messages), [], old(navigations)), chunks[..i])
      {
        var lines := Text.Split(chunks[i]);
        ghost var before := Progress(messages, assistantMessage, navigations);
        var j := 0;
        while j < |lines|
          invariant 0 <= j <= |lines|
          invariant Progress(messages, assistantMessage, navigations) == ApplyLines(parse, before, lines[..j])
        {
          var line := lines[j];
          ApplyOne(parse, before, lines[..j], line);
          assistantMessage := HandleStreamLine(parse, line, assistantMessage);
          assert lines[..j + 1] == lines[..j] + [line];
          j := j + 1;
        }
        assert lines[..j] == lines;
        assert chunks[..i + 1][..i] == chunks[..i];
        i := i + 1;
      }
      assert chunks[..i] == chunks;
    }

    /** The callback the stream loop runs for each line: a blank line is skipped,
        a line `JSON.parse` rejects is logged and skipped, a text line extends the
        accumulator and rewrites the last message, a `chat_id` line navigates. It
        returns the new accumulator; its effect is one `Step` of the decoder. */
    method HandleStreamLine(parse: Parser, line: string, assistantMessage: string) returns (acc: string)
      modifies this`messages, this`navigations
      ensures Progress(messages, acc, navigations)
              == Step(Progress(old(messages), assistantMessage, old(navigations)), Classify(parse, line))
    {
      acc := assistantMessage;
      if !Text.IsBlank(line) {
        match parse(line) {
          case None =>
          case Some(parsed) =>
            if parsed.kind == "text" {
              acc := acc + parsed.content;
              messages := DropLast(messages) + [AssistantMessage(acc)];
            } else if parsed.kind == "chat_id" {
              navigations := navigations + [ChatRoute(parsed.content)];
            }
        }
      }
    }

    /** Uploads a file to the chat; a successful upload fetches the attachments again. */
    method HandleAttachment(file: string, uploadOk: bool, listing: Option<seq<Attachment>>)
      modifies this`attachments, this`isLoadingAttachments, this`error, this`requests
      ensures uploadOk ==>
                && requests == old(requests) + [Post(Urls.Upload(chatId), FileBody(file)), Get(Urls.Attachments(chatId))]
                && !isLoadingAttachments
                && attachments == (if listing.Some? then listing.value else old(attachments))
                && error == (if listing.Some? then old(error) else Some(FetchAttachmentsError))
      ensures !uploadOk ==>
                && requests == old(requests) + [Post(Urls.Upload(chatId), FileBody(file))]
                && attachments == old(attachments) && error == Some(UploadError)
                && isLoadingAttachments == old(isLoadingAttachments)
    {
      requests := requests + [Post(Urls.Upload(chatId), FileBody(file))];
      if uploadOk {
        FetchAttachments(listing);
      } else {
        error := Some(UploadError);
      }
    }

    /** Deletes an attachment on the backend; a successful delete fetches the
        attachments again. */
    method RemoveAttachment(attachmentId: string, deleteOk: bool, listing: Option<seq<Attachment>>)
      modifies this`attachments, this`isLoadingAttachments, this`error, this`requests
      ensures deleteOk ==>
                && requests == old(requests) + [Delete(Urls.DeleteAttachment(attachmentId)), Get(Urls.Attachments(chatId))]
                && attachments == (if listing.Some? then listing.value else old(attachments))
                && error == (if listing.Some? then old(error) else Some(FetchAttachmentsError))
                && !isLoadingAttachments
      ensures !deleteOk ==>
                && requests == old(requests) + [Delete(Urls.DeleteAttachment(attachmentId))]
                && attachments == old(attachments) && error == Some(RemoveError)
                && isLoadingAttachments == old(isLoadingAttachments)
    {
      requests := requests + [Delete(Urls.DeleteAttachment(attachmentId))];
      if deleteOk {
        FetchAttachments(listing);
      } else {
        error := Some(RemoveError);
      }
    }

    /** Edits the per-chat system prompt locally; nothing is sent. */
    method HandleSystemPromptChange(newPrompt: string)
      modifies this`systemPrompt
      ensures systemPrompt == newPrompt
    {
      systemPrompt := newPrompt;
    }

    /** Saves a prompt under a title; a successful save fetches the saved prompts again. */
    method HandleSaveSystemPrompt(title: string, prompt: string, saveOk: bool, listing: Option<seq<SavedPrompt>>)
      modifies this`savedSystemPrompts, this`error, this`requests
      ensures saveOk ==>
                && requests == old(requests) + [Post(Urls.SavedSystemPrompts, SavedPromptBody(title, prompt)),
                                                Get(Urls.SavedSystemPrompts)]
                && savedSystemPrompts == (if listing.Some? then listing.value else old(savedSystemPrompts))
                && error == (if listing.Some? then old(error) else Some(FetchPromptsError))
      ensures !saveOk ==>
                && requests == old(requests) + [Post(Urls.SavedSystemPrompts, SavedPromptBody(title, prompt))]
                && savedSystemPrompts == old(savedSystemPrompts) && error == Some(SavePromptError)
    {
      requests := requests + [Post(Urls.SavedSystemPrompts, SavedPromptBody(title, prompt))];
      if saveOk {
        FetchSavedSystemPrompts(listing);
      } else {
        error := Some(SavePromptError);
      }
    }

    /** Sends the current per-chat system prompt to the chat's endpoint. It takes
        no arguments: which saved prompt is selected plays no part. */
    method HandleUpdateSystemPrompt(updateOk: bool)
      modifies this`error, this`requests
      ensures requests == old(requests) + [Post(Urls.UpdateSystemPrompt(chatId), SystemPromptBody(systemPrompt))]
      ensures error == (if updateOk then old(error) else Some(UpdatePromptError))
    {
      requests := requests + [Post(Urls.UpdateSystemPrompt(chatId), SystemPromptBody(systemPrompt))];
      if !updateOk {
        error := Some(UpdatePromptError);
      }
    }
  }
}
