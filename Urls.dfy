/**
 * The backend endpoints (src/constants/urls.ts): every URL is the base URL
 * followed by a fixed path in which identifiers are pasted verbatim, without
 * escaping.
 */
module Urls {
  import Numbers
  import opened Wrappers

  const BaseUrl: string := "http://localhost:8000/api/v1/chat/"

  const ChatList: string := BaseUrl + "chat-list/"
  const Claude: string := BaseUrl + "claude/"
  const SavedSystemPrompts: string := BaseUrl + "saved-system-prompts/"

  function Chat(chatId: string): string {
    BaseUrl + "chats/" + chatId + "/messages/"
  }

  function UpdateSystemPrompt(chatId: string): string {
    BaseUrl + "chats/" + chatId + "/system-prompt/"
  }

  /** The prompt id is a number; the template literal writes its decimal string. */
  function UpdateSavedSystemPrompt(promptId: int): string {
    BaseUrl + "saved-system-prompts/" + Numbers.IntToString(promptId) + "/"
  }

  function Upload(chatId: string): string {
    BaseUrl + "chats/" + chatId + "/upload/"
  }

  function Attachments(chatId: string): string {
    BaseUrl + "chats/" + chatId + "/attachments/"
  }

  function DeleteAttachment(attachmentId: string): string {
    BaseUrl + "attachments/" + attachmentId + "/"
  }

  function FileContent(attachmentId: string): string {
    BaseUrl + "attachments/" + attachmentId + "/content/"
  }

  /** `url` is `prefix`, then `id` verbatim, then `suffix`. */
  ghost predicate Embeds(url: string, prefix: string, id: string, suffix: string) {
    && |url| == |prefix| + |id| + |suffix|
    && url[..|prefix|] == prefix
    && url[|prefix|..|prefix| + |id|] == id
    && url[|prefix| + |id|..] == suffix
  }

  lemma EmbedsConcat(prefix: string, id: string, suffix: string)
    ensures Embeds(prefix + id + suffix, prefix, id, suffix)
  {
    var url := prefix + id + suffix;
    assert url[..|prefix|] == prefix;
    assert url[|prefix|..|prefix| + |id|] == id;
    assert url[|prefix| + |id|..] == suffix;
  }

  /** Each builder pastes its identifier between a fixed prefix, which starts
      with the base URL, and a fixed suffix ending in `/`. */
  lemma IdsEmbeddedVerbatim(id: string, promptId: int)
    ensures Embeds(Chat(id), BaseUrl + "chats/", id, "/messages/")
    ensures Embeds(UpdateSystemPrompt(id), BaseUrl + "chats/", id, "/system-prompt/")
    ensures Embeds(Upload(id), BaseUrl + "chats/", id, "/upload/")
    ensures Embeds(Attachments(id), BaseUrl + "chats/", id, "/attachments/")
    ensures Embeds(DeleteAttachment(id), BaseUrl + "attachments/", id, "/")
    ensures Embeds(FileContent(id), BaseUrl + "attachments/", id, "/content/")
    ensures Embeds(UpdateSavedSystemPrompt(promptId), BaseUrl + "saved-system-prompts/",
                   Numbers.IntToString(promptId), "/")
  {
    EmbedsConcat(BaseUrl + "chats/", id, "/messages/");
    EmbedsConcat(BaseUrl + "chats/", id, "/system-prompt/");
    EmbedsConcat(BaseUrl + "chats/", id, "/upload/");
    EmbedsConcat(BaseUrl + "chats/", id, "/attachments/");
    EmbedsConcat(BaseUrl + "attachments/", id, "/");
    EmbedsConcat(BaseUrl + "attachments/", id, "/content/");
    EmbedsConcat(BaseUrl + "saved-system-prompts/", Numbers.IntToString(promptId), "/");
  }

  ghost predicate WellShaped(url: string) {
    |url| > |BaseUrl| && url[..|BaseUrl|] == BaseUrl && url[|url| - 1] == '/'
  }

  /** Every URL the client requests starts with the base URL and ends with `/`. */
  lemma AllUrlsWellShaped(id: string, promptId: int)
    ensures WellShaped(ChatList) && WellShaped(Claude) && WellShaped(SavedSystemPrompts)
    ensures WellShaped(Chat(id)) && WellShaped(UpdateSystemPrompt(id))
    ensures WellShaped(Upload(id)) && WellShaped(Attachments(id))
    ensures WellShaped(DeleteAttachment(id)) && WellShaped(FileContent(id))
    ensures WellShaped(UpdateSavedSystemPrompt(promptId))
  {
    IdsEmbeddedVerbatim(id, promptId);
    PrefixOfPrefix(BaseUrl, "chats/");
    PrefixOfPrefix(BaseUrl, "attachments/");
    PrefixOfPrefix(BaseUrl, "saved-system-prompts/");
    assert ChatList[..|BaseUrl|] == BaseUrl;
    assert Claude[..|BaseUrl|] == BaseUrl;
    assert SavedSystemPrompts[..|BaseUrl|] == BaseUrl;
  }

  /** A prefix of the prefix part of an embedding is a prefix of the whole. */
  lemma PrefixOfPrefix(a: string, b: string)
    ensures forall url: string :: |url| >= |a + b| && url[..|a + b|] == a + b ==> url[..|a|] == a
  {
    forall url: string | |url| >= |a + b| && url[..|a + b|] == a + b ensures url[..|a|] == a {
      assert url[..|a|] == url[..|a + b|][..|a|];
      assert (a + b)[..|a|] == a;
    }
  }

  /** The content URL of an attachment is its delete URL extended by `content/`. */
  lemma FileContentExtendsDeleteAttachment(attachmentId: string)
    ensures FileContent(attachmentId) == DeleteAttachment(attachmentId) + "content/"
  {
    var p := BaseUrl + "attachments/" + attachmentId;
    assert p + "/content/" == p + "/" + "content/";
  }

  /** Because ids are pasted verbatim, each id-taking builder is injective: two
      chats, attachments or prompts never share a URL. */
  lemma BuildersInjective(a: string, b: string, m: int, n: int)
    ensures Chat(a) == Chat(b) ==> a == b
    ensures Attachments(a) == Attachments(b) ==> a == b
    ensures DeleteAttachment(a) == DeleteAttachment(b) ==> a == b
    ensures UpdateSavedSystemPrompt(m) == UpdateSavedSystemPrompt(n) ==> m == n
  {
    IdsEmbeddedVerbatim(a, m);
    IdsEmbeddedVerbatim(b, n);
    if UpdateSavedSystemPrompt(m) == UpdateSavedSystemPrompt(n) {
      SavedPromptIdReadable(m);
      SavedPromptIdReadable(n);
    }
  }

  /** The id segment of a saved-prompt URL reads back, with `parseInt`, as the id. */
  lemma SavedPromptIdReadable(promptId: int)
    ensures var url, p := UpdateSavedSystemPrompt(promptId), |BaseUrl + "saved-system-prompts/"|;
            Numbers.ParseInt(url[p..|url| - 1]) == Some(promptId)
  {
    IdsEmbeddedVerbatim("", promptId);
    Numbers.ParseIntOfToString(promptId);
  }

  /** The per-chat prompt URL and a saved prompt's URL differ right after the
      base URL (`chats/` against `saved-system-prompts/`), so posting the one
      never reaches the other. */
  lemma ChatPromptUrlIsNotSavedPromptUrl(chatId: string, promptId: int)
    ensures UpdateSystemPrompt(chatId) != UpdateSavedSystemPrompt(promptId)
  {
    IdsEmbeddedVerbatim(chatId, promptId);
    var n := |BaseUrl|;
    assert UpdateSystemPrompt(chatId)[n] == 'c';
    assert UpdateSavedSystemPrompt(promptId)[n] == 's';
  }
}
