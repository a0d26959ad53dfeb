/**
 * The system prompt dialog (src/components/ConfigDialog.tsx): choosing a saved
 * prompt from the selector, and the "Save Prompt" and "Update Prompt" buttons.
 * The dialog calls back into the chat view; each handler here returns the
 * arguments of the callback it makes, and takes as a parameter whether that
 * callback's promise rejects.
 */
module ConfigDialog {
  import opened Wrappers
  import opened Api
  import Numbers

  /** The arguments the dialog passes to `onUpdateSystemPrompt`. */
  datatype UpdateCall = UpdateCall(id: int, title: string, prompt: string)

  /** `savedSystemPrompts.find((p) => p.id === target)`: the first entry with that
      id. `None` as the target stands for `NaN`, which equals no id. */
  function FindPrompt(saved: seq<SavedPrompt>, target: Option<int>): (r: Option<SavedPrompt>)
    ensures r.None? <==> forall i :: 0 <= i < |saved| ==> Some(saved[i].id) != target
    ensures r.Some? ==> exists i :: 0 <= i < |saved| && saved[i] == r.value && Some(saved[i].id) == target
                                    && forall j :: 0 <= j < i ==> Some(saved[j].id) != target
  {
    if saved == [] then None
    else if Some(saved[0].id) == target then Some(saved[0])
    else
      var r := FindPrompt(saved[1..], target);
      assert forall i :: 1 <= i < |saved| ==> saved[i] == saved[1..][i - 1];
      if r.Some? then
        var k :| 0 <= k < |saved[1..]| && saved[1..][k] == r.value && Some(saved[1..][k].id) == target
                 && forall j :: 0 <= j < k ==> Some(saved[1..][j].id) != target;
        assert saved[k + 1] == r.value;
        assert forall j :: 1 <= j < k + 1 ==> Some(saved[j].id) != target;
        r
      else r
  }

  /** The selector's items carry `id.toString()` as their value, and the handler
      reads it back with `parseInt`, so choosing an item finds an entry with that
      item's id: the item itself, or the first entry sharing its id. */
  lemma SelectItemFindsItem(saved: seq<SavedPrompt>, i: nat)
    requires i < |saved|
    ensures var r := FindPrompt(saved, Numbers.ParseInt(Numbers.IntToString(saved[i].id)));
            r.Some? && r.value.id == saved[i].id
    ensures (forall j :: 0 <= j < i ==> saved[j].id != saved[i].id) ==>
              FindPrompt(saved, Numbers.ParseInt(Numbers.IntToString(saved[i].id))) == Some(saved[i])
  {
    Numbers.ParseIntOfToString(saved[i].id);
    var r := FindPrompt(saved, Some(saved[i].id));
    assert Some(saved[i].id) == Some(saved[i].id);
    if forall j :: 0 <= j < i ==> saved[j].id != saved[i].id {
      var k :| 0 <= k < |saved| && saved[k] == r.value && Some(saved[k].id) == Some(saved[i].id)
               && forall j :: 0 <= j < k ==> Some(saved[j].id) != Some(saved[i].id);
      assert k == i;
    }
  }

  class ConfigDialog {
    var promptTitle: string
    var selectedPromptId: Option<int>
    var isSaving: bool
    var isUpdating: bool

    constructor()
      ensures promptTitle == [] && selectedPromptId == None && !isSaving && !isUpdating
    {
      promptTitle := [];
      selectedPromptId := None;
      isSaving := false;
      isUpdating := false;
    }

    /** The title input's change handler. */
    method SetPromptTitle(title: string)
      modifies this`promptTitle
      ensures promptTitle == title
    {
      promptTitle := title;
    }

    /** Whether the "Update Prompt" button is disabled. */
    predicate UpdateDisabled()
      reads this
    {
      isUpdating || selectedPromptId.None?
    }

    /** The selector's change handler. A value whose `parseInt` matches a saved id
        selects the first such entry: its id and title are kept here, and its
        prompt is returned to become the system prompt. Otherwise nothing changes. */
    method HandleSelect(value: string, saved: seq<SavedPrompt>) returns (newPrompt: Option<string>)
      modifies this`selectedPromptId, this`promptTitle
      ensures var found := FindPrompt(saved, Numbers.ParseInt(value));
              && (found.Some? ==> selectedPromptId == Some(found.value.id) && promptTitle == found.value.title
                                  && newPrompt == Some(found.value.prompt))
              && (found.None? ==> selectedPromptId == old(selectedPromptId) && promptTitle == old(promptTitle)
                                  && newPrompt == None)
    {
      var selected := FindPrompt(saved, Numbers.ParseInt(value));
      newPrompt := None;
      if selected.Some? {
        selectedPromptId := Some(selected.value.id);
        promptTitle := selected.value.title;
        newPrompt := Some(selected.value.prompt);
      }
    }

    /** "Save Prompt": passes the title and the current system prompt to the save
        callback; the title is cleared only when the callback does not reject, and
        `isSaving` ends false either way. */
    method HandleSave(systemPrompt: string, callbackRejects: bool) returns (title: string, prompt: string)
      modifies this`isSaving, this`promptTitle
      ensures title == old(promptTitle) && prompt == systemPrompt
      ensures promptTitle == (if callbackRejects then old(promptTitle) else [])
      ensures !isSaving
    {
      isSaving := true;
      title, prompt := promptTitle, systemPrompt;
      if !callbackRejects {
        promptTitle := [];
      }
      isSaving := false;
    }

    /** "Update Prompt": without a selected prompt it does nothing; otherwise it
        passes the selected id, the title and the current system prompt to the
        update callback, and `isUpdating` ends false whether or not the callback
        rejects. */
    method HandleUpdate(systemPrompt: string) returns (call: Option<UpdateCall>)
      modifies this`isUpdating
      ensures old(selectedPromptId).None? ==> call == None && isUpdating == old(isUpdating)
      ensures old(selectedPromptId).Some? ==>
                call == Some(UpdateCall(selectedPromptId.value, promptTitle, systemPrompt)) && !isUpdating
      ensures !old(UpdateDisabled()) ==> call.Some?
    {
      if selectedPromptId.None? {
        return None;
      }
      isUpdating := true;
      call := Some(UpdateCall(selectedPromptId.value, promptTitle, systemPrompt));
      isUpdating := false;
    }
  }
}
