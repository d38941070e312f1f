/** The rename editor of components/Sidebar.tsx: which session is being renamed
    and the text typed so far, with trim-and-reject-empty on confirm. */
module Sidebar {
  import opened Types
  import opened Text

  /** The rename the sidebar hands to the session store (`onRenameSession(id, title)`). */
  datatype RenameRequest = RenameRequest(id: string, title: string)

  /** The rename a confirm issues, if any: `renamingId && renameText.trim()`
      decides it, and the title sent is the trimmed text. */
  function ConfirmRequest(renamingId: Option<string>, renameText: string): Option<RenameRequest>
  {
    if Truthy(renamingId) && Trim(renameText) != "" then Some(RenameRequest(renamingId.value, Trim(renameText)))
    else None
  }

  /** A confirm renames exactly when a non-empty id is being edited and the text holds a
      non-white-space character; the session renamed is the one being edited and the
      title neither begins nor ends with white space. */
  lemma ConfirmRequestSpec(renamingId: Option<string>, renameText: string)
    ensures var r := ConfirmRequest(renamingId, renameText);
      && (r.Some? <==> renamingId.Some? && renamingId.value != ""
                       && exists i :: 0 <= i < |renameText| && !IsSpace(renameText[i]))
      && (r.Some? ==> r.value.id == renamingId.value && r.value.title != ""
                      && !IsSpace(r.value.title[0]) && !IsSpace(r.value.title[|r.value.title| - 1]))
  {
    TrimEmptyIff(renameText);
    TrimShape(renameText);
  }

  /** The state of the sidebar's rename editor. */
  class SidebarState {
    var renamingId: Option<string>
    var renameText: string

    /** Nothing is being renamed at first. */
    constructor ()
      ensures renamingId == None && renameText == ""
    {
      renamingId := None;
      renameText := "";
    }

    /** `handleStartRename`: edit this session, starting from its current title. */
    method StartRename(session: ChatSession)
      modifies this
      ensures renamingId == Some(session.id) && renameText == session.title
    {
      renamingId := Some(session.id);
      renameText := session.title;
    }

    /** The rename box changes. */
    method EditRenameText(text: string)
      modifies this`renameText
      ensures renameText == text
    {
      renameText := text;
    }

    /** `handleConfirmRename`: issue the rename if there is one, then close the editor. */
    method ConfirmRename() returns (request: Option<RenameRequest>)
      modifies this
      ensures request == ConfirmRequest(old(renamingId), old(renameText))
      ensures renamingId == None && renameText == ""
    {
      request := None;
      if Truthy(renamingId) && Trim(renameText) != "" {
        request := Some(RenameRequest(renamingId.value, Trim(renameText)));
      }
      renamingId := None;
      renameText := "";
    }

    /** `handleCancelRename`: close the editor without renaming. */
    method CancelRename()
      modifies this
      ensures renamingId == None && renameText == ""
    {
      renamingId := None;
      renameText := "";
    }

    /** The rename box's key handler: Enter confirms, Escape cancels, any other key
        changes nothing. */
    method KeyDown(key: string) returns (request: Option<RenameRequest>)
      modifies this
      ensures key == "Enter" ==> request == ConfirmRequest(old(renamingId), old(renameText))
      ensures key != "Enter" ==> request == None
      ensures key == "Enter" || key == "Escape" ==> renamingId == None && renameText == ""
      ensures key != "Enter" && key != "Escape" ==> renamingId == old(renamingId) && renameText == old(renameText)
    {
      request := None;
      if key == "Enter" {
        request := ConfirmRename();
      }
      if key == "Escape" {
        CancelRename();
      }
    }
  }
}
