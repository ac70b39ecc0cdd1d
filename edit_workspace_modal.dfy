/** The dialog that edits a workspace's name, description and privacy
    (src/components/EditWorkspaceModal.jsx). */
module EditWorkspaceModal {
  import opened Common

  const NameRequired: string := "Workspace name is required"
  const UpdateFailed: string := "Failed to update workspace"

  /** The workspace handed to the dialog; "" and false for missing fields. */
  datatype WorkspaceDetails = WorkspaceDetails(name: string, description: string, isPrivate: bool)

  /** The payload of `onUpdateWorkspace`. */
  datatype Update = Update(name: string, description: string, isPrivate: bool)

  /** The payload for the typed fields: both texts trimmed, the flag as it is. */
  function Payload(name: string, description: string, isPrivate: bool): (r: Update)
    ensures r.name == Trim(name) && r.description == Trim(description) && r.isPrivate == isPrivate
  {
    Update(Trim(name), Trim(description), isPrivate)
  }

  /** The check of `handleSubmit`: a name that is blank after trimming. */
  function SubmitProblem(name: string): (r: Option<string>)
    ensures r.None? <==> !IsBlank(name)
    ensures r.Some? ==> r.value == NameRequired
  {
    if IsBlank(name) then Some(NameRequired) else None
  }

  /** A payload that passes the check has a non-empty trimmed name, and is unchanged by
      trimming it again. */
  lemma PayloadTrimmed(name: string, description: string, isPrivate: bool)
    requires SubmitProblem(name).None?
    ensures var p := Payload(name, description, isPrivate);
      p.name != "" && Trim(p.name) == p.name && Trim(p.description) == p.description
  {
    TrimIdempotent(name);
    TrimIdempotent(description);
  }

  class EditDialog {
    var name: string
    var description: string
    var isPrivate: bool
    var error: string

    constructor ()
      ensures name == "" && description == "" && !isPrivate && error == ""
    {
      name := "";
      description := "";
      isPrivate := false;
      error := "";
    }

    /** The effect on a new `workspace` prop: its fields are copied, none for no workspace. */
    method Prefill(workspace: Option<WorkspaceDetails>)
      modifies this`name, this`description, this`isPrivate
      ensures workspace.Some? ==>
        name == workspace.value.name && description == workspace.value.description
        && isPrivate == workspace.value.isPrivate
      ensures workspace.None? ==>
        name == old(name) && description == old(description) && isPrivate == old(isPrivate)
    {
      if workspace.Some? {
        name := workspace.value.name;
        description := workspace.value.description;
        isPrivate := workspace.value.isPrivate;
      }
    }

    /** `handleSubmit`: a blank name is refused with nothing sent; otherwise the trimmed
        payload is sent, the dialog closes when it succeeds and shows the server's message or
        the default when it fails. The fields are never changed. */
    method Submit(reply: SubmitReply) returns (request: Option<Update>, closed: bool)
      modifies this`error
      ensures SubmitProblem(name).Some? ==> request == None && !closed && error == NameRequired
      ensures SubmitProblem(name).None? ==> request == Some(Payload(name, description, isPrivate))
      ensures request.Some? && reply.Submitted? ==> closed && error == ""
      ensures request.Some? && reply.SubmitFailed? ==>
        !closed && error == Or(reply.serverMessage, UpdateFailed)
    {
      error := "";
      if IsBlank(name) {
        error := NameRequired;
        return None, false;
      }
      request := Some(Update(Trim(name), Trim(description), isPrivate));
      if reply.Submitted? {
        closed := true;
      } else {
        error := Or(reply.serverMessage, UpdateFailed);
        closed := false;
      }
    }
  }
}
