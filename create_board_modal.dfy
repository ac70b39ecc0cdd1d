/** The dialog that creates a board in a workspace (src/components/CreateBoardModal.jsx). */
module CreateBoardModal {
  import opened Common

  /** The colours a board can be given; the first is the default. */
  const BackgroundColors: seq<string> :=
    ["#0079BF", "#D29034", "#519839", "#B04632", "#89609E", "#CD5A91", "#4BBF6B", "#00AECC"]

  const NameRequired: string := "Board name is required"
  const WorkspaceIdMissing: string := "Workspace ID is missing"
  const CreateFailed: string := "Failed to create board"

  /** `formData`; "" for a missing workspace id. */
  datatype BoardForm = BoardForm(name: string, description: string, backgroundColor: string, workspaceId: string)

  /** The form as the dialog starts it and resets it: nothing typed, the first colour, and the
      workspace it was given. */
  function InitialForm(workspaceId: string): (r: BoardForm)
    ensures r.name == "" && r.description == "" && r.workspaceId == workspaceId
    ensures r.backgroundColor == BackgroundColors[0] && r.backgroundColor == "#0079BF"
  {
    BoardForm("", "", BackgroundColors[0], workspaceId)
  }

  /** The checks of `handleSubmit`, in order: a blank name, then a missing workspace id. */
  function SubmitProblem(f: BoardForm): (r: Option<string>)
    ensures r.None? <==> !IsBlank(f.name) && f.workspaceId != ""
    ensures IsBlank(f.name) ==> r == Some(NameRequired)
    ensures !IsBlank(f.name) && f.workspaceId == "" ==> r == Some(WorkspaceIdMissing)
  {
    if IsBlank(f.name) then Some(NameRequired)
    else if f.workspaceId == "" then Some(WorkspaceIdMissing)
    else None
  }

  /** A form just reset is refused for its empty name, before its workspace is looked at. */
  lemma ResetFormRefused(workspaceId: string)
    ensures SubmitProblem(InitialForm(workspaceId)) == Some(NameRequired)
  {
  }

  class BoardDialog {
    /** The `workspaceId` prop. */
    var workspaceIdProp: string
    var form: BoardForm
    var error: string

    constructor (workspaceId: string)
      ensures workspaceIdProp == workspaceId && form == InitialForm(workspaceId) && error == ""
    {
      workspaceIdProp := workspaceId;
      form := InitialForm(workspaceId);
      error := "";
    }

    /** The effect on a new `workspaceId` prop: only the form's workspace follows it. */
    method SyncWorkspace(workspaceId: string)
      modifies this`workspaceIdProp, this`form
      ensures workspaceIdProp == workspaceId
      ensures form == old(form).(workspaceId := workspaceId)
    {
      workspaceIdProp := workspaceId;
      form := form.(workspaceId := workspaceId);
    }

    method TypeName(name: string)
      modifies this`form
      ensures form == old(form).(name := name)
    {
      form := form.(name := name);
    }

    method TypeDescription(description: string)
      modifies this`form
      ensures form == old(form).(description := description)
    {
      form := form.(description := description);
    }

    /** A click on one of the colour swatches. */
    method PickColor(index: nat)
      requires index < |BackgroundColors|
      modifies this`form
      ensures form == old(form).(backgroundColor := BackgroundColors[index])
    {
      form := form.(backgroundColor := BackgroundColors[index]);
    }

    /** `handleSubmit`: a form that fails a check shows that check's message and sends
        nothing; otherwise the form is sent as it stands (the name untrimmed). When the
        callback succeeds the form is reset, keeping the current workspace prop, and the
        dialog closes; when it fails the form stays and the server's message or the default
        is shown. */
    method Submit(reply: SubmitReply) returns (request: Option<BoardForm>, closed: bool)
      modifies this`form, this`error
      ensures SubmitProblem(old(form)).Some? ==>
        request == None && !closed && error == SubmitProblem(old(form)).value && form == old(form)
      ensures SubmitProblem(old(form)).None? ==> request == Some(old(form))
      ensures request.Some? ==> SubmitProblem(request.value).None?
      ensures request.Some? && reply.Submitted? ==>
        closed && form == InitialForm(workspaceIdProp) && error == ""
      ensures request.Some? && reply.SubmitFailed? ==>
        !closed && form == old(form) && error == Or(reply.serverMessage, CreateFailed)
    {
      error := "";
      var problem := SubmitProblem(form);
      if problem.Some? {
        error := problem.value;
        return None, false;
      }
      request := Some(form);
      if reply.Submitted? {
        form := InitialForm(workspaceIdProp);
        closed := true;
      } else {
        error := Or(reply.serverMessage, CreateFailed);
        closed := false;
      }
    }
  }
}
