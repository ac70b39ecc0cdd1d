/** The dialog that creates a workspace (src/components/CreateWorkspaceModal.jsx). */
module CreateWorkspaceModal {
  import opened Common

  const NameRequired: string := "Workspace name is required"
  const CreateFailed: string := "Failed to create workspace"

  /** `formData`. */
  datatype WorkspaceForm = WorkspaceForm(name: string, description: string, isPrivate: bool)

  /** The form as the dialog starts it and as a successful create resets it: private and
      empty. */
  const InitialForm: WorkspaceForm := WorkspaceForm("", "", true)

  datatype TextField = NameField | DescriptionField

  /** A change event: a text input (`value`) or the privacy checkbox (`checked`). */
  datatype ChangeEvent = TextChange(field: TextField, value: string) | CheckboxChange(checked: bool)

  /** `handleChange`: the field the event names takes the event's value, the rest stays. */
  function Changed(f: WorkspaceForm, e: ChangeEvent): (r: WorkspaceForm)
    ensures e.TextChange? && e.field == NameField ==> r == f.(name := e.value)
    ensures e.TextChange? && e.field == DescriptionField ==> r == f.(description := e.value)
    ensures e.CheckboxChange? ==> r == f.(isPrivate := e.checked)
  {
    match e
    case TextChange(NameField, value) => f.(name := value)
    case TextChange(DescriptionField, value) => f.(description := value)
    case CheckboxChange(checked) => f.(isPrivate := checked)
  }

  /** Changes of different fields commute, and a change to a field replaces the last one. */
  lemma ChangesCommute(f: WorkspaceForm, d: ChangeEvent, e: ChangeEvent)
    ensures (d.TextChange? && e.TextChange? && d.field == e.field) || (d.CheckboxChange? && e.CheckboxChange?)
      ==> Changed(Changed(f, d), e) == Changed(f, e)
    ensures !((d.TextChange? && e.TextChange? && d.field == e.field) || (d.CheckboxChange? && e.CheckboxChange?))
      ==> Changed(Changed(f, d), e) == Changed(Changed(f, e), d)
  {
  }

  /** The check of `handleSubmit`: a name that is blank after trimming. */
  function SubmitProblem(f: WorkspaceForm): (r: Option<string>)
    ensures r.None? <==> !IsBlank(f.name)
    ensures r.Some? ==> r.value == NameRequired
  {
    if IsBlank(f.name) then Some(NameRequired) else None
  }

  class WorkspaceDialog {
    var form: WorkspaceForm
    var error: string

    constructor ()
      ensures form == InitialForm && error == ""
    {
      form := InitialForm;
      error := "";
    }

    method Change(e: ChangeEvent)
      modifies this`form
      ensures form == Changed(old(form), e)
    {
      form := Changed(form, e);
    }

    /** `handleSubmit`: a blank name is refused with nothing sent; otherwise the form is sent as
        it stands. A success resets the form and closes the dialog; a failure keeps the form
        and shows the server's message or the default. */
    method Submit(reply: SubmitReply) returns (request: Option<WorkspaceForm>, closed: bool)
      modifies this`form, this`error
      ensures SubmitProblem(old(form)).Some? ==>
        request == None && !closed && error == NameRequired && form == old(form)
      ensures SubmitProblem(old(form)).None? ==> request == Some(old(form))
      ensures request.Some? && reply.Submitted? ==> closed && form == InitialForm && error == ""
      ensures request.Some? && reply.SubmitFailed? ==>
        !closed && form == old(form) && error == Or(reply.serverMessage, CreateFailed)
    {
      error := "";
      if IsBlank(form.name) {
        error := NameRequired;
        return None, false;
      }
      request := Some(form);
      if reply.Submitted? {
        form := InitialForm;
        closed := true;
      } else {
        error := Or(reply.serverMessage, CreateFailed);
        closed := false;
      }
    }
  }
}
