/** The dialog that joins a workspace by typing its invite code
    (src/components/JoinWorkspaceModal.jsx). The failure record it reads is also the one the
    invite-link page reads. */
module JoinWorkspaceModal {
  import opened Common

  /** The length every invite code has. */
  const CodeLength: nat := 12

  const EnterCode: string := "Please enter an invite code"
  const WrongLength: string := "Invite code must be 12 characters long"
  const InvalidCode: string := "Invalid or expired invite code"
  const AlreadyMember: string := "You are already a member of this workspace"
  const LogInFirst: string := "Please log in to join this workspace"
  const JoinFailed: string := "Failed to join workspace"

  /** A failed join request: `err.response?.status` (None without a response), the server's
      `message`, `err.message`, and `data.data.workspaceId` of a conflict answer ("" for a
      missing field). */
  datatype JoinFailure = JoinFailure(
    status: Option<int>,
    serverMessage: string,
    errorMessage: string,
    conflictWorkspaceId: string)

  /** `/workspace/${id}`. */
  function WorkspacePath(id: string): (r: string)
    ensures IsPrefix("/workspace/", r) && r[|"/workspace/"|..] == id
  {
    "/workspace/" + id
  }

  /** The validation of `handleSubmit`: a blank code first, then a code that is not twelve
      characters long. */
  function CodeProblem(code: string): (r: Option<string>)
    ensures r == None <==> !IsBlank(code) && |code| == CodeLength
    ensures IsBlank(code) ==> r == Some(EnterCode)
    ensures !IsBlank(code) && |code| != CodeLength ==> r == Some(WrongLength)
  {
    if IsBlank(code) then Some(EnterCode)
    else if |code| != 12 then Some(WrongLength)
    else None
  }

  /** The code as the dialog stores it (trimmed) passes the validation exactly when it has
      twelve characters: a trimmed code of any positive length is not blank. */
  lemma StoredCodeValidIffTwelve(typed: string)
    ensures CodeProblem(Trim(typed)) == None <==> |Trim(typed)| == CodeLength
  {
    TrimIdempotent(typed);
    var t := Trim(typed);
    if t != [] {
      assert !IsJsSpace(t[0]);
      assert !IsBlank(t);
    }
  }

  /** The error message of a failed join, by status: 404, 409, 401, then the server's message,
      `err.message` and the default. */
  function ErrorText(f: JoinFailure): (r: string)
    ensures f.status == Some(404) ==> r == InvalidCode
    ensures f.status == Some(409) ==> r == AlreadyMember
    ensures f.status == Some(401) ==> r == LogInFirst
    ensures f.status !in {Some(404), Some(409), Some(401)} ==>
      r == Or(f.serverMessage, Or(f.errorMessage, JoinFailed))
    ensures r != ""
  {
    if f.status == Some(404) then InvalidCode
    else if f.status == Some(409) then AlreadyMember
    else if f.status == Some(401) then LogInFirst
    else Or(f.serverMessage, Or(f.errorMessage, JoinFailed))
  }

  /** After a failure the dialog only moves on for a conflict that names the workspace, to
      that workspace. */
  function FailureRedirect(f: JoinFailure): (r: Option<string>)
    ensures r.Some? <==> f.status == Some(409) && f.conflictWorkspaceId != ""
    ensures r.Some? ==> r.value == WorkspacePath(f.conflictWorkspaceId)
  {
    if f.status == Some(409) && f.conflictWorkspaceId != "" then
      Some(WorkspacePath(f.conflictWorkspaceId))
    else None
  }

  /** After a successful join: the workspace when the answer names its id, else the dashboard. */
  function SuccessRedirect(workspaceId: string): (r: string)
    ensures workspaceId != "" ==> r == WorkspacePath(workspaceId)
    ensures workspaceId == "" ==> r == "/dashboard"
  {
    if workspaceId != "" then WorkspacePath(workspaceId) else "/dashboard"
  }

  /** The answer to a join request: the joined workspace's name and id ("" when missing), or
      the failure. */
  datatype JoinAnswer = Joined(name: string, workspaceId: string) | Failed(failure: JoinFailure)

  class JoinDialog {
    var inviteCode: string
    var loading: bool
    var error: string
    var success: bool
    var workspaceName: string

    constructor ()
      ensures inviteCode == "" && !loading && error == "" && !success && workspaceName == ""
    {
      inviteCode := "";
      loading := false;
      error := "";
      success := false;
      workspaceName := "";
    }

    /** `handleChange`: the typed text is stored trimmed and both messages are cleared. */
    method Change(typed: string)
      modifies this`inviteCode, this`error, this`success
      ensures inviteCode == Trim(typed) && error == "" && !success
    {
      inviteCode := Trim(typed);
      error := "";
      success := false;
    }

    /** The synchronous part of `handleSubmit`: messages are cleared; a code that fails the
        validation shows its message and nothing is sent; otherwise the request is sent with
        the code and the dialog is loading. */
    method SubmitStart() returns (request: Option<string>)
      requires !loading
      modifies this`loading, this`error, this`success
      ensures CodeProblem(inviteCode).Some? ==>
        request == None && error == CodeProblem(inviteCode).value && !loading && !success
      ensures CodeProblem(inviteCode).None? ==>
        request == Some(inviteCode) && |inviteCode| == CodeLength && loading
        && error == "" && !success
    {
      error := "";
      success := false;
      var problem := CodeProblem(inviteCode);
      if problem.Some? {
        error := problem.value;
        return None;
      }
      loading := true;
      request := Some(inviteCode);
    }

    /** The answer to the request: a success stores the name (default 'Workspace') and leads,
        after a delay, to the workspace or the dashboard; a failure shows its message, and a
        conflict naming the workspace leads there after the delay. Loading ends either way. */
    method SubmitFinish(answer: JoinAnswer) returns (redirect: Option<string>)
      requires loading
      modifies this`loading, this`error, this`success, this`workspaceName
      ensures !loading
      ensures answer.Joined? ==>
        success && workspaceName == Or(answer.name, "Workspace") && error == old(error)
        && redirect == Some(SuccessRedirect(answer.workspaceId))
      ensures answer.Failed? ==>
        error == ErrorText(answer.failure) && success == old(success)
        && workspaceName == old(workspaceName) && redirect == FailureRedirect(answer.failure)
    {
      loading := false;
      match answer
      case Joined(name, workspaceId) =>
        workspaceName := Or(name, "Workspace");
        success := true;
        redirect := Some(SuccessRedirect(workspaceId));
      case Failed(f) =>
        error := ErrorText(f);
        redirect := FailureRedirect(f);
    }

    /** The delayed step after a successful join: the dialog closes with the code and the
        success flag reset. */
    method AfterJoinDelay()
      modifies this`inviteCode, this`success
      ensures inviteCode == "" && !success
    {
      inviteCode := "";
      success := false;
    }

    /** `handleClose`: ignored while loading; otherwise the code and both messages are reset. */
    method Close() returns (closed: bool)
      modifies this`inviteCode, this`error, this`success
      ensures closed <==> !loading
      ensures closed ==> inviteCode == "" && error == "" && !success
      ensures !closed ==>
        inviteCode == old(inviteCode) && error == old(error) && success == old(success)
    {
      if loading {
        return false;
      }
      inviteCode := "";
      error := "";
      success := false;
      closed := true;
    }
  }
}
