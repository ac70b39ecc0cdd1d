/** The page an invite link opens (src/pages/JoinWorkspace.jsx): it joins the workspace named
    by the link's code and shows loading, success or error. */
module JoinWorkspacePage {
  import opened Common
  import JoinWorkspaceModal

  type JoinFailure = JoinWorkspaceModal.JoinFailure

  const InvalidLink: string := "Invalid or expired invite link"
  const JoinFailed: string := "Failed to join workspace"

  datatype Status = Loading | Success | Error

  /** What the page does when it mounts. */
  datatype Mount = RedirectToLogin(path: string) | StartJoin | Idle

  /** `/login?redirect=/invite/${inviteCode}`. */
  function LoginPath(inviteCode: string): (r: string)
    ensures IsPrefix("/login?redirect=/invite/", r)
    ensures r[|"/login?redirect=/invite/"|..] == inviteCode
  {
    "/login?redirect=/invite/" + inviteCode
  }

  /** The effect on mount: without a user, the login page with the invite as the way back and
      no join; with a user and a code, a join. */
  function MountAction(loggedIn: bool, inviteCode: string): (r: Mount)
    ensures !loggedIn <==> r.RedirectToLogin?
    ensures !loggedIn ==> r.path == LoginPath(inviteCode)
    ensures r == StartJoin <==> loggedIn && inviteCode != ""
  {
    if !loggedIn then RedirectToLogin(LoginPath(inviteCode))
    else if inviteCode != "" then StartJoin
    else Idle
  }

  /** A navigation the page performs after an answer. */
  datatype Navigation = Stay | GoNow(path: string) | GoAfterDelay(delayedPath: string)

  /** The error text of a failed join: the dialog's mapping, except that a 404 names the link
      rather than the code. */
  function ErrorText(f: JoinFailure): (r: string)
    ensures f.status == Some(404) ==> r == InvalidLink
    ensures f.status != Some(404) ==> r == JoinWorkspaceModal.ErrorText(f)
    ensures r != ""
  {
    if f.status == Some(404) then InvalidLink else JoinWorkspaceModal.ErrorText(f)
  }

  /** The navigation after a failure: a conflict leads, after the delay, to the named
      workspace or else to the dashboard; a 401 leads at once to the login page. */
  function FailureNavigation(f: JoinFailure, inviteCode: string): (r: Navigation)
    ensures f.status == Some(409) ==>
      r == GoAfterDelay(JoinWorkspaceModal.SuccessRedirect(f.conflictWorkspaceId))
    ensures f.status == Some(401) ==> r == GoNow(LoginPath(inviteCode))
    ensures f.status != Some(409) && f.status != Some(401) ==> r == Stay
  {
    if f.status == Some(409) then
      GoAfterDelay(JoinWorkspaceModal.SuccessRedirect(f.conflictWorkspaceId))
    else if f.status == Some(401) then GoNow(LoginPath(inviteCode))
    else Stay
  }

  /** The answer of `joinWorkspace`: its `success` flag, its `message`, and the workspace's
      name and id ("" when missing) — or a failed request. */
  datatype JoinAnswer =
    | Answered(success: bool, message: string, workspaceName: string, workspaceId: string)
    | Failed(failure: JoinFailure)

  /** An answer without `success` is turned into a thrown `Error(response.message ||
      'Failed to join workspace')`: a failure with no response. */
  function AsFailure(a: JoinAnswer): (r: JoinFailure)
    requires !(a.Answered? && a.success)
    ensures a.Failed? ==> r == a.failure
    ensures a.Answered? ==>
      r.status == None && r.serverMessage == "" && r.errorMessage == Or(a.message, JoinFailed)
  {
    match a
    case Failed(f) => f
    case Answered(_, message, _, _) => JoinWorkspaceModal.JoinFailure(None, "", Or(message, JoinFailed), "")
  }

  /** A refused answer shows the answer's message, or the default. */
  lemma RefusedAnswerText(message: string, name: string, id: string)
    ensures ErrorText(AsFailure(Answered(false, message, name, id))) == Or(message, JoinFailed)
  {
  }

  /** The redirect after a success as written: `/workspace/${workspaceId}`, where a missing id
      prints as "undefined". */
  function SuccessPathAsWritten(workspaceId: string): (r: string)
    ensures r == JoinWorkspaceModal.WorkspacePath(if workspaceId == "" then "undefined" else workspaceId)
  {
    "/workspace/" + (if workspaceId == "" then "undefined" else workspaceId)
  }

  /** An answer without a workspace id sends the visitor to a workspace called "undefined". */
  lemma SuccessWithoutIdAsWritten()
    ensures SuccessPathAsWritten("") == "/workspace/undefined"
  {
  }

  /** The redirect after a success as evidently intended, like the dialog and the conflict
      branch of this page: the dashboard when the answer carries no id. */
  function SuccessPath(workspaceId: string): (r: string)
    ensures r == JoinWorkspaceModal.SuccessRedirect(workspaceId)
    ensures workspaceId != "" ==> r == SuccessPathAsWritten(workspaceId)
    ensures r != "/workspace/undefined" || workspaceId == "undefined"
    ensures r == "/dashboard" ||
      (workspaceId != "" && IsPrefix("/workspace/", r) && r[|"/workspace/"|..] == workspaceId)
  {
    JoinWorkspaceModal.SuccessRedirect(workspaceId)
  }

  /** The intended redirect repairs exactly the answers without an id: with an id the page as
      written already goes where intended, without one it goes astray. */
  lemma SuccessPathRepairs(workspaceId: string)
    ensures SuccessPath(workspaceId) == SuccessPathAsWritten(workspaceId) <==> workspaceId != ""
  {
    if workspaceId == "" {
      assert SuccessPath("")[1] == 'd' != SuccessPathAsWritten("")[1];
    }
  }

  class JoinPage {
    const inviteCode: string
    var status: Status
    var error: string
    var workspaceName: string

    /** The error text is shown exactly in the error state. */
    predicate Valid()
      reads this
    {
      error != "" <==> status == Error
    }

    constructor (inviteCode: string)
      ensures this.inviteCode == inviteCode && status == Loading && error == ""
      ensures workspaceName == "" && Valid()
    {
      this.inviteCode := inviteCode;
      status := Loading;
      error := "";
      workspaceName := "";
    }

    /** The start of `handleJoinWorkspace`, on mount and on 'Try Again': loading, no error. */
    method Start() returns (request: string)
      modifies this`status, this`error
      ensures status == Loading && error == "" && Valid()
      ensures request == inviteCode
    {
      status := Loading;
      error := "";
      request := inviteCode;
    }

    /** The rest of `handleJoinWorkspace`, after `Start`: success only for an answer with
        `success` set, which goes after the delay to the workspace path as written (a missing
        id printed as "undefined"); anything else is an error with its message and
        navigation. */
    method Finish(answer: JoinAnswer) returns (nav: Navigation)
      requires Valid() && status == Loading
      modifies this`status, this`error, this`workspaceName
      ensures Valid()
      ensures status == Success <==> answer.Answered? && answer.success
      ensures status == Success ==>
        error == "" && workspaceName == answer.workspaceName
        && nav == GoAfterDelay(SuccessPathAsWritten(answer.workspaceId))
      ensures status != Success ==>
        status == Error && error == ErrorText(AsFailure(answer))
        && workspaceName == old(workspaceName)
        && nav == FailureNavigation(AsFailure(answer), inviteCode)
    {
      if answer.Answered? && answer.success {
        status := Success;
        workspaceName := answer.workspaceName;
        nav := GoAfterDelay(SuccessPathAsWritten(answer.workspaceId));
      } else {
        var f := AsFailure(answer);
        status := Error;
        error := ErrorText(f);
        nav := FailureNavigation(f, inviteCode);
      }
    }

    /** `workspace?.name || 'the workspace'`, the name the success screen welcomes to. */
    function WelcomeName(): (r: string)
      reads this
      ensures r != ""
      ensures workspaceName != "" ==> r == workspaceName
    {
      Or(workspaceName, "the workspace")
    }
  }
}
