/** The share dialog of a workspace (src/components/WorkspaceMembersModal.jsx): the member list
    with avatars and role selectors, and the invite link. */
module WorkspaceMembers {
  import opened Common
  import Palette

  // ---------------------------------------------------------------- initials

  /** `s[i]` in JavaScript: None stands for `undefined` past the end. */
  function CharAt(s: string, i: nat): (r: Option<char>)
    ensures r.Some? <==> i < |s|
    ensures r.Some? ==> r.value == s[i]
  {
    if i < |s| then Some(s[i]) else None
  }

  /** The value of a JavaScript `+`: a string, or the number `NaN`. */
  datatype JsSum = Text(text: string) | NotANumber

  /** `a + b` on two one-character strings that may be `undefined`: a missing operand next to a
      string prints as "undefined", and two missing operands add up to the number `NaN`. */
  function JsAdd(a: Option<char>, b: Option<char>): (r: JsSum)
    ensures r.NotANumber? <==> a.None? && b.None?
    ensures a.Some? && b.Some? ==> r == Text([a.value, b.value])
    ensures a.Some? && b.None? ==> r == Text([a.value] + "undefined")
    ensures a.None? && b.Some? ==> r == Text("undefined" + [b.value])
  {
    match (a, b)
    case (Some(x), Some(y)) => Text([x, y])
    case (Some(x), None) => Text([x] + "undefined")
    case (None, Some(y)) => Text("undefined" + [y])
    case (None, None) => NotANumber
  }

  function Min(a: nat, b: nat): nat {
    if a < b then a else b
  }

  /** `getInitials` as written: "" gives '?'; a name with a space adds the first characters of
      the first two space-separated parts, even when a part is empty; a name without a space
      gives its first two characters; the result is upper-cased. None stands for the
      `TypeError` thrown when both parts are empty, because `NaN` has no `toUpperCase`. */
  function InitialsAsWritten(name: string): (r: Option<string>)
    ensures name == "" ==> r == Some("?")
    ensures r.Some? ==> r.value != ""
    ensures r.None? <==>
      name != "" && |Split(name, ' ')| >= 2 && Split(name, ' ')[0] == "" && Split(name, ' ')[1] == ""
  {
    if name == "" then Some("?")
    else
      var parts := Split(name, ' ');
      if |parts| >= 2 then
        match JsAdd(CharAt(parts[0], 0), CharAt(parts[1], 0))
        case Text(t) => Some(ToUpper(t))
        case NotANumber => None
      else Some(ToUpper(name[..Min(2, |name|)]))
  }

  predicate NonEmpty(s: string) {
    s != ""
  }

  /** The words of a name: its space-separated parts that are not empty. */
  function Words(name: string): (r: seq<string>)
    ensures forall k :: 0 <= k < |r| ==> r[k] != "" && r[k] in Split(name, ' ')
  {
    Filter(Split(name, ' '), NonEmpty)
  }

  /** Every character of a word comes from the name. */
  lemma WordCharsFromName(name: string)
    ensures forall k, i :: 0 <= k < |Words(name)| && 0 <= i < |Words(name)[k]| ==>
      Words(name)[k][i] in name
  {
    SplitPartsFromText(name, ' ');
    var parts := Split(name, ' ');
    forall k, i | 0 <= k < |Words(name)| && 0 <= i < |Words(name)[k]|
      ensures Words(name)[k][i] in name
    {
      var j :| 0 <= j < |parts| && parts[j] == Words(name)[k];
      assert parts[j][i] in name;
    }
  }

  /** `getInitials` as evidently intended: the first letters of the first two words, or the
      first two characters of a one-word name, upper-cased; '?' when the name has no word. */
  function Initials(name: string): (r: string)
    ensures 1 <= |r| <= 2
    ensures Words(name) == [] ==> r == "?"
    ensures |Words(name)| >= 2 ==> r == ToUpper([Words(name)[0][0], Words(name)[1][0]])
    ensures |Words(name)| == 1 ==> r == ToUpper(Words(name)[0][..Min(2, |Words(name)[0]|)])
  {
    var words := Words(name);
    if |words| >= 2 then ToUpper([words[0][0], words[1][0]])
    else if |words| == 1 then ToUpper(words[0][..Min(2, |words[0]|)])
    else "?"
  }

  /** The intended initials only use (upper-cased) characters of the name. */
  lemma InitialsFromName(name: string)
    ensures Initials(name) == "?" || forall i :: 0 <= i < |Initials(name)| ==>
      Initials(name)[i] in ToUpper(name)
  {
    var words := Words(name);
    var up := ToUpper(name);
    WordCharsFromName(name);
    if words != [] {
      forall i | 0 <= i < |Initials(name)| ensures Initials(name)[i] in up {
        var c := if |words| >= 2 then (if i == 0 then words[0][0] else words[1][0]) else words[0][i];
        assert Initials(name)[i] == UpperChar(c);
        assert c in name;
        var j :| 0 <= j < |name| && name[j] == c;
        assert up[j] == UpperChar(c);
      }
    }
  }

  /** For a name whose space-separated parts are all non-empty, the code as written and the
      intended definition agree. */
  lemma InitialsAgree(name: string)
    requires name != ""
    requires forall k :: 0 <= k < |Split(name, ' ')| ==> Split(name, ' ')[k] != ""
    ensures InitialsAsWritten(name) == Some(Initials(name))
  {
    var parts := Split(name, ' ');
    FilterKeepsAll(parts, NonEmpty);
    assert Words(name) == parts;
    if |parts| == 1 {
      assert BeforeFirst(name, ' ') == parts[0];
      assert |BeforeFirst(name, ' ')| == |name|;
      assert parts[0] == name;
    }
  }

  /** A trailing space makes the code as written show "AUNDEFINED" for "a ", where the
      intended initials are "A". */
  lemma TrailingSpaceInitials()
    ensures InitialsAsWritten("a ") == Some("AUNDEFINED")
    ensures Initials("a ") == "A"
  {
    assert JoinWith(["a", ""], ' ') == "a ";
    JoinSplit(["a", ""], ' ');
    assert Split("a ", ' ') == ["a", ""];
    assert JsAdd(CharAt("a", 0), CharAt("", 0)) == Text("aundefined");
    assert ToUpper("aundefined") == "AUNDEFINED";
    assert Words("a ") == ["a"];
  }

  /** A name made of one space throws as written ('?' is intended: it has no word). */
  lemma SpaceOnlyInitials()
    ensures InitialsAsWritten(" ") == None
    ensures Initials(" ") == "?"
  {
    assert JoinWith(["", ""], ' ') == " ";
    JoinSplit(["", ""], ' ');
    assert Split(" ", ' ') == ["", ""];
    assert Words(" ") == [];
  }

  // ---------------------------------------------------------------- avatar and ids

  /** The six avatar colours of this dialog. */
  const Avatar6: seq<string> := ["#667eea", "#f56565", "#48bb78", "#ed8936", "#9f7aea", "#38b2ac"]

  /** `getAvatarColor`: the first code point modulo six, colour 0 for no name. */
  function AvatarColor6(name: string): (r: string)
    ensures r in Avatar6
    ensures name == "" ==> r == Avatar6[0]
    ensures name != "" ==> r == Avatar6[(name[0] as int) % 6]
  {
    Avatar6[Palette.AvatarIndex(name, |Avatar6|)]
  }

  /** `member.user`, when present. */
  datatype UserRef = UserRef(underscoreId: string, id: string, name: string, email: string)

  /** A member entry of the list, "" standing for a missing field. */
  datatype MemberEntry = MemberEntry(
    underscoreId: string,
    id: string,
    userId: string,
    user: Option<UserRef>,
    name: string,
    email: string,
    role: string,
    isCurrentUser: bool)

  /** The five places a member id may be found, in the order the list tries them. */
  function IdCandidates(m: MemberEntry): seq<string> {
    [m.underscoreId, m.id, m.userId,
     if m.user.Some? then m.user.value.underscoreId else "",
     if m.user.Some? then m.user.value.id else ""]
  }

  /** The first non-empty string of a list, "" when there is none. */
  function FirstNonEmpty(s: seq<string>): (r: string)
    ensures r == "" <==> forall i :: 0 <= i < |s| ==> s[i] == ""
    ensures r != "" ==> exists i :: 0 <= i < |s| && s[i] == r && forall j :: 0 <= j < i ==> s[j] == ""
  {
    if s == [] then "" else if s[0] != "" then s[0]
    else
      var r := FirstNonEmpty(s[1..]);
      assert forall i :: 1 <= i < |s| ==> s[i] == s[1..][i - 1];
      r
  }

  /** `member._id || member.id || member.userId || member.user?._id || member.user?.id`. */
  function MemberId(m: MemberEntry): (r: string)
    ensures r in IdCandidates(m)
    ensures r == "" <==>
      m.underscoreId == "" && m.id == "" && m.userId == ""
      && (m.user.None? || (m.user.value.underscoreId == "" && m.user.value.id == ""))
  {
    Or(m.underscoreId, Or(m.id, Or(m.userId,
      if m.user.Some? then Or(m.user.value.underscoreId, m.user.value.id) else "")))
  }

  /** The id the list resolves is the first non-empty of the five candidates, in the order
      `_id`, `id`, `userId`, `user._id`, `user.id`. */
  lemma MemberIdOrder(m: MemberEntry)
    ensures MemberId(m) == FirstNonEmpty(IdCandidates(m))
  {
    var c := IdCandidates(m);
    assert c[1..][1..][1..][1..][1..] == [];
    assert FirstNonEmpty(c[1..][1..][1..][1..]) == c[4];
    assert FirstNonEmpty(c[1..][1..][1..]) == Or(c[3], c[4]);
    assert FirstNonEmpty(c[1..][1..]) == Or(c[2], Or(c[3], c[4]));
    assert FirstNonEmpty(c[1..]) == Or(c[1], Or(c[2], Or(c[3], c[4])));
  }

  /** `member.user?.name || member.name`: the name the avatar and the row show. */
  function DisplayName(m: MemberEntry): (r: string)
    ensures m.user.Some? && m.user.value.name != "" ==> r == m.user.value.name
    ensures (m.user.None? || m.user.value.name == "") ==> r == m.name
  {
    Or(if m.user.Some? then m.user.value.name else "", m.name)
  }

  // ---------------------------------------------------------------- invite link

  /** `${window.location.origin}/invite/${code}`. */
  function InviteLink(origin: string, code: string): (r: string)
    ensures IsPrefix(origin, r) && r[|origin|..] == "/invite/" + code
  {
    origin + "/invite/" + code
  }

  /** The path of an invite link names the route `/invite/:inviteCode` with the same code,
      provided the code has no '/'. */
  lemma InviteLinkRoute(origin: string, code: string)
    requires '/' !in code
    ensures Split(InviteLink(origin, code)[|origin|..], '/') == ["", "invite", code]
  {
    var parts := ["", "invite", code];
    assert JoinWith(parts, '/') == "/invite/" + code by {
      assert parts[1..] == ["invite", code];
      assert parts[1..][1..] == [code];
      assert JoinWith(["invite", code], '/') == "invite" + "/" + code;
      assert JoinWith(parts, '/') == "" + "/" + JoinWith(["invite", code], '/');
    }
    JoinSplit(parts, '/');
  }

  /** The answer to a role change: done, followed by the members list refetch (None when the
      refetch failed), or failed with the server's `message` and `error.message`. */
  datatype RoleReply =
    | RoleUpdated(refetched: Option<seq<MemberEntry>>)
    | RoleFailed(serverMessage: string, errorMessage: string)

  const InvalidMemberId: string := "Cannot update member role: Invalid member ID"
  const RoleUpdateFailed: string := "Failed to update member role"
  const LoadFailed: string := "Failed to load members"
  const InviteFailed: string := "Failed to generate invite link"

  /** The answer to `generateInviteLink`: the `inviteCode` it carries (None when the answer
      leaves it out), or a failed request. */
  datatype InviteReply = Issued(code: Option<string>) | InviteRequestFailed

  /** The dialog's state for one workspace. */
  class MembersDialog {
    const workspaceId: string
    const origin: string
    var members: seq<MemberEntry>
    var inviteLink: string
    var inviteCode: string
    var error: string

    constructor (workspaceId: string, origin: string)
      ensures this.workspaceId == workspaceId && this.origin == origin
      ensures members == [] && inviteLink == "" && inviteCode == "" && error == ""
    {
      this.workspaceId := workspaceId;
      this.origin := origin;
      members := [];
      inviteLink := "";
      inviteCode := "";
      error := "";
    }

    /** `fetchMembers`: the list is replaced by the answer, or an error is shown and the list
        is kept. */
    method FetchMembers(fetched: Option<seq<MemberEntry>>)
      modifies this`members, this`error
      ensures fetched.Some? ==> members == fetched.value && error == old(error)
      ensures fetched.None? ==> members == old(members) && error == LoadFailed
    {
      if fetched.Some? {
        members := fetched.value;
      } else {
        error := LoadFailed;
      }
    }

    /** `handleGenerateInviteLink`: the link is the origin, '/invite/' and the returned code,
        and the same code is kept beside it; a failure shows an error and keeps both. An
        answer without `inviteCode` prints it into the link as "undefined" and stores an
        undefined code, which the dialog treats like "" (it hides the code box). */
    method GenerateInviteLink(reply: InviteReply) returns (request: string)
      modifies this`inviteLink, this`inviteCode, this`error
      ensures request == workspaceId
      ensures reply.Issued? ==>
        inviteLink == InviteLink(origin, Interpolated(reply.code)) && inviteLink != ""
        && error == ""
      ensures reply == Issued(None) ==> inviteLink == origin + "/invite/undefined" && inviteCode == ""
      ensures reply.Issued? && reply.code.Some? ==> inviteCode == reply.code.value
      ensures reply.InviteRequestFailed? ==>
        inviteLink == old(inviteLink) && inviteCode == old(inviteCode) && error == InviteFailed
    {
      error := "";
      request := workspaceId;
      match reply
      case Issued(code) =>
        inviteLink := origin + "/invite/" + Interpolated(code);
        inviteCode := if code.Some? then code.value else "";
      case InviteRequestFailed =>
        error := InviteFailed;
    }

    /** `handleRoleChange`: with no member id nothing is sent and an error is shown; otherwise
        the change is sent, a success refetches the list, a failure shows the server's message,
        else the error's, else the default. */
    method ChangeRole(memberId: string, newRole: string, outcome: RoleReply) returns (request: Option<(string, string, string)>)
      modifies this`members, this`error
      ensures memberId == "" ==>
        request == None && error == InvalidMemberId && members == old(members)
      ensures memberId != "" ==> request == Some((workspaceId, memberId, newRole))
      ensures memberId != "" && outcome.RoleUpdated? && outcome.refetched.Some? ==>
        members == outcome.refetched.value && error == old(error)
      ensures memberId != "" && outcome.RoleUpdated? && outcome.refetched.None? ==>
        members == old(members) && error == LoadFailed
      ensures memberId != "" && outcome.RoleFailed? ==>
        members == old(members)
        && error == Or(outcome.serverMessage, Or(outcome.errorMessage, RoleUpdateFailed))
    {
      if memberId == "" {
        error := InvalidMemberId;
        return None;
      }
      request := Some((workspaceId, memberId, newRole));
      match outcome
      case RoleUpdated(refetched) =>
        FetchMembers(refetched);
      case RoleFailed(serverMessage, errorMessage) =>
        error := Or(serverMessage, Or(errorMessage, RoleUpdateFailed));
    }
  }
}
