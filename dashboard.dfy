/** The dashboard (src/pages/Dashboard.jsx): the user's workspaces, each with a preview of at
    most three of its boards, the gradient of each workspace card, and where a click leads. */
module Dashboard {
  import opened Common
  import JoinWorkspaceModal

  /** A workspace as the list answer gives it. */
  datatype Workspace = Workspace(key: EntityKey, name: string)

  /** A board as the board-list answer gives it; "" for a missing background colour. */
  datatype BoardSummary = BoardSummary(key: EntityKey, name: string, backgroundColor: string)

  /** The eight card gradients, in order. */
  const Gradients: seq<string> := [
    "linear-gradient(135deg, #667eea 0%, #764ba2 100%)",
    "linear-gradient(135deg, #f093fb 0%, #f5576c 100%)",
    "linear-gradient(135deg, #4facfe 0%, #00f2fe 100%)",
    "linear-gradient(135deg, #43e97b 0%, #38f9d7 100%)",
    "linear-gradient(135deg, #fa709a 0%, #fee140 100%)",
    "linear-gradient(135deg, #30cfd0 0%, #330867 100%)",
    "linear-gradient(135deg, #a8edea 0%, #fed6e3 100%)",
    "linear-gradient(135deg, #ff9a9e 0%, #fecfef 100%)"
  ]

  /** `getWorkspaceGradient`: the gradient of the card at position `index` of the list. */
  function Gradient(index: nat): (r: string)
    ensures r in Gradients
    ensures index < |Gradients| ==> r == Gradients[index]
  {
    var i := index % |Gradients|;
    assert index < |Gradients| ==> i == index;
    Gradients[i]
  }

  /** The gradients repeat every eight cards, and eight neighbouring cards all differ. */
  lemma GradientPeriodic(index: nat, k: nat)
    ensures Gradient(index + 8 * k) == Gradient(index)
    ensures 0 < k < 8 ==> Gradient(index + k) != Gradient(index)
  {
    ModEightShift(index, k);
    if 0 < k < 8 {
      assert (index + k) % 8 != index % 8;
    }
  }

  function Min(a: nat, b: nat): nat {
    if a <= b then a else b
  }

  /** `boards.slice(0, 3)`: the first three boards, or all of them when there are fewer. */
  function Preview(boards: seq<BoardSummary>): (r: seq<BoardSummary>)
    ensures |r| == Min(|boards|, 3)
    ensures forall i :: 0 <= i < |r| ==> r[i] == boards[i]
  {
    boards[..Min(|boards|, 3)]
  }

  /** A preview of a preview is the same preview. */
  lemma PreviewIdempotent(boards: seq<BoardSummary>)
    ensures Preview(Preview(boards)) == Preview(boards)
  {
  }

  /** The answer to one board-list request: the list (None when the answer has no `data`), or
      a failure. */
  datatype BoardsFetch = BoardsListed(data: Option<seq<BoardSummary>>) | BoardsFailed

  /** The entry the dashboard keeps for one answer: the preview of the list, and [] for a
      missing list or a failed request. */
  function EntryFor(f: BoardsFetch): (r: seq<BoardSummary>)
    ensures f.BoardsFailed? || f.data.None? ==> r == []
    ensures f.BoardsListed? && f.data.Some? ==> r == Preview(f.data.value)
    ensures |r| <= 3
  {
    match f
    case BoardsFailed => []
    case BoardsListed(data) => if data.Some? then Preview(data.value) else []
  }

  /** The map `fetchBoardsForWorkspaces` builds, with the answers written in list order: the
      keys are the workspaces' ids (`_id || id`); the last workspace of the list always has
      an entry. */
  function PreviewMap(ws: seq<Workspace>, answers: seq<BoardsFetch>): (r: map<string, seq<BoardSummary>>)
    requires |ws| == |answers|
    ensures |ws| > 0 ==> IdOf(ws[|ws| - 1].key) in r
    decreases |ws|
  {
    if |ws| == 0 then map[]
    else PreviewMap(ws[..|ws| - 1], answers[..|ws| - 1])[IdOf(ws[|ws| - 1].key) := EntryFor(answers[|ws| - 1])]
  }

  /** The map has an entry for every workspace of the list and for nothing else. */
  lemma {:induction false} PreviewMapKeys(ws: seq<Workspace>, answers: seq<BoardsFetch>)
    requires |ws| == |answers|
    ensures PreviewMap(ws, answers).Keys == set i | 0 <= i < |ws| :: IdOf(ws[i].key)
    decreases |ws|
  {
    if |ws| > 0 {
      var n := |ws| - 1;
      var m := PreviewMap(ws[..n], answers[..n]);
      assert PreviewMap(ws, answers).Keys == m.Keys + {IdOf(ws[n].key)};
      PreviewMapKeys(ws[..n], answers[..n]);
      IdsSnoc(ws, ws[..n]);
    }
  }

  /** The ids of a non-empty list are those of all but its last workspace, and the last one's. */
  lemma {:induction false} IdsSnoc(ws: seq<Workspace>, init: seq<Workspace>)
    requires |ws| > 0 && init == ws[..|ws| - 1]
    ensures (set i | 0 <= i < |ws| :: IdOf(ws[i].key)) ==
      (set i | 0 <= i < |init| :: IdOf(init[i].key)) + {IdOf(ws[|ws| - 1].key)}
  {
    assert forall i :: 0 <= i < |init| ==> init[i] == ws[i];
  }

  /** A workspace's entry is the one of its own answer — a failure gives [], whatever the other
      answers are — provided no later workspace of the list has the same id. */
  lemma {:induction false} PreviewMapEntry(ws: seq<Workspace>, answers: seq<BoardsFetch>, i: nat)
    requires |ws| == |answers| && i < |ws|
    requires forall j :: i < j < |ws| ==> IdOf(ws[j].key) != IdOf(ws[i].key)
    ensures IdOf(ws[i].key) in PreviewMap(ws, answers)
    ensures PreviewMap(ws, answers)[IdOf(ws[i].key)] == EntryFor(answers[i])
    decreases |ws|
  {
    var n := |ws| - 1;
    if i < n {
      assert forall j :: i < j < n ==> ws[..n][j] == ws[j];
      PreviewMapEntry(ws[..n], answers[..n], i);
      assert ws[..n][i] == ws[i] && answers[..n][i] == answers[i];
    }
  }

  /** `fetchBoardsForWorkspaces`: one request per workspace, each answer written under the
      workspace's id. */
  method CollectPreviews(ws: seq<Workspace>, answers: seq<BoardsFetch>) returns (boardsMap: map<string, seq<BoardSummary>>)
    requires |ws| == |answers|
    ensures boardsMap == PreviewMap(ws, answers)
  {
    boardsMap := map[];
    var i := 0;
    while i < |ws|
      invariant 0 <= i <= |ws|
      invariant boardsMap == PreviewMap(ws[..i], answers[..i])
    {
      var workspaceId := IdOf(ws[i].key);
      boardsMap := boardsMap[workspaceId := EntryFor(answers[i])];
      assert ws[..i + 1][..i] == ws[..i] && answers[..i + 1][..i] == answers[..i];
      i := i + 1;
    }
    assert ws[..i] == ws && answers[..i] == answers;
  }

  /** The state update of `handleCreateBoard`: the selected workspace's entry becomes the
      preview of the new list; every other entry stays. */
  function WithPreview(m: map<string, seq<BoardSummary>>, workspaceId: string, boards: seq<BoardSummary>): (r: map<string, seq<BoardSummary>>)
    ensures r.Keys == m.Keys + {workspaceId}
    ensures r[workspaceId] == Preview(boards)
    ensures forall k :: k in m && k != workspaceId ==> r[k] == m[k]
  {
    m[workspaceId := Preview(boards)]
  }

  /** The boards a workspace card lists: its entry, or none before any entry exists. */
  function BoardsShown(m: map<string, seq<BoardSummary>>, workspaceId: string): (r: seq<BoardSummary>)
    ensures workspaceId in m ==> r == m[workspaceId]
    ensures workspaceId !in m ==> r == []
  {
    if workspaceId in m then m[workspaceId] else []
  }

  /** A mini board card's colour: its own, or '#0079BF'. */
  function BoardColor(b: BoardSummary): (r: string)
    ensures b.backgroundColor != "" ==> r == b.backgroundColor
    ensures b.backgroundColor == "" ==> r == "#0079BF"
  {
    Or(b.backgroundColor, "#0079BF")
  }

  /** `/workspace/${workspaceId}/board/${boardId}`. */
  function BoardPath(workspaceId: string, boardId: string): (r: string)
    ensures IsPrefix(JoinWorkspaceModal.WorkspacePath(workspaceId) + "/board/", r)
  {
    JoinWorkspaceModal.WorkspacePath(workspaceId) + "/board/" + boardId
  }

  /** The board path names the route `/workspace/:workspaceId/board/:boardId` with the same
      two ids, provided neither has a '/'. */
  lemma BoardPathRoute(workspaceId: string, boardId: string)
    requires '/' !in workspaceId && '/' !in boardId
    ensures Split(BoardPath(workspaceId, boardId), '/') == ["", "workspace", workspaceId, "board", boardId]
  {
    BoardPathJoin(workspaceId, boardId);
    JoinSplit(["", "workspace", workspaceId, "board", boardId], '/');
  }

  /** The board path is its five route segments joined with '/'. */
  lemma {:induction false} BoardPathJoin(workspaceId: string, boardId: string)
    ensures JoinWith(["", "workspace", workspaceId, "board", boardId], '/') == BoardPath(workspaceId, boardId)
  {
    var t1 := [workspaceId, "board", boardId];
    var j1 := workspaceId + "/board/" + boardId;
    TailJoin(workspaceId, boardId);
    JoinCons("workspace", t1, '/');
    var t0 := ["workspace"] + t1;
    assert JoinWith(t0, '/') == "workspace/" + j1;
    JoinCons("", t0, '/');
    assert [""] + t0 == ["", "workspace", workspaceId, "board", boardId];
    assert BoardPath(workspaceId, boardId) == "/" + ("workspace/" + j1);
  }

  /** The last three route segments joined with '/'. */
  lemma {:induction false} TailJoin(workspaceId: string, boardId: string)
    ensures JoinWith([workspaceId, "board", boardId], '/') == workspaceId + "/board/" + boardId
  {
    JoinCons("board", [boardId], '/');
    assert ["board"] + [boardId] == ["board", boardId];
    JoinCons(workspaceId, ["board", boardId], '/');
    assert [workspaceId] + ["board", boardId] == [workspaceId, "board", boardId];
  }

  /** `handleBoardClick`: nothing without both ids, else the board's page. */
  function BoardClick(workspaceId: string, boardId: string): (r: Option<string>)
    ensures r.None? <==> workspaceId == "" || boardId == ""
    ensures r.Some? ==> r.value == BoardPath(workspaceId, boardId)
  {
    if workspaceId == "" || boardId == "" then None else Some(BoardPath(workspaceId, boardId))
  }

  /** `handleWorkspaceClick`: nothing without an id, else the workspace's page. */
  function WorkspaceClick(workspaceId: string): (r: Option<string>)
    ensures r.None? <==> workspaceId == ""
    ensures r.Some? ==> r.value == JoinWorkspaceModal.WorkspacePath(workspaceId)
  {
    if workspaceId == "" then None else Some(JoinWorkspaceModal.WorkspacePath(workspaceId))
  }

  /** The answer to the workspace-list request: the list (None when the answer has no
      `data`), or a failure. */
  datatype WorkspacesFetch = WorkspacesListed(data: Option<seq<Workspace>>) | WorkspacesFailed

  /** The answers to `handleCreateBoard`'s two requests: the creation refused, the creation
      done but the list refused, or both done with the new list. */
  datatype CreateBoardReply = CreateRefused | RelistRefused | Relisted(boards: seq<BoardSummary>)

  class DashboardPage {
    var workspaces: seq<Workspace>
    var workspaceBoards: map<string, seq<BoardSummary>>
    var loading: bool
    var selectedWorkspace: Option<Workspace>
    var showCreateBoardModal: bool

    constructor ()
      ensures workspaces == [] && workspaceBoards == map[] && loading
      ensures selectedWorkspace == None && !showCreateBoardModal
    {
      workspaces := [];
      workspaceBoards := map[];
      loading := true;
      selectedWorkspace := None;
      showCreateBoardModal := false;
    }

    /** `fetchWorkspaces` with its board requests answered: a listed answer replaces the
        workspaces and the whole preview map; a failure keeps both. Loading ends either way. */
    method FetchWorkspaces(answer: WorkspacesFetch, boardAnswers: seq<BoardsFetch>)
      requires answer.WorkspacesListed? ==>
        |boardAnswers| == |(if answer.data.Some? then answer.data.value else [])|
      modifies this`workspaces, this`workspaceBoards, this`loading
      ensures !loading
      ensures answer.WorkspacesFailed? ==>
        workspaces == old(workspaces) && workspaceBoards == old(workspaceBoards)
      ensures answer.WorkspacesListed? ==>
        workspaces == (if answer.data.Some? then answer.data.value else [])
        && workspaceBoards == PreviewMap(workspaces, boardAnswers)
    {
      loading := true;
      if answer.WorkspacesListed? {
        var list := if answer.data.Some? then answer.data.value else [];
        workspaces := list;
        workspaceBoards := CollectPreviews(list, boardAnswers);
      }
      loading := false;
    }

    /** The 'Create new board' card of a workspace. */
    method OpenCreateBoard(w: Workspace)
      modifies this`selectedWorkspace, this`showCreateBoardModal
      ensures selectedWorkspace == Some(w) && showCreateBoardModal
    {
      selectedWorkspace := Some(w);
      showCreateBoardModal := true;
    }

    /** `handleCreateBoard`: only when both requests succeed and a workspace is selected is its
        entry replaced and the dialog closed; any failure leaves everything as it was. */
    method CreateBoard(reply: CreateBoardReply)
      modifies this`workspaceBoards, this`showCreateBoardModal
      ensures reply.Relisted? && selectedWorkspace.Some? ==>
        workspaceBoards == WithPreview(old(workspaceBoards), IdOf(selectedWorkspace.value.key), reply.boards)
        && !showCreateBoardModal
      ensures !(reply.Relisted? && selectedWorkspace.Some?) ==>
        workspaceBoards == old(workspaceBoards) && showCreateBoardModal == old(showCreateBoardModal)
    {
      if reply.Relisted? && selectedWorkspace.Some? {
        var workspaceId := IdOf(selectedWorkspace.value.key);
        workspaceBoards := workspaceBoards[workspaceId := Preview(reply.boards)];
        showCreateBoardModal := false;
      }
    }
  }
}
