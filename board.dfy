/** The board page's ordered sequence of lists (stages): creating a list at the end, reordering
    by drag and drop with rollback when the server rejects the new order, deleting and
    renaming by id (src/pages/Board.jsx). */
module Board {
  import opened Common

  /** A list (stage) as the page holds it. `position` is the rank the server last sent;
      the page never rewrites it locally. */
  datatype Stage = Stage(key: EntityKey, name: string, position: int)

  /** One entry of the reorder payload. */
  datatype StageOrder = StageOrder(stageId: string, position: nat)

  /** A finished drag: the library reports a destination only for a drop on the list row. */
  datatype Drop = Drop(source: nat, destination: nat)

  datatype CreateListRequest = CreateListRequest(name: string, position: nat)
  datatype UpdateListRequest = UpdateListRequest(listId: string, name: string)

  /** What the server answered to `createList`: the new stage, or an error. */
  datatype CreateOutcome = Created(stage: Stage) | CreateFailed

  /** What the server answered to `updateList`: the stage's name as returned ("" if the
      response carries none), or an error. */
  datatype UpdateOutcome = Updated(returnedName: string) | UpdateFailed

  /** The alert of a failed rename. */
  const UpdateListFailed: string := "Failed to update list. Please try again."

  /** `s` without its element at `i`. */
  function RemoveAt<T>(s: seq<T>, i: nat): (r: seq<T>)
    requires i < |s|
    ensures |r| == |s| - 1
  {
    s[..i] + s[i + 1..]
  }

  /** `s` with `x` inserted so that it stands at index `i`. */
  function InsertAt<T>(s: seq<T>, i: nat, x: T): (r: seq<T>)
    requires i <= |s|
    ensures |r| == |s| + 1
  {
    s[..i] + [x] + s[i..]
  }

  /** `splice(source, 1)` followed by `splice(destination, 0, removed)` on a copy of `s`. */
  function Reorder<T>(s: seq<T>, source: nat, destination: nat): (r: seq<T>)
    requires source < |s| && destination < |s|
    ensures |r| == |s| && multiset(r) == multiset(s)
    ensures r[destination] == s[source]
    ensures RemoveAt(r, destination) == RemoveAt(s, source)
  {
    var rest := RemoveAt(s, source);
    var r := InsertAt(rest, destination, s[source]);
    assert r[..destination] + r[destination + 1..] == rest;
    calc {
      multiset(s);
      { assert s == s[..source] + [s[source]] + s[source + 1..]; }
      multiset(rest) + multiset{s[source]};
      { assert r == rest[..destination] + [s[source]] + rest[destination..];
        assert rest == rest[..destination] + rest[destination..]; }
      multiset(r);
    }
    r
  }

  /** A sequence is fixed by its element at `i` together with what is left without it. */
  lemma RemoveAtDetermines<T>(a: seq<T>, b: seq<T>, i: nat)
    requires i < |a| && i < |b| && a[i] == b[i] && RemoveAt(a, i) == RemoveAt(b, i)
    ensures a == b
  {
    assert a == a[..i] + [a[i]] + a[i + 1..];
    assert b == b[..i] + [b[i]] + b[i + 1..];
    assert a[..i] == RemoveAt(a, i)[..i] == b[..i];
    assert a[i + 1..] == RemoveAt(a, i)[i..] == b[i + 1..];
  }

  /** The two facts of Reorder's contract characterise it: any sequence that carries the moved
      element at the destination and the others in their old relative order is the reorder. */
  lemma ReorderUnique<T>(s: seq<T>, source: nat, destination: nat, r: seq<T>)
    requires source < |s| && destination < |s| && |r| == |s|
    requires r[destination] == s[source] && RemoveAt(r, destination) == RemoveAt(s, source)
    ensures r == Reorder(s, source, destination)
  {
    RemoveAtDetermines(r, Reorder(s, source, destination), destination);
  }

  /** Dropping a list where it was picked up gives the identical sequence. */
  lemma ReorderSameIndex<T>(s: seq<T>, i: nat)
    requires i < |s|
    ensures Reorder(s, i, i) == s
  {
    ReorderUnique(s, i, i, s);
  }

  /** Dragging back from the destination to the source undoes a reorder. */
  lemma ReorderInverse<T>(s: seq<T>, source: nat, destination: nat)
    requires source < |s| && destination < |s|
    ensures Reorder(Reorder(s, source, destination), destination, source) == s
  {
    var r := Reorder(s, source, destination);
    ReorderUnique(r, destination, source, s);
  }

  /** The reorder element by element, for a drag towards the end: the lists before the source
      and after the destination stay put, those in between move one place up. */
  lemma ReorderForward<T>(s: seq<T>, source: nat, destination: nat)
    requires source <= destination < |s|
    ensures var r := Reorder(s, source, destination);
      && (forall k :: 0 <= k < source || destination < k < |s| ==> r[k] == s[k])
      && (forall k :: source <= k < destination ==> r[k] == s[k + 1])
  {
    var r := Reorder(s, source, destination);
    var rest := RemoveAt(s, source);
    forall k | source <= k < destination
      ensures r[k] == s[k + 1]
    {
      assert r[k] == RemoveAt(r, destination)[k] == rest[k];
    }
    forall k | 0 <= k < source || destination < k < |s|
      ensures r[k] == s[k]
    {
      if k < source {
        assert r[k] == RemoveAt(r, destination)[k] == rest[k];
      } else {
        assert r[k] == RemoveAt(r, destination)[k - 1] == rest[k - 1];
      }
    }
  }

  /** The reorder element by element, for a drag towards the front. */
  lemma ReorderBackward<T>(s: seq<T>, source: nat, destination: nat)
    requires destination <= source < |s|
    ensures var r := Reorder(s, source, destination);
      && (forall k :: 0 <= k < destination || source < k < |s| ==> r[k] == s[k])
      && (forall k :: destination < k <= source ==> r[k] == s[k - 1])
  {
    var r := Reorder(s, source, destination);
    var rest := RemoveAt(s, source);
    forall k | destination < k <= source
      ensures r[k] == s[k - 1]
    {
      assert r[k] == RemoveAt(r, destination)[k - 1] == rest[k - 1];
    }
    forall k | 0 <= k < destination || source < k < |s|
      ensures r[k] == s[k]
    {
      if k < destination {
        assert r[k] == RemoveAt(r, destination)[k] == rest[k];
      } else {
        assert r[k] == RemoveAt(r, destination)[k - 1] == rest[k - 1];
      }
    }
  }

  /** `stageOrders`: one entry per list, in the given order, positioned by index. */
  function StageOrders(lists: seq<Stage>): (r: seq<StageOrder>)
    ensures |r| == |lists|
    ensures forall i :: 0 <= i < |r| ==> r[i].stageId == IdOf(lists[i].key) && r[i].position == i
  {
    seq(|lists|, i requires 0 <= i < |lists| => StageOrder(IdOf(lists[i].key), i))
  }

  /** The positions a payload assigns. */
  function Positions(orders: seq<StageOrder>): set<int> {
    set i | 0 <= i < |orders| :: orders[i].position as int
  }

  /** The payload's positions are exactly 0..n-1, each used once. */
  lemma StageOrderPositions(lists: seq<Stage>)
    ensures forall p :: p in Positions(StageOrders(lists)) <==> 0 <= p < |lists|
    ensures forall i, j :: 0 <= i < j < |lists| ==>
      StageOrders(lists)[i].position != StageOrders(lists)[j].position
  {
    var r := StageOrders(lists);
    forall p | 0 <= p < |lists|
      ensures p in Positions(r)
    {
      assert r[p].position == p;
    }
  }

  /** The example of a three-list board: moving the first list to the end gives [B, C, A]
      with payload positions 0, 1, 2. */
  lemma MoveFirstToEnd(a: Stage, b: Stage, c: Stage)
    ensures Reorder([a, b, c], 0, 2) == [b, c, a]
    ensures StageOrders(Reorder([a, b, c], 0, 2)) ==
      [StageOrder(IdOf(b.key), 0), StageOrder(IdOf(c.key), 1), StageOrder(IdOf(a.key), 2)]
  {
    var r := [b, c, a];
    assert RemoveAt(r, 2) == [b, c];
    assert RemoveAt([a, b, c], 0) == [b, c];
    ReorderUnique([a, b, c], 0, 2, r);
    ThreeOrders(b, c, a);
  }

  /** The payload of three lists. */
  lemma ThreeOrders(x: Stage, y: Stage, z: Stage)
    ensures StageOrders([x, y, z]) ==
      [StageOrder(IdOf(x.key), 0), StageOrder(IdOf(y.key), 1), StageOrder(IdOf(z.key), 2)]
  {
    var orders := StageOrders([x, y, z]);
    assert orders[0] == StageOrder(IdOf(x.key), 0);
    assert orders[1] == StageOrder(IdOf(y.key), 1);
    assert orders[2] == StageOrder(IdOf(z.key), 2);
  }

  function IdDiffers(listId: string): Stage -> bool {
    (l: Stage) => IdOf(l.key) != listId
  }

  /** `lists.filter(list => (list._id || list.id) !== listId)`. */
  function Deleted(lists: seq<Stage>, listId: string): (r: seq<Stage>)
    ensures forall i :: 0 <= i < |r| ==> r[i] in lists && IdOf(r[i].key) != listId
    ensures forall i :: 0 <= i < |lists| && IdOf(lists[i].key) != listId ==> lists[i] in r
  {
    Filter(lists, IdDiffers(listId))
  }

  /** Deleting keeps the survivors in their order: it works piecewise on any split. */
  lemma DeletedKeepsOrder(a: seq<Stage>, b: seq<Stage>, listId: string)
    ensures Deleted(a + b, listId) == Deleted(a, listId) + Deleted(b, listId)
  {
    FilterAppend(a, b, IdDiffers(listId));
  }

  /** Deleting an id that no list carries changes nothing. */
  lemma DeletedAbsent(lists: seq<Stage>, listId: string)
    requires forall i :: 0 <= i < |lists| ==> IdOf(lists[i].key) != listId
    ensures Deleted(lists, listId) == lists
  {
    FilterKeepsAll(lists, IdDiffers(listId));
  }

  /** The rename map: the list with the id gets the new name, nothing else changes. */
  function Renamed(lists: seq<Stage>, listId: string, newName: string): (r: seq<Stage>)
    ensures |r| == |lists|
    ensures forall i :: 0 <= i < |r| ==>
      r[i].key == lists[i].key && r[i].position == lists[i].position
    ensures forall i :: 0 <= i < |r| ==>
      r[i].name == (if IdOf(lists[i].key) == listId then newName else lists[i].name)
  {
    seq(|lists|, i requires 0 <= i < |lists| =>
      if IdOf(lists[i].key) == listId then lists[i].(name := newName) else lists[i])
  }

  /** The page state of a board: its lists and the inline rename editor. */
  class BoardPage {
    var lists: seq<Stage>
    var newListTitle: string
    var editingListId: Option<string>
    var editingListName: string

    /** The page after `fetchBoardData` delivered the board's lists. */
    constructor (fetched: seq<Stage>)
      ensures lists == fetched && newListTitle == ""
      ensures editingListId == None && editingListName == ""
    {
      lists := fetched;
      newListTitle := "";
      editingListId := None;
      editingListName := "";
    }

    /** Typing in the add-list box. */
    method TypeNewListTitle(text: string)
      modifies this
      ensures newListTitle == text
      ensures lists == old(lists) && editingListId == old(editingListId)
      ensures editingListName == old(editingListName)
    {
      newListTitle := text;
    }

    /** `handleCreateList`: a blank title sends nothing; otherwise the list is requested at
        position `lists.length` and, once created, appended at the end. */
    method CreateList(outcome: CreateOutcome) returns (request: Option<CreateListRequest>)
      modifies this
      ensures IsBlank(old(newListTitle)) ==> request == None
      ensures !IsBlank(old(newListTitle)) ==>
        request == Some(CreateListRequest(old(newListTitle), |old(lists)|))
      ensures lists == (if request.Some? && outcome.Created? then old(lists) + [outcome.stage]
                        else old(lists))
      ensures newListTitle == (if request.Some? && outcome.Created? then "" else old(newListTitle))
      ensures editingListId == old(editingListId) && editingListName == old(editingListName)
    {
      if IsBlank(newListTitle) {
        return None;
      }
      request := Some(CreateListRequest(newListTitle, |lists|));
      if outcome.Created? {
        lists := lists + [outcome.stage];
        newListTitle := "";
      }
    }

    /** `handleDragEnd`: a drop without destination does nothing. Otherwise the reordered
        lists are shown at once and their positions are sent; when the server call fails the
        lists captured at the gesture are put back. */
    method DragEnd(drop: Option<Drop>, reorderSucceeds: bool)
      returns (request: Option<seq<StageOrder>>, ghost optimistic: seq<Stage>)
      requires drop.Some? ==> drop.value.source < |lists| && drop.value.destination < |lists|
      modifies this
      ensures drop.None? ==> request == None && lists == old(lists)
      ensures drop.Some? ==>
        && optimistic == Reorder(old(lists), drop.value.source, drop.value.destination)
        && request == Some(StageOrders(optimistic))
        && lists == (if reorderSucceeds then optimistic else old(lists))
      ensures newListTitle == old(newListTitle)
      ensures editingListId == old(editingListId) && editingListName == old(editingListName)
    {
      optimistic := lists;
      if drop.None? {
        return None, optimistic;
      }
      var snapshot := lists;
      var reordered := Reorder(lists, drop.value.source, drop.value.destination);
      lists := reordered;
      optimistic := reordered;
      request := Some(StageOrders(reordered));
      if !reorderSucceeds {
        lists := snapshot;
      }
    }

    /** `handleDeleteList`: nothing without the user's confirmation; after a successful
        delete exactly the lists with that id are gone. */
    method DeleteList(listId: string, confirmed: bool, deleteSucceeds: bool)
      returns (requested: bool)
      modifies this
      ensures requested == confirmed
      ensures lists == (if confirmed && deleteSucceeds then Deleted(old(lists), listId)
                        else old(lists))
      ensures newListTitle == old(newListTitle)
      ensures editingListId == old(editingListId) && editingListName == old(editingListName)
    {
      requested := confirmed;
      if confirmed && deleteSucceeds {
        lists := Deleted(lists, listId);
      }
    }

    /** `handleEditList`: opens the inline editor on a list with its current name. */
    method EditList(list: Stage)
      modifies this
      ensures editingListId == Some(IdOf(list.key)) && editingListName == list.name
      ensures lists == old(lists) && newListTitle == old(newListTitle)
    {
      editingListId := Some(IdOf(list.key));
      editingListName := list.name;
    }

    /** Typing in the inline editor. */
    method TypeListName(text: string)
      modifies this
      ensures editingListName == text
      ensures lists == old(lists) && newListTitle == old(newListTitle)
      ensures editingListId == old(editingListId)
    {
      editingListName := text;
    }

    /** `handleCancelEdit`. */
    method CancelEdit()
      modifies this
      ensures editingListId == None && editingListName == ""
      ensures lists == old(lists) && newListTitle == old(newListTitle)
    {
      editingListId := None;
      editingListName := "";
    }

    /** `handleUpdateList`: ignored unless this list is being edited; a blank name cancels
        the edit; otherwise the typed name is sent and the list takes the returned name (or
        the typed one). A failed update alerts and cancels the edit. */
    method UpdateList(listId: string, outcome: UpdateOutcome)
      returns (request: Option<UpdateListRequest>, alert: Option<string>)
      modifies this
      ensures alert == Some(UpdateListFailed) <==>
        old(editingListId) == Some(listId) && !IsBlank(old(editingListName)) && outcome.UpdateFailed?
      ensures alert == None || alert == Some(UpdateListFailed)
      ensures old(editingListId) != Some(listId) ==>
        request == None && lists == old(lists)
        && editingListId == old(editingListId) && editingListName == old(editingListName)
      ensures old(editingListId) == Some(listId) ==>
        && editingListId == None && editingListName == ""
        && (IsBlank(old(editingListName)) ==> request == None && lists == old(lists))
        && (!IsBlank(old(editingListName)) ==>
              request == Some(UpdateListRequest(listId, old(editingListName))))
        && (!IsBlank(old(editingListName)) && outcome.Updated? ==>
              lists == Renamed(old(lists), listId, Or(outcome.returnedName, old(editingListName))))
        && (outcome.UpdateFailed? ==> lists == old(lists))
      ensures newListTitle == old(newListTitle)
    {
      alert := None;
      if editingListId != Some(listId) {
        return None, None;
      }
      if IsBlank(editingListName) {
        CancelEdit();
        return None, None;
      }
      request := Some(UpdateListRequest(listId, editingListName));
      if outcome.Updated? {
        var newName := Or(outcome.returnedName, editingListName);
        lists := Renamed(lists, listId, newName);
        editingListId := None;
        editingListName := "";
      } else {
        alert := Some(UpdateListFailed);
        CancelEdit();
      }
    }
  }
}
