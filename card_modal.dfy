/** The card editor dialog (src/components/CardModal.jsx): the label and member pickers, the
    due-date badge, the comment thread, and the alert text shown when a request fails. */
module CardModal {
  import opened Common
  import Palette

  // ---------------------------------------------------------------- due-date badge

  datatype DueState = Overdue | DueToday | DueTomorrow | Soon | Future

  /** The object `getDueDateStatus` returns. */
  datatype DueBadge = DueBadge(status: DueState, text: string, color: string)

  /** `day${n !== 1 ? 's' : ''}`. */
  function DaySuffix(n: nat): (r: string)
    ensures r == "day" <==> n == 1
    ensures r == "day" || r == "days"
  {
    if n != 1 then "days" else "day"
  }

  /** `getDueDateStatus` on `dayOffset`, the whole-day difference between the due day and
      today (None when no due date is set). */
  function DueDateStatus(dayOffset: Option<int>): (r: Option<DueBadge>)
    ensures dayOffset == None <==> r == None
    ensures r != None ==> var d := dayOffset.value; var b := r.value;
      && (b.status == Overdue <==> d < 0)
      && (b.status == DueToday <==> d == 0)
      && (b.status == DueTomorrow <==> d == 1)
      && (b.status == Soon <==> 2 <= d <= 7)
      && (b.status == Future <==> 7 < d)
    ensures r != None && dayOffset.value < 0 ==>
      r.value.text == "Overdue by " + NatToString(-dayOffset.value) + " " + DaySuffix(-dayOffset.value)
    ensures r != None && dayOffset.value >= 2 ==>
      r.value.text == NatToString(dayOffset.value) + " days left"
    ensures r != None && dayOffset.value == 0 ==> r.value.text == "Due today"
    ensures r != None && dayOffset.value == 1 ==> r.value.text == "Due tomorrow"
  {
    match dayOffset
    case None => None
    case Some(d) =>
      if d < 0 then
        Some(DueBadge(Overdue, "Overdue by " + NatToString(-d) + " " + DaySuffix(-d), "#eb5a46"))
      else if d == 0 then Some(DueBadge(DueToday, "Due today", "#ff9f1a"))
      else if d == 1 then Some(DueBadge(DueTomorrow, "Due tomorrow", "#f2d600"))
      else if d <= 7 then Some(DueBadge(Soon, NatToString(d) + " days left", "#61bd4f"))
      else Some(DueBadge(Future, NatToString(d) + " days left", "#b3bac5"))
  }

  /** The badge colours are the label colours: overdue is 'High', due today 'Feature', due
      tomorrow 'Bug', soon 'Normal', and later dates the grey of an unknown label. */
  lemma DueColorsAreLabelColors(d: int)
    ensures var b := DueDateStatus(Some(d)).value;
      b.color == (match b.status
        case Overdue => Palette.PriorityColor("High")
        case DueToday => Palette.PriorityColor("Feature")
        case DueTomorrow => Palette.PriorityColor("Bug")
        case Soon => Palette.PriorityColor("Normal")
        case Future => Palette.DefaultLabelColor)
  {
  }

  /** The badge text names the day count: the text (after "Overdue by " for a past date)
      starts with the decimal rendering of the count of days, ended by a space, so the
      number in front of the first space reads back as that count (`NatToStringValue`). */
  lemma DueTextShowsDays(d: int)
    requires d != 0 && d != 1
    ensures var t := DueDateStatus(Some(d)).value.text;
      var digits := if d < 0 then t[|"Overdue by "|..] else t;
      BeforeFirst(digits, ' ') == NatToString(if d < 0 then -d else d)
  {
    var n: nat := if d < 0 then -d else d;
    var t := DueDateStatus(Some(d)).value.text;
    if d < 0 {
      assert t == "Overdue by " + (NatToString(n) + [' '] + DaySuffix(n));
      DigitsBeforeSpace(n, DaySuffix(n));
    } else {
      assert t == NatToString(n) + [' '] + "days left";
      DigitsBeforeSpace(n, "days left");
    }
  }

  /** A decimal number followed by a space reads, up to the first space, as that number. */
  lemma DigitsBeforeSpace(n: nat, tail: string)
    ensures BeforeFirst(NatToString(n) + [' '] + tail, ' ') == NatToString(n)
  {
    assert ' ' !in NatToString(n) by {
      forall i | 0 <= i < |NatToString(n)| ensures NatToString(n)[i] != ' ' {
        assert IsDigit(NatToString(n)[i]);
      }
    }
    BeforeFirstOf(NatToString(n), tail, ' ');
  }

  // ---------------------------------------------------------------- error text

  /** One entry of the server's validation `errors` array; None where the entry leaves a
      key out. */
  datatype FieldError = FieldError(field: Option<string>, message: Option<string>)

  /** `error.response.data`: its `message` ("" when missing) and its `errors`, None when that
      is missing or not an array. */
  datatype ResponseData = ResponseData(message: string, errors: Option<seq<FieldError>>)

  /** A failed request: the response data when the server answered, and `error.message`. */
  datatype RequestError = RequestError(response: Option<ResponseData>, message: string)

  /** `${err.field}: ${err.message}`: the field's name, a colon and a space, and the message,
      where a key the entry leaves out prints as "undefined". */
  function FieldLine(e: FieldError): (r: string)
    ensures IsPrefix(Interpolated(e.field) + ": ", r)
    ensures r[|Interpolated(e.field)| + 2..] == Interpolated(e.message)
    ensures e.field.None? ==> IsPrefix("undefined: ", r)
  {
    Interpolated(e.field) + ": " + Interpolated(e.message)
  }

  /** `errors.map(err => `${err.field}: ${err.message}`)`. */
  function FieldLines(errors: seq<FieldError>): (r: seq<string>)
    ensures |r| == |errors| && forall i :: 0 <= i < |r| ==> r[i] == FieldLine(errors[i])
  {
    seq(|errors|, i requires 0 <= i < |errors| => FieldLine(errors[i]))
  }

  /** The response carries a non-empty validation list. */
  predicate HasFieldErrors(e: RequestError) {
    e.response.Some? && e.response.value.errors.Some? && |e.response.value.errors.value| > 0
  }

  /** The formatter every failing handler of the dialog repeats, with its own `fallback`. */
  function ErrorText(e: RequestError, fallback: string): (r: string)
    ensures HasFieldErrors(e) ==>
      r == Or(e.response.value.message, "Validation failed") + "\n\n"
           + JoinWith(FieldLines(e.response.value.errors.value), '\n')
    ensures e.response.Some? && !HasFieldErrors(e) ==>
      r == Or(e.response.value.message, Or(e.message, fallback))
    ensures e.response.None? ==> r == Or(e.message, fallback)
    ensures fallback != "" ==> r != ""
  {
    match e.response
    case Some(data) =>
      if HasFieldErrors(e) then
        var lines := FieldLines(data.errors.value);
        Or(data.message, "Validation failed") + "\n\n" + JoinWith(lines, '\n')
      else Or(data.message, Or(e.message, fallback))
    case None => if e.message != "" then e.message else fallback
  }

  /** The validation text is readable line by line: when no message contains a line break,
      splitting it at line breaks gives the headline, an empty line, then one line per field
      error in the server's order. */
  lemma ValidationTextLines(e: RequestError, fallback: string)
    requires HasFieldErrors(e)
    requires '\n' !in e.response.value.message
    requires forall i :: 0 <= i < |e.response.value.errors.value| ==>
      '\n' !in FieldLine(e.response.value.errors.value[i])
    ensures Split(ErrorText(e, fallback), '\n') ==
      [Or(e.response.value.message, "Validation failed"), ""]
      + FieldLines(e.response.value.errors.value)
  {
    var head := Or(e.response.value.message, "Validation failed");
    var lines := FieldLines(e.response.value.errors.value);
    HeadlineJoin(head, lines);
    var parts := [head, ""] + lines;
    forall i | 0 <= i < |parts| ensures '\n' !in parts[i] {
      if i >= 2 {
        assert parts[i] == lines[i - 2];
      }
    }
    JoinSplit(parts, '\n');
  }

  /** A headline, an empty line and the field lines, joined at line breaks. */
  lemma {:induction false} HeadlineJoin(head: string, lines: seq<string>)
    requires |lines| > 0
    ensures JoinWith([head, ""] + lines, '\n') == head + "\n\n" + JoinWith(lines, '\n')
  {
    var j := JoinWith(lines, '\n');
    var tail := [""] + lines;
    JoinCons("", lines, '\n');
    assert JoinWith(tail, '\n') == "\n" + j;
    JoinCons(head, tail, '\n');
    assert [head] + tail == [head, ""] + lines;
    assert head + "\n" + ("\n" + j) == head + "\n\n" + j;
  }

  /** What `alert` shows for a failed request. */
  function AlertText(e: RequestError, fallback: string): (r: string)
    ensures IsPrefix("Error: ", r) && r[|"Error: "|..] == ErrorText(e, fallback)
  {
    "Error: " + ErrorText(e, fallback)
  }

  const SaveCardFallback: string := "Failed to save card. Please try again."
  const SaveDescriptionFallback: string := "Failed to save description. Please try again."
  const AddCommentFallback: string := "Failed to add comment. Please try again."
  const UpdateCommentFallback: string := "Failed to update comment. Please try again."
  const DeleteCommentFallback: string := "Failed to delete comment. Please try again."
  const SaveCardFirstForComments: string := "Please save the card first before adding comments."

  // ---------------------------------------------------------------- label picker

  /** The test of `filteredLabels`: the lower-cased name contains the lower-cased query. An
      empty query passes every option, and no name shorter than the query passes. */
  function NameMatches(query: string): (r: Palette.LabelOption -> bool)
    ensures forall o :: query == "" ==> r(o)
    ensures forall o :: r(o) ==> |query| <= |o.name|
  {
    (o: Palette.LabelOption) => Contains(ToLower(o.name), ToLower(query))
  }

  /** `filteredLabels`: the label options whose name contains the query, ignoring case, in
      the picker's order. */
  function FilteredLabels(query: string): (r: seq<Palette.LabelOption>)
    ensures forall i :: 0 <= i < |r| ==>
      r[i] in Palette.LabelOptions && Contains(ToLower(r[i].name), ToLower(query))
    ensures forall i ::
      (0 <= i < |Palette.LabelOptions| &&
       Contains(ToLower(Palette.LabelOptions[i].name), ToLower(query))) ==>
      Palette.LabelOptions[i] in r
  {
    Filter(Palette.LabelOptions, NameMatches(query))
  }

  /** With an empty search box the picker lists all six labels. */
  lemma EmptyQueryKeepsAll()
    ensures FilteredLabels("") == Palette.LabelOptions
  {
    forall x | x in Palette.LabelOptions ensures NameMatches("")(x) {
      assert IsPrefix("", ToLower(x.name));
    }
    FilterKeepsAll(Palette.LabelOptions, NameMatches(""));
  }

  /** The search ignores case: a query and its lower-cased form list the same labels. */
  lemma QueryCaseInsensitive(query: string)
    ensures FilteredLabels(query) == FilteredLabels(ToLower(query))
  {
    ToLowerIdempotent(query);
    FilterCongruent(Palette.LabelOptions, NameMatches(query), NameMatches(ToLower(query)));
  }

  // ---------------------------------------------------------------- members

  /** A workspace member as the member picker sees it: `m.user.id` and the display data. */
  datatype WorkspaceMember = WorkspaceMember(userId: string, name: string, email: string)

  function IsAssignedTo(assignedTo: seq<string>): WorkspaceMember -> bool {
    (m: WorkspaceMember) => m.userId in assignedTo
  }

  /** `getAssignedMembers`: the workspace members whose user id is assigned, in workspace
      order. */
  function AssignedMembers(members: seq<WorkspaceMember>, assignedTo: seq<string>): (r: seq<WorkspaceMember>)
    ensures forall i :: 0 <= i < |r| ==> r[i] in members && r[i].userId in assignedTo
    ensures forall i :: 0 <= i < |members| && members[i].userId in assignedTo ==> members[i] in r
  {
    Filter(members, IsAssignedTo(assignedTo))
  }

  /** Assigning an unassigned member through the picker's toggle adds that member to the
      assigned list without dropping anyone. */
  lemma ToggleOnShowsMember(members: seq<WorkspaceMember>, assignedTo: seq<string>, m: WorkspaceMember)
    requires m in members && m.userId !in assignedTo
    ensures m in AssignedMembers(members, Toggle(assignedTo, m.userId))
    ensures forall x :: x in AssignedMembers(members, assignedTo) ==>
      x in AssignedMembers(members, Toggle(assignedTo, m.userId))
  {
    var after := Toggle(assignedTo, m.userId);
    assert m.userId in after;
    forall x | x in AssignedMembers(members, assignedTo)
      ensures x in AssignedMembers(members, after)
    {
      var i :| 0 <= i < |members| && members[i] == x;
      assert x.userId in after;
    }
  }

  /** Unassigning through the toggle removes every member with that user id. */
  lemma ToggleOffHidesMember(members: seq<WorkspaceMember>, assignedTo: seq<string>, userId: string)
    requires userId in assignedTo
    ensures forall i :: 0 <= i < |AssignedMembers(members, Toggle(assignedTo, userId))| ==>
      AssignedMembers(members, Toggle(assignedTo, userId))[i].userId != userId
  {
  }

  // ---------------------------------------------------------------- comments

  /** A comment of the thread; `key` carries `_id` / `id`. */
  datatype Comment = Comment(key: EntityKey, content: string)

  /** `comments.map(c => (c._id || c.id) === commentId ? updatedComment : c)`. */
  function CommentsReplaced(comments: seq<Comment>, commentId: string, updated: Comment): (r: seq<Comment>)
    ensures |r| == |comments|
    ensures forall i :: 0 <= i < |r| ==>
      r[i] == (if IdOf(comments[i].key) == commentId then updated else comments[i])
  {
    seq(|comments|, i requires 0 <= i < |comments| =>
      if IdOf(comments[i].key) == commentId then updated else comments[i])
  }

  /** Replacing with a comment that keeps its id is idempotent. */
  lemma ReplaceTwice(comments: seq<Comment>, commentId: string, updated: Comment)
    requires IdOf(updated.key) == commentId
    ensures CommentsReplaced(CommentsReplaced(comments, commentId, updated), commentId, updated)
      == CommentsReplaced(comments, commentId, updated)
  {
  }

  function CommentIdDiffers(commentId: string): Comment -> bool {
    (c: Comment) => IdOf(c.key) != commentId
  }

  /** `comments.filter(c => (c._id || c.id) !== commentId)`. */
  function CommentsDeleted(comments: seq<Comment>, commentId: string): (r: seq<Comment>)
    ensures forall i :: 0 <= i < |r| ==> r[i] in comments && IdOf(r[i].key) != commentId
    ensures forall i :: 0 <= i < |comments| && IdOf(comments[i].key) != commentId ==>
      comments[i] in r
  {
    Filter(comments, CommentIdDiffers(commentId))
  }

  /** Deleting a comment just added, whose id the thread did not hold, restores the thread. */
  lemma DeleteUndoesAdd(comments: seq<Comment>, added: Comment)
    requires forall i :: 0 <= i < |comments| ==> IdOf(comments[i].key) != IdOf(added.key)
    ensures CommentsDeleted(comments + [added], IdOf(added.key)) == comments
  {
    var p := CommentIdDiffers(IdOf(added.key));
    FilterAppend(comments, [added], p);
    FilterKeepsAll(comments, p);
    assert Filter([added], p) == [];
  }

  // ---------------------------------------------------------------- the dialog

  /** A server answer: a value, or the failed request. */
  datatype Reply<T> = Ok(value: T) | Err(error: RequestError)

  /** The body of a card save. `dueDate` is None for an empty date field. */
  datatype CardData = CardData(
    title: string,
    description: string,
    labels: seq<string>,
    dueDate: Option<string>,
    assignedTo: seq<string>)

  /** `updateCard(id, data)` for a saved card, `createCard({...data, stageId})` for a new one. */
  datatype CardRequest = UpdateCard(cardId: string, data: CardData) | CreateCard(stageId: string, data: CardData)

  /** The dialog's editable state; `cardId` is `card._id || card.id`, "" for a new card. */
  class CardEditor {
    const cardId: string
    const stageId: string
    var title: string
    var description: string
    var labels: seq<string>
    var dueDate: string
    var assignedTo: seq<string>
    var comments: seq<Comment>
    var newComment: string
    var editingCommentId: Option<string>
    var editingCommentContent: string

    /** The dialog opened on a card, with the thread `fetchComments` delivered. The card's
        text fields are "" and its assignees [] where missing; `labels` is None where the
        card has none, and then the card's `priority` (if any) becomes its one label.
        `dueDateIso` is what `new Date(card.dueDate).toISOString()` gives for a card with a
        due date; the date field keeps the part before the 'T', the calendar day. The thread
        is fetched only for a card with an id, so an unsaved card starts with none. */
    constructor (cardId: string, stageId: string, title: string, description: string,
                 labels: Option<seq<string>>, priority: string,
                 dueDate: string, dueDateIso: string, assignedTo: seq<string>,
                 fetched: seq<Comment>)
      ensures this.cardId == cardId && this.stageId == stageId
      ensures this.title == title && this.description == description
      ensures labels.Some? ==> this.labels == labels.value
      ensures labels.None? && priority != "" ==> this.labels == [priority]
      ensures labels.None? && priority == "" ==> this.labels == []
      ensures dueDate == "" ==> this.dueDate == ""
      ensures dueDate != "" ==> this.dueDate == BeforeFirst(dueDateIso, 'T')
      ensures 'T' !in this.dueDate
      ensures this.assignedTo == assignedTo
      ensures cardId != "" ==> comments == fetched
      ensures cardId == "" ==> comments == []
      ensures newComment == ""
      ensures editingCommentId == None && editingCommentContent == ""
    {
      this.cardId := cardId;
      this.stageId := stageId;
      this.title := title;
      this.description := description;
      this.labels := match labels
        case Some(given) => given
        case None => if priority != "" then [priority] else [];
      this.dueDate := if dueDate != "" then BeforeFirst(dueDateIso, 'T') else "";
      this.assignedTo := assignedTo;
      comments := if cardId != "" then fetched else [];
      newComment := "";
      editingCommentId := None;
      editingCommentContent := "";
    }

    /** `toggleLabel`: only the label list changes, by the toggle rule. */
    method ToggleLabel(tag: string)
      modifies this
      ensures labels == Toggle(old(labels), tag)
      ensures assignedTo == old(assignedTo) && comments == old(comments)
      ensures title == old(title) && description == old(description) && dueDate == old(dueDate)
      ensures newComment == old(newComment) && editingCommentId == old(editingCommentId)
      ensures editingCommentContent == old(editingCommentContent)
    {
      labels := Toggle(labels, tag);
    }

    /** `toggleMember`: only the assignee list changes, by the toggle rule. */
    method ToggleMember(memberId: string)
      modifies this
      ensures assignedTo == Toggle(old(assignedTo), memberId)
      ensures labels == old(labels) && comments == old(comments)
      ensures title == old(title) && description == old(description) && dueDate == old(dueDate)
      ensures newComment == old(newComment) && editingCommentId == old(editingCommentId)
      ensures editingCommentContent == old(editingCommentContent)
    {
      assignedTo := Toggle(assignedTo, memberId);
    }

    /** The request `handleSave` sends for the current fields. `dueIso` is what
        `new Date(dueDate).toISOString()` gives for the date field; an empty field sends null. */
    function SaveRequest(dueIso: string): (r: CardRequest)
      reads this
      ensures r.data == CardData(title, description, labels,
                                 if dueDate == "" then None else Some(dueIso), assignedTo)
      ensures r.UpdateCard? <==> cardId != ""
      ensures r.UpdateCard? ==> r.cardId == cardId
      ensures r.CreateCard? ==> r.stageId == stageId
    {
      var data := CardData(title, description, labels,
                           if dueDate == "" then None else Some(dueIso), assignedTo);
      if cardId != "" then UpdateCard(cardId, data) else CreateCard(stageId, data)
    }

    /** `handleSave`: a title that is blank after trimming is refused with an alert and no
        request; otherwise the fields are sent, and the dialog closes on success or alerts the
        formatted error. The dialog's fields do not change. `dueIso` is as for
        `SaveRequest`. */
    method Save(outcome: Reply<()>, dueIso: string) returns (request: Option<CardRequest>, alert: Option<string>, closes: bool)
      ensures IsBlank(title) ==>
        request == None && alert == Some("Please enter a card title.") && !closes
      ensures !IsBlank(title) ==> request == Some(SaveRequest(dueIso))
      ensures !IsBlank(title) && outcome.Ok? ==> alert == None && closes
      ensures !IsBlank(title) && outcome.Err? ==>
        alert == Some(AlertText(outcome.error, SaveCardFallback)) && !closes
    {
      if IsBlank(title) {
        return None, Some("Please enter a card title."), false;
      }
      request := Some(SaveRequest(dueIso));
      match outcome
      case Ok(_) =>
        alert, closes := None, true;
      case Err(e) =>
        alert, closes := Some(AlertText(e, SaveCardFallback)), false;
    }

    /** `handleSaveDescription`: an unsaved card gets an alert; otherwise the card id and the
        description alone are sent, and a failure alerts the formatted error. */
    method SaveDescription(outcome: Reply<()>) returns (request: Option<(string, string)>, alert: Option<string>)
      ensures cardId == "" ==> (request == None &&
        alert == Some("Please save the card first before updating the description."))
      ensures cardId != "" ==> request == Some((cardId, description))
      ensures cardId != "" && outcome.Ok? ==> alert == None
      ensures cardId != "" && outcome.Err? ==>
        alert == Some(AlertText(outcome.error, SaveDescriptionFallback))
    {
      if cardId == "" {
        return None, Some("Please save the card first before updating the description.");
      }
      request := Some((cardId, description));
      alert := if outcome.Err? then Some(AlertText(outcome.error, SaveDescriptionFallback)) else None;
    }

    /** `handleDelete`: after confirmation the card id is sent; a failure alerts a fixed text,
        a success closes the dialog. */
    method DeleteCard(confirmed: bool, outcome: Reply<()>) returns (request: Option<string>, alert: Option<string>, closes: bool)
      ensures !confirmed ==> request == None && alert == None && !closes
      ensures confirmed ==> request == Some(cardId)
      ensures confirmed && outcome.Ok? ==> alert == None && closes
      ensures confirmed && outcome.Err? ==>
        alert == Some("Failed to delete card. Please try again.") && !closes
    {
      if !confirmed {
        return None, None, false;
      }
      request := Some(cardId);
      if outcome.Ok? {
        alert, closes := None, true;
      } else {
        alert, closes := Some("Failed to delete card. Please try again."), false;
      }
    }

    /** Typing in the new-comment box. */
    method TypeComment(text: string)
      modifies this
      ensures newComment == text
      ensures comments == old(comments) && labels == old(labels) && assignedTo == old(assignedTo)
      ensures title == old(title) && description == old(description) && dueDate == old(dueDate)
      ensures editingCommentId == old(editingCommentId)
      ensures editingCommentContent == old(editingCommentContent)
    {
      newComment := text;
    }

    /** `handleAddComment`: blank input does nothing; an unsaved card gets an alert; otherwise
        the text is sent, and the created comment is appended at the end of the thread and the
        box cleared, or the formatted error is alerted and nothing changes. */
    method AddComment(outcome: Reply<Comment>) returns (request: Option<string>, alert: Option<string>)
      modifies this`comments, this`newComment
      ensures IsBlank(old(newComment)) ==> request == None && alert == None
      ensures !IsBlank(old(newComment)) && cardId == "" ==> (request == None &&
        alert == Some(SaveCardFirstForComments))
      ensures !IsBlank(old(newComment)) && cardId != "" ==> request == Some(old(newComment))
      ensures request.Some? && outcome.Ok? ==>
        comments == old(comments) + [outcome.value] && newComment == "" && alert == None
      ensures request.Some? && outcome.Err? ==>
        alert == Some(AlertText(outcome.error, AddCommentFallback))
      ensures !(request.Some? && outcome.Ok?) ==>
        comments == old(comments) && newComment == old(newComment)
      ensures labels == old(labels) && assignedTo == old(assignedTo)
      ensures title == old(title) && description == old(description) && dueDate == old(dueDate)
      ensures editingCommentId == old(editingCommentId)
      ensures editingCommentContent == old(editingCommentContent)
    {
      if IsBlank(newComment) {
        request, alert := None, None;
      } else if cardId == "" {
        request, alert := None, Some(SaveCardFirstForComments);
      } else {
        request := Some(newComment);
        if outcome.Ok? {
          comments := comments + [outcome.value];
          newComment := "";
          alert := None;
        } else {
          alert := Some(AlertText(outcome.error, AddCommentFallback));
        }
      }
    }

    /** `startEditingComment`. */
    method StartEditingComment(c: Comment)
      modifies this
      ensures editingCommentId == Some(IdOf(c.key)) && editingCommentContent == c.content
      ensures comments == old(comments) && newComment == old(newComment)
      ensures labels == old(labels) && assignedTo == old(assignedTo)
      ensures title == old(title) && description == old(description) && dueDate == old(dueDate)
    {
      editingCommentId := Some(IdOf(c.key));
      editingCommentContent := c.content;
    }

    /** Typing in the comment being edited. */
    method TypeEditedComment(text: string)
      modifies this
      ensures editingCommentContent == text
      ensures editingCommentId == old(editingCommentId)
      ensures comments == old(comments) && newComment == old(newComment)
      ensures labels == old(labels) && assignedTo == old(assignedTo)
      ensures title == old(title) && description == old(description) && dueDate == old(dueDate)
    {
      editingCommentContent := text;
    }

    /** `cancelEditingComment`. */
    method CancelEditingComment()
      modifies this
      ensures editingCommentId == None && editingCommentContent == ""
      ensures comments == old(comments) && newComment == old(newComment)
      ensures labels == old(labels) && assignedTo == old(assignedTo)
      ensures title == old(title) && description == old(description) && dueDate == old(dueDate)
    {
      editingCommentId := None;
      editingCommentContent := "";
    }

    /** `handleUpdateComment`: blank content does nothing; otherwise the new content is sent,
        and on success the comment with the id is replaced by the server's copy and the editor
        closes; a failure alerts the formatted error and keeps the editor open. */
    method UpdateComment(commentId: string, outcome: Reply<Comment>) returns (request: Option<(string, string)>, alert: Option<string>)
      modifies this`comments, this`editingCommentId, this`editingCommentContent
      ensures IsBlank(old(editingCommentContent)) ==> request == None && alert == None
      ensures !IsBlank(old(editingCommentContent)) ==>
        request == Some((commentId, old(editingCommentContent)))
      ensures request.Some? && outcome.Ok? ==>
        comments == CommentsReplaced(old(comments), commentId, outcome.value)
        && editingCommentId == None && editingCommentContent == "" && alert == None
      ensures request.Some? && outcome.Err? ==>
        alert == Some(AlertText(outcome.error, UpdateCommentFallback))
      ensures !(request.Some? && outcome.Ok?) ==>
        comments == old(comments) && editingCommentId == old(editingCommentId)
        && editingCommentContent == old(editingCommentContent)
      ensures newComment == old(newComment) && labels == old(labels) && assignedTo == old(assignedTo)
      ensures title == old(title) && description == old(description) && dueDate == old(dueDate)
    {
      if IsBlank(editingCommentContent) {
        return None, None;
      }
      request := Some((commentId, editingCommentContent));
      match outcome
      case Ok(c) =>
        var replaced := CommentsReplaced(comments, commentId, c);
        comments := replaced;
        editingCommentId := None;
        editingCommentContent := "";
        alert := None;
      case Err(e) =>
        alert := Some(AlertText(e, UpdateCommentFallback));
    }

    /** `handleDeleteComment`: after confirmation the id is sent; on success every comment with
        that id leaves the thread, on failure the formatted error is alerted. */
    method DeleteComment(commentId: string, confirmed: bool, outcome: Reply<()>) returns (request: Option<string>, alert: Option<string>)
      modifies this
      ensures !confirmed ==> request == None && alert == None
      ensures confirmed ==> request == Some(commentId)
      ensures confirmed && outcome.Ok? ==>
        comments == CommentsDeleted(old(comments), commentId) && alert == None
      ensures confirmed && outcome.Err? ==>
        alert == Some(AlertText(outcome.error, DeleteCommentFallback))
      ensures !(confirmed && outcome.Ok?) ==> comments == old(comments)
      ensures newComment == old(newComment) && labels == old(labels) && assignedTo == old(assignedTo)
      ensures editingCommentId == old(editingCommentId)
      ensures editingCommentContent == old(editingCommentContent)
      ensures title == old(title) && description == old(description) && dueDate == old(dueDate)
    {
      if !confirmed {
        return None, None;
      }
      request := Some(commentId);
      match outcome
      case Ok(_) =>
        comments := CommentsDeleted(comments, commentId);
        alert := None;
      case Err(e) =>
        alert := Some(AlertText(e, DeleteCommentFallback));
    }
  }
}
