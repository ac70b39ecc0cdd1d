# Task-board client: a verified model of its state logic

This project models the state logic of a React client for a Kanban task board (workspaces that
hold boards, boards that hold ordered lists, lists that hold cards). It covers the pieces of that
client that can be stated precisely:

- the ordered lists of a board: create, drag-reorder with rollback, delete and rename;
- the set-like toggles of the filter bar and the card editor;
- the card editor's due-date badge, validation-error text, label search, assignees and comment
  thread;
- the six-box verification-code buffer of the password-reset and e-mail-verification pages,
  with the resend countdown;
- the card tile's relative time and creator name, and the colour tables shared by several
  components;
- the workspace share dialog: initials, avatar colour, member ids, invite links and role
  changes;
- joining a workspace, from the dialog and from an invite link;
- the notification hook and its dialog;
- the dashboard's board previews;
- the create-board, edit-workspace and create-workspace forms;
- the three route guards.

Each source component is one module. Pure code (classifiers, formatters, filters) is written as
functions and lemmas. A component whose handlers update state is a class: its fields are the
component's `useState` values, and its methods are the handlers. Where a handler calls the
server, the answer is a parameter of the method. The method's `ensures` says what is sent and
what the new state is for each answer. The six code boxes are an `array<string>` written box by
box, and the paste handler is a loop over it. The dashboard's preview map is built by a loop
proved against a recursive definition.

Module `Common` holds JavaScript's string operations as the components use them: `trim` with
ECMAScript's whitespace set, `||` on strings, ASCII `toLowerCase`/`toUpperCase`, `includes`,
`split` on one character, and the decimal rendering of a number. It also holds the array
filter/toggle idiom. A string field that the code only tests for truthiness (`x || y`,
`if (x)`) is `""` when the response leaves it out, because `undefined` and `""` behave alike
there. A field that a template literal prints is an `Option`, and `None` prints as
"undefined" (`Common.Interpolated`). A JavaScript `null` is `None`.

## Model

| member | source | states |
|---|---|---|
| Common.IdOf | src/components/CardModal.jsx:41 | the `_id`-or-`id` fallback of the components: the `_id` when present, else the `id`, and empty only when both are missing |
| Common.Interpolated | src/components/CardModal.jsx:144 | `${x}` prints a present string as itself and a missing one as "undefined" |
| Common.TrimStart | src/components/CardModal.jsx:104 | the start of `trim`: a suffix of the text, beginning with no white space, everything dropped in front being white space |
| Common.TrimEnd | src/components/CardModal.jsx:104 | the end of `trim`: a prefix of the text, ending with no white space, everything dropped behind being white space |
| Common.Trim | src/components/CardModal.jsx:104 | `trim()`: a prefix of the text after its leading white space, with only white space dropped before and after it |
| Common.IsBlank | src/components/CardModal.jsx:104 | the texts made of white space only; `Common.BlankIffTrimmedEmpty` proves these are exactly the texts for which `!s.trim()` holds |
| Common.BlankIffTrimmedEmpty | src/components/CardModal.jsx:104 | `!s.trim()` holds exactly for the blank texts, those whose every character is ECMAScript white space |
| Common.TrimIdempotent | src/components/JoinWorkspaceModal.jsx:17 | a trimmed text has white space at neither end, and trimming it again changes nothing |
| Common.Or | src/components/CardModal.jsx:11 | JavaScript's "or" on strings: `a` when it is non-empty, else `b`, and empty only when both are |
| Common.ToLower | src/components/CardModal.jsx:448 | `toLowerCase` maps each character to its lower-case form and keeps the length |
| Common.ToUpper | src/components/WorkspaceMembersModal.jsx:101 | `toUpperCase` maps each character to its upper-case form and keeps the length |
| Common.ToLowerIdempotent | src/components/CardModal.jsx:448 | lower-casing twice is lower-casing once |
| Common.Contains | src/components/CardModal.jsx:448 | `includes`: a needle the text starts with is contained, and a needle longer than the text never is |
| Common.ContainsIffOccurs | src/components/CardModal.jsx:448 | `includes` holds exactly when the needle occurs at some offset of the text |
| Common.BeforeFirst | src/components/Card.jsx:24 | `split(sep)[0]` is a prefix without the separator, followed in the text by the separator when shorter |
| Common.BeforeFirstOf | src/components/Card.jsx:24 | text without the separator is read whole, also when a separator and more text follow it |
| Common.Split | src/components/WorkspaceMembersModal.jsx:99 | `split` gives at least one part, no part holds the separator, and the first part is `BeforeFirst` |
| Common.SplitJoin | src/components/WorkspaceMembersModal.jsx:99 | joining the parts with the separator gives the text back |
| Common.JoinSplit | src/components/WorkspaceMembersModal.jsx:99 | splitting parts joined with a separator they do not hold gives the parts back |
| Common.SplitPartsFromText | src/components/WorkspaceMembersModal.jsx:99 | every character of every part comes from the text |
| Common.NatToString | src/components/CardModal.jsx:397 | a template literal prints a number as one or more decimal digits, two or more from 10 on |
| Common.NatToStringValue | src/components/CardModal.jsx:397 | the printed digits denote the number printed |
| Common.Filter | src/pages/Board.jsx:121 | `filter` keeps exactly the elements that pass the test, and no more of them than there were |
| Common.FilterAppend | src/pages/Board.jsx:121 | filtering distributes over concatenation, so the kept elements stay in order |
| Common.FilterKeepsAll | src/pages/Board.jsx:121 | a filter that every element passes returns the sequence itself |
| Common.FilterIdempotent | src/pages/Board.jsx:121 | filtering twice with the same test is filtering once |
| Common.FilterCongruent | src/pages/Board.jsx:121 | two tests that agree on every element filter alike |
| Common.Toggle | src/components/FilterBar.jsx:43-46 | the item is removed (every occurrence) when present and appended at the end when absent |
| Common.ToggleTwiceAbsent | src/components/FilterBar.jsx:43-46 | toggling an absent item twice gives the list back |
| Board.RemoveAt | src/pages/Board.jsx:95 | `splice(i, 1)` leaves one element fewer |
| Board.InsertAt | src/pages/Board.jsx:96 | `splice(i, 0, x)` adds one element |
| Board.Reorder | src/pages/Board.jsx:94-96 | the reorder keeps the length and the multiset of lists, puts the moved list at the destination, and keeps the relative order of all other lists |
| Board.RemoveAtDetermines | src/pages/Board.jsx:94-96 | a sequence is fixed by the element at an index together with the rest |
| Board.ReorderUnique | src/pages/Board.jsx:94-96 | the two facts of Reorder's contract characterise the reorder completely |
| Board.ReorderSameIndex | src/pages/Board.jsx:94-96 | a drop where the drag started gives the identical sequence |
| Board.ReorderInverse | src/pages/Board.jsx:94-96 | dragging back from the destination to the source undoes a reorder |
| Board.ReorderForward | src/pages/Board.jsx:94-96 | element by element, for a drag towards the end: the lists in between move up by one, the rest stay |
| Board.ReorderBackward | src/pages/Board.jsx:94-96 | element by element, for a drag towards the front: the lists in between move down by one, the rest stay |
| Board.StageOrders | src/pages/Board.jsx:103-106 | one payload entry per list, in order, with the list's id and its index as position |
| Board.StageOrderPositions | src/pages/Board.jsx:103-106 | the payload's positions are exactly 0..n-1, each used once |
| Board.MoveFirstToEnd | src/pages/Board.jsx:94-106 | moving the first of three lists to the end gives [B, C, A] with positions 0, 1, 2 |
| Board.Deleted | src/pages/Board.jsx:121 | the survivors are exactly the lists whose id differs from the deleted id |
| Board.DeletedKeepsOrder | src/pages/Board.jsx:121 | deleting works piecewise on any split, so the order of the survivors is kept |
| Board.DeletedAbsent | src/pages/Board.jsx:121 | deleting an id that no list carries changes nothing |
| Board.Renamed | src/pages/Board.jsx:155-159 | only the lists with the id get the new name; the length and every other field stay |
| Board.BoardPage.constructor | src/pages/Board.jsx:13-20 | the page starts with the fetched lists, an empty add-list box and no open editor |
| Board.BoardPage.TypeNewListTitle | src/pages/Board.jsx:324 | typing changes only the add-list text |
| Board.BoardPage.CreateList | src/pages/Board.jsx:65-86 | a blank title sends nothing; otherwise the list is requested at position `lists.length`, appended on success, and the box is emptied; a failure keeps everything |
| Board.BoardPage.DragEnd | src/pages/Board.jsx:88-114 | a drop without destination changes nothing and sends nothing; otherwise the lists are reordered, the payload is sent, and a failed request restores the lists from before the drag |
| Board.BoardPage.DeleteList | src/pages/Board.jsx:116-126 | nothing without confirmation; after a successful request exactly the matching lists are removed |
| Board.BoardPage.EditList | src/pages/Board.jsx:128-132 | the editor opens on the list's id with its current name |
| Board.BoardPage.TypeListName | src/pages/Board.jsx:239 | typing changes only the edited name |
| Board.BoardPage.CancelEdit | src/pages/Board.jsx:170-173 | the editor closes and its text is emptied |
| Board.BoardPage.UpdateList | src/pages/Board.jsx:134-168 | ignored unless this list is being edited; a blank name cancels the edit; a success renames the list to the returned name or else the typed one; a failure alerts 'Failed to update list. Please try again.' and cancels the edit, and no other case alerts |
| FilterBar.LabelToggled | src/components/FilterBar.jsx:43-48 | only the label list changes, by the toggle rule |
| FilterBar.MemberToggled | src/components/FilterBar.jsx:50-55 | only the member list changes, by the toggle rule |
| FilterBar.DueDateSelected | src/components/FilterBar.jsx:57-61 | picking the active bucket clears it, any other bucket replaces it; the other fields stay |
| FilterBar.SearchChanged | src/components/FilterBar.jsx:63-67 | only the search text changes |
| FilterBar.HasActiveFilters | src/components/FilterBar.jsx:96-99 | true iff a label or member is selected, a bucket is set or the search is non-empty; false for the cleared specification of `clearAllFilters` (69-72) |
| FilterBar.LabelToggleTwice | src/components/FilterBar.jsx:43-48 | toggling an unselected label twice gives the specification back |
| FilterBar.MemberToggleTwice | src/components/FilterBar.jsx:50-55 | toggling an unselected member twice gives the specification back |
| FilterBar.DueDateSelectTwice | src/components/FilterBar.jsx:57-61 | selecting the same bucket twice from no bucket or from that bucket gives the specification back; from another bucket it ends with no bucket |
| FilterBar.MemberName | src/components/FilterBar.jsx:92-94 | the name, else the e-mail before '@', else 'Unknown' |
| Palette.KnownLabelNames | src/components/CardModal.jsx:437-444 | the six label names, spelled out |
| Palette.PriorityColor | src/components/FilterBar.jsx:74-84 | each of the six labels gets its table colour, every other string `#b3bac5` (also src/components/Card.jsx:4-14) |
| Palette.AvatarIndex | src/components/Card.jsx:16-20 | the palette index is always below the palette size |
| Palette.AvatarColor8 | src/components/Card.jsx:16-20 | the colour is always one of the eight palette entries |
| Palette.AvatarColor8Periodic | src/components/Card.jsx:16-20 | names whose first codes differ by a multiple of eight share a colour |
| CardView.FormatDate | src/components/Card.jsx:28-42 | no date gives ''; under a minute (including a future date) 'just now'; then minutes 1..59, hours 1..23, days 1..6, each the floor of the elapsed time; a week or more the locale date |
| CardView.FutureIsJustNow | src/components/Card.jsx:32-37 | a negative elapsed time reads 'just now' |
| CardView.CreatorName | src/components/Card.jsx:22-26 | the creator's name, else the e-mail's part before the first '@' (a prefix of the e-mail), else 'Unknown' when there is neither |
| CardView.CreatorNameAgreesWithMemberName | src/components/Card.jsx:22-26 | the tile and the filter bar name a person the same way, except for an e-mail that starts with '@' |
| CardModal.DaySuffix | src/components/CardModal.jsx:397 | 'day' for one, 'days' otherwise |
| CardModal.DueDateStatus | src/components/CardModal.jsx:382-425 | no date gives none; d<0 overdue, d=0 today, d=1 tomorrow, 2..7 soon, >7 future, with the texts and colours of each case |
| CardModal.DueColorsAreLabelColors | src/components/CardModal.jsx:394-424 | the badge colours are the colours of the labels High, Feature, Bug, Normal and the default |
| CardModal.DueTextShowsDays | src/components/CardModal.jsx:397-421 | for counts other than 0 and 1, the badge text (after 'Overdue by ') starts with the day count in decimal, ended by a space |
| CardModal.FieldLine | src/components/CardModal.jsx:144 | `${err.field}: ${err.message}` for one validation error, a missing key printing as "undefined" |
| CardModal.FieldLines | src/components/CardModal.jsx:144 | one `${field}: ${message}` line per validation error, in order, a missing key printing as "undefined" |
| CardModal.ErrorText | src/components/CardModal.jsx:137-152 | a non-empty validation list gives the message (or 'Validation failed'), a blank line and the field lines; otherwise the message, `error.message`, then the fallback; without response data `error.message` or the fallback |
| CardModal.ValidationTextLines | src/components/CardModal.jsx:143-145 | when no message holds a line break, splitting the text at '\n' gives the header, an empty line and the field lines |
| CardModal.AlertText | src/components/CardModal.jsx:154 | the alert is 'Error: ' followed by the error text |
| CardModal.NameMatches | src/components/CardModal.jsx:447-449 | the filter's test, the lower-cased name containing the lower-cased query: an empty query passes every option, and no name shorter than the query passes |
| CardModal.FilteredLabels | src/components/CardModal.jsx:446-449 | the options whose lower-cased name contains the lower-cased query, in order |
| CardModal.EmptyQueryKeepsAll | src/components/CardModal.jsx:446-449 | an empty query lists all six labels |
| CardModal.QueryCaseInsensitive | src/components/CardModal.jsx:446-449 | a query and its lower-cased form list the same labels |
| CardModal.AssignedMembers | src/components/CardModal.jsx:364-374 | exactly the workspace members whose user id is assigned |
| CardModal.ToggleOnShowsMember | src/components/CardModal.jsx:356-374 | toggling an unassigned member's id on shows that member and keeps every member shown before |
| CardModal.ToggleOffHidesMember | src/components/CardModal.jsx:356-374 | toggling an assigned id off leaves no member with that id in the assigned list |
| CardModal.CommentsReplaced | src/components/CardModal.jsx:283-285 | only the comments with the id are replaced; the length and the others stay |
| CardModal.ReplaceTwice | src/components/CardModal.jsx:283-285 | replacing with a comment that keeps its id is idempotent |
| CardModal.CommentsDeleted | src/components/CardModal.jsx:320 | exactly the comments with the id are removed, the others stay in order |
| CardModal.DeleteUndoesAdd | src/components/CardModal.jsx:243 | deleting a comment just appended, whose id was new, gives the thread back |
| CardModal.CardEditor.constructor | src/components/CardModal.jsx:11-43 | the editor starts from the card's fields, with the fetched thread for a card with an id and no comments for an unsaved card, and no comment being edited; a card without `labels` starts with `[priority]` when it has a priority and with [] otherwise; the date field holds the part before the 'T' of the card's due date in ISO form, or "" without one |
| CardModal.CardEditor.ToggleLabel | src/components/CardModal.jsx:428-434 | only the labels change, by the toggle rule |
| CardModal.CardEditor.ToggleMember | src/components/CardModal.jsx:356-362 | only the assignees change, by the toggle rule |
| CardModal.CardEditor.SaveRequest | src/components/CardModal.jsx:111-131 | an update of the saved card or a creation in the stage, with the current fields; the due date is sent in ISO form, or as null for an empty field |
| CardModal.CardEditor.Save | src/components/CardModal.jsx:103-158 | a blank title alerts and sends nothing; otherwise the request is sent, a success closes the dialog, a failure alerts the formatted error |
| CardModal.CardEditor.SaveDescription | src/components/CardModal.jsx:173-221 | an unsaved card alerts and sends nothing; otherwise the description is sent and a failure alerts the formatted error |
| CardModal.CardEditor.DeleteCard | src/components/CardModal.jsx:160-171 | nothing without confirmation; a success closes the dialog, a failure alerts a fixed text |
| CardModal.CardEditor.TypeComment | src/components/CardModal.jsx:802 | typing changes only the new-comment text |
| CardModal.CardEditor.AddComment | src/components/CardModal.jsx:223-270 | blank input does nothing; an unsaved card alerts; a success appends the comment and empties the box; a failure alerts |
| CardModal.CardEditor.StartEditingComment | src/components/CardModal.jsx:346-349 | the comment's id and content are being edited |
| CardModal.CardEditor.TypeEditedComment | src/components/CardModal.jsx:875 | typing changes only the edited content |
| CardModal.CardEditor.CancelEditingComment | src/components/CardModal.jsx:351-354 | the comment editor closes and its text is emptied |
| CardModal.CardEditor.UpdateComment | src/components/CardModal.jsx:272-311 | blank content does nothing; a success replaces the comments with the id and closes the editor; a failure alerts |
| CardModal.CardEditor.DeleteComment | src/components/CardModal.jsx:313-344 | nothing without confirmation; a success removes the comments with the id; a failure alerts |
| CodeEntry.Entered | src/pages/ResetPassword.jsx:29-35 | '' or one digit is written into the box; any other value leaves the code unchanged; no other box changes |
| CodeEntry.EnteredFocus | src/pages/ResetPassword.jsx:37-40 | a digit in boxes 0..4 moves the focus to the next box |
| CodeEntry.Clip | src/pages/ResetPassword.jsx:52 | the first six characters of the pasted text |
| CodeEntry.Pasted | src/pages/ResetPassword.jsx:50-62 | unless the clipped text is non-empty and all digits the code is unchanged; otherwise its k characters overwrite boxes 0..k-1 and the other boxes stay |
| CodeEntry.PasteFocus | src/pages/ResetPassword.jsx:65-66 | the focus moves exactly after an accepted paste: to box k, the first box left alone, when fewer than six characters were pasted, else to the last box |
| CodeEntry.Concat | src/pages/ResetPassword.jsx:73 | `code.join('')`: empty exactly when every box is, and every character comes from some box |
| CodeEntry.ConcatLength | src/pages/ResetPassword.jsx:73 | in boxes of at most one character, the joined code is as long as the number of filled boxes |
| CodeEntry.CompleteIffFilled | src/pages/ResetPassword.jsx:73-77 | the length-6 check accepts exactly the codes with every box filled |
| CodeEntry.ConcatSingletons | src/pages/ResetPassword.jsx:73 | joining one-character boxes spells their characters |
| CodeEntry.PasteFillsCode | src/pages/ResetPassword.jsx:50-62 | pasting six digits or more fills every box, and the joined code is the first six digits |
| CodeEntry.CodeBoxes.constructor | src/pages/ResetPassword.jsx:8 | six empty boxes |
| CodeEntry.CodeBoxes.Enter | src/pages/ResetPassword.jsx:29-41 | the boxes become `Entered` of the old boxes, and the focus `EnteredFocus` |
| CodeEntry.CodeBoxes.Paste | src/pages/ResetPassword.jsx:50-67 | the loop writes the boxes so that they become `Pasted` of the old boxes |
| CodeEntry.CodeBoxes.Clear | src/pages/ResetPassword.jsx:87 | all six boxes become empty |
| ResetPassword.PasswordProblem | src/pages/ResetPassword.jsx:99-107 | no problem iff the passwords match and have six characters or more; a mismatch is reported before the length |
| ResetPassword.MountRedirect | src/pages/ResetPassword.jsx:22-27 | without an email the page goes to '/forgot-password' |
| ResetPassword.ResetPasswordPage.constructor | src/pages/ResetPassword.jsx:8-15 | step 1, empty boxes, fields and messages |
| ResetPassword.ResetPasswordPage.ChangeCode | src/pages/ResetPassword.jsx:29-41 | the box change of the code buffer |
| ResetPassword.ResetPasswordPage.PasteCode | src/pages/ResetPassword.jsx:50-67 | the paste of the code buffer |
| ResetPassword.ResetPasswordPage.VerifyCode | src/pages/ResetPassword.jsx:69-92 | an incomplete code is refused with nothing sent; a verified code moves to step 2 with its message; a refused code shows the server's message or the default and empties the boxes |
| ResetPassword.ResetPasswordPage.TypePasswords | src/pages/ResetPassword.jsx:238-254 | only the two password fields change |
| ResetPassword.ResetPasswordPage.ResetPasswordSubmit | src/pages/ResetPassword.jsx:94-129 | both messages are cleared; a password problem is shown with nothing sent; otherwise email, code and password are sent, and a success shows its message and leads to '/login' |
| ResetPassword.ResetPasswordPage.ResendCode | src/pages/ResetPassword.jsx:131-145 | a success shows its message and empties the boxes; a failure shows the server's message or the default |
| ResetPassword.RefusedCodeMustBeRetyped | src/pages/ResetPassword.jsx:73-87 | the emptied boxes fail the completeness check |
| VerifyOtp.Tick | src/pages/VerifyOTP.jsx:30-39 | above one second the count goes down by one; at one or less it becomes 0, resend is enabled and the interval stops; the countdown invariant is kept |
| VerifyOtp.Ticks | src/pages/VerifyOTP.jsx:30-39 | k interval callbacks keep the countdown invariant, and change nothing when no interval runs |
| VerifyOtp.TicksFrom | src/pages/VerifyOTP.jsx:30-39 | from n seconds, k < n ticks show n-k, and from tick n on the countdown has stopped with resend enabled |
| VerifyOtp.StoppedStays | src/pages/VerifyOTP.jsx:30-39 | a stopped countdown stays as it is |
| VerifyOtp.ResendAfterSixtyTicks | src/pages/VerifyOTP.jsx:13-39 | from 60, resend becomes possible exactly at tick 60 and the count never goes below 0 |
| VerifyOtp.MountRedirect | src/pages/VerifyOTP.jsx:22-27 | without an email the page goes to '/signup' |
| VerifyOtp.VerifyOtpPage.constructor | src/pages/VerifyOTP.jsx:9-42 | empty boxes and a countdown at 60, running when there is an email |
| VerifyOtp.VerifyOtpPage.ChangeCode | src/pages/VerifyOTP.jsx:44-56 | the box change of the code buffer |
| VerifyOtp.VerifyOtpPage.PasteCode | src/pages/VerifyOTP.jsx:65-82 | the paste of the code buffer |
| VerifyOtp.VerifyOtpPage.TickSecond | src/pages/VerifyOTP.jsx:30-39 | the countdown fields become `Tick` of the old countdown |
| VerifyOtp.VerifyOtpPage.Submit | src/pages/VerifyOTP.jsx:84-115 | an incomplete code is refused with nothing sent; a verified code leads to '/dashboard', signing the user in when one is returned; a refused code shows its message and empties the boxes |
| VerifyOtp.VerifyOtpPage.ResendCode | src/pages/VerifyOTP.jsx:117-146 | ignored while resend is off; a success restarts the countdown at 60; a failure keeps it and shows the message |
| WorkspaceMembers.CharAt | src/components/WorkspaceMembersModal.jsx:101 | `s[i]`, undefined past the end |
| WorkspaceMembers.JsAdd | src/components/WorkspaceMembersModal.jsx:101 | `+` on two characters that may be undefined: a missing one prints as 'undefined' beside a character, and two missing ones give the number NaN, exactly then |
| WorkspaceMembers.InitialsAsWritten | src/components/WorkspaceMembersModal.jsx:97-104 | getInitials as written gives '?' for no name, is never empty, and throws exactly when the first two space-separated parts are both empty (NaN has no `toUpperCase`); it agrees with the corrected initials by InitialsAgree |
| WorkspaceMembers.Words | src/components/WorkspaceMembersModal.jsx:99 | the non-empty space-separated parts of a name |
| WorkspaceMembers.WordCharsFromName | src/components/WorkspaceMembersModal.jsx:99 | every character of a word is a character of the name |
| WorkspaceMembers.Initials | src/components/WorkspaceMembersModal.jsx:97-104 | the corrected initials: one or two characters; the first letters of the first two words, or the first two characters of a single word; '?' for a name without a word |
| WorkspaceMembers.InitialsFromName | src/components/WorkspaceMembersModal.jsx:97-104 | the corrected initials use only upper-cased characters of the name, or '?' |
| WorkspaceMembers.InitialsAgree | src/components/WorkspaceMembersModal.jsx:97-104 | when every space-separated part is non-empty, the code as written does not throw and agrees with the corrected initials |
| WorkspaceMembers.TrailingSpaceInitials | src/components/WorkspaceMembersModal.jsx:99-101 | "a " gives 'AUNDEFINED' as written and 'A' corrected |
| WorkspaceMembers.SpaceOnlyInitials | src/components/WorkspaceMembersModal.jsx:99-101 | " " throws as written and gives '?' corrected |
| WorkspaceMembers.AvatarColor6 | src/components/WorkspaceMembersModal.jsx:106-110 | the first code modulo six, colour 0 for no name; always one of the six colours |
| WorkspaceMembers.FirstNonEmpty | src/components/WorkspaceMembersModal.jsx:204 | the first non-empty string of a list, or '' |
| WorkspaceMembers.MemberId | src/components/WorkspaceMembersModal.jsx:204 | the id is one of the five candidates, and '' iff all five are missing |
| WorkspaceMembers.MemberIdOrder | src/components/WorkspaceMembersModal.jsx:204 | the id is the first non-empty of `_id`, `id`, `userId`, `user._id`, `user.id` |
| WorkspaceMembers.DisplayName | src/components/WorkspaceMembersModal.jsx:208-213 | the user's name, else the entry's name |
| WorkspaceMembers.InviteLink | src/components/WorkspaceMembersModal.jsx:48 | the origin, then '/invite/' and the code |
| WorkspaceMembers.InviteLinkRoute | src/components/WorkspaceMembersModal.jsx:47-48 | the link's path splits into the route '/invite/:inviteCode' with the same code, for a code without '/' |
| WorkspaceMembers.MembersDialog.constructor | src/components/WorkspaceMembersModal.jsx:8-14 | no members, no link, no code, no error |
| WorkspaceMembers.MembersDialog.FetchMembers | src/components/WorkspaceMembersModal.jsx:22-39 | the list is replaced by the answer, or the load error is shown and the list stays |
| WorkspaceMembers.MembersDialog.GenerateInviteLink | src/components/WorkspaceMembersModal.jsx:41-57 | a success stores the link, which is never empty, and the same code; an answer without `inviteCode` gives the link `origin + '/invite/undefined'` and an empty code; a failure shows the error and keeps both |
| WorkspaceMembers.MembersDialog.ChangeRole | src/components/WorkspaceMembersModal.jsx:79-95 | a missing member id shows an error and sends nothing; a success refetches the list; a failure shows the server's message, then `error.message`, then the default |
| JoinWorkspaceModal.WorkspacePath | src/components/JoinWorkspaceModal.jsx:62 | '/workspace/' followed by the id |
| JoinWorkspaceModal.CodeProblem | src/components/JoinWorkspaceModal.jsx:28-36 | no problem iff the code is not blank and has 12 characters; a blank code is reported before the length |
| JoinWorkspaceModal.StoredCodeValidIffTwelve | src/components/JoinWorkspaceModal.jsx:16-36 | the stored, trimmed code passes exactly when it has 12 characters |
| JoinWorkspaceModal.ErrorText | src/components/JoinWorkspaceModal.jsx:72-88 | 404, 409 and 401 give their messages; anything else the server's message, then `err.message`, then the default |
| JoinWorkspaceModal.FailureRedirect | src/components/JoinWorkspaceModal.jsx:74-83 | a redirect only for a 409 that names a workspace, to that workspace |
| JoinWorkspaceModal.SuccessRedirect | src/components/JoinWorkspaceModal.jsx:61-65 | the workspace when an id is known, else '/dashboard' |
| JoinWorkspaceModal.JoinDialog.constructor | src/components/JoinWorkspaceModal.jsx:9-13 | empty code, not loading, no messages |
| JoinWorkspaceModal.JoinDialog.Change | src/components/JoinWorkspaceModal.jsx:16-21 | the input is stored trimmed and both messages are cleared |
| JoinWorkspaceModal.JoinDialog.SubmitStart | src/components/JoinWorkspaceModal.jsx:23-41 | a code with a problem shows it and sends nothing; otherwise the 12-character code is sent and the dialog is loading |
| JoinWorkspaceModal.JoinDialog.SubmitFinish | src/components/JoinWorkspaceModal.jsx:41-91 | a success stores the name or 'Workspace' and redirects; a failure shows its message with its redirect; loading ends either way |
| JoinWorkspaceModal.JoinDialog.AfterJoinDelay | src/components/JoinWorkspaceModal.jsx:57-60 | the delayed step resets the code and the success flag |
| JoinWorkspaceModal.JoinDialog.Close | src/components/JoinWorkspaceModal.jsx:94-101 | ignored while loading; otherwise the code and both messages are reset |
| JoinWorkspacePage.LoginPath | src/pages/JoinWorkspace.jsx:23 | '/login?redirect=/invite/' followed by the code |
| JoinWorkspacePage.MountAction | src/pages/JoinWorkspace.jsx:16-30 | without a user, the login page and no join; with a user and a code, a join |
| JoinWorkspacePage.ErrorText | src/pages/JoinWorkspace.jsx:59-77 | 404 names the invalid link; every other status gives the dialog's message |
| JoinWorkspacePage.FailureNavigation | src/pages/JoinWorkspace.jsx:61-74 | a 409 leads after the delay to the workspace or the dashboard; a 401 leads at once to the login page; otherwise the page stays |
| JoinWorkspacePage.AsFailure | src/pages/JoinWorkspace.jsx:51-53 | an answer without `success` becomes an error with its message or the default and no status |
| JoinWorkspacePage.RefusedAnswerText | src/pages/JoinWorkspace.jsx:51-53 | a refused answer shows its message or the default |
| JoinWorkspacePage.SuccessPathAsWritten | src/pages/JoinWorkspace.jsx:46-49 | the redirect as written prints a missing id as 'undefined' |
| JoinWorkspacePage.SuccessWithoutIdAsWritten | src/pages/JoinWorkspace.jsx:46-49 | a success without an id leads to '/workspace/undefined' as written |
| JoinWorkspacePage.SuccessPath | src/pages/JoinWorkspace.jsx:46-49 | the corrected redirect: the workspace when an id is known, else '/dashboard', never '/workspace/undefined' for a missing id |
| JoinWorkspacePage.SuccessPathRepairs | src/pages/JoinWorkspace.jsx:46-49 | the corrected redirect differs from the one as written exactly for an answer without an id |
| JoinWorkspacePage.JoinPage.constructor | src/pages/JoinWorkspace.jsx:12-14 | loading, no error, no workspace |
| JoinWorkspacePage.JoinPage.Start | src/pages/JoinWorkspace.jsx:32-38 | every attempt starts loading with the error cleared and sends the code |
| JoinWorkspacePage.JoinPage.Finish | src/pages/JoinWorkspace.jsx:38-78 | success exactly for an answer with `success` set, redirecting after the delay to `/workspace/${workspaceId}` as written, so "/workspace/undefined" without an id; otherwise the error state with its message and navigation; an error text is shown exactly in the error state |
| JoinWorkspacePage.JoinPage.WelcomeName | src/pages/JoinWorkspace.jsx:96 | the workspace's name, or 'the workspace' |
| Notifications.Shown | src/hooks/useNotification.js:15-34 | an open record every field of which comes from the options, with the defaults for left-out fields |
| Notifications.Closed | src/hooks/useNotification.js:36-38 | the same record with only `isOpen` false |
| Notifications.CloseIdempotent | src/hooks/useNotification.js:36-38 | closing twice is closing once; closing a closed record changes nothing |
| Notifications.HelperOptions | src/hooks/useNotification.js:41-55 | the helpers set the kind, the title or its default and the message, nothing else |
| Notifications.ConfirmOptions | src/hooks/useNotification.js:57-67 | kind 'confirm', the cancel button, and the defaults 'Confirm Action', 'Confirm', 'Cancel' |
| Notifications.NotificationHook.constructor | src/hooks/useNotification.js:4-13 | the closed 'info' record with 'OK' and 'Cancel' |
| Notifications.NotificationHook.ShowNotification | src/hooks/useNotification.js:15-34 | the record becomes `Shown` of the options |
| Notifications.NotificationHook.CloseNotification | src/hooks/useNotification.js:36-38 | the record becomes `Closed` of the old one |
| Notifications.NotificationHook.ShowSuccess | src/hooks/useNotification.js:41-43 | a 'success' record titled 'Success' by default |
| Notifications.NotificationHook.ShowError | src/hooks/useNotification.js:45-47 | an 'error' record titled 'Error' by default |
| Notifications.NotificationHook.ShowWarning | src/hooks/useNotification.js:49-51 | a 'warning' record titled 'Warning' by default |
| Notifications.NotificationHook.ShowInfo | src/hooks/useNotification.js:53-55 | an 'info' record titled 'Information' by default |
| Notifications.NotificationHook.ShowConfirm | src/hooks/useNotification.js:57-67 | the record of `ConfirmOptions` |
| NotificationModal.IconFor | src/components/NotificationModal.jsx:17-30 | 'warning' and 'confirm' share the warning icon; every kind but the four named ones gets the info icon |
| NotificationModal.KindTitle | src/components/NotificationModal.jsx:35-47 | the title of each kind, 'Information' for any other kind |
| NotificationModal.TitleFor | src/components/NotificationModal.jsx:32-48 | an explicit title wins, otherwise the kind's title; never empty |
| NotificationModal.ButtonsFor | src/components/NotificationModal.jsx:85-108 | two buttons iff the kind is 'confirm' or the cancel button is asked for, the confirm button dangerous iff 'confirm'; one button otherwise |
| NotificationModal.Render | src/components/NotificationModal.jsx:15 | nothing iff the record is closed; otherwise the icon, title, message and buttons |
| NotificationModal.ConfirmEffects | src/components/NotificationModal.jsx:50-55 | the callback when there is one, and then always closing |
| NotificationModal.BackdropCloses | src/components/NotificationModal.jsx:61-67 | closes iff the click is on the backdrop itself and the kind is not 'confirm' |
| NotificationModal.HelperTitlesAgree | src/hooks/useNotification.js:41-55 | each helper's default title is the dialog's title for that kind, so a helper record shows its title or that default |
| NotificationModal.ConfirmDialogShape | src/hooks/useNotification.js:57-67 | a `showConfirm` record shows the warning icon and two buttons, and its backdrop never closes it |
| NotificationModal.ClosedRendersNothing | src/components/NotificationModal.jsx:15 | a closed or initial record renders nothing |
| Dashboard.Gradient | src/pages/Dashboard.jsx:116-128 | the gradient of a card is one of the eight, the i-th for i < 8 |
| Dashboard.GradientPeriodic | src/pages/Dashboard.jsx:127 | the gradients repeat every eight cards, and cards less than eight apart differ |
| Dashboard.Preview | src/pages/Dashboard.jsx:57-58 | the first min(n, 3) boards, in order |
| Dashboard.PreviewIdempotent | src/pages/Dashboard.jsx:57-58 | a preview of a preview is the same preview |
| Dashboard.EntryFor | src/pages/Dashboard.jsx:52-62 | a listed answer gives its preview, a missing list or a failure [] |
| Dashboard.PreviewMap | src/pages/Dashboard.jsx:45-67 | the map `fetchBoardsForWorkspaces` builds, each answer written under its workspace's id in list order; the last workspace always has an entry |
| Dashboard.PreviewMapKeys | src/pages/Dashboard.jsx:46-64 | the map has an entry for every workspace's id and nothing else |
| Dashboard.PreviewMapEntry | src/pages/Dashboard.jsx:46-64 | a workspace's entry is its own answer's entry, whatever the other answers, when no later workspace has the same id |
| Dashboard.CollectPreviews | src/pages/Dashboard.jsx:45-67 | the loop builds `PreviewMap` of the workspaces and their answers |
| Dashboard.WithPreview | src/pages/Dashboard.jsx:81-84 | the selected workspace's entry becomes the new preview; every other entry is kept |
| Dashboard.BoardsShown | src/pages/Dashboard.jsx:167 | the workspace's entry, or [] before it has one |
| Dashboard.BoardColor | src/pages/Dashboard.jsx:213 | the board's colour, or '#0079BF' |
| Dashboard.BoardPath | src/pages/Dashboard.jsx:98 | the workspace path followed by '/board/' and the board id |
| Dashboard.BoardPathRoute | src/pages/Dashboard.jsx:98 | the path splits into the route '/workspace/:w/board/:b' with the same ids, for ids without '/' |
| Dashboard.BoardClick | src/pages/Dashboard.jsx:91-99 | nothing without both ids, else the board's path |
| Dashboard.WorkspaceClick | src/pages/Dashboard.jsx:101-108 | nothing without an id, else the workspace's path |
| Dashboard.DashboardPage.constructor | src/pages/Dashboard.jsx:15-21 | no workspaces, no previews, loading |
| Dashboard.DashboardPage.FetchWorkspaces | src/pages/Dashboard.jsx:27-43 | a listed answer replaces the workspaces and the whole preview map; a failure keeps both; loading ends |
| Dashboard.DashboardPage.OpenCreateBoard | src/pages/Dashboard.jsx:225-228 | the workspace is selected and the create-board dialog opens |
| Dashboard.DashboardPage.CreateBoard | src/pages/Dashboard.jsx:74-89 | only when both requests succeed with a workspace selected is its entry replaced and the dialog closed; otherwise nothing changes |
| CreateBoardModal.InitialForm | src/components/CreateBoardModal.jsx:17-22 | empty name and description, background '#0079BF', the given workspace |
| CreateBoardModal.SubmitProblem | src/components/CreateBoardModal.jsx:35-44 | no problem iff the name is not blank and a workspace id is present; the name is checked first |
| CreateBoardModal.ResetFormRefused | src/components/CreateBoardModal.jsx:35-55 | a form just reset is refused for its empty name |
| CreateBoardModal.BoardDialog.constructor | src/components/CreateBoardModal.jsx:16-24 | the initial form for the prop, no error |
| CreateBoardModal.BoardDialog.SyncWorkspace | src/components/CreateBoardModal.jsx:27-29 | a new prop changes only the form's workspace |
| CreateBoardModal.BoardDialog.TypeName | src/components/CreateBoardModal.jsx:91 | only the name changes |
| CreateBoardModal.BoardDialog.TypeDescription | src/components/CreateBoardModal.jsx:102 | only the description changes |
| CreateBoardModal.BoardDialog.PickColor | src/components/CreateBoardModal.jsx:117 | only the colour changes, to the picked swatch |
| CreateBoardModal.BoardDialog.Submit | src/components/CreateBoardModal.jsx:31-63 | a failed check shows its message with nothing sent; otherwise the form is sent, a success resets it keeping the prop's workspace and closes, a failure shows the server's message or the default |
| EditWorkspaceModal.Payload | src/components/EditWorkspaceModal.jsx:31-35 | the trimmed name, the trimmed description and the unchanged flag |
| EditWorkspaceModal.SubmitProblem | src/components/EditWorkspaceModal.jsx:24-27 | no problem iff the name is not blank |
| EditWorkspaceModal.PayloadTrimmed | src/components/EditWorkspaceModal.jsx:24-35 | a payload that passes the check has a non-empty name, and trimming it again changes nothing |
| EditWorkspaceModal.EditDialog.constructor | src/components/EditWorkspaceModal.jsx:6-10 | empty fields, not private, no error |
| EditWorkspaceModal.EditDialog.Prefill | src/components/EditWorkspaceModal.jsx:12-18 | a workspace's fields are copied; without a workspace nothing changes |
| EditWorkspaceModal.EditDialog.Submit | src/components/EditWorkspaceModal.jsx:20-42 | a blank name shows the error with nothing sent; otherwise the trimmed payload is sent, a success closes, a failure shows the server's message or the default |
| CreateWorkspaceModal.Changed | src/components/CreateWorkspaceModal.jsx:14-20 | only the named field changes, to the checkbox's `checked` or the input's value |
| CreateWorkspaceModal.ChangesCommute | src/components/CreateWorkspaceModal.jsx:14-20 | changes of different fields commute, and a change of the same field replaces the earlier one |
| CreateWorkspaceModal.SubmitProblem | src/components/CreateWorkspaceModal.jsx:26-29 | no problem iff the name is not blank |
| CreateWorkspaceModal.WorkspaceDialog.constructor | src/components/CreateWorkspaceModal.jsx:6-12 | the initial private, empty form |
| CreateWorkspaceModal.WorkspaceDialog.Change | src/components/CreateWorkspaceModal.jsx:14-20 | the form becomes `Changed` of the old form |
| CreateWorkspaceModal.WorkspaceDialog.Submit | src/components/CreateWorkspaceModal.jsx:22-41 | a blank name shows the error with nothing sent; otherwise the form is sent, a success resets it and closes, a failure shows the server's message or the default |
| RouteGuards.Protected | src/components/ProtectedRoute.jsx:9-17 | nothing iff loading; the login redirect iff loaded and not signed in; the page iff loaded and signed in |
| RouteGuards.Public | src/components/PublicRoute.jsx:8-18 | nothing iff loading; the dashboard redirect iff loaded and signed in; the page iff loaded and not signed in |
| RouteGuards.Root | src/components/RootRedirect.jsx:9-13 | nothing iff loading, never a page, and otherwise a replacing redirect to the dashboard or the login page |
| RouteGuards.GuardsComplement | src/components/RootRedirect.jsx:13 | once loaded, exactly one of the two guards shows a page, and the root sends each user to the guard that shows them one |

## Left out

- Rendering, CSS, focus moves, click-outside listeners, `window.confirm`, `alert`, the clipboard
  and the drag-and-drop library are not modelled. A confirmation is a boolean parameter, and an
  alert is a returned text.
- The service modules and their HTTP client are not part of this model. Every server answer is
  a parameter of the handler that awaits it. The chains that unwrap a response
  (`response.data?.comment || response.comment || …`) are reduced to the value they deliver.
- The session context is not part of this model. Route guards take `loading` and
  `isAuthenticated` as inputs.
- Timers are not modelled. A `setTimeout` redirect is a returned navigation; the verification
  countdown is modelled by its tick function and the flags it sets. Under React StrictMode the
  effect's cleanup clears the first interval, so one countdown runs; the `setResendTimer`
  updater may be called twice, and `Tick` is a function of the old countdown whose side effects
  (enabling resend, clearing the interval) are idempotent.
- Dates are whole-day offsets (due-date badge) and elapsed milliseconds (card tile). Time zones,
  `setHours`, DST, `Math.ceil` on fractional days and the locale date text (a week or more ago)
  are not modelled.
- `Common.ToLower`/`Common.ToUpper` map ASCII letters only; JavaScript's full Unicode case
  mapping is not modelled.
- String lengths and `charCodeAt` work on Dafny characters (Unicode scalar values), not on
  UTF-16 code units. The two differ only outside the Basic Multilingual Plane.
- `Board.BoardPage.DragEnd` models one gesture at a time. A rollback restores the lists
  captured when the drag started, and overlapping requests in flight are not modelled.
- `Board.BoardPage.DragEnd` sends the payload even when a list is dropped where it was picked
  up. The code has no guard for that case, so the model has none either; by
  `Board.ReorderSameIndex` the payload then repeats the current order.
- `Dashboard.CollectPreviews` writes the answers in list order. `Promise.all` writes them in
  the order the answers arrive, which only matters for two workspaces with the same id.
- `Dashboard.DashboardPage.FetchWorkspaces` sets `loading` only at the end. The spinner shown
  while the requests are in flight is not modelled, and neither is `handleCreateWorkspace`
  (a create request followed by this refetch; its failure is the create-workspace dialog's).
- The loading flags of the card editor, the forms and the share dialog only disable buttons,
  and are not modelled. The join dialog's flag is modelled, because it gates closing.
- The input setters of the edit-workspace dialog (`setName`, `setDescription`, `setIsPrivate`)
  are not modelled. Each sets one field.
- CardModal.CardEditor.constructor: the date parsing and ISO rendering of
  `new Date(card.dueDate).toISOString()` are not modelled. Their result is the parameter
  `dueDateIso`, and only the `split('T')[0]` after it is modelled. An invalid date, for which
  `toISOString` throws, is not modelled.
- CardModal.CardEditor.SaveRequest: `new Date(dueDate).toISOString()` is not modelled. Its
  result is the parameter `dueIso`; `CardModal.CardEditor.Save` passes it through. An invalid
  date, for which `toISOString` throws, is not modelled.
- The callbacks `onJoinSuccess`, `onUpdate`, `onDelete`, `onClose` and `onFilterChange` are not
  modelled as calls. What they receive is returned or stated.

## Findings

| source | as written | input that shows it | evidently intended | confidence | as-written member | corrected member |
|---|---|---|---|---|---|---|
| src/components/WorkspaceMembersModal.jsx:99-101 | `(parts[0][0] + parts[1][0]).toUpperCase()` reads the first characters of split parts that may be empty | the name "a " gives "AUNDEFINED"; the name " " makes `undefined + undefined` the number NaN, whose missing `toUpperCase` throws a TypeError while the member list renders | the first letters of the first two non-empty words, and '?' for a name without a word | not executed | WorkspaceMembers.InitialsAsWritten, WorkspaceMembers.TrailingSpaceInitials, WorkspaceMembers.SpaceOnlyInitials | WorkspaceMembers.Initials, WorkspaceMembers.InitialsFromName, WorkspaceMembers.InitialsAgree |
| src/pages/JoinWorkspace.jsx:46-49 | the success redirect prints the workspace id into `/workspace/${workspaceId}` even when the answer carries none | a successful answer without any workspace id leads to "/workspace/undefined" | the dashboard when no id is known, as the join dialog and the conflict branch of the same page do | not executed | JoinWorkspacePage.SuccessPathAsWritten, JoinWorkspacePage.SuccessWithoutIdAsWritten, JoinWorkspacePage.JoinPage.Finish | JoinWorkspacePage.SuccessPath, JoinWorkspacePage.SuccessPathRepairs |
