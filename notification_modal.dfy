/** The notification dialog (src/components/NotificationModal.jsx): what it shows for a
    notification record, and what its buttons and backdrop do. */
module NotificationModal {
  import opened Common
  import opened Notifications

  datatype Icon = SuccessIcon | ErrorIcon | WarningIcon | InfoIcon

  /** `getIcon`: 'warning' and 'confirm' share the warning icon; 'info' and any other kind
      get the info icon. */
  function IconFor(kind: string): (r: Icon)
    ensures r == SuccessIcon <==> kind == "success"
    ensures r == ErrorIcon <==> kind == "error"
    ensures r == WarningIcon <==> kind == "warning" || kind == "confirm"
    ensures r == InfoIcon <==> kind !in {"success", "error", "warning", "confirm"}
  {
    match kind
    case "success" => SuccessIcon
    case "error" => ErrorIcon
    case "warning" => WarningIcon
    case "confirm" => WarningIcon
    case _ => InfoIcon
  }

  /** The title by kind, when the record has none. */
  function KindTitle(kind: string): (r: string)
    ensures kind == "success" ==> r == "Success"
    ensures kind == "error" ==> r == "Error"
    ensures kind == "warning" ==> r == "Warning"
    ensures kind == "confirm" ==> r == "Confirm Action"
    ensures kind !in {"success", "error", "warning", "confirm"} ==> r == "Information"
  {
    match kind
    case "success" => "Success"
    case "error" => "Error"
    case "warning" => "Warning"
    case "confirm" => "Confirm Action"
    case _ => "Information"
  }

  /** `getTitle`: an explicit title wins, else the title of the kind. */
  function TitleFor(title: string, kind: string): (r: string)
    ensures title != "" ==> r == title
    ensures title == "" ==> r == KindTitle(kind)
    ensures r != ""
  {
    if title != "" then title else KindTitle(kind)
  }

  /** The action row: one confirm button, or cancel then confirm (the confirm button styled as
      dangerous for a confirmation). */
  datatype Buttons =
    | OneButton(confirmLabel: string)
    | TwoButtons(cancelLabel: string, confirmLabel: string, danger: bool)

  /** Two buttons exactly for a confirmation or when the cancel button is asked for. */
  function ButtonsFor(kind: string, showCancel: bool, confirmText: string, cancelText: string): (r: Buttons)
    ensures r.TwoButtons? <==> kind == "confirm" || showCancel
    ensures r.confirmLabel == confirmText
    ensures r.TwoButtons? ==> r.cancelLabel == cancelText && (r.danger <==> kind == "confirm")
  {
    if kind == "confirm" || showCancel then TwoButtons(cancelText, confirmText, kind == "confirm")
    else OneButton(confirmText)
  }

  datatype View = View(icon: Icon, title: string, message: string, buttons: Buttons)

  /** The dialog for a record: nothing while closed. */
  function Render(n: Notification): (r: Option<View>)
    ensures r.None? <==> !n.isOpen
    ensures r.Some? ==> r.value == View(IconFor(n.kind), TitleFor(n.title, n.kind), n.message,
      ButtonsFor(n.kind, n.showCancel, n.confirmText, n.cancelText))
  {
    if !n.isOpen then None
    else Some(View(IconFor(n.kind), TitleFor(n.title, n.kind), n.message,
      ButtonsFor(n.kind, n.showCancel, n.confirmText, n.cancelText)))
  }

  /** What the dialog asks its owner to do. */
  datatype Effect = RunConfirm(callback: nat) | CloseDialog

  /** `handleConfirm`: the callback when there is one, then close. */
  function ConfirmEffects(onConfirm: Option<nat>): (r: seq<Effect>)
    ensures |r| >= 1 && r[|r| - 1] == CloseDialog
    ensures onConfirm.Some? ==> r == [RunConfirm(onConfirm.value), CloseDialog]
    ensures onConfirm.None? ==> r == [CloseDialog]
  {
    if onConfirm.Some? then [RunConfirm(onConfirm.value), CloseDialog] else [CloseDialog]
  }

  /** `handleBackdropClick`: a click on the backdrop itself closes every kind but a
      confirmation. */
  function BackdropCloses(onBackdrop: bool, kind: string): (r: bool)
    ensures r <==> onBackdrop && kind != "confirm"
  {
    onBackdrop && kind != "confirm"
  }

  /** Each typed helper's default title is the title the dialog falls back to for that kind,
      so a helper with a left-out or empty title shows the same heading. */
  lemma HelperTitlesAgree(kind: string, defaultTitle: string, message: string, title: Option<string>)
    requires (kind, defaultTitle) in
      {("success", "Success"), ("error", "Error"), ("warning", "Warning"), ("info", "Information")}
    ensures var n := Shown(HelperOptions(kind, message, title, defaultTitle));
      Render(n).Some? && Render(n).value.title == Or(Default(title, defaultTitle), defaultTitle)
  {
  }

  /** A confirmation from `showConfirm` shows the warning icon and two buttons, and its
      backdrop never closes it. */
  lemma ConfirmDialogShape(message: string, onConfirm: Option<nat>, title: Option<string>,
                           confirmText: Option<string>, cancelText: Option<string>, onBackdrop: bool)
    ensures var n := Shown(ConfirmOptions(message, onConfirm, title, confirmText, cancelText));
      Render(n).Some? && Render(n).value.icon == WarningIcon
      && Render(n).value.buttons.TwoButtons? && Render(n).value.buttons.danger
      && Render(n).value.title == Or(Default(title, "Confirm Action"), "Confirm Action")
      && !BackdropCloses(onBackdrop, n.kind)
  {
  }

  /** A closed record renders nothing, whatever it held before. */
  lemma ClosedRendersNothing(n: Notification)
    ensures Render(Closed(n)) == None
    ensures Render(Initial) == None
  {
  }
}
