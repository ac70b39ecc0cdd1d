/** The notification hook (src/hooks/useNotification.js): one notification record that the
    `show…` helpers overwrite and `closeNotification` closes. */
module Notifications {
  import opened Common

  /** The record. A title or message that was left out is "" (both are falsy where they are
      read); `onConfirm` names the callback, None for `null` or a left-out one. */
  datatype Notification = Notification(
    isOpen: bool,
    kind: string,
    title: string,
    message: string,
    confirmText: string,
    cancelText: string,
    showCancel: bool,
    onConfirm: Option<nat>)

  /** The record the hook starts with. */
  const Initial: Notification := Notification(false, "info", "", "", "OK", "Cancel", false, None)

  /** The argument of `showNotification`; None marks a left-out field, which takes its
      default. */
  datatype ShowOptions = ShowOptions(
    kind: Option<string>,
    title: string,
    message: string,
    confirmText: Option<string>,
    cancelText: Option<string>,
    showCancel: Option<bool>,
    onConfirm: Option<nat>)

  function Default<T>(o: Option<T>, d: T): T {
    if o.Some? then o.value else d
  }

  /** `showNotification`: an open record whose every field comes from the options, with the
      defaults 'info', 'OK', 'Cancel' and no cancel button for left-out fields. Nothing of the
      previous record survives. */
  function Shown(opts: ShowOptions): (r: Notification)
    ensures r.isOpen
    ensures r.kind == Default(opts.kind, "info") && r.title == opts.title && r.message == opts.message
    ensures r.confirmText == Default(opts.confirmText, "OK")
    ensures r.cancelText == Default(opts.cancelText, "Cancel")
    ensures r.showCancel == Default(opts.showCancel, false) && r.onConfirm == opts.onConfirm
  {
    Notification(true, Default(opts.kind, "info"), opts.title, opts.message,
      Default(opts.confirmText, "OK"), Default(opts.cancelText, "Cancel"),
      Default(opts.showCancel, false), opts.onConfirm)
  }

  /** `closeNotification`: the same record, closed. */
  function Closed(n: Notification): (r: Notification)
    ensures !r.isOpen
    ensures r.(isOpen := n.isOpen) == n
  {
    n.(isOpen := false)
  }

  /** Closing twice is closing once, and closing a closed record changes nothing. */
  lemma CloseIdempotent(n: Notification)
    ensures Closed(Closed(n)) == Closed(n)
    ensures !n.isOpen ==> Closed(n) == n
  {
  }

  /** The four typed helpers: the kind, the title (a default one when left out) and the
      message; everything else takes the defaults of `showNotification`. */
  function HelperOptions(kind: string, message: string, title: Option<string>, defaultTitle: string): (r: ShowOptions)
    ensures r.kind == Some(kind) && r.title == Default(title, defaultTitle) && r.message == message
    ensures r.confirmText == None && r.cancelText == None && r.showCancel == None && r.onConfirm == None
  {
    ShowOptions(Some(kind), Default(title, defaultTitle), message, None, None, None, None)
  }

  /** `showConfirm`: kind 'confirm', the cancel button on, and the defaults 'Confirm Action',
      'Confirm' and 'Cancel'. */
  function ConfirmOptions(message: string, onConfirm: Option<nat>, title: Option<string>,
                          confirmText: Option<string>, cancelText: Option<string>): (r: ShowOptions)
    ensures r.kind == Some("confirm") && r.showCancel == Some(true) && r.message == message
    ensures r.title == Default(title, "Confirm Action") && r.onConfirm == onConfirm
    ensures r.confirmText == Some(Default(confirmText, "Confirm"))
    ensures r.cancelText == Some(Default(cancelText, "Cancel"))
  {
    ShowOptions(Some("confirm"), Default(title, "Confirm Action"), message,
      Some(Default(confirmText, "Confirm")), Some(Default(cancelText, "Cancel")), Some(true), onConfirm)
  }

  /** The hook's state. */
  class NotificationHook {
    var notification: Notification

    constructor ()
      ensures notification == Initial
    {
      notification := Initial;
    }

    method ShowNotification(opts: ShowOptions)
      modifies this
      ensures notification == Shown(opts)
    {
      notification := Shown(opts);
    }

    method CloseNotification()
      modifies this
      ensures notification == Closed(old(notification))
    {
      notification := notification.(isOpen := false);
    }

    method ShowSuccess(message: string, title: Option<string>)
      modifies this
      ensures notification == Shown(HelperOptions("success", message, title, "Success"))
    {
      ShowNotification(HelperOptions("success", message, title, "Success"));
    }

    method ShowError(message: string, title: Option<string>)
      modifies this
      ensures notification == Shown(HelperOptions("error", message, title, "Error"))
    {
      ShowNotification(HelperOptions("error", message, title, "Error"));
    }

    method ShowWarning(message: string, title: Option<string>)
      modifies this
      ensures notification == Shown(HelperOptions("warning", message, title, "Warning"))
    {
      ShowNotification(HelperOptions("warning", message, title, "Warning"));
    }

    method ShowInfo(message: string, title: Option<string>)
      modifies this
      ensures notification == Shown(HelperOptions("info", message, title, "Information"))
    {
      ShowNotification(HelperOptions("info", message, title, "Information"));
    }

    method ShowConfirm(message: string, onConfirm: Option<nat>, title: Option<string>,
                       confirmText: Option<string>, cancelText: Option<string>)
      modifies this
      ensures notification == Shown(ConfirmOptions(message, onConfirm, title, confirmText, cancelText))
    {
      ShowNotification(ConfirmOptions(message, onConfirm, title, confirmText, cancelText));
    }
  }
}
