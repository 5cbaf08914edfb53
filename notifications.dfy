/**
 * `NotificationService`: a first-in first-out queue of notifications shown
 * one at a time, and a history of the last 100 notifications. The tray icon,
 * the sounds and the timers are not modelled; what the tray icon displayed is
 * kept as a sequence, and the timer that ends a display is the caller of
 * `ResetShowing`.
 */
module Notifications {
  import opened Base

  datatype Notification = Notification(
    title: string,
    message: string,
    notificationType: string,
    data: map<string, string>,
    timeout: int,
    timestamp: string)

  /** How many notifications the history file keeps. */
  const HistoryLimit: nat := 100

  class NotificationService {
    /** `notification_queue` */
    var queue: seq<Notification>
    /** `is_showing` */
    var isShowing: bool
    /** The contents of `notifications_history.json`. */
    var history: seq<Notification>
    /** The notifications the tray icon displayed, oldest first. */
    var shown: seq<Notification>
    /** Every notification `Notify` received, oldest first. */
    ghost var notified: seq<Notification>

    /** What was displayed and what waits are, in that order, everything received. */
    ghost predicate Valid()
      reads this
    {
      shown + queue == notified
    }

    /** `__init__`, with the history file holding `saved`. */
    constructor(saved: seq<Notification>)
      ensures Valid()
      ensures queue == [] && !isShowing && history == saved && shown == []
    {
      queue := [];
      isShowing := false;
      history := saved;
      shown := [];
      notified := [];
    }

    /** `notify`: the new notification goes to the back of the queue and into the history. */
    method Notify(title: string, message: string, now: string, notificationType: string := "system",
                  data: Option<map<string, string>> := None, timeout: int := 5000)
      requires Valid()
      modifies this
      ensures Valid()
      ensures var n := Notification(title, message, notificationType, GetOr(data, map[]), timeout, now);
        && queue == old(queue) + [n]
        && history == LastN(old(history) + [n], HistoryLimit)
        && notified == old(notified) + [n]
      ensures isShowing == old(isShowing) && shown == old(shown)
      ensures |history| <= HistoryLimit && history[|history| - 1] == queue[|queue| - 1]
    {
      var n := Notification(title, message, notificationType, GetOr(data, map[]), timeout, now);
      queue := queue + [n];
      notified := notified + [n];
      SaveNotification(n);
    }

    /** `_save_notification`: append, then keep the last 100. */
    method SaveNotification(n: Notification)
      modifies this
      ensures history == LastN(old(history) + [n], HistoryLimit)
      ensures |history| <= HistoryLimit && history[|history| - 1] == n
      ensures history[..|history| - 1] == LastN(old(history), HistoryLimit - 1)
      ensures queue == old(queue) && isShowing == old(isShowing) && shown == old(shown) && notified == old(notified)
    {
      AppendThenLastN(history, n, HistoryLimit);
      var h := history + [n];
      if |h| > HistoryLimit {
        h := h[|h| - HistoryLimit..];
      }
      history := h;
    }

    /** `_process_queue`: when nothing is showing, the oldest waiting notification is
        displayed and the flag is raised; otherwise nothing happens. */
    method ProcessQueue()
      requires Valid()
      modifies this
      ensures Valid()
      ensures old(queue) == [] || old(isShowing) ==>
        queue == old(queue) && isShowing == old(isShowing) && shown == old(shown)
      ensures old(queue) != [] && !old(isShowing) ==>
        queue == old(queue)[1..] && isShowing && shown == old(shown) + [old(queue)[0]]
      ensures history == old(history) && notified == old(notified)
    {
      if queue == [] || isShowing {
        return;
      }
      var n := queue[0];
      queue := queue[1..];
      isShowing := true;
      shown := shown + [n];
      assert old(shown) + old(queue) == old(shown) + [n] + queue;
    }

    /** `_reset_showing` */
    method ResetShowing()
      requires Valid()
      modifies this
      ensures Valid()
      ensures !isShowing
      ensures queue == old(queue) && history == old(history) && shown == old(shown) && notified == old(notified)
    {
      isShowing := false;
    }
  }

  /** Notifications are displayed in the order they were received: whatever the queue
      has shown is a prefix of what it received. */
  lemma ShownInOrder(shown: seq<Notification>, queue: seq<Notification>, notified: seq<Notification>)
    requires shown + queue == notified
    ensures shown == notified[..|shown|]
    ensures queue == notified[|shown|..]
  {
    assert notified[..|shown|] == (shown + queue)[..|shown|];
  }

  /** Once the history holds 100 notifications, each new one pushes out the oldest. */
  lemma {:induction false} FullHistoryDropsOldest(h: seq<Notification>, n: Notification)
    requires |h| == HistoryLimit
    ensures LastN(h + [n], HistoryLimit) == h[1..] + [n]
  {
    var t := h + [n];
    assert t[|t| - HistoryLimit..] == h[1..] + [n];
  }
}
