/**
 * The web client's notification service (walletpoint/www/js/push-notification.js):
 * the in-app list kept in localStorage with its unread counter, the
 * system notifications shown while the user allows them, and the dispatch
 * of the notifications the server reports when polled.
 */
module FeNotifications {
  import opened Wrappers

  /** What a caller hands to addInAppNotification. */
  datatype NoteInput = NoteInput(kind: string, title: string, message: string, icon: string,
                                 iconColor: string, action: Option<string>)

  /** An entry of the in-app list. */
  datatype InAppNotification = InAppNotification(
    id: string, kind: string, title: string, message: string, icon: string, iconColor: string,
    action: Option<string>, isRead: bool, createdAt: string)

  /** A notification as the server reports it; the fields a type does not use are ignored. */
  datatype ServerNotification = ServerNotification(
    kind: string, senderName: string, amount: int, title: string, dosenName: string, reward: int,
    buyerName: string, totalAmount: int)

  const ListLimit := 50

  /** The new entry: the input's fields, unread, with the given id and time. */
  function NewEntry(n: NoteInput, id: string, createdAt: string): (e: InAppNotification)
    ensures !e.isRead && e.id == id && e.kind == n.kind && e.title == n.title && e.message == n.message
  {
    InAppNotification(id, n.kind, n.title, n.message, n.icon, n.iconColor, n.action, false, createdAt)
  }

  /** The number of unread entries: notifications.filter(n => !n.is_read).length. */
  function Unread(ns: seq<InAppNotification>): (c: nat)
    ensures c <= |ns|
  {
    if ns == [] then 0 else Unread(ns[..|ns| - 1]) + (if ns[|ns| - 1].isRead then 0 else 1)
  }

  /** The unread count splits at any point of the list. */
  lemma {:induction false} UnreadSplit(a: seq<InAppNotification>, b: seq<InAppNotification>)
    ensures Unread(a + b) == Unread(a) + Unread(b)
  {
    if b == [] {
      assert a + b == a;
    } else {
      UnreadSplit(a, b[..|b| - 1]);
      assert (a + b)[..|a + b| - 1] == a + b[..|b| - 1];
    }
  }

  /** The list after an insertion: the new entry in front, cut back to 50. */
  function WithEntry(ns: seq<InAppNotification>, e: InAppNotification): (r: seq<InAppNotification>)
    ensures 1 <= |r| <= ListLimit && |r| <= |ns| + 1 && r[0] == e
    ensures r[1..] == ns[..|r| - 1]
    ensures |ns| < ListLimit ==> |r| == |ns| + 1
  {
    var l := [e] + ns;
    var r := if |l| > ListLimit then l[..ListLimit] else l;
    assert r[1..] == l[1..|r|];
    r
  }

  /**
   * An unread insertion into a list with room raises the unread count by
   * one; into a full list it raises it by one less the unread entry that
   * falls off the end.
   */
  lemma {:induction false} UnreadAfterInsert(ns: seq<InAppNotification>, e: InAppNotification)
    requires !e.isRead
    ensures |ns| < ListLimit ==> Unread(WithEntry(ns, e)) == Unread(ns) + 1
    ensures Unread(WithEntry(ns, e)) >= 1
    ensures Unread(WithEntry(ns, e)) == 1 + Unread(ns[..|WithEntry(ns, e)| - 1])
  {
    var r := WithEntry(ns, e);
    assert r == [e] + r[1..];
    UnreadSplit([e], r[1..]);
    assert [e][..0] == [];
    if |ns| < ListLimit {
      assert ns[..|r| - 1] == ns;
    }
  }

  /** The system notification title and the in-app entry for a server notification, if its type is known. */
  function NoticeFor(n: ServerNotification, formatCurrency: int -> string): (r: Option<(string, NoteInput)>)
    ensures r.Some? <==> n.kind in {"transfer", "quiz", "order_ready", "new_order"}
    ensures r.Some? && n.kind == "transfer" ==> r.value.1.kind == "transfer"
    ensures r.Some? && n.kind == "quiz" ==> r.value.1.kind == "mission"
    ensures r.Some? && n.kind in {"order_ready", "new_order"} ==> r.value.1.kind == "order"
  {
    match n.kind
    case "transfer" =>
      Some(("Transfer Diterima! \U{1F4B0}",
            NoteInput("transfer", "Transfer Diterima",
                      n.senderName + " mengirim " + formatCurrency(n.amount) + " poin",
                      "fa-arrow-down", "#10b981", None)))
    case "quiz" =>
      Some(("Quiz Baru Tersedia! \U{1F4DD}",
            NoteInput("mission", "Quiz Baru dari Dosen",
                      n.dosenName + " membuat quiz \"" + n.title + "\"",
                      "fa-chalkboard-teacher", "#8b5cf6", None)))
    case "order_ready" =>
      Some(("Pesanan Siap Diambil! \U{1F4E6}",
            NoteInput("order", "Pesanan Siap", "Pesanan Anda sudah siap diambil di tempat penjual",
                      "fa-check-circle", "#10b981", None)))
    case "new_order" =>
      Some(("Pesanan Baru Masuk! \U{1F6D2}",
            NoteInput("order", "Pesanan Baru", n.buyerName + " membeli produk Anda",
                      "fa-shopping-bag", "#ef4444", Some("pickup"))))
    case _ => None
  }

  class PushNotification {
    /** Notification.permission as last read. */
    var permission: string
    /** The entry under wp_push_enabled. */
    var pushPreference: Option<bool>
    /** The entry under wp_in_app_notifications ([] when absent). */
    var inApp: seq<InAppNotification>
    /** The entry under wp_notification_unread_count. */
    var unreadCount: int
    /** The titles of the system notifications shown, oldest first. */
    var shown: seq<string>

    constructor ()
      ensures permission == "default" && pushPreference.None? && inApp == [] && unreadCount == 0 && shown == []
    {
      permission := "default";
      pushPreference := None;
      inApp := [];
      unreadCount := 0;
      shown := [];
    }

    /** The counter agrees with the list and the list is within its limit. */
    ghost predicate Valid()
      reads this
    {
      unreadCount == Unread(inApp) && |inApp| <= ListLimit
    }

    /** isEnabled: permission granted and the preference not explicitly switched off. */
    function IsEnabled(): (b: bool)
      reads this`permission, this`pushPreference
      ensures b <==> permission == "granted" && pushPreference != Some(false)
    {
      permission == "granted" && pushPreference != Some(false)
    }

    /** savePreference: the switch is stored; switching off silences notifications even with permission. */
    method SavePreference(enabled: bool)
      modifies this`pushPreference
      ensures pushPreference == Some(enabled)
      ensures !enabled ==> !IsEnabled()
      ensures enabled ==> (IsEnabled() <==> permission == "granted")
    {
      pushPreference := Some(enabled);
    }

    /** show: the system notification appears only while notifications are enabled. */
    method Show(title: string)
      modifies this`shown
      ensures shown == if IsEnabled() then old(shown) + [title] else old(shown)
    {
      if IsEnabled() {
        shown := shown + [title];
      }
    }

    /** addInAppNotification: the new unread entry goes first, the list is cut to 50 and the counter recomputed. */
    method AddInAppNotification(n: NoteInput, id: string, createdAt: string)
      modifies this`inApp, this`unreadCount
      ensures inApp == WithEntry(old(inApp), NewEntry(n, id, createdAt))
      ensures unreadCount == Unread(inApp)
      ensures Valid()
    {
      var notifications := [NewEntry(n, id, createdAt)] + inApp;
      if |notifications| > ListLimit {
        notifications := notifications[..ListLimit];
      }
      inApp := notifications;
      unreadCount := Unread(notifications);
    }

    /** clearAll: an empty list and a zero counter. */
    method ClearAll()
      modifies this`inApp, this`unreadCount
      ensures inApp == [] && unreadCount == 0
      ensures Valid()
    {
      inApp := [];
      unreadCount := 0;
    }

    /**
     * processServerNotification: a known type shows its system notification
     * (when enabled) and adds its in-app entry; any other type does nothing.
     */
    method ProcessServerNotification(n: ServerNotification, formatCurrency: int -> string, id: string, createdAt: string)
      modifies this`inApp, this`unreadCount, this`shown
      ensures NoticeFor(n, formatCurrency).None? ==>
        inApp == old(inApp) && unreadCount == old(unreadCount) && shown == old(shown)
      ensures NoticeFor(n, formatCurrency).Some? ==>
        var (title, note) := NoticeFor(n, formatCurrency).value;
        shown == (if IsEnabled() then old(shown) + [title] else old(shown)) &&
        inApp == WithEntry(old(inApp), NewEntry(note, id, createdAt)) && Valid()
    {
      var notice := NoticeFor(n, formatCurrency);
      if notice.None? {
        return;
      }
      Show(notice.value.0);
      AddInAppNotification(notice.value.1, id, createdAt);
    }
  }
}
