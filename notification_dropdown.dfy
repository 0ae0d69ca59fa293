// The notification bell: a list updated by realtime pushes and read marks,
// and an unread counter kept beside it. Server calls become an outcome
// parameter; the read timestamp is the caller's clock reading.
module NotificationDropdown {
  import opened Common

  datatype Notification = Notification(id: string, notificationType: string, title: string,
                                       isRead: bool, readAt: Option<string>)

  /** `{ ...n, is_read: true, read_at: now }`. */
  function Read(n: Notification, now: string): Notification
  {
    n.(isRead := true, readAt := Some(now))
  }

  /** The list after "mark all as read". */
  function AllRead(ns: seq<Notification>, now: string): (r: seq<Notification>)
    ensures |r| == |ns|
    ensures forall i :: 0 <= i < |r| ==> r[i] == Read(ns[i], now)
  {
    seq(|ns|, i requires 0 <= i < |ns| => Read(ns[i], now))
  }

  /** The list after marking notification `id` read. */
  function OneRead(ns: seq<Notification>, id: string, now: string): (r: seq<Notification>)
    ensures |r| == |ns|
    ensures forall i :: 0 <= i < |r| ==> r[i] == if ns[i].id == id then Read(ns[i], now) else ns[i]
  {
    seq(|ns|, i requires 0 <= i < |ns| => if ns[i].id == id then Read(ns[i], now) else ns[i])
  }

  /** Number of unread notifications in a list. */
  function Unread(ns: seq<Notification>): nat
  {
    if ns == [] then 0 else (if ns[0].isRead then 0 else 1) + Unread(ns[1..])
  }

  /** After "mark all as read" nothing is unread and every notification keeps its identity. */
  lemma {:induction false} AllReadLeavesNoneUnread(ns: seq<Notification>, now: string)
    ensures Unread(AllRead(ns, now)) == 0
    ensures forall i :: 0 <= i < |ns| ==> AllRead(ns, now)[i].id == ns[i].id
  {
    if ns != [] {
      AllReadLeavesNoneUnread(ns[1..], now);
      assert AllRead(ns, now)[1..] == AllRead(ns[1..], now);
    }
  }

  /**
   * Marking one read touches only the notifications with that id, and the
   * unread count of the list drops by one when a single unread one carries it.
   */
  lemma {:induction false} OneReadCount(ns: seq<Notification>, id: string, now: string)
    ensures Unread(OneRead(ns, id, now)) <= Unread(ns)
    ensures (forall i :: 0 <= i < |ns| && ns[i].id == id ==> ns[i].isRead) ==> Unread(OneRead(ns, id, now)) == Unread(ns)
  {
    if ns != [] {
      OneReadCount(ns[1..], id, now);
      assert OneRead(ns, id, now)[1..] == OneRead(ns[1..], id, now);
    }
  }

  /** The badge over the bell: hidden at zero, `99+` above 99, else the number. */
  function Badge(count: nat): (r: Option<string>)
    ensures r.None? <==> count == 0
    ensures count > 99 ==> r == Some("99+")
    ensures 0 < count <= 99 ==> r.Some? && AllDigits(r.value) && |r.value| <= 2
  {
    if count == 0 then None
    else if count > 99 then Some("99+")
    else
      assert count >= 10 ==> |NatToString(count)| == |NatToString(count / 10)| + 1;
      Some(NatToString(count))
  }

  /** A badge with digits shows the exact count. */
  lemma BadgeReadsBack(count: nat)
    requires 0 < count <= 99
    ensures DigitsValue(Badge(count).value) == count
  {
    NatToStringValue(count);
  }

  /** `getNotificationIcon`: the symbol shown for each notification type. */
  function Icon(notificationType: string): (r: string)
    ensures notificationType !in {"message", "order", "payment", "conversation", "alert"} ==> r == "🔔"
  {
    match notificationType
    case "message" => "💬"
    case "order" => "📦"
    case "payment" => "💳"
    case "conversation" => "👤"
    case "alert" => "⚠️"
    case _ => "🔔"
  }

  class Dropdown {
    var notifications: seq<Notification>
    var unreadCount: nat

    constructor ()
      ensures notifications == [] && unreadCount == 0
    {
      notifications := [];
      unreadCount := 0;
    }

    /** `loadNotifications`: the fetched page replaces the list; a failed fetch (`None`) is only logged. */
    method LoadNotifications(response: Option<seq<Notification>>)
      modifies this
      ensures response.Some? ==> notifications == response.value
      ensures response.None? ==> notifications == old(notifications)
      ensures unreadCount == old(unreadCount)
    {
      if response.Some? {
        notifications := response.value;
      }
    }

    /** `loadUnreadCount`: the server's count replaces the counter; a failed fetch (`None`) is only logged. */
    method LoadUnreadCount(response: Option<nat>)
      modifies this
      ensures response.Some? ==> unreadCount == response.value
      ensures response.None? ==> unreadCount == old(unreadCount)
      ensures notifications == old(notifications)
    {
      if response.Some? {
        unreadCount := response.value;
      }
    }

    /** The realtime subscription: the pushed notification goes on top and the counter goes up by one. */
    method Receive(n: Notification)
      modifies this
      ensures notifications == [n] + old(notifications)
      ensures unreadCount == old(unreadCount) + 1
    {
      notifications := [n] + notifications;
      unreadCount := unreadCount + 1;
    }

    /** `handleMarkAllAsRead`: on success every notification is read and the counter is zero; a failed call changes nothing. */
    method MarkAllAsRead(now: string, callSucceeds: bool)
      modifies this
      ensures callSucceeds ==> notifications == AllRead(old(notifications), now) && unreadCount == 0
      ensures !callSucceeds ==> notifications == old(notifications) && unreadCount == old(unreadCount)
    {
      if callSucceeds {
        notifications := AllRead(notifications, now);
        unreadCount := 0;
      }
    }

    /** `handleMarkAsRead`: on success only that notification is marked and the counter drops by one, not below zero. */
    method MarkAsRead(id: string, now: string, callSucceeds: bool)
      modifies this
      ensures callSucceeds ==> notifications == OneRead(old(notifications), id, now)
      ensures callSucceeds ==> unreadCount == if old(unreadCount) > 0 then old(unreadCount) - 1 else 0
      ensures !callSucceeds ==> notifications == old(notifications) && unreadCount == old(unreadCount)
    {
      if callSucceeds {
        notifications := OneRead(notifications, id, now);
        unreadCount := if unreadCount > 0 then unreadCount - 1 else 0;
      }
    }

    /** Clicking an item marks it only while it is unread. */
    method Click(n: Notification, now: string, callSucceeds: bool)
      modifies this
      ensures n.isRead ==> notifications == old(notifications) && unreadCount == old(unreadCount)
      ensures !n.isRead && callSucceeds ==> notifications == OneRead(old(notifications), n.id, now)
      ensures !n.isRead && !callSucceeds ==> notifications == old(notifications)
      ensures !n.isRead ==> unreadCount == (if callSucceeds then (if old(unreadCount) > 0 then old(unreadCount) - 1 else 0) else old(unreadCount))
    {
      if !n.isRead {
        MarkAsRead(n.id, now, callSucceeds);
      }
    }
  }
}
