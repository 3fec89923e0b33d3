// The in-app notification list (src/contexts/NotificationContext.tsx): marking
// read, the realtime insert and the unread counter. Each server call's result is
// a parameter, and the list changes only after the call has succeeded.
module NotificationContext {
  import opened Wrappers

  /** An app_notifications row (the fields the list uses). */
  datatype AppNotification = AppNotification(id: string, title: string, message: string, read: bool)

  /** unreadCount: `notifications.filter(n => !n.read).length` */
  function UnreadCount(list: seq<AppNotification>): (r: nat)
    ensures r <= |list|
    ensures r == 0 <==> forall i :: 0 <= i < |list| ==> list[i].read
  {
    if list == [] then 0 else (if list[0].read then 0 else 1) + UnreadCount(list[1..])
  }

  /** `prev.map(n => n.id === id ? { ...n, read: true } : n)` */
  function MarkRead(list: seq<AppNotification>, id: string): (r: seq<AppNotification>)
    ensures |r| == |list|
  {
    seq(|list|, i requires 0 <= i < |list| => if list[i].id == id then list[i].(read := true) else list[i])
  }

  /** `prev.map(n => ({ ...n, read: true }))` */
  function MarkAllRead(list: seq<AppNotification>): (r: seq<AppNotification>)
    ensures |r| == |list|
  {
    seq(|list|, i requires 0 <= i < |list| => list[i].(read := true))
  }

  /** Marking one notification read leaves every other one as it was and reads every
    * notification with that id. */
  lemma MarkReadOnlyMatching(list: seq<AppNotification>, id: string)
    ensures forall i :: 0 <= i < |list| && list[i].id != id ==> MarkRead(list, id)[i] == list[i]
    ensures forall i :: 0 <= i < |list| && list[i].id == id ==>
      MarkRead(list, id)[i].read && MarkRead(list, id)[i].(read := list[i].read) == list[i]
  {
  }

  function CountUnreadWithId(list: seq<AppNotification>, id: string): nat
  {
    if list == [] then 0 else (if !list[0].read && list[0].id == id then 1 else 0) + CountUnreadWithId(list[1..], id)
  }

  /** The unread counter drops by the number of unread notifications carrying that id. */
  lemma {:induction false} UnreadAfterMarkRead(list: seq<AppNotification>, id: string)
    ensures UnreadCount(MarkRead(list, id)) == UnreadCount(list) - CountUnreadWithId(list, id)
  {
    if list != [] {
      UnreadAfterMarkRead(list[1..], id);
      assert MarkRead(list, id)[1..] == MarkRead(list[1..], id);
    }
  }

  /** Marking the same notification twice is marking it once. */
  lemma MarkReadIdempotent(list: seq<AppNotification>, id: string)
    ensures MarkRead(MarkRead(list, id), id) == MarkRead(list, id)
  {
  }

  /** After markAllAsRead nothing is unread, and nothing but the flag changed. */
  lemma MarkAllReadClearsCount(list: seq<AppNotification>)
    ensures UnreadCount(MarkAllRead(list)) == 0
    ensures forall i :: 0 <= i < |list| ==> MarkAllRead(list)[i].(read := list[i].read) == list[i]
  {
  }

  /** A realtime insert goes to the front and the counter rises when it is unread. */
  lemma PrependCount(n: AppNotification, list: seq<AppNotification>)
    ensures UnreadCount([n] + list) == UnreadCount(list) + (if n.read then 0 else 1)
  {
    assert ([n] + list)[1..] == list;
  }

  class Provider {
    var notifications: seq<AppNotification>
    var loading: bool

    constructor ()
      ensures notifications == [] && loading
    {
      notifications := [];
      loading := true;
    }

    /** fetchNotifications with the query's result: a null result empties the list; an error
      * keeps it. Without a company nothing happens, not even the end of loading. */
    method FetchNotifications(hasCompany: bool, result: Result<Option<seq<AppNotification>>>)
      modifies this
      ensures !hasCompany ==> notifications == old(notifications) && loading == old(loading)
      ensures hasCompany ==> !loading
      ensures hasCompany && result.Ok? ==> notifications == result.value.GetOr([])
      ensures hasCompany && result.Err? ==> notifications == old(notifications)
    {
      if !hasCompany {
        return;
      }
      if result.Ok? {
        notifications := result.value.GetOr([]);
      }
      loading := false;
    }

    /** markAsRead with the update's error, if any. */
    method MarkAsRead(id: string, error: Option<string>)
      modifies this
      ensures error.None? ==> notifications == MarkRead(old(notifications), id)
      ensures error.Some? ==> notifications == old(notifications)
      ensures loading == old(loading)
    {
      if error.Some? {
        return;
      }
      notifications := MarkRead(notifications, id);
    }

    /** markAllAsRead with the update's error, if any. */
    method MarkAllAsRead(hasCompany: bool, error: Option<string>)
      modifies this
      ensures hasCompany && error.None? ==> notifications == MarkAllRead(old(notifications))
      ensures !(hasCompany && error.None?) ==> notifications == old(notifications)
      ensures loading == old(loading)
    {
      if !hasCompany || error.Some? {
        return;
      }
      notifications := MarkAllRead(notifications);
    }

    /** The INSERT subscription's callback. */
    method OnInsert(n: AppNotification)
      modifies this
      ensures notifications == [n] + old(notifications) && loading == old(loading)
    {
      notifications := [n] + notifications;
    }
  }
}
