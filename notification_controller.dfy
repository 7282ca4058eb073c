/** The handlers of server/controllers/notification.controller.ts: the admin
    list of notifications and marking one as read. */
module NotificationController {
  import opened Wrappers
  import opened Http
  import opened ApiErrors
  import opened ApiResponses
  import opened Documents

  const IdRequired := "Notification ID is required"
  const NotFound := "Notification not found"
  const Fetched := "Notifications fetched successfully"
  /** The document store's message when `save()` finds the required
      `status` empty. */
  const StatusRequired := "Notification validation failed: status: Path `status` is required."

  /** `notification.status ? notification.status = "read" : notification.status`:
      a truthy (non-empty) status becomes "read", an empty one stays. */
  function MarkRead(status: string): (s: string)
    ensures status != "" ==> s == Read
    ensures status == "" ==> s == status
  {
    if status != "" then Read else status
  }

  lemma MarkReadIdempotent(status: string)
    ensures MarkRead(MarkRead(status)) == MarkRead(status)
    ensures MarkRead(Read) == Read
  {
  }

  /** The number of notifications still unread. */
  function UnreadCount(ns: seq<Notification>): (c: nat)
    ensures c <= |ns|
  {
    if ns == [] then 0 else (if ns[0].status == Unread then 1 else 0) + UnreadCount(ns[1..])
  }

  /** Replacing one notification changes the unread count only by that one. */
  lemma {:induction false} UnreadCountUpdate(ns: seq<Notification>, i: nat, n: Notification)
    requires i < |ns|
    ensures UnreadCount(ns[i := n]) ==
            UnreadCount(ns) - (if ns[i].status == Unread then 1 else 0) + (if n.status == Unread then 1 else 0)
  {
    if i > 0 {
      assert ns[i := n][1..] == ns[1..][i - 1 := n];
      UnreadCountUpdate(ns[1..], i - 1, n);
    } else {
      assert ns[0 := n][1..] == ns[1..];
    }
  }

  /** The reply both handlers send: every notification, newest first. */
  function NotificationList(ns: seq<Notification>, message: Option<string>): (r: Reply<ApiResponse<seq<Notification>>>)
    ensures r.status == 200 && r.body.statusCode == 200 && r.body.success && r.cookies == []
    ensures multiset(r.body.data) == multiset(ns) && SortedDesc(r.body.data, NotificationCreated)
  {
    Reply(200, [], NewApiResponse(200, NewestNotificationsFirst(ns), message))
  }

  /** `getAllNotifications`. */
  method GetAllNotifications(store: NotificationStore) returns (r: Reply<ApiResponse<seq<Notification>>>)
    ensures r == NotificationList(store.notifications, Some(Fetched))
    ensures r.body.message == Fetched
  {
    r := NotificationList(store.notifications, Some(Fetched));
  }

  /** `updateNotificationStatus`: a missing id or an unknown notification is
      refused with status 500 (the 400 and the 404 are rewrapped by the
      catch) and nothing changes. A stored notification with an empty status
      keeps it, and saving it fails the schema's `required` rule: 500 with the
      validation message, nothing changes. Otherwise the first notification
      with that id is marked read, nothing else changes, and the whole list
      comes back newest first. */
  method UpdateNotificationStatus(store: NotificationStore, id: Option<string>)
    returns (r: Result<Reply<ApiResponse<seq<Notification>>>, ApiError>)
    modifies store
    ensures (id.None? || id == Some("")) ==>
              r == Failure(Throw(500, IdRequired)) && store.notifications == old(store.notifications)
    ensures id.Some? && id.value != "" && old(store.IndexOf(id.value)).None? ==>
              r == Failure(Throw(500, NotFound)) && store.notifications == old(store.notifications)
    ensures id.Some? && id.value != "" && old(store.IndexOf(id.value)).Some? &&
            old(store.notifications[store.IndexOf(id.value).value]).status == "" ==>
              r == Failure(Throw(500, StatusRequired)) && store.notifications == old(store.notifications)
    ensures id.Some? && id.value != "" && old(store.IndexOf(id.value)).Some? &&
            old(store.notifications[store.IndexOf(id.value).value]).status != "" ==>
              var i := old(store.IndexOf(id.value)).value;
              var n := old(store.notifications[i]);
              n.(status := MarkRead(n.status)).status == Read &&
              store.notifications == old(store.notifications)[i := n.(status := MarkRead(n.status))] &&
              r == Success(NotificationList(store.notifications, None))
  {
    if id.None? || id.value == "" {
      return Failure(Throw(500, IdRequired));
    }
    var found := store.IndexOf(id.value);
    if found.None? {
      return Failure(Throw(500, NotFound));
    }
    var i := found.value;
    var n := store.notifications[i];
    if MarkRead(n.status) == "" {
      return Failure(Throw(500, StatusRequired));
    }
    store.Replace(i, n.(status := MarkRead(n.status)));
    r := Success(NotificationList(store.notifications, None));
  }

  /** Marking an unread notification read lowers the unread count by one. */
  lemma MarkReadLowersUnread(ns: seq<Notification>, i: nat)
    requires i < |ns| && ns[i].status == Unread
    ensures UnreadCount(ns[i := ns[i].(status := MarkRead(ns[i].status))]) == UnreadCount(ns) - 1
  {
    UnreadCountUpdate(ns, i, ns[i].(status := MarkRead(ns[i].status)));
  }

  /** Saving a notification under its own id does not move `findById`. */
  lemma {:induction false} IndexOfAfterSave(ns: seq<Notification>, i: nat, n: Notification, id: string, from: nat)
    requires i < |ns| && n.id == ns[i].id && from <= |ns|
    ensures NotificationIndexIn(ns[i := n], id, from) == NotificationIndexIn(ns, id, from)
    decreases |ns| - from
  {
    if from < |ns| && ns[from].id != id {
      IndexOfAfterSave(ns, i, n, id, from + 1);
    }
  }

  /** A second update of the same notification changes nothing and sends
      the same reply. */
  method MarkingReadTwice(store: NotificationStore, id: string)
    returns (first: Result<Reply<ApiResponse<seq<Notification>>>, ApiError>,
             second: Result<Reply<ApiResponse<seq<Notification>>>, ApiError>)
    modifies store
    ensures first.Success? ==> second == first
  {
    ghost var before := store.notifications;
    first := UpdateNotificationStatus(store, Some(id));
    ghost var middle := store.notifications;
    second := UpdateNotificationStatus(store, Some(id));
    if first.Success? {
      var i := NotificationIndexIn(before, id, 0).value;
      IndexOfAfterSave(before, i, middle[i], id, 0);
      MarkReadIdempotent(before[i].status);
      assert middle[i].(status := MarkRead(middle[i].status)) == middle[i];
      assert store.notifications == middle;
    }
  }
}
