/** src/stores/notificationStore.ts: the in-app notifications of all users.

    Every action works on the in-memory array and writes it through to
    storage, as the task store does. The id generator and the clock are
    parameters. */
module NotificationStore {
  import opened Optional
  import opened Arrays
  import opened Storage

  const NotificationsKey := "atmos_notifications"

  datatype NotificationType =
    | TaskAssigned
    | TaskCompleted
    | PaymentDue
    | PaymentReceived
    | BookingConfirmed
    | PromiseDeadline
    | MemberJoined
    | GroupUpdate
    | General

  /** A notification; `created_at` is a clock reading. */
  datatype Notification = Notification(
    id: string,
    userId: string,
    groupId: Option<string>,
    kind: NotificationType,
    title: string,
    message: string,
    isRead: bool,
    sendEmail: bool,
    sendSms: bool,
    emailSent: bool,
    smsSent: bool,
    createdAt: int)

  /** `Omit<Notification, 'id' | 'is_read' | 'created_at'>`, as
      addNotification takes it. */
  datatype NotificationDraft = NotificationDraft(
    userId: string,
    groupId: Option<string>,
    kind: NotificationType,
    title: string,
    message: string,
    sendEmail: bool,
    sendSms: bool,
    emailSent: bool,
    smsSent: bool)

  function NotificationIs(id: string): Notification -> bool {
    (n: Notification) => n.id == id
  }

  function NotificationIsNot(id: string): Notification -> bool {
    (n: Notification) => n.id != id
  }

  function ForUser(userId: string): Notification -> bool {
    (n: Notification) => n.userId == userId
  }

  function UnreadFor(userId: string): Notification -> bool {
    (n: Notification) => n.userId == userId && !n.isRead
  }

  // ---------------------------------------------------------------------
  // Mutations
  // ---------------------------------------------------------------------

  /** addNotification's record: the draft under a fresh id, stamped with the
      clock, unread and not yet sent by e-mail or SMS whatever the draft
      said. */
  function NewNotification(d: NotificationDraft, freshId: string, now: int): (n: Notification)
    ensures n.id == freshId && n.userId == d.userId && n.createdAt == now
    ensures !n.isRead && !n.emailSent && !n.smsSent
    ensures n.sendEmail == d.sendEmail && n.sendSms == d.sendSms
  {
    Notification(freshId, d.userId, d.groupId, d.kind, d.title, d.message, false,
                 d.sendEmail, d.sendSms, false, false, now)
  }

  /** `getUnreadCount`: the user's notifications not yet read. */
  function UnreadCount(notifications: seq<Notification>, userId: string): nat {
    |Filter(notifications, UnreadFor(userId))|
  }

  /** A new notification adds one to its user's unread count and leaves
      every other user's count as it was. */
  lemma AddedNotificationIsUnread(notifications: seq<Notification>, d: NotificationDraft, freshId: string,
                                  now: int, userId: string)
    ensures UnreadCount(notifications + [NewNotification(d, freshId, now)], userId)
            == UnreadCount(notifications, userId) + if userId == d.userId then 1 else 0
  {
    var n := NewNotification(d, freshId, now);
    FilterAppend(notifications, [n], UnreadFor(userId));
    if userId == d.userId {
      assert Filter([n], UnreadFor(userId)) == [n];
    } else {
      assert Filter([n], UnreadFor(userId)) == [];
    }
  }

  /** markAsRead's map: the notifications with that id become read, nothing
      else changes. */
  function MarkedRead(notifications: seq<Notification>, id: string): (r: seq<Notification>)
    ensures |r| == |notifications|
    ensures forall i :: 0 <= i < |notifications| ==>
              r[i] == if notifications[i].id == id then notifications[i].(isRead := true) else notifications[i]
  {
    MapIf(notifications, NotificationIs(id), (n: Notification) => n.(isRead := true))
  }

  /** Marking a notification read twice is marking it read once. */
  lemma MarkedReadIdempotent(notifications: seq<Notification>, id: string)
    ensures MarkedRead(MarkedRead(notifications, id), id) == MarkedRead(notifications, id)
  {
    var once := MarkedRead(notifications, id);
    var twice := MarkedRead(once, id);
    assert forall i :: 0 <= i < |notifications| ==> twice[i] == once[i];
  }

  /** markAllAsRead's map: every notification of the user becomes read, the
      notifications of other users do not change. */
  function MarkedAllRead(notifications: seq<Notification>, userId: string): (r: seq<Notification>)
    ensures |r| == |notifications|
    ensures forall i :: 0 <= i < |notifications| ==>
              r[i] == if notifications[i].userId == userId then notifications[i].(isRead := true) else notifications[i]
  {
    MapIf(notifications, ForUser(userId), (n: Notification) => n.(isRead := true))
  }

  /** After markAllAsRead the user has no unread notification, and every other
      user's unread count and notifications are as before. */
  lemma MarkAllReadClearsUnread(notifications: seq<Notification>, userId: string, other: string)
    ensures UnreadCount(MarkedAllRead(notifications, userId), userId) == 0
    ensures other != userId ==>
              && UnreadCount(MarkedAllRead(notifications, userId), other) == UnreadCount(notifications, other)
              && Filter(MarkedAllRead(notifications, userId), ForUser(other)) == Filter(notifications, ForUser(other))
  {
    var r := MarkedAllRead(notifications, userId);
    assert forall x :: x in r ==> !UnreadFor(userId)(x) by {
      forall x | x in r ensures !UnreadFor(userId)(x) {
        var k :| 0 <= k < |r| && r[k] == x;
      }
    }
    FilterKeepsNone(r, UnreadFor(userId));
    if other != userId {
      FilterPointwise(notifications, r, UnreadFor(other));
      FilterPointwise(notifications, r, ForUser(other));
    }
  }

  /** deleteNotification's filter: exactly the notifications with that id
      go, the rest stay in order. */
  function NotificationDeleted(notifications: seq<Notification>, id: string): (r: seq<Notification>)
    ensures forall n :: n in r <==> n in notifications && n.id != id
    ensures forall n :: multiset(r)[n] == if n.id != id then multiset(notifications)[n] else 0
    ensures IsSubsequence(r, notifications)
  {
    FilterMultiset(notifications, NotificationIsNot(id));
    FilterIsSubsequence(notifications, NotificationIsNot(id));
    Filter(notifications, NotificationIsNot(id))
  }

  /** Deleting a notification just added under a fresh id restores the list. */
  lemma AddThenDeleteNotification(notifications: seq<Notification>, d: NotificationDraft, freshId: string, now: int)
    requires forall n :: n in notifications ==> n.id != freshId
    ensures NotificationDeleted(notifications + [NewNotification(d, freshId, now)], freshId) == notifications
  {
    FilterOutAppended(notifications, NewNotification(d, freshId, now), NotificationIsNot(freshId));
  }

  // ---------------------------------------------------------------------
  // getUserNotifications: filter, then sort newest first
  // ---------------------------------------------------------------------

  predicate NewestFirst(ns: seq<Notification>) {
    forall i, j :: 0 <= i < j < |ns| ==> ns[i].createdAt >= ns[j].createdAt
  }

  /** Putting a notification no older than the head of a newest-first list
      in front of it keeps the list newest first. */
  lemma ConsNewestFirst(x: Notification, rest: seq<Notification>)
    requires NewestFirst(rest)
    requires rest != [] ==> rest[0].createdAt <= x.createdAt
    ensures NewestFirst([x] + rest)
  {
    var r := [x] + rest;
    forall i, j | 0 <= i < j < |r| ensures r[i].createdAt >= r[j].createdAt {
      if i == 0 && j > 1 {
        assert rest[0].createdAt >= rest[j - 1].createdAt;
      }
    }
  }

  /** Inserts `n` into a newest-first list before the first notification that
      is not newer than it. */
  function InsertNewestFirst(n: Notification, sorted: seq<Notification>): (r: seq<Notification>)
    requires NewestFirst(sorted)
    ensures NewestFirst(r)
    ensures multiset(r) == multiset(sorted) + multiset{n}
    ensures r != [] && (r[0] == n || (sorted != [] && r[0] == sorted[0]))
  {
    if sorted == [] then [n]
    else if sorted[0].createdAt <= n.createdAt then
      ConsNewestFirst(n, sorted);
      [n] + sorted
    else
      var rest := InsertNewestFirst(n, sorted[1..]);
      assert sorted == [sorted[0]] + sorted[1..];
      ConsNewestFirst(sorted[0], rest);
      [sorted[0]] + rest
  }

  /** `sort((a, b) => b.created_at - a.created_at)`, as an insertion sort
      that keeps notifications of the same time in stored order. */
  function SortNewestFirst(ns: seq<Notification>): (r: seq<Notification>)
    ensures NewestFirst(r)
    ensures multiset(r) == multiset(ns)
  {
    if ns == [] then []
    else
      assert ns == [ns[0]] + ns[1..];
      InsertNewestFirst(ns[0], SortNewestFirst(ns[1..]))
  }

  /** getUserNotifications: exactly the user's notifications, each as often
      as stored, newest first. */
  function UserNotificationsOf(notifications: seq<Notification>, userId: string): (r: seq<Notification>)
    ensures NewestFirst(r)
    ensures multiset(r) == multiset(Filter(notifications, ForUser(userId)))
    ensures forall n :: n in r <==> n in notifications && n.userId == userId
  {
    var mine := Filter(notifications, ForUser(userId));
    var r := SortNewestFirst(mine);
    assert forall n :: n in r <==> n in multiset(r);
    assert forall n :: n in mine <==> n in multiset(mine);
    assert forall n :: n in mine <==> n in notifications && n.userId == userId;
    r
  }

  // ---------------------------------------------------------------------
  // The store
  // ---------------------------------------------------------------------

  class NotificationState {
    var notifications: seq<Notification>
    var notificationStore: Store<Notification>

    /** Memory and storage hold the same array. */
    ghost predicate Synced() reads this {
      Load(notificationStore, NotificationsKey) == notifications
    }

    /** The store's initial state is what storage holds. */
    constructor (notificationStore0: Store<Notification>)
      ensures notificationStore == notificationStore0 && Synced()
    {
      notificationStore := notificationStore0;
      notifications := Load(notificationStore0, NotificationsKey);
    }

    method SetNotifications(newNotifications: seq<Notification>)
      modifies this
      ensures notifications == newNotifications
      ensures notificationStore == Save(old(notificationStore), NotificationsKey, newNotifications)
      ensures Synced()
    {
      notifications := newNotifications;
      notificationStore := Save(notificationStore, NotificationsKey, newNotifications);
    }

    /** `addNotification`: appends the new unread notification. */
    method AddNotification(d: NotificationDraft, freshId: string, now: int) returns (n: Notification)
      modifies this
      ensures n == NewNotification(d, freshId, now)
      ensures notifications == old(notifications) + [n]
      ensures notificationStore == Save(old(notificationStore), NotificationsKey, notifications)
      ensures Synced()
    {
      n := NewNotification(d, freshId, now);
      notifications := notifications + [n];
      notificationStore := Save(notificationStore, NotificationsKey, notifications);
    }

    method MarkAsRead(id: string)
      modifies this
      ensures notifications == MarkedRead(old(notifications), id)
      ensures notificationStore == Save(old(notificationStore), NotificationsKey, notifications)
      ensures Synced()
    {
      notifications := MarkedRead(notifications, id);
      notificationStore := Save(notificationStore, NotificationsKey, notifications);
    }

    /** `markAllAsRead`: afterwards the user's unread count is zero. */
    method MarkAllAsRead(userId: string)
      modifies this
      ensures notifications == MarkedAllRead(old(notifications), userId)
      ensures notificationStore == Save(old(notificationStore), NotificationsKey, notifications)
      ensures Synced()
      ensures UnreadCountOf(userId) == 0
    {
      MarkAllReadClearsUnread(notifications, userId, userId);
      notifications := MarkedAllRead(notifications, userId);
      notificationStore := Save(notificationStore, NotificationsKey, notifications);
    }

    method DeleteNotification(id: string)
      modifies this
      ensures notifications == NotificationDeleted(old(notifications), id)
      ensures notificationStore == Save(old(notificationStore), NotificationsKey, notifications)
      ensures Synced()
    {
      notifications := NotificationDeleted(notifications, id);
      notificationStore := Save(notificationStore, NotificationsKey, notifications);
    }

    function UserNotifications(userId: string): seq<Notification> reads this {
      UserNotificationsOf(notifications, userId)
    }

    function UnreadCountOf(userId: string): nat reads this {
      UnreadCount(notifications, userId)
    }

    method LoadFromStorage()
      modifies this`notifications
      ensures notifications == Load(notificationStore, NotificationsKey)
      ensures Synced()
    {
      notifications := Load(notificationStore, NotificationsKey);
    }

    method SaveToStorage()
      modifies this`notificationStore
      ensures notificationStore == Save(old(notificationStore), NotificationsKey, notifications)
      ensures Synced()
    {
      notificationStore := Save(notificationStore, NotificationsKey, notifications);
    }
  }
}
