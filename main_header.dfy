/**
 * The top bar (`MainHeader`): the notification list with its unread dot,
 * mark-as-read, delete and read-all, and the notification and profile
 * dropdowns, of which at most one is open.
 */
module MainHeader {
  import opened Seqs

  datatype Notification = Notification(id: string, title: string, content: string, time: string, read: bool)

  /** `MOCK_NOTIFICATIONS`: one unread answer notice. */
  const MockNotifications: seq<Notification> := [
    Notification("n1", "피드백 답변 완료",
                 "안녕하세요, 홍길동님.\n요청하신 '다크 모드 제안' 피드백에 대한 답변이 완료되었습니다.\n소중한 의견 감사합니다!",
                 "10분 전", false)
  ]

  /** `hasUnread`: some notification is not read. */
  predicate HasUnread(ns: seq<Notification>)
  {
    exists i :: 0 <= i < |ns| && !ns[i].read
  }

  /** The list after `handleMarkAsRead(item)`: an item already read changes nothing; otherwise every entry with its id is read. */
  function MarkAsRead(ns: seq<Notification>, item: Notification): (r: seq<Notification>)
    ensures |r| == |ns|
    ensures item.read ==> r == ns
    ensures !item.read ==> forall i :: 0 <= i < |ns| ==> r[i] == if ns[i].id == item.id then ns[i].(read := true) else ns[i]
  {
    if item.read then ns
    else MapWhere(ns, (n: Notification) => n.id == item.id, (n: Notification) => n.(read := true))
  }

  /** Marking the same notification twice is marking it once. */
  lemma MarkAsReadIdempotent(ns: seq<Notification>, item: Notification)
    ensures MarkAsRead(MarkAsRead(ns, item), item) == MarkAsRead(ns, item)
  {
    var once := MarkAsRead(ns, item);
    var twice := MarkAsRead(once, item);
    if !item.read {
      assert forall i :: 0 <= i < |ns| ==> twice[i] == once[i];
    }
  }

  /** Marking an item read never adds an unread one, and the item's own entries are read afterwards. */
  lemma MarkAsReadMarks(ns: seq<Notification>, item: Notification)
    ensures HasUnread(MarkAsRead(ns, item)) ==> HasUnread(ns)
    ensures !item.read ==> forall i :: 0 <= i < |ns| && ns[i].id == item.id ==> MarkAsRead(ns, item)[i].read
  {
    var r := MarkAsRead(ns, item);
    if HasUnread(r) {
      var i :| 0 <= i < |r| && !r[i].read;
      assert !ns[i].read;
    }
  }

  function NotNotificationId(id: string): Notification -> bool
  {
    (n: Notification) => n.id != id
  }

  /** The list after `handleItemDelete(id)`: the entries with that id go, the rest keep their order. */
  function DeleteNotification(ns: seq<Notification>, id: string): (r: seq<Notification>)
    ensures r == Filter(ns, NotNotificationId(id))
    ensures forall n :: n in r <==> n in ns && n.id != id
  {
    var keep := NotNotificationId(id);
    FilterMembers(ns, keep);
    Filter(ns, keep)
  }

  /** Deleting an id absent from the list changes nothing. */
  lemma DeleteAbsentIsNoOp(ns: seq<Notification>, id: string)
    requires forall i :: 0 <= i < |ns| ==> ns[i].id != id
    ensures DeleteNotification(ns, id) == ns
  {
    FilterKeepsAll(ns, NotNotificationId(id));
  }

  /** The list after `handleReadAll`: every entry read, nothing else changed. */
  function ReadAll(ns: seq<Notification>): (r: seq<Notification>)
    ensures |r| == |ns|
    ensures forall i :: 0 <= i < |ns| ==> r[i] == ns[i].(read := true)
    ensures !HasUnread(r)
  {
    Map(ns, (n: Notification) => n.(read := true))
  }

  /** Read-all is what marking each unread notification read comes to: nothing is unread, ids and order stay. */
  lemma ReadAllKeepsIds(ns: seq<Notification>)
    ensures forall i :: 0 <= i < |ns| ==> ReadAll(ns)[i].id == ns[i].id
    ensures !HasUnread(ns) ==> ReadAll(ns) == ns
  {
    if !HasUnread(ns) {
      var r := ReadAll(ns);
      assert forall i :: 0 <= i < |ns| ==> r[i] == ns[i];
    }
  }

  class Header {
    var notifications: seq<Notification>
    var notificationOpen: bool
    var profileOpen: bool

    /** The two dropdowns are never open together. */
    predicate Valid()
      reads this
    {
      !(notificationOpen && profileOpen)
    }

    constructor()
      ensures Valid() && notifications == MockNotifications && !notificationOpen && !profileOpen
      ensures HasUnread(notifications)
    {
      notifications := MockNotifications;
      notificationOpen, profileOpen := false, false;
      assert !MockNotifications[0].read;
    }

    /** The red dot on the bell. */
    function UnreadDot(): bool
      reads this
    {
      HasUnread(notifications)
    }

    /** `toggleProfile`: the notification dropdown closes and the profile one flips. */
    method ToggleProfile()
      requires Valid()
      modifies this`notificationOpen, this`profileOpen
      ensures Valid() && !notificationOpen && profileOpen == !old(profileOpen)
    {
      notificationOpen := false;
      profileOpen := !profileOpen;
    }

    /** `toggleNotification`: the profile dropdown closes and the notification one flips. */
    method ToggleNotification()
      requires Valid()
      modifies this`notificationOpen, this`profileOpen
      ensures Valid() && !profileOpen && notificationOpen == !old(notificationOpen)
    {
      profileOpen := false;
      notificationOpen := !notificationOpen;
    }

    /** The dropdown's own close button. */
    method CloseNotifications()
      requires Valid()
      modifies this`notificationOpen
      ensures Valid() && !notificationOpen
    {
      notificationOpen := false;
    }

    method MarkRead(item: Notification)
      modifies this`notifications
      ensures notifications == MarkAsRead(old(notifications), item)
    {
      notifications := MarkAsRead(notifications, item);
    }

    method DeleteItem(id: string)
      modifies this`notifications
      ensures notifications == DeleteNotification(old(notifications), id)
    {
      notifications := DeleteNotification(notifications, id);
    }

    /** After read-all the dot is gone and the list keeps its length. */
    method MarkAllRead()
      modifies this`notifications
      ensures notifications == ReadAll(old(notifications))
      ensures !UnreadDot() && |notifications| == |old(notifications)|
    {
      notifications := ReadAll(notifications);
    }
  }
}
