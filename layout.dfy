/** The notification list held by the application shell (apps/web/src/components/Layout.tsx). */
module Layout {
  import opened Common
  import opened WebTypes
  import opened NotificationCenter

  /** The list after marking one id read: same length and order, that id read, all else untouched. */
  function MarkedRead(ns: seq<Notification>, id: string): (r: seq<Notification>)
    ensures |r| == |ns|
    ensures forall k :: 0 <= k < |ns| && ns[k].id != id ==> r[k] == ns[k]
    ensures forall k :: 0 <= k < |ns| && ns[k].id == id ==> r[k] == ns[k].(read := true)
  {
    MapSeq(ns, (n: Notification) => if n.id == id then n.(read := true) else n)
  }

  function AllMarkedRead(ns: seq<Notification>): (r: seq<Notification>)
    ensures |r| == |ns| && forall k :: 0 <= k < |ns| ==> r[k] == ns[k].(read := true)
  {
    MapSeq(ns, (n: Notification) => n.(read := true))
  }

  function Without(ns: seq<Notification>, id: string): seq<Notification> {
    Filter(ns, (n: Notification) => n.id != id)
  }

  /** Mark-all is idempotent and leaves nothing unread. */
  lemma AllMarkedReadIdempotent(ns: seq<Notification>)
    ensures AllMarkedRead(AllMarkedRead(ns)) == AllMarkedRead(ns)
    ensures UnreadCount(AllMarkedRead(ns)) == 0
  {
    UnreadCountZeroIffAllRead(AllMarkedRead(ns));
  }

  /** Delete removes exactly the entries with that id and keeps the others in order. */
  lemma WithoutRemovesExactlyThatId(ns: seq<Notification>, id: string)
    ensures IsSubseq(Without(ns, id), ns)
    ensures forall n :: n in Without(ns, id) <==> n in ns && n.id != id
  {
    FilterIsSubseq(ns, (n: Notification) => n.id != id);
  }

  /** The seeded entries: an unread assignment five minutes before `now` and a read comment
      a day before, both addressed to the current user id or "" when there is none. */
  function SeedNotifications(currentUserId: Option<string>, now: int): seq<Notification> {
    var owner := if Truthy(currentUserId) then currentUserId.value else "";
    [ Notification("1", owner, "issue_assigned", "New issue assigned",
                   "You have been assigned to \"Fix login bug\"", false, now - 300000),
      Notification("2", owner, "comment", "New comment",
                   "John commented on \"Update homepage\"", true, now - 86400000) ]
  }

  class NotificationFeed {
    /** The signed-in user's id, None when nobody is signed in. */
    const currentUserId: Option<string>
    var notifications: seq<Notification>

    /** The red dot on the bell shows iff some notification is unread. */
    function ShowsBadge(): bool
      reads this
    {
      UnreadCount(notifications) > 0
    }

    constructor(currentUserId: Option<string>, now: int)
      ensures this.currentUserId == currentUserId
      ensures notifications == SeedNotifications(currentUserId, now)
      ensures UnreadCount(notifications) == 1
    {
      this.currentUserId := currentUserId;
      var seed := SeedNotifications(currentUserId, now);
      assert Filter(seed, IsUnread) == [seed[0]];
      notifications := seed;
    }

    method MarkAsRead(id: string)
      modifies this
      ensures notifications == MarkedRead(old(notifications), id)
    {
      notifications := MarkedRead(notifications, id);
    }

    method MarkAllAsRead()
      modifies this
      ensures notifications == AllMarkedRead(old(notifications))
      ensures !ShowsBadge()
    {
      notifications := AllMarkedRead(notifications);
      AllMarkedReadIdempotent(old(notifications));
    }

    method Delete(id: string)
      modifies this
      ensures notifications == Without(old(notifications), id)
    {
      notifications := Without(notifications, id);
    }

    /** The 'notifications' socket handler: prepend when addressed to the signed-in user. */
    method Receive(n: Notification)
      modifies this
      ensures currentUserId == Some(n.userId) ==> notifications == [n] + old(notifications)
      ensures currentUserId != Some(n.userId) ==> notifications == old(notifications)
    {
      if currentUserId == Some(n.userId) {
        notifications := [n] + notifications;
      }
    }
  }

  /** The badge shows exactly when some entry is unread. */
  lemma BadgeIffSomeUnread(ns: seq<Notification>)
    ensures UnreadCount(ns) > 0 <==> exists k :: 0 <= k < |ns| && !ns[k].read
  {
    UnreadCountZeroIffAllRead(ns);
  }
}
