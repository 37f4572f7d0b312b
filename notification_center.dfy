/** The notification dropdown (apps/web/src/components/NotificationCenter.tsx): unread count,
    relative-time labels, per-type icons and the footer. Times are integer milliseconds:
    `diffMs` is now minus the notification's creation instant. */
module NotificationCenter {
  import opened Common
  import opened WebTypes

  function IsUnread(n: Notification): bool {
    !n.read
  }

  /** unreadCount: the number of notifications with read = false. */
  function UnreadCount(ns: seq<Notification>): nat {
    |Filter(ns, IsUnread)|
  }

  lemma {:induction false} UnreadCountZeroIffAllRead(ns: seq<Notification>)
    ensures UnreadCount(ns) == 0 <==> forall k :: 0 <= k < |ns| ==> ns[k].read
  {
    if k :| 0 <= k < |ns| && !ns[k].read {
      assert ns[k] in Filter(ns, IsUnread);
    }
    if UnreadCount(ns) != 0 {
      var n := Filter(ns, IsUnread)[0];
      assert n in ns && !n.read;
    }
  }

  /** The four relative-time buckets of formatTimeAgo. */
  datatype TimeAgo = JustNow | MinutesAgo(n: int) | HoursAgo(n: int) | DaysAgo(n: int)

  /** The bucket of a millisecond difference. Dafny's `/` by a positive constant is the floor
      division Math.floor performs, for negative differences too. */
  function Bucket(diffMs: int): (b: TimeAgo)
    ensures b.JustNow? <==> diffMs < 60000
    ensures b.MinutesAgo? ==> 1 <= b.n < 60 && b.n == diffMs / 60000
    ensures b.HoursAgo? ==> 1 <= b.n <= 23 && 60 <= diffMs / 60000 < 1440
    ensures b.DaysAgo? ==> b.n >= 1 && diffMs / 60000 >= 1440
  {
    var m := diffMs / 60000;
    if m < 1 then JustNow
    else if m < 60 then MinutesAgo(m)
    else if m < 1440 then HoursAgo(m / 60)
    else DaysAgo(m / 1440)
  }

  function RenderTimeAgo(b: TimeAgo): string {
    match b
    case JustNow => "just now"
    case MinutesAgo(n) => IntToString(n) + "m ago"
    case HoursAgo(n) => IntToString(n) + "h ago"
    case DaysAgo(n) => IntToString(n) + "d ago"
  }

  function FormatTimeAgo(diffMs: int): string {
    RenderTimeAgo(Bucket(diffMs))
  }

  /** A notification dated in the future reads "just now"; one 90 minutes old reads "1h ago". */
  lemma TimeAgoExamples(diffMs: int)
    ensures diffMs < 0 ==> FormatTimeAgo(diffMs) == "just now"
    ensures FormatTimeAgo(5400000) == "1h ago"
    ensures FormatTimeAgo(172800000) == "2d ago"
  {
  }

  /** Each bucket's value is the whole number of its unit in the difference. */
  lemma BucketValues(diffMs: int)
    ensures Bucket(diffMs).HoursAgo? ==> Bucket(diffMs).n == (diffMs / 60000) / 60
    ensures Bucket(diffMs).DaysAgo? ==> Bucket(diffMs).n == (diffMs / 60000) / 1440
  {
  }

  const IssueAssignedIcon: string := "\U{1F4CB}"
  const MentionIcon: string := "\U{1F4AC}"
  const StatusChangedIcon: string := "\U{1F504}"
  const CommentIcon: string := "\U{1F4DD}"
  const SprintIcon: string := "\U{1F3C3}"
  const BellIcon: string := "\U{1F514}"

  const NotificationTypes: seq<string> := ["issue_assigned", "mention", "status_changed", "comment", "sprint"]

  function Icon(notificationType: string): string {
    if notificationType == "issue_assigned" then IssueAssignedIcon
    else if notificationType == "mention" then MentionIcon
    else if notificationType == "status_changed" then StatusChangedIcon
    else if notificationType == "comment" then CommentIcon
    else if notificationType == "sprint" then SprintIcon
    else BellIcon
  }

  /** The five known types get pairwise different icons, none of them the bell; every other
      type gets the bell. */
  lemma IconsDistinct(t1: string, t2: string)
    ensures t1 in NotificationTypes && t2 in NotificationTypes && t1 != t2 ==> Icon(t1) != Icon(t2)
    ensures t1 in NotificationTypes ==> Icon(t1) != BellIcon
    ensures t1 !in NotificationTypes ==> Icon(t1) == BellIcon
  {
  }

  /** The "Mark all as read" button shows only while something is unread. */
  predicate ShowsMarkAll(ns: seq<Notification>) {
    UnreadCount(ns) > 0
  }

  /** The footer, None when there is nothing unread. */
  function Footer(unread: nat): Option<string> {
    if unread > 0 then Some(NatToString(unread) + " unread notification" + (if unread > 1 then "s" else ""))
    else None
  }

  lemma FooterPlural(unread: nat)
    ensures Footer(unread).Some? <==> unread > 0
    ensures Footer(unread).Some? ==>
      (Footer(unread).value == NatToString(unread) + " unread notifications" <==> unread > 1)
  {
    if unread == 1 {
      var d := NatToString(unread);
      assert |Footer(unread).value| == |d| + 20;
      assert |d + " unread notifications"| == |d| + 21;
    }
  }
}
