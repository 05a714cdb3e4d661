/** The notification list reducers of client/src/components/NotificationCenter.tsx. */
module NotificationCenter {
  import opened Wrappers
  import opened Seqs

  datatype Kind = Info | Success | Warning | Error

  /** The optional `action` link: its label and its target. */
  datatype Action = Action(caption: string, url: string)

  datatype Notification = Notification(
    id: string,
    kind: Kind,
    title: string,
    message: string,
    timestamp: int,
    read: bool,
    action: Option<Action>)

  /** The filter tabs. */
  datatype View = All | Unread

  /** `markAsRead(notificationId)` (NotificationCenter.tsx:117-125). */
  function MarkAsRead(ns: seq<Notification>, id: string): (r: seq<Notification>)
    ensures |r| == |ns|
    ensures forall i :: 0 <= i < |ns| && ns[i].id == id ==> r[i] == ns[i].(read := true)
    ensures forall i :: 0 <= i < |ns| && ns[i].id != id ==> r[i] == ns[i]
  {
    Map(ns, (n: Notification) => if n.id == id then n.(read := true) else n)
  }

  /** `markAllAsRead()` (NotificationCenter.tsx:127-134). */
  function MarkAllAsRead(ns: seq<Notification>): (r: seq<Notification>)
    ensures |r| == |ns|
    ensures forall i :: 0 <= i < |ns| ==> r[i] == ns[i].(read := true)
  {
    Map(ns, (n: Notification) => n.(read := true))
  }

  /** `deleteNotification(notificationId)` (NotificationCenter.tsx:136-140). */
  function Delete(ns: seq<Notification>, id: string): (r: seq<Notification>)
    ensures |r| <= |ns|
    ensures forall n :: n in r <==> n in ns && n.id != id
  {
    Filter(ns, (n: Notification) => n.id != id)
  }

  /** Deletion keeps the remaining notifications in order, and deleting an id that is not
      listed changes nothing. */
  lemma DeleteKeepsOrder(a: seq<Notification>, b: seq<Notification>, id: string)
    ensures Delete(a + b, id) == Delete(a, id) + Delete(b, id)
    ensures (forall n :: n in a ==> n.id != id) ==> Delete(a, id) == a
  {
    FilterConcat(a, b, (n: Notification) => n.id != id);
    if forall n :: n in a ==> n.id != id {
      FilterKeepsAll(a, (n: Notification) => n.id != id);
    }
  }

  /** `filteredNotifications` (NotificationCenter.tsx:142-145). */
  function Filtered(ns: seq<Notification>, view: View): (r: seq<Notification>)
    ensures view == All ==> r == ns
    ensures view == Unread ==> forall n :: n in r <==> n in ns && !n.read
  {
    match view
    case All => ns
    case Unread => Filter(ns, (n: Notification) => !n.read)
  }

  /** `unreadCount` (NotificationCenter.tsx:147): the length of the unread view. */
  function UnreadCount(ns: seq<Notification>): (c: nat)
    ensures c <= |ns|
    ensures c == 0 <==> forall n :: n in ns ==> n.read
  {
    var unread := Filtered(ns, Unread);
    if unread != [] then
      assert unread[0] in unread;
      |unread|
    else |unread|
  }

  /** Marking one notification read removes from the unread view exactly the notifications
      with that id and keeps the rest of it in order. */
  lemma {:induction false} MarkAsReadUnread(ns: seq<Notification>, id: string)
    ensures Filtered(MarkAsRead(ns, id), Unread) == Filter(Filtered(ns, Unread), (n: Notification) => n.id != id)
    decreases |ns|
  {
    if ns != [] {
      MarkAsReadUnread(ns[1..], id);
      assert MarkAsRead(ns, id)[1..] == MarkAsRead(ns[1..], id);
    }
  }

  /** Marking everything read empties the unread view, and doing it again changes nothing. */
  lemma MarkAllAsReadSettles(ns: seq<Notification>)
    ensures UnreadCount(MarkAllAsRead(ns)) == 0
    ensures MarkAllAsRead(MarkAllAsRead(ns)) == MarkAllAsRead(ns)
  {
    var once := MarkAllAsRead(ns);
    forall n | n in once ensures n.read {
      var i :| 0 <= i < |once| && once[i] == n;
    }
  }

  /** The notification the interval adds (NotificationCenter.tsx:150-169), put first; the
      random draw of whether and of which kind becomes the caller's choice. */
  function Arrive(ns: seq<Notification>, id: string, kind: Kind, now: int): (r: seq<Notification>)
    ensures |r| == |ns| + 1 && r[1..] == ns && !r[0].read
  {
    [Notification(id, kind, "New Update", "Something new has happened in your project.", now, false, None)] + ns
  }

  /** An arrival raises the unread count by one. */
  lemma ArriveRaisesUnread(ns: seq<Notification>, id: string, kind: Kind, now: int)
    ensures UnreadCount(Arrive(ns, id, kind, now)) == UnreadCount(ns) + 1
  {
    var r := Arrive(ns, id, kind, now);
    assert r == [r[0]] + ns;
    FilterConcat([r[0]], ns, (n: Notification) => !n.read);
  }
}
