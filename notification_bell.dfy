/** `src/components/layout/notification-bell.tsx`: the bell's local state (the
    user's notifications and the unread counter) and its three handlers, each
    of which changes the state only after its server call succeeds. */
module NotificationBell {
  import opened Common
  import opened Seqs
  import opened JsText

  /** A notification as the bell shows it. */
  datatype Note = Note(id: string, title: string, message: string, kind: string, isRead: bool, createdAt: int)

  predicate UniqueIds(ns: seq<Note>)
  {
    forall i, j :: 0 <= i < j < |ns| ==> ns[i].id != ns[j].id
  }

  /** `data.filter(n => !n.is_read).length`. */
  function Unread(ns: seq<Note>): nat
  {
    Count(ns, (n: Note) => !n.isRead)
  }

  /** The list with the notification of the given id marked read. */
  function MarkRead(ns: seq<Note>, id: string): (r: seq<Note>)
    ensures |r| == |ns|
    ensures forall i :: 0 <= i < |ns| && ns[i].id != id ==> r[i] == ns[i]
    ensures forall i :: 0 <= i < |ns| && ns[i].id == id ==> r[i].isRead && r[i].(isRead := ns[i].isRead) == ns[i]
  {
    seq(|ns|, i requires 0 <= i < |ns| => if ns[i].id == id then ns[i].(isRead := true) else ns[i])
  }

  /** The list with every notification marked read. */
  function MarkAllRead(ns: seq<Note>): (r: seq<Note>)
    ensures |r| == |ns|
    ensures forall i :: 0 <= i < |ns| ==> r[i].isRead && r[i].(isRead := ns[i].isRead) == ns[i]
  {
    seq(|ns|, i requires 0 <= i < |ns| => ns[i].(isRead := true))
  }

  /** `Math.max(0, c - 1)`. */
  function Decrement(c: int): (r: int)
    ensures r >= 0 && r >= c - 1
    ensures c >= 1 ==> r == c - 1
  {
    if c - 1 > 0 then c - 1 else 0
  }

  /** The badge on the bell: hidden at 0, the count up to 99, '99+' above. */
  function Badge(count: int): (r: Option<string>)
    ensures r.None? <==> count <= 0
    ensures r.Some? ==> 1 <= |r.value| <= 3
    ensures r.Some? ==> (r.value == "99+" <==> count > 99)
    ensures r.Some? && count <= 99 ==> AllDigits(r.value) && DigitsValue(r.value) == count
  {
    if count <= 0 then None
    else if count > 99 then Some("99+")
    else
      assert |NatToString(count)| <= 2 by {
        if count >= 10 {
          assert NatToString(count) == NatToString(count / 10) + [DigitChar(count % 10)];
        }
      }
      Some(IntToString(count))
  }

  class Bell {
    const userId: string
    var notifications: seq<Note>
    var unreadCount: int
    var isLoading: bool

    /** The counter agrees with the list. */
    predicate Consistent()
      reads this
    {
      unreadCount == Unread(notifications)
    }

    constructor (userId: string)
      ensures this.userId == userId && notifications == [] && unreadCount == 0 && isLoading
      ensures Consistent()
    {
      this.userId := userId;
      notifications := [];
      unreadCount := 0;
      isLoading := true;
    }

    /** `fetchNotifications`: `data` is what `getUserNotifications` returned,
        None when it threw; loading ends either way. */
    method FetchNotifications(data: Option<seq<Note>>)
      modifies this
      ensures data.Some? ==> notifications == data.value && unreadCount == Unread(data.value)
      ensures data.None? ==> notifications == old(notifications) && unreadCount == old(unreadCount)
      ensures !isLoading
      ensures data.Some? ==> Consistent()
    {
      if data.Some? {
        notifications := data.value;
        var unread := Count(data.value, (n: Note) => !n.isRead);
        unreadCount := unread;
      }
      isLoading := false;
    }

    /** `handleNotificationClick`: `failed` says `markNotificationAsRead` threw. */
    method HandleNotificationClick(note: Note, failed: bool)
      modifies this
      ensures note.isRead || failed ==> notifications == old(notifications) && unreadCount == old(unreadCount)
      ensures !note.isRead && !failed ==>
                notifications == MarkRead(old(notifications), note.id) && unreadCount == Decrement(old(unreadCount))
      ensures isLoading == old(isLoading)
    {
      if !note.isRead {
        if !failed {
          notifications := MarkRead(notifications, note.id);
          unreadCount := Decrement(unreadCount);
        }
      }
    }

    /** `handleMarkAllAsRead`: `failed` says `markAllNotificationsAsRead` threw. */
    method HandleMarkAllAsRead(failed: bool)
      modifies this
      ensures failed ==> notifications == old(notifications) && unreadCount == old(unreadCount)
      ensures !failed ==> notifications == MarkAllRead(old(notifications)) && unreadCount == 0
      ensures !failed ==> Consistent()
      ensures isLoading == old(isLoading)
    {
      if !failed {
        notifications := MarkAllRead(notifications);
        unreadCount := 0;
        MarkAllMeaning(old(notifications));
      }
    }
  }

  /** Marking an id that no notification has changes nothing. */
  lemma MarkReadAbsent(ns: seq<Note>, id: string)
    requires forall i :: 0 <= i < |ns| ==> ns[i].id != id
    ensures MarkRead(ns, id) == ns
  {
  }

  /** With unique ids, marking an unread notification read lowers the unread
      count by exactly one. */
  lemma {:induction false} UnreadMarkRead(ns: seq<Note>, k: nat)
    requires UniqueIds(ns) && k < |ns| && !ns[k].isRead
    ensures Unread(MarkRead(ns, ns[k].id)) == Unread(ns) - 1
    decreases |ns|
  {
    var id := ns[k].id;
    var n := |ns| - 1;
    var init := ns[..n];
    var r := MarkRead(ns, id);
    assert r[..n] == MarkRead(init, id);
    UnreadLast(ns);
    UnreadLast(r);
    if k == n {
      MarkReadAbsent(init, id);
      assert r[n].isRead;
    } else {
      assert init[k] == ns[k];
      UnreadMarkRead(init, k);
      assert r[n] == ns[n];
    }
  }

  /** The unread count of a list is that of all but its last notification,
      plus one when the last is unread. */
  lemma UnreadLast(ns: seq<Note>)
    requires |ns| > 0
    ensures Unread(ns) == Unread(ns[..|ns| - 1]) + (if ns[|ns| - 1].isRead then 0 else 1)
  {
  }

  /** Clicking an unread notification of the list keeps the counter in step
      with the list. */
  lemma ClickKeepsCount(ns: seq<Note>, count: int, k: nat)
    requires UniqueIds(ns) && k < |ns| && !ns[k].isRead && count == Unread(ns)
    ensures Decrement(count) == Unread(MarkRead(ns, ns[k].id))
  {
    UnreadMarkRead(ns, k);
  }

  /** Marking everything read leaves nothing unread; doing it again, or then
      clicking any notification, changes nothing. */
  lemma MarkAllMeaning(ns: seq<Note>)
    ensures Unread(MarkAllRead(ns)) == 0
    ensures MarkAllRead(MarkAllRead(ns)) == MarkAllRead(ns)
    ensures forall id :: MarkRead(MarkAllRead(ns), id) == MarkAllRead(ns)
  {
    var r := MarkAllRead(ns);
    FilterNone(r, (n: Note) => !n.isRead);
  }

  /** The badge is shown exactly when something is unread. */
  lemma BadgeShowsUnread(ns: seq<Note>)
    ensures Badge(Unread(ns)).Some? <==> exists i :: 0 <= i < |ns| && !ns[i].isRead
  {
    var p := (n: Note) => !n.isRead;
    if exists i :: 0 <= i < |ns| && !ns[i].isRead {
      var i :| 0 <= i < |ns| && !ns[i].isRead;
      FilterContains(ns, p, ns[i]);
    } else {
      FilterNone(ns, p);
    }
  }
}
