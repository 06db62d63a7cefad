/**
 * The notification list of `useNotifications` and its unread counter. The counter is kept
 * beside the list and updated by its own rules (`c + 1`, `Math.max(0, c - 1)`, `0`), not
 * recomputed; the lemmas below say when it stays equal to the number of unread notifications.
 */
module Notifications {
  import opened Wrappers

  datatype Notification = Notification(
    id: string,
    userId: string,
    title: string,
    body: Option<string>,
    kind: string,
    read: bool,
    dealId: Option<string>,
    createdAt: string)

  /** The hook's two pieces of state. */
  datatype State = State(notifications: seq<Notification>, unreadCount: nat)

  const Initial := State([], 0)

  /** `ns.filter(n => !n.read).length`. */
  function Unread(ns: seq<Notification>): (n: nat)
    ensures n <= |ns|
    ensures n == 0 <==> forall k :: 0 <= k < |ns| ==> ns[k].read
  {
    if ns == [] then 0 else (if ns[0].read then 0 else 1) + Unread(ns[1..])
  }

  /** The counter agrees with the list. */
  predicate Consistent(st: State)
  {
    st.unreadCount == Unread(st.notifications)
  }

  /** Notification ids are primary keys: no two entries share one. */
  predicate UniqueIds(ns: seq<Notification>)
  {
    forall i, j :: 0 <= i < j < |ns| ==> ns[i].id != ns[j].id
  }

  /**
   * `fetchNotifications`: nothing happens without a signed-in user or when the query returns
   * no data; otherwise the fetched rows replace the list and the counter is derived from them.
   */
  function Fetched(st: State, user: Option<string>, data: Option<seq<Notification>>): (r: State)
    ensures user == None || data == None ==> r == st
    ensures user != None && data != None ==> r.notifications == data.value && Consistent(r)
  {
    if user == None || data == None then st
    else State(data.value, Unread(data.value))
  }

  /** The realtime INSERT callback: the new notification goes first, the counter goes up by one. */
  function Received(st: State, n: Notification): (r: State)
    ensures r.notifications == [n] + st.notifications
    ensures r.unreadCount == st.unreadCount + 1
  {
    State([n] + st.notifications, st.unreadCount + 1)
  }

  /** `prev.map(n => n.id === id ? { ...n, read: true } : n)`. */
  function MarkRead(ns: seq<Notification>, id: string): (r: seq<Notification>)
    ensures |r| == |ns|
    ensures forall k :: 0 <= k < |ns| && ns[k].id == id ==> r[k] == ns[k].(read := true)
    ensures forall k :: 0 <= k < |ns| && ns[k].id != id ==> r[k] == ns[k]
  {
    if ns == [] then []
    else [if ns[0].id == id then ns[0].(read := true) else ns[0]] + MarkRead(ns[1..], id)
  }

  /** `markAsRead(id)`: the matching entries become read; the counter drops by one, never below 0. */
  function MarkAsRead(st: State, id: string): (r: State)
    ensures r.unreadCount == if st.unreadCount == 0 then 0 else st.unreadCount - 1
    ensures |r.notifications| == |st.notifications|
    ensures forall k :: 0 <= k < |st.notifications| ==>
      r.notifications[k] == if st.notifications[k].id == id then st.notifications[k].(read := true)
                            else st.notifications[k]
  {
    State(MarkRead(st.notifications, id), if st.unreadCount == 0 then 0 else st.unreadCount - 1)
  }

  /** `prev.map(n => ({ ...n, read: true }))`. */
  function MarkAll(ns: seq<Notification>): (r: seq<Notification>)
    ensures |r| == |ns|
    ensures forall k :: 0 <= k < |ns| ==> r[k] == ns[k].(read := true)
  {
    if ns == [] then [] else [ns[0].(read := true)] + MarkAll(ns[1..])
  }

  /** `markAllAsRead`: without a user nothing changes; otherwise everything is read and the counter is 0. */
  function MarkAllAsRead(st: State, user: Option<string>): (r: State)
    ensures user == None ==> r == st
    ensures user != None ==> r.unreadCount == 0 && Unread(r.notifications) == 0
    ensures |r.notifications| == |st.notifications|
    ensures user != None ==> forall k :: 0 <= k < |st.notifications| ==>
              r.notifications[k] == st.notifications[k].(read := true)
  {
    if user == None then st else State(MarkAll(st.notifications), 0)
  }

  /** The hook starts consistent: an empty list and a counter of 0. */
  lemma InitialConsistent()
    ensures Consistent(Initial) && Initial.notifications == [] && Initial.unreadCount == 0
  {
  }

  /** Marking everything read twice is marking it once. */
  lemma MarkAllAsReadIdempotent(st: State, user: Option<string>)
    ensures MarkAllAsRead(MarkAllAsRead(st, user), user) == MarkAllAsRead(st, user)
  {
    if user != None {
      var once := MarkAll(st.notifications);
      assert MarkAll(once) == once;
    }
  }

  /** After marking all read the counter agrees with the list. */
  lemma MarkAllAsReadConsistent(st: State, user: Option<string>)
    requires user != None
    ensures Consistent(MarkAllAsRead(st, user))
  {
  }

  /** A realtime insert of an unread notification keeps the counter in agreement. */
  lemma ReceivedConsistent(st: State, n: Notification)
    requires Consistent(st) && !n.read
    ensures Consistent(Received(st, n))
  {
    assert ([n] + st.notifications)[1..] == st.notifications;
  }

  /** A realtime insert of a notification that arrives already read makes the counter overcount. */
  lemma ReceivedReadOvercounts(st: State, n: Notification)
    requires Consistent(st) && n.read
    ensures Received(st, n).unreadCount == Unread(Received(st, n).notifications) + 1
  {
    assert ([n] + st.notifications)[1..] == st.notifications;
  }

  /** Marking read an id the list does not hold leaves the list identical. */
  lemma {:induction false} MarkReadAbsent(ns: seq<Notification>, id: string)
    requires forall k :: 0 <= k < |ns| ==> ns[k].id != id
    ensures MarkRead(ns, id) == ns
  {
    if ns != [] {
      MarkReadAbsent(ns[1..], id);
      assert ns == [ns[0]] + ns[1..];
    }
  }

  /** Marking read the one unread entry with id `ns[i].id` lowers the unread number by exactly one. */
  lemma {:induction false} MarkReadOneUnread(ns: seq<Notification>, i: nat)
    requires i < |ns| && UniqueIds(ns) && !ns[i].read
    ensures Unread(MarkRead(ns, ns[i].id)) == Unread(ns) - 1
  {
    var id := ns[i].id;
    assert UniqueIds(ns[1..]);
    if i == 0 {
      MarkReadAbsent(ns[1..], id);
      assert MarkRead(ns, id) == [ns[0].(read := true)] + ns[1..];
      assert (MarkRead(ns, id))[1..] == ns[1..];
    } else {
      assert ns[1..][i - 1] == ns[i];
      MarkReadOneUnread(ns[1..], i - 1);
      assert ns[0].id != id;
      assert MarkRead(ns, id) == [ns[0]] + MarkRead(ns[1..], id);
      assert (MarkRead(ns, id))[1..] == MarkRead(ns[1..], id);
    }
  }

  /**
   * The notification bell calls markAsRead only for an unread entry (NotificationBell guards
   * the click with `!n.read`); for such a call the counter keeps agreeing with the list.
   */
  lemma MarkAsReadConsistent(st: State, i: nat)
    requires Consistent(st) && UniqueIds(st.notifications)
    requires i < |st.notifications| && !st.notifications[i].read
    ensures Consistent(MarkAsRead(st, st.notifications[i].id))
  {
    MarkReadOneUnread(st.notifications, i);
  }
}
