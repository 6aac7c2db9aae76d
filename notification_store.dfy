/** The notification store: a newest-first list of notifications and a count of the
    unread ones. Every action computes the next state from the old one. */
module NotificationStore {
  import opened Wrappers

  /** `type: 'success' | 'error' | 'warning' | 'info'`. */
  datatype Kind = Success | Error | Warning | Info

  datatype Notification = Notification(id: string, kind: Kind, title: string, message: Option<string>, timestamp: int, read: bool)

  /** What a caller passes to `addNotification`: a notification without its id, timestamp
      and read flag. */
  datatype NotificationInput = NotificationInput(kind: Kind, title: string, message: Option<string>)

  datatype State = State(notifications: seq<Notification>, unreadCount: int)

  function Initial(): State {
    State([], 0)
  }

  /** `notifications.filter(n => !n.read).length`. */
  function Unread(ns: seq<Notification>): (r: nat)
    ensures r <= |ns|
  {
    if ns == [] then 0 else (if ns[0].read then 0 else 1) + Unread(ns[1..])
  }

  /** The count agrees with the list. */
  predicate Consistent(st: State) {
    st.unreadCount == Unread(st.notifications)
  }

  // ---------------------------------------------------------------- actions

  /** `addNotification(noti)`: the new notification, unread, goes in front and the count
      goes up by one. The id is the random string the store draws and the timestamp the
      clock's reading. */
  function AddNotification(st: State, noti: NotificationInput, id: string, now: int): State {
    var n := Notification(id, noti.kind, noti.title, noti.message, now, false);
    State([n] + st.notifications, st.unreadCount + 1)
  }

  function MarkRead(n: Notification): Notification {
    n.(read := true)
  }

  /** `markAsRead(id)`: every notification with that id is read; the count is recomputed. */
  function MarkAsRead(st: State, id: string): State {
    var ns := st.notifications;
    var marked := seq(|ns|, i requires 0 <= i < |ns| => if ns[i].id == id then MarkRead(ns[i]) else ns[i]);
    State(marked, Unread(marked))
  }

  /** `markAllAsRead()`. */
  function MarkAllAsRead(st: State): State {
    var ns := st.notifications;
    State(seq(|ns|, i requires 0 <= i < |ns| => MarkRead(ns[i])), 0)
  }

  /** `clearAll()`. */
  function ClearAll(st: State): State {
    State([], 0)
  }

  /** The store's actions, for reasoning about any sequence of them. */
  datatype Action =
    | Add(noti: NotificationInput, id: string, now: int)
    | Read(id: string)
    | ReadAll
    | Clear

  function Apply(st: State, a: Action): State {
    match a
    case Add(noti, id, now) => AddNotification(st, noti, id, now)
    case Read(id) => MarkAsRead(st, id)
    case ReadAll => MarkAllAsRead(st)
    case Clear => ClearAll(st)
  }

  function Run(st: State, actions: seq<Action>): State {
    if actions == [] then st else Apply(Run(st, actions[..|actions| - 1]), actions[|actions| - 1])
  }

  // ---------------------------------------------------------------- counting

  /** A list whose every entry is read has no unread entry, and conversely. */
  lemma {:induction false} UnreadZero(ns: seq<Notification>)
    ensures Unread(ns) == 0 <==> forall i | 0 <= i < |ns| :: ns[i].read
  {
    if ns != [] {
      UnreadZero(ns[1..]);
      assert forall i | 1 <= i < |ns| :: ns[i] == ns[1..][i - 1];
    }
  }

  /** Reading more entries never raises the count of unread ones. */
  lemma {:induction false} UnreadPointwise(a: seq<Notification>, b: seq<Notification>)
    requires |a| == |b| && forall i | 0 <= i < |a| :: a[i].read ==> b[i].read
    ensures Unread(b) <= Unread(a)
  {
    if a != [] {
      UnreadPointwise(a[1..], b[1..]);
    }
  }

  // ---------------------------------------------------------------- properties

  /** A new notification is unread, in front of the old list, and adds one to the count. */
  lemma AddPrepends(st: State, noti: NotificationInput, id: string, now: int)
    ensures var r := AddNotification(st, noti, id, now);
      && |r.notifications| == |st.notifications| + 1 && r.notifications[1..] == st.notifications
      && !r.notifications[0].read && r.notifications[0].id == id && r.notifications[0].title == noti.title
      && r.unreadCount == st.unreadCount + 1
      && Unread(r.notifications) == Unread(st.notifications) + 1
  {
    var r := AddNotification(st, noti, id, now);
    assert r.notifications[1..] == st.notifications;
  }

  /** `markAsRead` reads exactly the entries with that id, changes nothing else about any
      entry, and its count is the number left unread, which has not gone up. */
  lemma MarkAsReadOnlyMatching(st: State, id: string)
    ensures var r := MarkAsRead(st, id);
      && |r.notifications| == |st.notifications|
      && (forall i | 0 <= i < |st.notifications| ::
            && r.notifications[i].(read := st.notifications[i].read) == st.notifications[i]
            && (r.notifications[i].read <==> st.notifications[i].read || st.notifications[i].id == id))
      && Consistent(r)
      && Unread(r.notifications) <= Unread(st.notifications)
  {
    var r := MarkAsRead(st, id);
    UnreadPointwise(st.notifications, r.notifications);
  }

  /** Reading the same id twice is reading it once. */
  lemma MarkAsReadIdempotent(st: State, id: string)
    ensures MarkAsRead(MarkAsRead(st, id), id) == MarkAsRead(st, id)
  {
    var r := MarkAsRead(st, id);
    assert MarkAsRead(r, id).notifications == r.notifications;
  }

  /** `markAllAsRead` keeps every entry but its read flag, reads them all, and its count of
      zero is the true count. */
  lemma MarkAllAsReadEffect(st: State)
    ensures var r := MarkAllAsRead(st);
      && |r.notifications| == |st.notifications|
      && (forall i | 0 <= i < |st.notifications| :: r.notifications[i] == st.notifications[i].(read := true))
      && Unread(r.notifications) == 0 && Consistent(r)
  {
    UnreadZero(MarkAllAsRead(st).notifications);
  }

  lemma ClearAllEffect(st: State)
    ensures ClearAll(st) == Initial() && Consistent(ClearAll(st))
  {
  }

  /** Every action keeps the count in agreement with the list. */
  lemma ApplyConsistent(st: State, a: Action)
    requires Consistent(st)
    ensures Consistent(Apply(st, a))
  {
    match a
    case Add(noti, id, now) => AddPrepends(st, noti, id, now);
    case Read(id) => MarkAsReadOnlyMatching(st, id);
    case ReadAll => MarkAllAsReadEffect(st);
    case Clear =>
  }

  /** From the empty store, after any sequence of actions, `unreadCount` is the number of
      unread notifications. */
  lemma {:induction false} RunConsistent(actions: seq<Action>)
    ensures Consistent(Run(Initial(), actions))
  {
    if actions != [] {
      RunConsistent(actions[..|actions| - 1]);
      ApplyConsistent(Run(Initial(), actions[..|actions| - 1]), actions[|actions| - 1]);
    }
  }
}
