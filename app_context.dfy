/** The application context of the single-page frontend
    (`src/context/AppContext.tsx`): the reducer over the application state and
    its list of notifications. A new notification's id is the decimal text of
    one clock reading (`Date.now()`) and its timestamp is a second, separate
    reading (`new Date()`); the two arrive as the action's `idTime` and `at`,
    and may differ. */
module AppContext {
  import JsText
  import Wrappers

  /** `Notification['type']`. */
  datatype Severity = Success | Error | Warning | Info

  /** `Notification`; the timestamp is in milliseconds. */
  datatype Notification = Notification(
    id: string, kind: Severity, title: string, message: string, timestamp: nat, read: bool)

  datatype ConnectionStatus = Online | Offline

  datatype Language = Es | En

  /** `AppState`. */
  datatype AppState = AppState(
    isLoading: bool,
    notifications: seq<Notification>,
    sidebarOpen: bool,
    mobileMenuOpen: bool,
    connectionStatus: ConnectionStatus,
    language: Language)

  /** The actions the reducer recognises, and `Other` for an action of any
      other type. `AddNotification` carries the two clock readings the
      reducer takes: `idTime` for the id and `at` for the timestamp. */
  datatype AppAction =
    | SetLoading(loading: bool)
    | AddNotification(kind: Severity, title: string, message: string, idTime: nat, at: nat)
    | MarkNotificationRead(id: string)
    | ClearNotifications
    | ToggleSidebar
    | ToggleMobileMenu
    | SetConnectionStatus(status: ConnectionStatus)
    | SetLanguage(language: Language)
    | Other

  /** `initialState`, given the language local storage held at start-up. */
  function InitialState(storedLanguage: Wrappers.Option<Language>): (s: AppState)
    ensures !s.isLoading && s.notifications == [] && s.sidebarOpen && !s.mobileMenuOpen
    ensures s.connectionStatus == Online
    ensures s.language == if storedLanguage.Some? then storedLanguage.value else Es
  {
    AppState(false, [], true, false, Online,
      if storedLanguage.Some? then storedLanguage.value else Es)
  }

  /** The notification `ADD_NOTIFICATION` creates: its id from the clock
      reading `idTime`, its timestamp from the reading `at`. */
  function NewNotification(kind: Severity, title: string, message: string, idTime: nat, at: nat): Notification
  {
    Notification(JsText.NatToString(idTime), kind, title, message, at, false)
  }

  /** One notification after `MARK_NOTIFICATION_READ` with `id`. */
  function MarkIfMatches(n: Notification, id: string): Notification
  {
    if n.id == id then n.(read := true) else n
  }

  /** The `.map` of `MARK_NOTIFICATION_READ`: same length and order; exactly
      the entries with the given id are marked read, and the others are
      left as they were. */
  function MarkRead(ns: seq<Notification>, id: string): (r: seq<Notification>)
    ensures |r| == |ns|
    ensures forall i :: 0 <= i < |ns| && ns[i].id == id ==> r[i] == ns[i].(read := true)
    ensures forall i :: 0 <= i < |ns| && ns[i].id != id ==> r[i] == ns[i]
  {
    if ns == [] then [] else [MarkIfMatches(ns[0], id)] + MarkRead(ns[1..], id)
  }

  /** The number of unread notifications. */
  function UnreadCount(ns: seq<Notification>): nat
  {
    if ns == [] then 0 else (if ns[0].read then 0 else 1) + UnreadCount(ns[1..])
  }

  /** `appReducer`. */
  function Reduce(s: AppState, a: AppAction): AppState
  {
    match a
    case SetLoading(loading) => s.(isLoading := loading)
    case AddNotification(kind, title, message, idTime, at) =>
      s.(notifications := [NewNotification(kind, title, message, idTime, at)] + s.notifications)
    case MarkNotificationRead(id) => s.(notifications := MarkRead(s.notifications, id))
    case ClearNotifications => s.(notifications := [])
    case ToggleSidebar => s.(sidebarOpen := !s.sidebarOpen)
    case ToggleMobileMenu => s.(mobileMenuOpen := !s.mobileMenuOpen)
    case SetConnectionStatus(status) => s.(connectionStatus := status)
    case SetLanguage(language) => s.(language := language)
    case Other => s
  }

  /** `ADD_NOTIFICATION` puts one unread notification in front of the
      unchanged old list, and adds one to the unread count. */
  lemma AddNotificationPrepends(s: AppState, kind: Severity, title: string, message: string,
                                idTime: nat, at: nat)
    ensures var r := Reduce(s, AddNotification(kind, title, message, idTime, at));
      && |r.notifications| == |s.notifications| + 1
      && r.notifications[0] == NewNotification(kind, title, message, idTime, at)
      && r.notifications[1..] == s.notifications
      && !r.notifications[0].read
      && r.notifications[0].kind == kind && r.notifications[0].title == title
      && r.notifications[0].message == message && r.notifications[0].timestamp == at
      && UnreadCount(r.notifications) == UnreadCount(s.notifications) + 1
      && r.(notifications := s.notifications) == s
  {
    var r := Reduce(s, AddNotification(kind, title, message, idTime, at));
    assert r.notifications[1..] == s.notifications;
  }

  /** The id of a new notification is the `Date.now()` reading taken for it,
      written in decimal; it need not equal the separately read timestamp. */
  lemma NotificationIdIsItsTime(kind: Severity, title: string, message: string, idTime: nat, at: nat)
    ensures var n := NewNotification(kind, title, message, idTime, at);
      && (forall k :: 0 <= k < |n.id| ==> JsText.IsDigit(n.id[k]))
      && JsText.DigitsValue(n.id) == idTime
  {
    JsText.NatToStringReadsBack(idTime);
  }

  /** Two notifications whose `Date.now()` readings fall in the same
      millisecond share their id, whatever their timestamps, so marking one of
      them read marks both. */
  lemma SameMillisecondNotificationsShareId(s: AppState, k1: Severity, t1: string, m1: string, at1: nat,
                                            k2: Severity, t2: string, m2: string, at2: nat, idTime: nat)
    ensures var s2 := Reduce(Reduce(s, AddNotification(k1, t1, m1, idTime, at1)),
                             AddNotification(k2, t2, m2, idTime, at2));
      var r := Reduce(s2, MarkNotificationRead(s2.notifications[0].id));
      r.notifications[0].read && r.notifications[1].read
  {
  }

  /** `MARK_NOTIFICATION_READ` changes only the notifications, never marks a
      read notification unread, and never raises the unread count. */
  lemma {:induction false} MarkReadNeverUnreads(ns: seq<Notification>, id: string)
    ensures forall i :: 0 <= i < |ns| && ns[i].read ==> MarkRead(ns, id)[i].read
    ensures UnreadCount(MarkRead(ns, id)) <= UnreadCount(ns)
  {
    if ns != [] {
      MarkReadNeverUnreads(ns[1..], id);
      assert MarkRead(ns, id)[1..] == MarkRead(ns[1..], id);
    }
  }

  /** Marking the same id read twice is the same as marking it once. */
  lemma MarkReadIdempotent(ns: seq<Notification>, id: string)
    ensures MarkRead(MarkRead(ns, id), id) == MarkRead(ns, id)
  {
    var once := MarkRead(ns, id);
    var twice := MarkRead(once, id);
    assert forall i :: 0 <= i < |ns| ==> twice[i] == once[i];
  }

  /** After marking an id read, no notification with that id is unread. */
  lemma MarkReadLeavesNoUnreadMatch(ns: seq<Notification>, id: string)
    ensures forall i :: 0 <= i < |ns| && MarkRead(ns, id)[i].id == id ==> MarkRead(ns, id)[i].read
  {
  }

  /** `MARK_NOTIFICATION_READ` changes the notification list only. */
  lemma MarkNotificationReadOnlyChangesList(s: AppState, id: string)
    ensures var r := Reduce(s, MarkNotificationRead(id));
      && |r.notifications| == |s.notifications|
      && UnreadCount(r.notifications) <= UnreadCount(s.notifications)
      && r.(notifications := s.notifications) == s
  {
    MarkReadNeverUnreads(s.notifications, id);
  }

  /** `CLEAR_NOTIFICATIONS` empties the list and changes nothing else. */
  lemma ClearEmptiesList(s: AppState)
    ensures Reduce(s, ClearNotifications).notifications == []
    ensures Reduce(s, ClearNotifications).(notifications := s.notifications) == s
  {
  }

  /** Each toggle flips its own flag only, and toggling twice changes
      nothing. */
  lemma TogglesAreInvolutions(s: AppState)
    ensures Reduce(s, ToggleSidebar).sidebarOpen != s.sidebarOpen
    ensures Reduce(s, ToggleSidebar).(sidebarOpen := s.sidebarOpen) == s
    ensures Reduce(Reduce(s, ToggleSidebar), ToggleSidebar) == s
    ensures Reduce(s, ToggleMobileMenu).mobileMenuOpen != s.mobileMenuOpen
    ensures Reduce(s, ToggleMobileMenu).(mobileMenuOpen := s.mobileMenuOpen) == s
    ensures Reduce(Reduce(s, ToggleMobileMenu), ToggleMobileMenu) == s
  {
  }

  /** `SET_LOADING`, `SET_CONNECTION_STATUS` and `SET_LANGUAGE` each set their
      own field only, and any other action changes nothing. */
  lemma SettersOnlySetTheirField(s: AppState, loading: bool, status: ConnectionStatus, language: Language)
    ensures Reduce(s, SetLoading(loading)) == s.(isLoading := loading)
    ensures Reduce(s, SetConnectionStatus(status)).connectionStatus == status
    ensures Reduce(s, SetConnectionStatus(status)).(connectionStatus := s.connectionStatus) == s
    ensures Reduce(s, SetLanguage(language)).language == language
    ensures Reduce(s, SetLanguage(language)).(language := s.language) == s
    ensures Reduce(s, Other) == s
  {
  }

  /** The title of the notification the `online` listener adds. */
  const OnlineTitle: string := "Conexión restaurada"
  const OnlineMessage: string := "Se ha restablecido la conexión a internet"
  /** The title of the notification the `offline` listener adds. */
  const OfflineTitle: string := "Sin conexión"
  const OfflineMessage: string :=
    "No hay conexión a internet. Algunas funciones pueden no estar disponibles."

  /** The listeners of the browser's `online` and `offline` events, with the
      reducer's two clock readings `idTime` and `at`: each dispatches the new connection status, then adds a
      notification announcing it (a success when back online, a warning when
      offline). */
  function ConnectionChanged(s: AppState, online: bool, idTime: nat, at: nat): AppState
  {
    var status := if online then Online else Offline;
    var announce :=
      if online then AddNotification(Success, OnlineTitle, OnlineMessage, idTime, at)
      else AddNotification(Warning, OfflineTitle, OfflineMessage, idTime, at);
    Reduce(Reduce(s, SetConnectionStatus(status)), announce)
  }

  /** A connection change sets the status and puts one unread announcement in
      front of the unchanged list, and changes nothing else. */
  lemma ConnectionChangeIsAnnounced(s: AppState, online: bool, idTime: nat, at: nat)
    ensures var r := ConnectionChanged(s, online, idTime, at);
      && r.connectionStatus == (if online then Online else Offline)
      && |r.notifications| == |s.notifications| + 1
      && r.notifications[1..] == s.notifications
      && r.notifications[0] == (if online
           then NewNotification(Success, OnlineTitle, OnlineMessage, idTime, at)
           else NewNotification(Warning, OfflineTitle, OfflineMessage, idTime, at))
      && r.notifications[0].kind == (if online then Success else Warning)
      && r.notifications[0].title == (if online then OnlineTitle else OfflineTitle)
      && !r.notifications[0].read && r.notifications[0].timestamp == at
      && r.notifications[0].id == JsText.NatToString(idTime)
      && UnreadCount(r.notifications) == UnreadCount(s.notifications) + 1
      && r.(connectionStatus := s.connectionStatus, notifications := s.notifications) == s
  {
    var status := if online then Online else Offline;
    var mid := Reduce(s, SetConnectionStatus(status));
    if online {
      AddNotificationPrepends(mid, Success, OnlineTitle, OnlineMessage, idTime, at);
    } else {
      AddNotificationPrepends(mid, Warning, OfflineTitle, OfflineMessage, idTime, at);
    }
  }
}
