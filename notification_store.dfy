/** `useNotifications`: the notification list and the preference list, the operations that
    replace them, and the rule deciding when a new notification is also shown by the
    browser. */
module Notifications {
  import opened Wrappers
  import opened Text
  import opened Seqs
  import opened NotificationCenter
  import opened NotificationPreferences

  // ---------------------------------------------------------------- list operations

  /** `prev.map(n => n.id === id ? { ...n, isRead: true } : n)`. */
  function MarkRead(ns: seq<NotificationItem>, id: string): (r: seq<NotificationItem>)
    ensures |r| == |ns|
    ensures forall i :: 0 <= i < |ns| && ns[i].id == id ==> r[i] == ns[i].(isRead := true)
    ensures forall i :: 0 <= i < |ns| && ns[i].id != id ==> r[i] == ns[i]
  {
    seq(|ns|, i requires 0 <= i < |ns| => if ns[i].id == id then ns[i].(isRead := true) else ns[i])
  }

  /** `prev.map(n => ({ ...n, isRead: true }))`. */
  function MarkAllRead(ns: seq<NotificationItem>): (r: seq<NotificationItem>)
    ensures |r| == |ns|
    ensures forall i :: 0 <= i < |ns| ==> r[i] == ns[i].(isRead := true)
  {
    seq(|ns|, i requires 0 <= i < |ns| => ns[i].(isRead := true))
  }

  predicate OtherId(id: string, n: NotificationItem) { n.id != id }

  /** `prev.filter(n => n.id !== id)`. */
  function Without(ns: seq<NotificationItem>, id: string): (r: seq<NotificationItem>)
    ensures forall i :: 0 <= i < |r| ==> r[i].id != id && r[i] in ns
    ensures forall i :: 0 <= i < |ns| && ns[i].id != id ==> ns[i] in r
  {
    Filter(ns, n => OtherId(id, n))
  }

  /** The unread entries carrying the id. */
  function UnreadWithId(ns: seq<NotificationItem>, id: string): nat
  {
    if ns == [] then 0 else (if !ns[0].isRead && ns[0].id == id then 1 else 0) + UnreadWithId(ns[1..], id)
  }

  /** Marking an id read takes exactly its unread entries off the badge. */
  lemma {:induction false} MarkReadUnreadCount(ns: seq<NotificationItem>, id: string)
    ensures UnreadCount(MarkRead(ns, id)) == UnreadCount(ns) - UnreadWithId(ns, id)
  {
    if ns != [] {
      MarkReadUnreadCount(ns[1..], id);
      assert MarkRead(ns, id)[1..] == MarkRead(ns[1..], id);
    }
  }

  /** Marking the same id twice is marking it once. */
  lemma MarkReadIdempotent(ns: seq<NotificationItem>, id: string)
    ensures MarkRead(MarkRead(ns, id), id) == MarkRead(ns, id)
  {
  }

  /** After marking everything read the badge is empty. */
  lemma {:induction false} MarkAllReadClearsBadge(ns: seq<NotificationItem>)
    ensures UnreadCount(MarkAllRead(ns)) == 0
  {
    if ns != [] {
      MarkAllReadClearsBadge(ns[1..]);
      assert MarkAllRead(ns)[1..] == MarkAllRead(ns[1..]);
    }
  }

  /** Deleting keeps the other entries in their order. */
  lemma WithoutInOrder(ns: seq<NotificationItem>, id: string)
    ensures IsSubsequence(Without(ns, id), ns)
    ensures (forall i :: 0 <= i < |ns| ==> ns[i].id != id) ==> Without(ns, id) == ns
  {
    FilterIsSubsequence(ns, n => OtherId(id, n));
    if forall i :: 0 <= i < |ns| ==> ns[i].id != id {
      FilterAllPass(ns, n => OtherId(id, n));
    }
  }

  // ---------------------------------------------------------------- browser notifications

  /** `preferences.find(p => p.type === kind)`. */
  function FindPreference(ps: seq<Preference>, kind: NotificationType): (r: Option<nat>)
    ensures r.Some? ==> r.value < |ps| && ps[r.value].kind == OfType(kind)
                        && forall j :: 0 <= j < r.value ==> ps[j].kind != OfType(kind)
    ensures r.None? ==> forall j :: 0 <= j < |ps| ==> ps[j].kind != OfType(kind)
  {
    FindFirst(ps, (p: Preference) => p.kind == OfType(kind))
  }

  /** Whether `addNotification` raises a browser notification: the first preference for the
      type has the web channel on and is not disabled, permission is held, and the browser
      has the notification API. */
  predicate ShowsInBrowser(ps: seq<Preference>, kind: NotificationType, hasPermission: bool, apiPresent: bool)
  {
    var p := FindPreference(ps, kind);
    p.Some? && ps[p.value].channels.web && ps[p.value].frequency != Disabled && hasPermission && apiPresent
  }

  /** The browser shows a notification only with permission, and only when some preference
      for the type allows the web channel at a frequency other than disabled. */
  lemma BrowserGateNeeds(ps: seq<Preference>, kind: NotificationType, hasPermission: bool, apiPresent: bool)
    requires ShowsInBrowser(ps, kind, hasPermission, apiPresent)
    ensures hasPermission && apiPresent
    ensures exists j :: 0 <= j < |ps| && ps[j].kind == OfType(kind) && ps[j].channels.web && ps[j].frequency != Disabled
  {
    var k := FindPreference(ps, kind).value;
    assert ps[k].kind == OfType(kind);
  }

  /** After switching everything off with the quick toggle, nothing reaches the browser. */
  lemma QuickToggleOffSilences(ps: seq<Preference>, kind: NotificationType, hasPermission: bool, apiPresent: bool)
    ensures !ShowsInBrowser(QuickToggle(ps, false), kind, hasPermission, apiPresent)
  {
  }

  /** With every channel on, every type with a preference reaches the browser once permission
      is held. */
  lemma QuickToggleOnShows(ps: seq<Preference>, kind: NotificationType)
    requires exists j :: 0 <= j < |ps| && ps[j].kind == OfType(kind)
    ensures ShowsInBrowser(QuickToggle(ps, true), kind, true, true)
  {
    var q := QuickToggle(ps, true);
    var j :| 0 <= j < |ps| && ps[j].kind == OfType(kind);
    assert q[j].kind == OfType(kind);
  }

  function DefaultPreferences(): seq<Preference>
  {
    [ Preference("1", "New Answers", "Get notified when someone answers your questions",
                 OfType(Answer), Channels(true, true, true), Instant),
      Preference("2", "Vote Updates", "Get notified when your content receives votes",
                 OfType(Vote), Channels(true, false, true), Daily),
      Preference("3", "Accepted Answers", "Get notified when your answers are accepted",
                 OfType(Accept), Channels(true, true, true), Instant),
      Preference("4", "Comments", "Get notified when someone comments on your content",
                 OfType(Comment), Channels(true, false, false), Instant),
      Preference("5", "Mentions", "Get notified when someone mentions you",
                 OfType(Mention), Channels(true, true, true), Instant),
      Preference("6", "Newsletter", "Receive weekly updates about popular content",
                 Newsletter, Channels(false, true, false), Weekly) ]
  }

  /** Under the default preferences every notification type reaches the browser once
      permission is held. */
  lemma DefaultsShowEveryType(kind: NotificationType)
    ensures ShowsInBrowser(DefaultPreferences(), kind, true, true)
  {
    var ps := DefaultPreferences();
    var j := match kind case Answer => 0 case Vote => 1 case Accept => 2 case Comment => 3 case Mention => 4;
    FirstOfTypeShows(ps, kind, j);
  }

  /** The first preference for a type decides: when it allows the web channel, the browser
      shows the type once permission is held. */
  lemma FirstOfTypeShows(ps: seq<Preference>, kind: NotificationType, j: nat)
    requires j < |ps| && ps[j].kind == OfType(kind) && ps[j].channels.web && ps[j].frequency != Disabled
    requires forall i :: 0 <= i < j ==> ps[i].kind != OfType(kind)
    ensures ShowsInBrowser(ps, kind, true, true)
  {
    var p := FindPreference(ps, kind);
    assert p == Some(j);
  }

  /** `Omit<NotificationItem, 'id' | 'createdAt'>`. */
  datatype Draft = Draft(
    kind: NotificationType,
    title: string,
    message: string,
    isRead: bool,
    questionId: Option<string>,
    answerId: Option<string>,
    fromUser: Option<Sender>,
    priority: Priority)

  /** The browser notification raised: its title, body and tag. */
  datatype BrowserNotification = BrowserNotification(title: string, body: string, tag: NotificationType)

  /** The entry `addNotification` builds: the draft with `Date.now()` as its id and time. */
  function FromDraft(d: Draft, now: int): NotificationItem
  {
    NotificationItem(IntToString(now), d.kind, d.title, d.message, d.isRead, now, d.questionId,
                     d.answerId, d.fromUser, d.priority)
  }

  // ---------------------------------------------------------------- the hook's state

  class NotificationStore {
    var notifications: seq<NotificationItem>
    var preferences: seq<Preference>
    var isLoading: bool
    var hasPermission: bool

    /** The hook's first render: no notifications yet, the default preferences, loading. */
    constructor ()
      ensures notifications == [] && preferences == DefaultPreferences()
      ensures isLoading && !hasPermission
    {
      notifications := [];
      preferences := DefaultPreferences();
      isLoading := true;
      hasPermission := false;
    }

    /** The end of the initial load: the stored lists when there are any, else the sample
        notifications and the current preferences. */
    method FinishLoading(stored: Option<seq<NotificationItem>>, storedPreferences: Option<seq<Preference>>,
                         samples: seq<NotificationItem>)
      modifies this
      ensures notifications == if stored.Some? then stored.value else samples
      ensures preferences == if storedPreferences.Some? then storedPreferences.value else old(preferences)
      ensures !isLoading && hasPermission == old(hasPermission)
    {
      notifications := if stored.Some? then stored.value else samples;
      if storedPreferences.Some? {
        preferences := storedPreferences.value;
      }
      isLoading := false;
    }

    /** The permission check on mount: granted only when the API is there and says so. */
    method CheckPermission(apiPresent: bool, granted: bool)
      modifies this
      ensures hasPermission == if apiPresent then granted else old(hasPermission)
      ensures notifications == old(notifications) && preferences == old(preferences)
      ensures isLoading == old(isLoading)
    {
      if apiPresent {
        hasPermission := granted;
      }
    }

    /** `requestPermission()`: `permission` is the browser's current setting and `answer` the
        user's reply to the prompt, `None` when the prompt throws. Only a prompt that is
        answered records its result. */
    method RequestPermission(apiPresent: bool, permission: string, answer: Option<string>) returns (granted: bool)
      modifies this
      ensures !apiPresent ==> !granted && hasPermission == old(hasPermission)
      ensures apiPresent && permission == "granted" ==> granted && hasPermission
      ensures apiPresent && permission == "denied" ==> !granted && hasPermission == old(hasPermission)
      ensures apiPresent && permission != "granted" && permission != "denied" ==>
                granted == (answer == Some("granted"))
                && hasPermission == (if answer.Some? then granted else old(hasPermission))
      ensures notifications == old(notifications) && preferences == old(preferences)
      ensures isLoading == old(isLoading)
    {
      if !apiPresent {
        granted := false;
      } else if permission == "granted" {
        hasPermission := true;
        granted := true;
      } else if permission == "denied" {
        granted := false;
      } else if answer.Some? {
        granted := answer.value == "granted";
        hasPermission := granted;
      } else {
        granted := false;
      }
    }

    function Unread(): nat
      reads this
    {
      UnreadCount(notifications)
    }

    method MarkAsRead(id: string)
      modifies this
      ensures notifications == MarkRead(old(notifications), id)
      ensures Unread() == old(Unread()) - UnreadWithId(old(notifications), id)
      ensures preferences == old(preferences) && isLoading == old(isLoading) && hasPermission == old(hasPermission)
    {
      MarkReadUnreadCount(notifications, id);
      notifications := MarkRead(notifications, id);
    }

    method MarkAllAsRead()
      modifies this
      ensures notifications == MarkAllRead(old(notifications))
      ensures Unread() == 0
      ensures preferences == old(preferences) && isLoading == old(isLoading) && hasPermission == old(hasPermission)
    {
      MarkAllReadClearsBadge(notifications);
      notifications := MarkAllRead(notifications);
    }

    method DeleteNotification(id: string)
      modifies this
      ensures notifications == Without(old(notifications), id)
      ensures preferences == old(preferences) && isLoading == old(isLoading) && hasPermission == old(hasPermission)
    {
      notifications := Without(notifications, id);
    }

    method ClearAllNotifications()
      modifies this
      ensures notifications == [] && Unread() == 0
      ensures preferences == old(preferences) && isLoading == old(isLoading) && hasPermission == old(hasPermission)
    {
      notifications := [];
    }

    method UpdatePreferences(newPreferences: seq<Preference>)
      modifies this
      ensures preferences == newPreferences
      ensures notifications == old(notifications) && isLoading == old(isLoading) && hasPermission == old(hasPermission)
    {
      preferences := newPreferences;
    }

    /** `addNotification(draft)`: the new entry goes first; the browser is asked to show it
        when the preference gate is open. `now` is `Date.now()`. */
    method AddNotification(d: Draft, now: int, apiPresent: bool) returns (shown: Option<BrowserNotification>)
      modifies this
      ensures notifications == [FromDraft(d, now)] + old(notifications)
      ensures Unread() == old(Unread()) + (if d.isRead then 0 else 1)
      ensures shown.Some? <==> ShowsInBrowser(preferences, d.kind, hasPermission, apiPresent)
      ensures shown.Some? ==> shown.value == BrowserNotification(d.title, d.message, d.kind)
      ensures preferences == old(preferences) && isLoading == old(isLoading) && hasPermission == old(hasPermission)
    {
      var item := FromDraft(d, now);
      notifications := [item] + notifications;
      assert notifications[1..] == old(notifications);
      if ShowsInBrowser(preferences, d.kind, hasPermission, apiPresent) {
        shown := Some(BrowserNotification(d.title, d.message, d.kind));
      } else {
        shown := None;
      }
    }
  }
}
