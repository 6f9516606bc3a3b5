/** The notification panel: the entry record, the read and type filters, the unread
    badge, the relative time shown on each entry and the click rule. */
module NotificationCenter {
  import opened Wrappers
  import opened Text
  import opened Seqs

  datatype NotificationType = Answer | Vote | Accept | Comment | Mention

  datatype Priority = Low | Medium | High

  datatype Sender = Sender(id: string, username: string, avatar: Option<string>)

  /** `NotificationItem`; `createdAt` is a millisecond timestamp. */
  datatype NotificationItem = NotificationItem(
    id: string,
    kind: NotificationType,
    title: string,
    message: string,
    isRead: bool,
    createdAt: int,
    questionId: Option<string>,
    answerId: Option<string>,
    fromUser: Option<Sender>,
    priority: Priority)

  /** The `filter` select: `all`, `unread` or `read`. */
  datatype ReadFilter = AllEntries | UnreadOnly | ReadOnly

  /** The `typeFilter` select: `all` or one type. */
  datatype TypeFilter = AnyType | OnlyType(kind: NotificationType)

  /** The filter callback, rule by rule. */
  predicate Shown(n: NotificationItem, filter: ReadFilter, typeFilter: TypeFilter)
  {
    if filter == UnreadOnly && n.isRead then false
    else if filter == ReadOnly && !n.isRead then false
    else if typeFilter.OnlyType? && n.kind != typeFilter.kind then false
    else true
  }

  /** What the filters mean: an `unread` filter hides read entries, a `read` filter hides
      unread ones, and a type filter hides the other types. */
  predicate Passes(n: NotificationItem, filter: ReadFilter, typeFilter: TypeFilter)
  {
    (filter != UnreadOnly || !n.isRead) && (filter != ReadOnly || n.isRead)
    && (typeFilter == AnyType || n.kind == typeFilter.kind)
  }

  /** `filteredNotifications`. */
  function FilteredNotifications(ns: seq<NotificationItem>, filter: ReadFilter, typeFilter: TypeFilter)
    : (r: seq<NotificationItem>)
    ensures forall i :: 0 <= i < |r| ==> r[i] in ns
    ensures forall i :: 0 <= i < |r| ==> Passes(r[i], filter, typeFilter)
    ensures forall i :: 0 <= i < |ns| && Passes(ns[i], filter, typeFilter) ==> ns[i] in r
  {
    Filter(ns, n => Shown(n, filter, typeFilter))
  }

  /** The list shown is the notifications in their own order, some left out; with both
      filters on `all` nothing is left out. */
  lemma FilteredInOrder(ns: seq<NotificationItem>, filter: ReadFilter, typeFilter: TypeFilter)
    ensures IsSubsequence(FilteredNotifications(ns, filter, typeFilter), ns)
    ensures filter == AllEntries && typeFilter == AnyType ==> FilteredNotifications(ns, filter, typeFilter) == ns
  {
    FilterIsSubsequence(ns, n => Shown(n, filter, typeFilter));
    if filter == AllEntries && typeFilter == AnyType {
      FilterAllPass(ns, n => Shown(n, filter, typeFilter));
    }
  }

  /** `notifications.filter(n => !n.isRead).length`, counted entry by entry. */
  function UnreadCount(ns: seq<NotificationItem>): (r: nat)
    ensures r <= |ns|
  {
    if ns == [] then 0 else (if ns[0].isRead then 0 else 1) + UnreadCount(ns[1..])
  }

  predicate Unread(n: NotificationItem) { !n.isRead }

  /** The badge counts exactly the unread entries of the whole list, whatever the filters. */
  lemma {:induction false} UnreadCountIsFilterLength(ns: seq<NotificationItem>)
    ensures UnreadCount(ns) == |Filter(ns, Unread)|
  {
    if ns != [] {
      UnreadCountIsFilterLength(ns[1..]);
    }
  }

  /** The unread filter shows as many entries as the badge counts. */
  lemma UnreadFilterMatchesBadge(ns: seq<NotificationItem>)
    ensures |FilteredNotifications(ns, UnreadOnly, AnyType)| == UnreadCount(ns)
  {
    UnreadCountIsFilterLength(ns);
    FilterSamePredicate(ns);
  }

  lemma {:induction false} FilterSamePredicate(ns: seq<NotificationItem>)
    ensures Filter(ns, n => Shown(n, UnreadOnly, AnyType)) == Filter(ns, Unread)
  {
    if ns != [] {
      FilterSamePredicate(ns[1..]);
    }
  }

  /** `getTimeAgo` buckets, over whole minutes; beyond a week the locale date is shown. */
  datatype TimeAgo = JustNow | MinutesAgo(n: int) | HoursAgo(n: int) | DaysAgo(n: int) | LocaleDate

  function TimeAgoOfMinutes(m: int): (r: TimeAgo)
    ensures r == JustNow <==> m < 1
    ensures r.MinutesAgo? <==> 1 <= m < 60
    ensures r.HoursAgo? <==> 60 <= m < 24 * 60
    ensures r.DaysAgo? <==> 24 * 60 <= m < 7 * 24 * 60
    ensures r == LocaleDate <==> m >= 7 * 24 * 60
    ensures r.MinutesAgo? ==> r.n == m
    ensures r.HoursAgo? ==> 1 <= r.n < 24 && r.n * 60 <= m < (r.n + 1) * 60
    ensures r.DaysAgo? ==> 1 <= r.n < 7 && r.n * 24 * 60 <= m < (r.n + 1) * 24 * 60
  {
    if m < 1 then JustNow
    else if m < 60 then MinutesAgo(m)
    else
      var hours := m / 60;
      if hours < 24 then HoursAgo(hours)
      else
        var days := hours / 24;
        if days < 7 then DaysAgo(days) else LocaleDate
  }

  /** `Math.floor((now - then) / 60000)`. */
  function MinutesBetween(thenMs: int, nowMs: int): int
  {
    (nowMs - thenMs) / 60000
  }

  function TimeAgoText(t: TimeAgo, localeDate: string): string
  {
    match t
    case JustNow => "Just now"
    case MinutesAgo(n) => IntToString(n) + "m ago"
    case HoursAgo(n) => IntToString(n) + "h ago"
    case DaysAgo(n) => IntToString(n) + "d ago"
    case LocaleDate => localeDate
  }

  /** The number at the head of a relative time reads back as the bucket's count. */
  lemma TimeAgoTextCount(t: TimeAgo, localeDate: string)
    requires t.MinutesAgo? || t.HoursAgo? || t.DaysAgo?
    ensures ParseInt(TimeAgoText(t, localeDate)) == Some(t.n)
  {
    match t
    case MinutesAgo(n) => IntToStringPrefixRoundTrip(n, "m ago");
    case HoursAgo(n) => IntToStringPrefixRoundTrip(n, "h ago");
    case DaysAgo(n) => IntToStringPrefixRoundTrip(n, "d ago");
  }

  /** The click handler: `onMarkAsRead(id)` is called, with the entry's id, only for an
      unread entry. */
  function ClickCall(n: NotificationItem): (r: Option<string>)
    ensures r.Some? <==> !n.isRead
    ensures r.Some? ==> r.value == n.id
  {
    if !n.isRead then Some(n.id) else None
  }
}
