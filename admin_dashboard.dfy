/** The admin dashboard page: it owns the user, report and message tables that the three
    admin panels display, applies their callbacks to those tables, and shows the overview
    counts. Only the demo account may open it. */
module AdminDashboard {
  import opened Wrappers
  import opened Seqs
  import opened UserManagement
  import opened ContentModeration
  import opened PlatformMessaging

  // ---------------------------------------------------------------- users

  /** `handleUpdateUser`: the user with the same id is replaced. */
  function UpdateUser(users: seq<ExtendedUser>, updated: ExtendedUser): (r: seq<ExtendedUser>)
    ensures |r| == |users|
    ensures forall i :: 0 <= i < |users| ==> r[i] == if users[i].id == updated.id then updated else users[i]
  {
    seq(|users|, i requires 0 <= i < |users| => if users[i].id == updated.id then updated else users[i])
  }

  /** `handleBanUser`: matching users become banned with one more warning. */
  function BanUser(users: seq<ExtendedUser>, userId: string): (r: seq<ExtendedUser>)
    ensures |r| == |users|
    ensures forall i :: 0 <= i < |users| && users[i].id == userId ==>
              r[i] == users[i].(status := Banned, warnings := users[i].warnings + 1)
    ensures forall i :: 0 <= i < |users| && users[i].id != userId ==> r[i] == users[i]
  {
    seq(|users|, i requires 0 <= i < |users| =>
      if users[i].id == userId then users[i].(status := Banned, warnings := users[i].warnings + 1) else users[i])
  }

  /** `handleUnbanUser`: matching users become active; their warnings stay. */
  function UnbanUser(users: seq<ExtendedUser>, userId: string): (r: seq<ExtendedUser>)
    ensures |r| == |users|
    ensures forall i :: 0 <= i < |users| && users[i].id == userId ==> r[i] == users[i].(status := Active)
    ensures forall i :: 0 <= i < |users| && users[i].id != userId ==> r[i] == users[i]
  {
    seq(|users|, i requires 0 <= i < |users| => if users[i].id == userId then users[i].(status := Active) else users[i])
  }

  /** Banning then unbanning leaves a matching user active with the extra warning: the ban is
      lifted but not forgotten. */
  lemma UnbanAfterBan(users: seq<ExtendedUser>, userId: string)
    ensures var r := UnbanUser(BanUser(users, userId), userId);
            && |r| == |users|
            && forall i :: 0 <= i < |users| ==>
                 r[i] == if users[i].id == userId
                         then users[i].(status := Active, warnings := users[i].warnings + 1) else users[i]
  {
  }

  predicate UserIdIs(userId: string, u: ExtendedUser) { u.id == userId }
  predicate OtherUser(userId: string, u: ExtendedUser) { u.id != userId }
  predicate IsBanned(u: ExtendedUser) { u.status == Banned }
  predicate BannableNow(userId: string, u: ExtendedUser) { u.id == userId && u.status != Banned }

  /** `handleDeleteUser`. */
  function DeleteUser(users: seq<ExtendedUser>, userId: string): (r: seq<ExtendedUser>)
    ensures forall i :: 0 <= i < |r| ==> r[i].id != userId && r[i] in users
    ensures forall i :: 0 <= i < |users| && users[i].id != userId ==> users[i] in r
  {
    Filter(users, u => OtherUser(userId, u))
  }

  lemma DeleteUserInOrder(users: seq<ExtendedUser>, userId: string)
    ensures IsSubsequence(DeleteUser(users, userId), users)
  {
    FilterIsSubsequence(users, u => OtherUser(userId, u));
  }

  /** The Banned Users card. */
  function BannedCount(users: seq<ExtendedUser>): nat
  {
    |Filter(users, IsBanned)|
  }

  /** A ban adds to the Banned card exactly the matching users that were not yet banned. */
  lemma BanUserBannedCount(users: seq<ExtendedUser>, userId: string)
    ensures BannedCount(BanUser(users, userId)) == BannedCount(users) + |Filter(users, u => BannableNow(userId, u))|
  {
    var r := BanUser(users, userId);
    forall i | 0 <= i < |users|
      ensures IsBanned(r[i]) == (IsBanned(users[i]) || BannableNow(userId, users[i]))
    {
    }
    FilterCountGains(r, users, IsBanned, u => BannableNow(userId, u));
  }

  // ---------------------------------------------------------------- reports

  /** `handleResolveReport`: matching reports become resolved, stamped and annotated; the
      action itself is only logged. */
  function ResolveReport(reports: seq<ContentReport>, reportId: string, now: string, notes: Option<string>)
    : (r: seq<ContentReport>)
    ensures |r| == |reports|
    ensures forall i :: 0 <= i < |reports| && reports[i].id == reportId ==>
              r[i] == reports[i].(status := Resolved, resolvedAt := Some(now), moderatorNotes := notes)
    ensures forall i :: 0 <= i < |reports| && reports[i].id != reportId ==> r[i] == reports[i]
  {
    seq(|reports|, i requires 0 <= i < |reports| =>
      if reports[i].id == reportId then reports[i].(status := Resolved, resolvedAt := Some(now), moderatorNotes := notes)
      else reports[i])
  }

  /** `handleDismissReport`: the same with status dismissed. */
  function DismissReport(reports: seq<ContentReport>, reportId: string, now: string, notes: Option<string>)
    : (r: seq<ContentReport>)
    ensures |r| == |reports|
    ensures forall i :: 0 <= i < |reports| && reports[i].id == reportId ==>
              r[i] == reports[i].(status := Dismissed, resolvedAt := Some(now), moderatorNotes := notes)
    ensures forall i :: 0 <= i < |reports| && reports[i].id != reportId ==> r[i] == reports[i]
  {
    seq(|reports|, i requires 0 <= i < |reports| =>
      if reports[i].id == reportId then reports[i].(status := Dismissed, resolvedAt := Some(now), moderatorNotes := notes)
      else reports[i])
  }

  /** `handleAssignModerator`: matching reports get the moderator and go under review. */
  function AssignModerator(reports: seq<ContentReport>, reportId: string, moderatorId: string)
    : (r: seq<ContentReport>)
    ensures |r| == |reports|
    ensures forall i :: 0 <= i < |reports| && reports[i].id == reportId ==>
              r[i] == reports[i].(assignedModerator := Some(moderatorId), status := Reviewing)
    ensures forall i :: 0 <= i < |reports| && reports[i].id != reportId ==> r[i] == reports[i]
  {
    seq(|reports|, i requires 0 <= i < |reports| =>
      if reports[i].id == reportId then reports[i].(assignedModerator := Some(moderatorId), status := Reviewing)
      else reports[i])
  }

  predicate PendingWithId(reportId: string, r: ContentReport) { r.id == reportId && r.status == Pending }

  /** Resolving takes exactly the matching pending reports off the Pending card. */
  lemma ResolvePendingCount(reports: seq<ContentReport>, reportId: string, now: string, notes: Option<string>)
    ensures PendingCount(ResolveReport(reports, reportId, now, notes))
            == PendingCount(reports) - |Filter(reports, r => PendingWithId(reportId, r))|
  {
    var r := ResolveReport(reports, reportId, now, notes);
    forall i | 0 <= i < |reports|
      ensures IsPending(r[i]) == (IsPending(reports[i]) && !PendingWithId(reportId, reports[i]))
    {
    }
    FilterCountLoses(r, reports, IsPending, x => PendingWithId(reportId, x));
  }

  /** Dismissing does the same. */
  lemma DismissPendingCount(reports: seq<ContentReport>, reportId: string, now: string, notes: Option<string>)
    ensures PendingCount(DismissReport(reports, reportId, now, notes))
            == PendingCount(reports) - |Filter(reports, r => PendingWithId(reportId, r))|
  {
    var r := DismissReport(reports, reportId, now, notes);
    forall i | 0 <= i < |reports|
      ensures IsPending(r[i]) == (IsPending(reports[i]) && !PendingWithId(reportId, reports[i]))
    {
    }
    FilterCountLoses(r, reports, IsPending, x => PendingWithId(reportId, x));
  }

  // ---------------------------------------------------------------- messages

  /** `handleSendPlatformMessage`'s new record. The delivered and failed figures are
      floating-point estimates of the recipient count and arrive as inputs. */
  function NewMessage(m: OutgoingMessage, id: string, now: string, deliveredEstimate: int, failedEstimate: int)
    : (r: PlatformMessage)
    ensures r.id == id && r.kind == m.kind && r.subject == m.subject && r.content == m.content
    ensures r.sender == m.sender && r.recipients == m.recipients && r.priority == m.priority
    ensures r.status == m.status && r.scheduledFor == m.scheduledFor && r.readCount == m.readCount
    ensures m.status == Sent ==> r.sentAt == Some(now)
                                 && r.deliveryStatus == DeliveryStatus(m.recipients.count, deliveredEstimate, 0, failedEstimate)
    ensures m.status != Sent ==> r.sentAt == None && r.deliveryStatus == DeliveryStatus(0, 0, 0, 0)
  {
    var sent := m.status == Sent;
    PlatformMessage(id, m.kind, m.subject, m.content, m.sender, m.recipients, m.priority, m.status,
                    if sent then Some(now) else None, m.scheduledFor, m.readCount,
                    DeliveryStatus(if sent then m.recipients.count else 0, if sent then deliveredEstimate else 0, 0,
                                   if sent then failedEstimate else 0),
                    None)
  }

  predicate MessageIdIs(messageId: string, m: PlatformMessage) { m.id == messageId }
  predicate OtherMessage(messageId: string, m: PlatformMessage) { m.id != messageId }
  predicate IsSent(m: PlatformMessage) { m.status == Sent }
  predicate SentWithId(messageId: string, m: PlatformMessage) { m.id == messageId && m.status == Sent }

  /** `handleDeleteMessage`. */
  function DeleteMessage(messages: seq<PlatformMessage>, messageId: string): (r: seq<PlatformMessage>)
    ensures forall i :: 0 <= i < |r| ==> r[i].id != messageId && r[i] in messages
    ensures forall i :: 0 <= i < |messages| && messages[i].id != messageId ==> messages[i] in r
  {
    Filter(messages, m => OtherMessage(messageId, m))
  }

  lemma DeleteMessageInOrder(messages: seq<PlatformMessage>, messageId: string)
    ensures IsSubsequence(DeleteMessage(messages, messageId), messages)
  {
    FilterIsSubsequence(messages, m => OtherMessage(messageId, m));
  }

  /** `handleScheduleMessage`: matching messages get the date and become scheduled. */
  function ScheduleMessage(messages: seq<PlatformMessage>, messageId: string, scheduledFor: string)
    : (r: seq<PlatformMessage>)
    ensures |r| == |messages|
    ensures forall i :: 0 <= i < |messages| && messages[i].id == messageId ==>
              r[i] == messages[i].(scheduledFor := Some(scheduledFor), status := Scheduled)
    ensures forall i :: 0 <= i < |messages| && messages[i].id != messageId ==> r[i] == messages[i]
  {
    seq(|messages|, i requires 0 <= i < |messages| =>
      if messages[i].id == messageId then messages[i].(scheduledFor := Some(scheduledFor), status := Scheduled)
      else messages[i])
  }

  /** The Messages Sent card. */
  function SentCount(messages: seq<PlatformMessage>): nat
  {
    |Filter(messages, IsSent)|
  }

  /** Scheduling takes the matching sent messages off the Messages Sent card. */
  lemma ScheduleSentCount(messages: seq<PlatformMessage>, messageId: string, scheduledFor: string)
    ensures SentCount(ScheduleMessage(messages, messageId, scheduledFor))
            == SentCount(messages) - |Filter(messages, m => SentWithId(messageId, m))|
  {
    var r := ScheduleMessage(messages, messageId, scheduledFor);
    forall i | 0 <= i < |messages|
      ensures IsSent(r[i]) == (IsSent(messages[i]) && !SentWithId(messageId, messages[i]))
    {
    }
    FilterCountLoses(r, messages, IsSent, m => SentWithId(messageId, m));
  }

  // ---------------------------------------------------------------- page

  /** The page renders only for a signed-in user whose id is `demo`. */
  function CanAccess(currentUserId: Option<string>): (r: bool)
    ensures r <==> currentUserId == Some("demo")
  {
    currentUserId.Some? && currentUserId.value == "demo"
  }

  datatype AdminTab = Overview | UsersTab | ModerationTab | MessagingTab | SettingsTab

  class Dashboard {
    var activeTab: AdminTab
    var users: seq<ExtendedUser>
    var reports: seq<ContentReport>
    var messages: seq<PlatformMessage>

    /** The page's initial tables; it opens on the overview. */
    constructor (initialUsers: seq<ExtendedUser>, initialReports: seq<ContentReport>,
                 initialMessages: seq<PlatformMessage>)
      ensures activeTab == Overview && users == initialUsers && reports == initialReports
      ensures messages == initialMessages
    {
      activeTab := Overview;
      users := initialUsers;
      reports := initialReports;
      messages := initialMessages;
    }

    /** The overview cards: users, pending reports, messages sent and banned users. */
    function OverviewCounts(): (nat, nat, nat, nat)
      reads this
    {
      (|users|, PendingCount(reports), SentCount(messages), BannedCount(users))
    }

    method HandleUpdateUser(updated: ExtendedUser)
      modifies this
      ensures users == UpdateUser(old(users), updated)
      ensures reports == old(reports) && messages == old(messages) && activeTab == old(activeTab)
    {
      users := UpdateUser(users, updated);
    }

    method HandleBanUser(userId: string, reason: string)
      modifies this
      ensures users == BanUser(old(users), userId)
      ensures OverviewCounts().3 == old(OverviewCounts().3) + |Filter(old(users), u => BannableNow(userId, u))|
      ensures reports == old(reports) && messages == old(messages) && activeTab == old(activeTab)
    {
      BanUserBannedCount(users, userId);
      users := BanUser(users, userId);
    }

    method HandleUnbanUser(userId: string)
      modifies this
      ensures users == UnbanUser(old(users), userId)
      ensures reports == old(reports) && messages == old(messages) && activeTab == old(activeTab)
    {
      users := UnbanUser(users, userId);
    }

    method HandleDeleteUser(userId: string)
      modifies this
      ensures users == DeleteUser(old(users), userId)
      ensures reports == old(reports) && messages == old(messages) && activeTab == old(activeTab)
    {
      users := DeleteUser(users, userId);
    }

    /** `now` is the ISO time of the call. */
    method HandleResolveReport(reportId: string, action: Action, notes: Option<string>, now: string)
      modifies this
      ensures reports == ResolveReport(old(reports), reportId, now, notes)
      ensures OverviewCounts().1 == old(OverviewCounts().1) - |Filter(old(reports), r => PendingWithId(reportId, r))|
      ensures users == old(users) && messages == old(messages) && activeTab == old(activeTab)
    {
      ResolvePendingCount(reports, reportId, now, notes);
      reports := ResolveReport(reports, reportId, now, notes);
    }

    method HandleDismissReport(reportId: string, notes: Option<string>, now: string)
      modifies this
      ensures reports == DismissReport(old(reports), reportId, now, notes)
      ensures OverviewCounts().1 == old(OverviewCounts().1) - |Filter(old(reports), r => PendingWithId(reportId, r))|
      ensures users == old(users) && messages == old(messages) && activeTab == old(activeTab)
    {
      DismissPendingCount(reports, reportId, now, notes);
      reports := DismissReport(reports, reportId, now, notes);
    }

    method HandleAssignModerator(reportId: string, moderatorId: string)
      modifies this
      ensures reports == AssignModerator(old(reports), reportId, moderatorId)
      ensures users == old(users) && messages == old(messages) && activeTab == old(activeTab)
    {
      reports := AssignModerator(reports, reportId, moderatorId);
    }

    /** The new message goes first; `id` is `Date.now()` and `now` its ISO time. */
    method HandleSendPlatformMessage(m: OutgoingMessage, id: string, now: string, deliveredEstimate: int,
                                     failedEstimate: int)
      modifies this
      ensures messages == [NewMessage(m, id, now, deliveredEstimate, failedEstimate)] + old(messages)
      ensures OverviewCounts().2 == old(OverviewCounts().2) + (if m.status == Sent then 1 else 0)
      ensures users == old(users) && reports == old(reports) && activeTab == old(activeTab)
    {
      var msg := NewMessage(m, id, now, deliveredEstimate, failedEstimate);
      messages := [msg] + messages;
      assert messages[1..] == old(messages);
    }

    method HandleDeleteMessage(messageId: string)
      modifies this
      ensures messages == DeleteMessage(old(messages), messageId)
      ensures users == old(users) && reports == old(reports) && activeTab == old(activeTab)
    {
      messages := DeleteMessage(messages, messageId);
    }

    method HandleScheduleMessage(messageId: string, scheduledFor: string)
      modifies this
      ensures messages == ScheduleMessage(old(messages), messageId, scheduledFor)
      ensures OverviewCounts().2 == old(OverviewCounts().2) - |Filter(old(messages), m => SentWithId(messageId, m))|
      ensures users == old(users) && reports == old(reports) && activeTab == old(activeTab)
    {
      ScheduleSentCount(messages, messageId, scheduledFor);
      messages := ScheduleMessage(messages, messageId, scheduledFor);
    }

    method SelectTab(tab: AdminTab)
      modifies this
      ensures activeTab == tab
      ensures users == old(users) && reports == old(reports) && messages == old(messages)
    {
      activeTab := tab;
    }
  }
}
