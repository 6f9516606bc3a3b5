/** The broadcast composer and outbox: the message record, the recipient count and targets
    the composer derives, the status it assigns, the outbox search and tabs, and the content
    preview. */
module PlatformMessaging {
  import opened Wrappers
  import opened Text
  import opened Seqs
  import Helpers

  datatype MessageType = Announcement | WarningMessage | Newsletter | Personal | SystemMessage

  datatype RecipientType = AllUsers | ByRole | Individual | Group

  datatype MessagePriority = Low | Medium | High | Urgent

  datatype MessageStatus = Draft | Sent | Scheduled

  function StatusName(s: MessageStatus): string
  {
    match s
    case Draft => "draft"
    case Sent => "sent"
    case Scheduled => "scheduled"
  }

  datatype MessageSender = MessageSender(id: string, username: string, role: string)

  datatype Recipients = Recipients(kind: RecipientType, targets: seq<string>, count: int)

  datatype DeliveryStatus = DeliveryStatus(sent: int, delivered: int, read: int, failed: int)

  datatype Attachment = Attachment(name: string, url: string, size: int)

  /** `PlatformMessage`; the dates are kept as the ISO strings they are. */
  datatype PlatformMessage = PlatformMessage(
    id: string,
    kind: MessageType,
    subject: string,
    content: string,
    sender: MessageSender,
    recipients: Recipients,
    priority: MessagePriority,
    status: MessageStatus,
    sentAt: Option<string>,
    scheduledFor: Option<string>,
    readCount: int,
    deliveryStatus: DeliveryStatus,
    attachments: Option<seq<Attachment>>)

  /** `Omit<PlatformMessage, 'id' | 'sentAt' | 'deliveryStatus'>`: what the composer hands to
      `onSendMessage`. */
  datatype OutgoingMessage = OutgoingMessage(
    kind: MessageType,
    subject: string,
    content: string,
    sender: MessageSender,
    recipients: Recipients,
    priority: MessagePriority,
    status: MessageStatus,
    scheduledFor: Option<string>,
    readCount: int)

  // ---------------------------------------------------------------- recipients

  /** The fixed size of each role; `role?.count || 0` makes an unknown id count 0. */
  function RoleSize(roleId: string): nat
  {
    match roleId
    case "admin" => 3
    case "moderator" => 8
    case "user" => 1247
    case _ => 0
  }

  /** The `reduce` over the selected roles. */
  function RoleRecipients(roles: seq<string>): nat
  {
    if roles == [] then 0 else RoleSize(roles[0]) + RoleRecipients(roles[1..])
  }

  predicate IsRole(roleId: string, r: string) { r == roleId }

  function Occurrences(roles: seq<string>, roleId: string): nat
  {
    |Filter(roles, r => IsRole(roleId, r))|
  }

  /** The role total is each known role's size times how often it is selected. */
  lemma {:induction false} RoleRecipientsByRole(roles: seq<string>)
    ensures RoleRecipients(roles) == 3 * Occurrences(roles, "admin") + 8 * Occurrences(roles, "moderator")
                                     + 1247 * Occurrences(roles, "user")
  {
    if roles != [] {
      RoleRecipientsByRole(roles[1..]);
    }
  }

  /** `recipientCount`: 1250 for everyone, the role total for roles, and the number of picked
      users for individuals. */
  function RecipientCount(kind: RecipientType, selectedRoles: seq<string>, selectedUsers: seq<string>): (r: nat)
    ensures kind == AllUsers ==> r == 1250
    ensures kind == ByRole ==> r == RoleRecipients(selectedRoles)
    ensures kind != AllUsers && kind != ByRole ==> r == |selectedUsers|
  {
    if kind == AllUsers then 1250 else if kind == ByRole then RoleRecipients(selectedRoles) else |selectedUsers|
  }

  /** `recipients.targets`. */
  function Targets(kind: RecipientType, selectedRoles: seq<string>, selectedUsers: seq<string>): seq<string>
  {
    if kind == ByRole then selectedRoles else if kind == Individual then selectedUsers else ["all"]
  }

  /** For roles and individuals the count follows the targets: the role sizes, or one per
      picked user. */
  lemma TargetsMatchCount(kind: RecipientType, selectedRoles: seq<string>, selectedUsers: seq<string>)
    requires kind == ByRole || kind == Individual
    ensures var t := Targets(kind, selectedRoles, selectedUsers);
            RecipientCount(kind, selectedRoles, selectedUsers) == (if kind == ByRole then RoleRecipients(t) else |t|)
  {
  }

  /** The status a new message gets. */
  function NewStatus(isDraft: bool, scheduleDate: string): (r: MessageStatus)
    ensures r == Draft <==> isDraft
    ensures r == Scheduled <==> !isDraft && scheduleDate != ""
    ensures r == Sent <==> !isDraft && scheduleDate == ""
  {
    if isDraft then Draft else if scheduleDate != "" then Scheduled else Sent
  }

  /** The role checkboxes: checking appends the role, unchecking drops every copy of it. */
  function ToggleRole(selectedRoles: seq<string>, roleId: string, checked: bool): seq<string>
  {
    if checked then selectedRoles + [roleId] else Filter(selectedRoles, r => !IsRole(roleId, r))
  }

  lemma {:induction false} RoleRecipientsAppend(roles: seq<string>, roleId: string)
    ensures RoleRecipients(roles + [roleId]) == RoleRecipients(roles) + RoleSize(roleId)
  {
    if roles != [] {
      RoleRecipientsAppend(roles[1..], roleId);
      assert (roles + [roleId])[1..] == roles[1..] + [roleId];
    } else {
      assert roles + [roleId] == [roleId];
    }
  }

  lemma {:induction false} RoleRecipientsWithout(roles: seq<string>, roleId: string)
    ensures RoleRecipients(Filter(roles, r => !IsRole(roleId, r)))
            == RoleRecipients(roles) - RoleSize(roleId) * Occurrences(roles, roleId)
  {
    if roles != [] {
      var tail := roles[1..];
      var rest := Filter(tail, r => !IsRole(roleId, r));
      var k := RoleSize(roleId);
      var occ := Occurrences(tail, roleId);
      RoleRecipientsWithout(tail, roleId);
      assert RoleRecipients(rest) == RoleRecipients(tail) - k * occ;
      if roles[0] == roleId {
        assert Filter(roles, r => !IsRole(roleId, r)) == rest;
        assert Occurrences(roles, roleId) == 1 + occ;
        assert RoleRecipients(roles) == k + RoleRecipients(tail);
        assert k * (1 + occ) == k + k * occ;
      } else {
        assert Filter(roles, r => !IsRole(roleId, r)) == [roles[0]] + rest;
        assert ([roles[0]] + rest)[1..] == rest;
        assert Occurrences(roles, roleId) == occ;
      }
    }
  }

  /** Checking a role adds its size to the role total; unchecking removes all of its share. */
  lemma ToggleRoleCount(selectedRoles: seq<string>, roleId: string, checked: bool)
    ensures checked ==> RoleRecipients(ToggleRole(selectedRoles, roleId, checked))
                        == RoleRecipients(selectedRoles) + RoleSize(roleId)
    ensures !checked ==> RoleRecipients(ToggleRole(selectedRoles, roleId, checked))
                         == RoleRecipients(selectedRoles) - RoleSize(roleId) * Occurrences(selectedRoles, roleId)
  {
    if checked {
      RoleRecipientsAppend(selectedRoles, roleId);
    } else {
      RoleRecipientsWithout(selectedRoles, roleId);
    }
  }

  // ---------------------------------------------------------------- outbox

  /** The outbox filter: the search occurs, ignoring case, in the subject or the content, and
      the status select is `all` or equal. */
  predicate Listed(m: PlatformMessage, searchTerm: string, filterStatus: string)
  {
    (ContainsIgnoreCase(m.subject, searchTerm) || ContainsIgnoreCase(m.content, searchTerm))
    && (filterStatus == "all" || StatusName(m.status) == filterStatus)
  }

  function FilteredMessages(messages: seq<PlatformMessage>, searchTerm: string, filterStatus: string)
    : (r: seq<PlatformMessage>)
    ensures forall i :: 0 <= i < |r| ==> r[i] in messages && Listed(r[i], searchTerm, filterStatus)
    ensures forall i :: 0 <= i < |messages| && Listed(messages[i], searchTerm, filterStatus) ==> messages[i] in r
  {
    Filter(messages, m => Listed(m, searchTerm, filterStatus))
  }

  lemma FilteredMessagesInOrder(messages: seq<PlatformMessage>, searchTerm: string, filterStatus: string)
    ensures IsSubsequence(FilteredMessages(messages, searchTerm, filterStatus), messages)
  {
    FilterIsSubsequence(messages, m => Listed(m, searchTerm, filterStatus));
  }

  datatype Tab = ComposeTab | SentTab | DraftsTab | ScheduledTab

  predicate HasStatus(s: MessageStatus, m: PlatformMessage) { m.status == s }

  /** The status a list tab shows. */
  function TabStatus(tab: Tab): MessageStatus
    requires tab != ComposeTab
  {
    match tab
    case SentTab => Sent
    case DraftsTab => Draft
    case ScheduledTab => Scheduled
  }

  /** `getTabMessages`: a list tab shows exactly the filtered messages of its own status; the
      compose tab shows none. */
  function TabMessages(filtered: seq<PlatformMessage>, tab: Tab): (r: seq<PlatformMessage>)
    ensures tab == ComposeTab ==> r == []
    ensures tab != ComposeTab ==> forall i :: 0 <= i < |r| ==> r[i] in filtered && r[i].status == TabStatus(tab)
    ensures tab != ComposeTab ==>
              forall i :: 0 <= i < |filtered| && filtered[i].status == TabStatus(tab) ==> filtered[i] in r
  {
    match tab
    case SentTab => Filter(filtered, m => HasStatus(Sent, m))
    case DraftsTab => Filter(filtered, m => HasStatus(Draft, m))
    case ScheduledTab => Filter(filtered, m => HasStatus(Scheduled, m))
    case ComposeTab => []
  }

  /** The content preview of a card: at most 200 characters, then the dots. */
  function Preview(content: string): (r: string)
    ensures |content| <= 200 ==> r == content
    ensures |content| > 200 ==> |r| == 203 && r[..200] == content[..200] && r[200..] == "..."
  {
    Helpers.TruncateBounds(content, 200);
    Helpers.TruncateText(content, 200)
  }

  // ---------------------------------------------------------------- composer

  /** The sender every composed message carries. */
  const ComposerSender := MessageSender("current-user", "Admin", "admin")

  /** The message the composer builds from its form. */
  function Composed(kind: MessageType, subject: string, content: string, priority: MessagePriority,
                    recipientType: RecipientType, selectedRoles: seq<string>, selectedUsers: seq<string>,
                    scheduleDate: string, isDraft: bool): (m: OutgoingMessage)
    ensures m.kind == kind && m.subject == subject && m.content == content && m.priority == priority
    ensures m.sender == ComposerSender && m.readCount == 0
    ensures m.recipients.kind == recipientType
    ensures m.recipients.count == RecipientCount(recipientType, selectedRoles, selectedUsers)
    ensures m.recipients.targets == Targets(recipientType, selectedRoles, selectedUsers)
    ensures m.status == NewStatus(isDraft, scheduleDate)
    ensures m.scheduledFor.Some? <==> scheduleDate != ""
    ensures m.scheduledFor.Some? ==> m.scheduledFor.value == scheduleDate
  {
    var count := RecipientCount(recipientType, selectedRoles, selectedUsers);
    var recipients := Recipients(recipientType, Targets(recipientType, selectedRoles, selectedUsers), count);
    var scheduledFor := if scheduleDate != "" then Some(scheduleDate) else None;
    OutgoingMessage(kind, subject, content, ComposerSender, recipients, priority,
                    NewStatus(isDraft, scheduleDate), scheduledFor, 0)
  }

  class Composer {
    var messageType: MessageType
    var recipientType: RecipientType
    var subject: string
    var content: string
    var priority: MessagePriority
    var selectedRoles: seq<string>
    var selectedUsers: seq<string>
    var scheduleDate: string
    var filterStatus: string
    var searchTerm: string
    var activeTab: Tab

    constructor ()
      ensures messageType == Announcement && recipientType == AllUsers && subject == "" && content == ""
      ensures priority == Medium && selectedRoles == [] && selectedUsers == [] && scheduleDate == ""
      ensures filterStatus == "all" && searchTerm == "" && activeTab == ComposeTab
    {
      messageType := Announcement;
      recipientType := AllUsers;
      subject := "";
      content := "";
      priority := Medium;
      selectedRoles := [];
      selectedUsers := [];
      scheduleDate := "";
      filterStatus := "all";
      searchTerm := "";
      activeTab := ComposeTab;
    }

    /** A role checkbox. */
    method CheckRole(roleId: string, checked: bool)
      modifies this
      ensures selectedRoles == ToggleRole(old(selectedRoles), roleId, checked)
      ensures subject == old(subject) && content == old(content) && selectedUsers == old(selectedUsers)
      ensures messageType == old(messageType) && recipientType == old(recipientType) && priority == old(priority)
      ensures scheduleDate == old(scheduleDate) && filterStatus == old(filterStatus)
      ensures searchTerm == old(searchTerm) && activeTab == old(activeTab)
    {
      selectedRoles := ToggleRole(selectedRoles, roleId, checked);
    }

    /** The reset after a send: the texts, the selections and the date are cleared and the
        priority goes back to medium. */
    method ResetForm()
      modifies this
      ensures subject == "" && content == "" && selectedRoles == [] && selectedUsers == []
      ensures scheduleDate == "" && priority == Medium
      ensures messageType == old(messageType) && recipientType == old(recipientType)
      ensures filterStatus == old(filterStatus) && searchTerm == old(searchTerm) && activeTab == old(activeTab)
    {
      subject, content, selectedRoles, selectedUsers, scheduleDate, priority := "", "", [], [], "", Medium;
    }

    /** `handleSendMessage(isDraft)`: nothing unless subject and content are both non-blank;
        otherwise `onSendMessage` gets the composed message and the form is reset, keeping the
        message type and the recipient type. */
    method HandleSendMessage(isDraft: bool) returns (call: Option<OutgoingMessage>)
      modifies this
      ensures call.Some? <==> !AllSpace(old(subject)) && !AllSpace(old(content))
      ensures call.Some? ==>
                call.value == Composed(old(messageType), old(subject), old(content), old(priority), old(recipientType),
                                       old(selectedRoles), old(selectedUsers), old(scheduleDate), isDraft)
      ensures call.Some? ==> subject == "" && content == "" && selectedRoles == [] && selectedUsers == []
                             && scheduleDate == "" && priority == Medium
      ensures call.None? ==> subject == old(subject) && content == old(content) && selectedRoles == old(selectedRoles)
                             && selectedUsers == old(selectedUsers) && scheduleDate == old(scheduleDate)
                             && priority == old(priority)
      ensures messageType == old(messageType) && recipientType == old(recipientType)
      ensures filterStatus == old(filterStatus) && searchTerm == old(searchTerm) && activeTab == old(activeTab)
    {
      var blank := IsBlank(subject) || IsBlank(content);
      if !blank {
        call := Some(Composed(messageType, subject, content, priority, recipientType, selectedRoles,
                              selectedUsers, scheduleDate, isDraft));
        ResetForm();
      } else {
        call := None;
      }
    }
  }
}
