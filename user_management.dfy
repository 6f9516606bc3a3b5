/** The admin user table: the user record, the search and filter over it, the per-role
    badges, and the ban and message dialogs. */
module UserManagement {
  import opened Wrappers
  import opened Text
  import opened Seqs

  datatype UserStatus = Active | Banned | Suspended

  /** The value the status select and the record share. */
  function StatusName(s: UserStatus): string
  {
    match s
    case Active => "active"
    case Banned => "banned"
    case Suspended => "suspended"
  }

  /** `UserRole`, without its colour and icon. */
  datatype Role = Role(id: string, name: string, permissions: seq<string>)

  /** `ExtendedUser`; the two dates are kept as the ISO strings they are. */
  datatype ExtendedUser = ExtendedUser(
    id: string,
    username: string,
    email: string,
    avatar: Option<string>,
    role: Role,
    status: UserStatus,
    createdAt: string,
    lastActivity: string,
    questionsCount: int,
    answersCount: int,
    reputation: int,
    warnings: int)

  /** The three roles the role select and the badges list. */
  function Roles(): seq<Role>
  {
    [ Role("admin", "Administrator", ["manage_users", "moderate_content", "platform_settings", "view_analytics"]),
      Role("moderator", "Moderator", ["moderate_content", "manage_reports", "warn_users"]),
      Role("user", "User", ["post_questions", "post_answers", "vote", "comment"]) ]
  }

  /** The filter callback: the search term occurs, ignoring case, in the username or the
      email, and each select is `all` or equal. */
  predicate Listed(u: ExtendedUser, searchTerm: string, roleFilter: string, statusFilter: string)
  {
    (ContainsIgnoreCase(u.username, searchTerm) || ContainsIgnoreCase(u.email, searchTerm))
    && (roleFilter == "all" || u.role.id == roleFilter)
    && (statusFilter == "all" || StatusName(u.status) == statusFilter)
  }

  function FilteredUsers(users: seq<ExtendedUser>, searchTerm: string, roleFilter: string, statusFilter: string)
    : (r: seq<ExtendedUser>)
    ensures |r| <= |users|
    ensures forall i :: 0 <= i < |r| ==> r[i] in users && Listed(r[i], searchTerm, roleFilter, statusFilter)
    ensures forall i :: 0 <= i < |users| && Listed(users[i], searchTerm, roleFilter, statusFilter) ==> users[i] in r
  {
    Filter(users, u => Listed(u, searchTerm, roleFilter, statusFilter))
  }

  /** The table keeps the users' order; with an empty search and both selects on `all`
      every user is listed. */
  lemma FilteredUsersInOrder(users: seq<ExtendedUser>, searchTerm: string, roleFilter: string, statusFilter: string)
    ensures IsSubsequence(FilteredUsers(users, searchTerm, roleFilter, statusFilter), users)
    ensures searchTerm == "" && roleFilter == "all" && statusFilter == "all" ==>
              FilteredUsers(users, searchTerm, roleFilter, statusFilter) == users
  {
    FilterIsSubsequence(users, u => Listed(u, searchTerm, roleFilter, statusFilter));
    if searchTerm == "" && roleFilter == "all" && statusFilter == "all" {
      forall i | 0 <= i < |users|
        ensures Listed(users[i], searchTerm, roleFilter, statusFilter)
      {
        ContainsIgnoreCaseEmpty(users[i].username);
      }
      FilterAllPass(users, u => Listed(u, searchTerm, roleFilter, statusFilter));
    }
  }

  predicate HasRole(roleId: string, u: ExtendedUser) { u.role.id == roleId }

  /** A role badge: the users of the whole table with that role id. */
  function RoleCount(users: seq<ExtendedUser>, roleId: string): (r: nat)
    ensures r <= |users|
  {
    |Filter(users, u => HasRole(roleId, u))|
  }

  /** When every user holds one of the three roles, the badges add up to the table size. */
  lemma {:induction false} RoleCountsCoverTable(users: seq<ExtendedUser>)
    requires forall i :: 0 <= i < |users| ==> users[i].role.id in {"admin", "moderator", "user"}
    ensures RoleCount(users, "admin") + RoleCount(users, "moderator") + RoleCount(users, "user") == |users|
  {
    if users != [] {
      RoleCountsCoverTable(users[1..]);
      assert users[0].role.id in {"admin", "moderator", "user"};
    }
  }

  /** The row action: only an active user can be banned; every other status offers unban. */
  datatype RowAction = BanAction | UnbanAction

  function RowActionFor(status: UserStatus): (r: RowAction)
    ensures r == BanAction <==> status == Active
  {
    if status == Active then BanAction else UnbanAction
  }

  class UserManagementPanel {
    var searchTerm: string
    var roleFilter: string
    var statusFilter: string
    var selectedUser: Option<ExtendedUser>
    var showBanDialog: bool
    var showMessageDialog: bool
    var banReason: string
    var messageContent: string

    constructor ()
      ensures searchTerm == "" && roleFilter == "all" && statusFilter == "all"
      ensures selectedUser == None && !showBanDialog && !showMessageDialog
      ensures banReason == "" && messageContent == ""
    {
      searchTerm := "";
      roleFilter := "all";
      statusFilter := "all";
      selectedUser := None;
      showBanDialog := false;
      showMessageDialog := false;
      banReason := "";
      messageContent := "";
    }

    /** The ban button of an active user's row. */
    method OpenBanDialog(u: ExtendedUser)
      modifies this
      ensures selectedUser == Some(u) && showBanDialog
      ensures showMessageDialog == old(showMessageDialog) && banReason == old(banReason)
      ensures messageContent == old(messageContent)
    {
      selectedUser := Some(u);
      showBanDialog := true;
    }

    /** The message button of a row. */
    method OpenMessageDialog(u: ExtendedUser)
      modifies this
      ensures selectedUser == Some(u) && showMessageDialog
      ensures showBanDialog == old(showBanDialog) && banReason == old(banReason)
      ensures messageContent == old(messageContent)
    {
      selectedUser := Some(u);
      showMessageDialog := true;
    }

    /** `handleBanUser`: with a selected user and a reason that is not blank, `onBanUser` is
        called with the user's id and the reason as typed, and the dialog is reset; otherwise
        nothing happens. */
    method HandleBanUser() returns (call: Option<(string, string)>)
      modifies this
      ensures call.Some? <==> old(selectedUser).Some? && !AllSpace(old(banReason))
      ensures call.Some? ==> call.value == (old(selectedUser).value.id, old(banReason))
                             && !showBanDialog && banReason == "" && selectedUser == None
      ensures call.None? ==> selectedUser == old(selectedUser) && banReason == old(banReason)
                             && showBanDialog == old(showBanDialog)
      ensures showMessageDialog == old(showMessageDialog) && messageContent == old(messageContent)
    {
      BlankIffAllSpace(banReason);
      if selectedUser.Some? && Trim(banReason) != "" {
        call := Some((selectedUser.value.id, banReason));
        showBanDialog := false;
        banReason := "";
        selectedUser := None;
      } else {
        call := None;
      }
    }

    /** `handleSendMessage`: the same rule for the message dialog and `onSendMessage`. */
    method HandleSendMessage() returns (call: Option<(string, string)>)
      modifies this
      ensures call.Some? <==> old(selectedUser).Some? && !AllSpace(old(messageContent))
      ensures call.Some? ==> call.value == (old(selectedUser).value.id, old(messageContent))
                             && !showMessageDialog && messageContent == "" && selectedUser == None
      ensures call.None? ==> selectedUser == old(selectedUser) && messageContent == old(messageContent)
                             && showMessageDialog == old(showMessageDialog)
      ensures showBanDialog == old(showBanDialog) && banReason == old(banReason)
    {
      BlankIffAllSpace(messageContent);
      if selectedUser.Some? && Trim(messageContent) != "" {
        call := Some((selectedUser.value.id, messageContent));
        showMessageDialog := false;
        messageContent := "";
        selectedUser := None;
      } else {
        call := None;
      }
    }

    /** The ban dialog's cancel button. */
    method CancelBan()
      modifies this
      ensures !showBanDialog && banReason == "" && selectedUser == None
      ensures showMessageDialog == old(showMessageDialog) && messageContent == old(messageContent)
    {
      showBanDialog := false;
      banReason := "";
      selectedUser := None;
    }

    /** The message dialog's cancel button. */
    method CancelMessage()
      modifies this
      ensures !showMessageDialog && messageContent == "" && selectedUser == None
      ensures showBanDialog == old(showBanDialog) && banReason == old(banReason)
    {
      showMessageDialog := false;
      messageContent := "";
      selectedUser := None;
    }
  }
}
