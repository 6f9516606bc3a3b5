/** The moderation queue: the report record, the search and the three filters over it, the
    queue statistics, the action dialog and the relative report time. */
module ContentModeration {
  import opened Wrappers
  import opened Text
  import opened Seqs

  datatype ContentKind = QuestionContent | AnswerContent | CommentContent

  datatype Category = Spam | Inappropriate | Harassment | Misinformation | Copyright | OtherCategory

  datatype ReportStatus = Pending | Reviewing | Resolved | Dismissed

  datatype ReportPriority = LowPriority | MediumPriority | HighPriority | Critical

  function CategoryName(c: Category): string
  {
    match c
    case Spam => "spam"
    case Inappropriate => "inappropriate"
    case Harassment => "harassment"
    case Misinformation => "misinformation"
    case Copyright => "copyright"
    case OtherCategory => "other"
  }

  function StatusName(s: ReportStatus): string
  {
    match s
    case Pending => "pending"
    case Reviewing => "reviewing"
    case Resolved => "resolved"
    case Dismissed => "dismissed"
  }

  function PriorityName(p: ReportPriority): string
  {
    match p
    case LowPriority => "low"
    case MediumPriority => "medium"
    case HighPriority => "high"
    case Critical => "critical"
  }

  datatype Author = Author(id: string, username: string, avatar: Option<string>)

  datatype ReportedContent = ReportedContent(title: Option<string>, text: string, author: Author, createdAt: string)

  datatype Reporter = Reporter(id: string, username: string)

  /** `ContentReport`; the dates are kept as the ISO strings they are. */
  datatype ContentReport = ContentReport(
    id: string,
    kind: ContentKind,
    contentId: string,
    content: ReportedContent,
    reporter: Reporter,
    reason: string,
    category: Category,
    status: ReportStatus,
    priority: ReportPriority,
    assignedModerator: Option<string>,
    reportedAt: string,
    resolvedAt: Option<string>,
    moderatorNotes: Option<string>)

  /** The filter callback: the search term occurs, ignoring case, in the content's text, its
      author's name or the reason, and each select is `all` or equal. */
  predicate Kept(r: ContentReport, searchTerm: string, statusFilter: string, categoryFilter: string,
                 priorityFilter: string)
  {
    (ContainsIgnoreCase(r.content.text, searchTerm) || ContainsIgnoreCase(r.content.author.username, searchTerm)
     || ContainsIgnoreCase(r.reason, searchTerm))
    && (statusFilter == "all" || StatusName(r.status) == statusFilter)
    && (categoryFilter == "all" || CategoryName(r.category) == categoryFilter)
    && (priorityFilter == "all" || PriorityName(r.priority) == priorityFilter)
  }

  function FilteredReports(reports: seq<ContentReport>, searchTerm: string, statusFilter: string,
                           categoryFilter: string, priorityFilter: string): (r: seq<ContentReport>)
    ensures |r| <= |reports|
    ensures forall i :: 0 <= i < |r| ==>
              r[i] in reports && Kept(r[i], searchTerm, statusFilter, categoryFilter, priorityFilter)
    ensures forall i :: 0 <= i < |reports| && Kept(reports[i], searchTerm, statusFilter, categoryFilter, priorityFilter)
              ==> reports[i] in r
  {
    Filter(reports, r => Kept(r, searchTerm, statusFilter, categoryFilter, priorityFilter))
  }

  lemma FilteredReportsInOrder(reports: seq<ContentReport>, searchTerm: string, statusFilter: string,
                               categoryFilter: string, priorityFilter: string)
    ensures IsSubsequence(FilteredReports(reports, searchTerm, statusFilter, categoryFilter, priorityFilter), reports)
  {
    FilterIsSubsequence(reports, r => Kept(r, searchTerm, statusFilter, categoryFilter, priorityFilter));
  }

  predicate IsPending(r: ContentReport) { r.status == Pending }
  predicate IsReviewing(r: ContentReport) { r.status == Reviewing }
  predicate IsCritical(r: ContentReport) { r.priority == Critical }

  /** The Pending, Reviewing and Critical cards, over every report whatever the filters. */
  function PendingCount(reports: seq<ContentReport>): nat { |Filter(reports, IsPending)| }
  function ReviewingCount(reports: seq<ContentReport>): nat { |Filter(reports, IsReviewing)| }
  function CriticalCount(reports: seq<ContentReport>): nat { |Filter(reports, IsCritical)| }

  /** The queue as first shown (no search, status `pending`, the other filters `all`) lists
      exactly as many reports as the Pending card counts. */
  lemma InitialQueueMatchesPendingCard(reports: seq<ContentReport>)
    ensures |FilteredReports(reports, "", "pending", "all", "all")| == PendingCount(reports)
  {
    forall i | 0 <= i < |reports|
      ensures Kept(reports[i], "", "pending", "all", "all") == IsPending(reports[i])
    {
      ContainsIgnoreCaseEmpty(reports[i].content.text);
    }
    FilterSameOn(reports, r => Kept(r, "", "pending", "all", "all"), IsPending);
  }

  /** `getTimeAgo` buckets, over whole hours; from a week on the locale date is shown. */
  datatype ReportAge = UnderAnHour | HoursAgo(n: int) | DaysAgo(n: int) | LocaleDate

  function ReportAgeOfHours(h: int): (r: ReportAge)
    ensures r == UnderAnHour <==> h < 1
    ensures r.HoursAgo? <==> 1 <= h < 24
    ensures r.DaysAgo? <==> 24 <= h < 7 * 24
    ensures r == LocaleDate <==> h >= 7 * 24
    ensures r.HoursAgo? ==> r.n == h
    ensures r.DaysAgo? ==> 1 <= r.n < 7 && r.n * 24 <= h < (r.n + 1) * 24
  {
    if h < 1 then UnderAnHour
    else if h < 24 then HoursAgo(h)
    else
      var days := h / 24;
      if days < 7 then DaysAgo(days) else LocaleDate
  }

  function ReportAgeText(a: ReportAge, localeDate: string): string
  {
    match a
    case UnderAnHour => "Less than an hour ago"
    case HoursAgo(n) => IntToString(n) + " hours ago"
    case DaysAgo(n) => IntToString(n) + " days ago"
    case LocaleDate => localeDate
  }

  /** The number in an hours or days text reads back as the bucket's count. */
  lemma ReportAgeTextCount(a: ReportAge, localeDate: string)
    requires a.HoursAgo? || a.DaysAgo?
    ensures ParseInt(ReportAgeText(a, localeDate)) == Some(a.n)
  {
    match a
    case HoursAgo(n) => IntToStringPrefixRoundTrip(n, " hours ago");
    case DaysAgo(n) => IntToStringPrefixRoundTrip(n, " days ago");
  }

  datatype Action = Approve | Remove | Warn | Dismiss

  /** What `handleAction` calls: `onDismissReport(id, notes)` or
      `onResolveReport(id, action, notes)`. */
  datatype ModerationCall = DismissCall(reportId: string, notes: string)
                          | ResolveCall(reportId: string, action: Action, notes: string)

  /** The action buttons appear on pending reports only. */
  predicate OffersActions(r: ContentReport) { r.status == Pending }

  class ModerationPanel {
    var searchTerm: string
    var statusFilter: string
    var categoryFilter: string
    var priorityFilter: string
    var selectedReport: Option<ContentReport>
    var moderatorNotes: string
    var showActionDialog: bool
    var selectedAction: Option<Action>

    /** The queue opens on pending reports. */
    constructor ()
      ensures searchTerm == "" && statusFilter == "pending" && categoryFilter == "all" && priorityFilter == "all"
      ensures selectedReport == None && moderatorNotes == "" && !showActionDialog && selectedAction == None
    {
      searchTerm := "";
      statusFilter := "pending";
      categoryFilter := "all";
      priorityFilter := "all";
      selectedReport := None;
      moderatorNotes := "";
      showActionDialog := false;
      selectedAction := None;
    }

    /** An action button of a report's card. */
    method ChooseAction(r: ContentReport, a: Action)
      modifies this
      ensures selectedReport == Some(r) && selectedAction == Some(a) && showActionDialog
      ensures moderatorNotes == old(moderatorNotes)
      ensures searchTerm == old(searchTerm) && statusFilter == old(statusFilter)
      ensures categoryFilter == old(categoryFilter) && priorityFilter == old(priorityFilter)
    {
      selectedReport := Some(r);
      selectedAction := Some(a);
      showActionDialog := true;
    }

    /** `handleAction`: with a report and an action chosen, dismissal goes to
        `onDismissReport` and every other action to `onResolveReport`, the notes forwarded
        either way, and the dialog is reset; otherwise nothing happens. */
    method HandleAction() returns (call: Option<ModerationCall>)
      modifies this
      ensures call.Some? <==> old(selectedReport).Some? && old(selectedAction).Some?
      ensures call.Some? && old(selectedAction) == Some(Dismiss) ==>
                call.value == DismissCall(old(selectedReport).value.id, old(moderatorNotes))
      ensures call.Some? && old(selectedAction) != Some(Dismiss) ==>
                call.value == ResolveCall(old(selectedReport).value.id, old(selectedAction).value, old(moderatorNotes))
      ensures call.Some? ==> !showActionDialog && selectedReport == None && selectedAction == None
                             && moderatorNotes == ""
      ensures call.None? ==> showActionDialog == old(showActionDialog) && selectedReport == old(selectedReport)
                             && selectedAction == old(selectedAction) && moderatorNotes == old(moderatorNotes)
      ensures searchTerm == old(searchTerm) && statusFilter == old(statusFilter)
      ensures categoryFilter == old(categoryFilter) && priorityFilter == old(priorityFilter)
    {
      if selectedReport.Some? && selectedAction.Some? {
        if selectedAction.value == Dismiss {
          call := Some(DismissCall(selectedReport.value.id, moderatorNotes));
        } else {
          call := Some(ResolveCall(selectedReport.value.id, selectedAction.value, moderatorNotes));
        }
        showActionDialog := false;
        selectedReport := None;
        selectedAction := None;
        moderatorNotes := "";
      } else {
        call := None;
      }
    }

    /** The dialog's cancel button. */
    method CancelAction()
      modifies this
      ensures !showActionDialog && selectedReport == None && selectedAction == None && moderatorNotes == ""
      ensures searchTerm == old(searchTerm) && statusFilter == old(statusFilter)
      ensures categoryFilter == old(categoryFilter) && priorityFilter == old(priorityFilter)
    {
      showActionDialog := false;
      selectedReport := None;
      selectedAction := None;
      moderatorNotes := "";
    }
  }
}
